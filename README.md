# QMLgetRedisLabs in Dafny

A model of the two sequential layers of QMLgetRedisLabs, a small Qt/QML desktop
application that polls a Redis server:

- **The command dispatcher of the vendored redis++ client** (`qredis/redis.hpp`).
  `Redis::command` is the one entry point. In single-connection mode it refuses
  a broken connection. In pool mode it checks a connection out and a guard hands
  it back. On either route, `_command` sends exactly one command and performs
  exactly one receive. Around it sit the range serializer, the uniform
  empty-range guard of the multi-key wrappers, the default arguments of the scan
  family and the WITHSCORES selector.
- **The application's polling object** (`messageboard.h`, `messageboard.cpp`).
  `on()` and `off()` write `"On"` or `"Off"` under key `"test"`. The one-second
  timer slot `Myslot()` copies that value into `Value`. `vColor()` maps `Value`
  to `"Yellow"` or `"#564b4b"` and records the result in `ValueColor`.

Files:

- `wrappers.dfy`: `Option`, the client's `Error`, and `Result`/`Outcome` for calls that may throw.
- `protocol.dfy`: the RESP `Reply` kinds, and `Incoming`, which is what one receive observes.
- `commands.dfy`: the argument lists, as pure functions. This covers the multi-key guard, the scan defaults and the WITHSCORES flag.
- `connections.dfy`: the `Connection` class (broken flag, log of sent argument lists, log of received replies) and the `ConnectionPool` class (idle and checked-out sets).
- `client.dfy`: the `Redis` class. It holds the dispatcher, `_command` (`Exchange`), the range serializer loop (`SerializeRange`) and the wrappers that funnel into the dispatcher.
- `board.dfy`: the `MessageBoard` class. A `map<string, string>` stands for the server's key space.

The network is abstract. `Send` appends the argument list to the connection's
`sent` log. `Recv` takes what the network delivered as a parameter: either a
reply, or an I/O failure that marks the connection broken and throws.
`Redis.Dispatched` states in one place what a dispatch did. Every wrapper's
contract is stated in terms of it.

Not every multi-key wrapper is guarded. `Redis::watch` (qredis/redis.hpp:1038-1043)
has no empty-range guard, unlike the other multi-key wrappers. The range forms of
`bzpopmax` and `bzpopmin` (qredis/redis.hpp:611-617, 632-638) have none either.
The model keeps these as written, and `Commands.UnguardedWrappers` states it.

## Model

| member | source | states |
|---|---|---|
| `Client.Redis.Command` | qredis/redis.hpp:25-46 | Single mode: a broken connection yields "Connection is broken" and nothing is sent or received. A healthy connection makes exactly one send of the arguments and one receive, and the result is that receive's reply or its I/O error. Pool mode: the fetched connection is healthy, makes one round trip and is idle again afterwards, so the checked-out set is unchanged and no other idle connection changes. The idle set is unchanged unless the pool created the connection lazily. |
| `Client.Exchange` | qredis/redis.hpp:1045-1054 | Requires a healthy connection. The `sent` log grows by exactly the one argument list. Exactly one receive happens and its reply (or I/O error) is the result. An I/O error leaves the connection broken. |
| `Client.SerializeRange` | qredis/redis.hpp:67-74 | The argument list built by the loop is exactly the range: every element once, in iteration order. |
| `Client.Redis.NamedCommand` | qredis/redis.hpp:48-58 | Dispatches the command name followed by its arguments as one argument list. |
| `Client.Redis.RangeCommand` | qredis/redis.hpp:60-77 | An empty range yields "command: empty range" and leaves every connection and the pool untouched. Otherwise the whole range is dispatched once as the argument list. |
| `Client.Redis.RangeCall` | qredis/redis.hpp:122-131 | A guarded multi-key wrapper given an empty range throws "<NAME>: no key specified" and issues no command; the connection and pool are untouched. Otherwise it dispatches one argument list holding the range. |
| `Commands.RangeRequest` | qredis/redis.hpp:869-878 | Fails if and only if the wrapper is guarded and the range is empty, with "<NAME>: no key specified". Otherwise the list holds the command words, the leading parameters, every element of the range in order, and then the trailing parameters. |
| `Commands.UnguardedWrappers` | qredis/redis.hpp:1038-1043 | WATCH and the range forms of BZPOPMAX and BZPOPMIN dispatch an empty range, and they are the only wrappers that do. With the stand-in argument layout, an empty WATCH sends just "WATCH"; the real `cmd::watch_range` layout is not part of this model. |
| `Client.Redis.ScanCommand` | qredis/redis.hpp:178-186 | The full form of scan dispatches cursor, pattern and count once. |
| `Commands.ScanWithPattern` | qredis/redis.hpp:188-193 | Fills in count 10 and passes family, key, cursor and pattern unchanged. |
| `Commands.ScanWithCount` | qredis/redis.hpp:195-200 | Fills in pattern "*" and passes family, key, cursor and count unchanged. |
| `Commands.ScanFromCursor` | qredis/redis.hpp:202-206 | Fills in both "*" and 10. This agrees with the two one-default overloads when each is given the default it leaves out. |
| `Commands.ScoreArgs` | qredis/redis.hpp:1056-1071 | The selector appends its flag as true exactly when the output iterator takes member/score pairs. In the model's stand-in layout, the arguments stay unchanged and are followed by WITHSCORES for member/score output and by nothing otherwise. Where `cmd::zrange`/`zrangebyscore` really place WITHSCORES (relative to LIMIT, for instance) is in command.h, which is not part of this model. |
| `Client.Redis.ScoreCommand` | qredis/redis.hpp:709-714 | A sorted-set range command dispatches its arguments, plus WITHSCORES exactly when the output takes pairs. |
| `Connections.Connection.Send` | qredis/redis.hpp:73 | Appends exactly the one argument list to the `sent` log. Nothing else changes. |
| `Connections.Connection.Recv` | qredis/redis.hpp:1051 | Returns the delivered reply and logs it. On an I/O failure it throws and the connection is broken. |
| `Connections.ConnectionPool.Fetch` | qredis/redis.hpp:38-40 | The returned connection is healthy and now checked out. It is an idle one, or a new one if none was idle. No other idle connection changes. |
| `Connections.ConnectionPool.Release` | qredis/redis.hpp:42 | The guard's release moves the connection from checked-out back to idle and keeps the pool invariant. |
| `Board.ColorOf` | messageboard.h:24-31 | "Yellow" if and only if the value is exactly "On". Any other value, including "" and "Off", gives "#564b4b". |
| `Board.MessageBoard.VColor` | messageboard.h:22-33 | The returned colour is `ColorOf(Value)`. `ValueColor` equals it. `Value` and the store are unchanged. |
| `Board.MessageBoard.Invalue` | messageboard.h:16-20 | Returns `Value` and changes nothing. |
| `Board.MessageBoard.Myslot` | messageboard.cpp:21-33 | The GET goes through one dispatch. If that dispatch is refused or its reply is lost, it throws and `Value` is unchanged. When it completes and "test" is stored, `Value` becomes that string. For an absent key, the effect of `.value()` is a parameter: it either throws and `Value` keeps its old value, or `Value` becomes "" (shown grey). The store and `ValueColor` are never modified. |
| `Board.MessageBoard.On` | messageboard.cpp:35-39 | When the SET's dispatch completes, stores exactly "On" under "test" and leaves every other key unchanged. If the dispatch is refused before sending, it throws and the store is unchanged. If the SET reached the server but its reply was lost, it throws and the store is still switched. |
| `Board.MessageBoard.Off` | messageboard.cpp:40-44 | When the SET's dispatch completes, stores exactly "Off" under "test" and leaves every other key unchanged. If the dispatch is refused before sending, it throws and the store is unchanged. If the SET reached the server but its reply was lost, it throws and the store is still switched. |
| `Board.Switch` | messageboard.cpp:35-44 | One press leaves "On" or "Off" under "test". The other keys keep their values and no key is lost. |
| `Board.LastPressDecides` | messageboard.cpp:35-44 | After any non-empty sequence of on/off presses applied to the key space, the colour of the value stored under "test" is "Yellow" if and only if the last press was "on". Every other key survives. |
| `Board.PressAllAndShow` | messageboard.cpp:21-44 | Calling `on()`/`off()` for each press in turn, with every dispatch going through, leaves the store equal to the presses applied in order. A timer tick and `vColor()` then show "Yellow" if and only if the last press was "on". |
| `Board.MessageBoard.constructor` | messageboard.cpp:3-19 | Whatever connecting and authenticating did, a failure there is swallowed. Construction finishes with the one-second timer running, the store as the server holds it, and `Value` and `ValueColor` empty. |
| `Board.SwitchOnAndShow` | messageboard.cpp:21-39 | `on()` followed by a tick, with both dispatches going through, leaves `Value == "On"`, and `vColor()` gives "Yellow". |
| `Board.SwitchOffAndShow` | messageboard.cpp:21-44 | `off()` followed by a tick, with both dispatches going through, leaves `Value == "Off"`, and `vColor()` gives "#564b4b". |
| `Board.ShowColorTwice` | messageboard.h:22-33 | `vColor()` is idempotent: a second call gives the same colour and the same `ValueColor`. |

## Left out

- main.cpp only sets up the Qt/QML engine. QTimer scheduling, signal/slot wiring and `qDebug` logging are not modelled: the timer is a `timerRunning` flag and its interval.
- Byte-level RESP framing, TCP and `auth` are out. `Connection::send`/`recv` and the connection sources are not part of this model. `Send` logs and `Recv` takes the network's outcome as a parameter. Only the receive can fail.
- `reply::parse`, `reply::to_array` and `reply::parse_scan_reply` are left out because reply.h is not part of this model. The typed overloads of `command` (qredis/redis.hpp:79-118) only add those calls after a dispatch. Every wrapper here returns the raw `Reply`.
- The `cmd::*` serializers (command.h) are not part of this model. The argument list of a multi-key wrapper is a stand-in: command words, then the scalar parameters before the range, the range, and the scalar parameters after it, in signature order. Range items that are pairs (MSET, HMSET, ZADD, GEOADD) are taken as already flattened into strings. The real layout of options and numkeys is not captured.
- `Client.Redis.ScanCommand`: the scan argument list (`NAME [key] cursor MATCH pattern COUNT count`) is a stand-in for `cmd::scan`.
- The serializer passed to `command` is a callable that runs inside `_command`. Here the argument list is built before dispatch. Serialization has no side effect in the model, so the observable order of the broken check, send and receive is the same.
- Pool internals (connection_pool.h) are not part of this model. The mutex, blocking and wait timeouts are left out. `Connections.ConnectionPool.Fetch` returns an error when no connection is idle and the pool is full, which stands in for the wait. It reconnects a broken idle connection and otherwise creates connections lazily up to the pool size. `Release` always returns the connection to the idle set.
- The single-wrapper overloads that only forward to another overload are left out. This covers the `std::chrono` overloads (`expire`, `pexpire`, `restore`, `wait`, `blpop`, `setex`, …) that pass `.count()` through, and the `{}`-limit forwarding of `zrangebylex`/`zrangebyscore`. The geo commands with `double` coordinates and radius (`georadius`, `georadiusbymember`) and the scripting `eval`/`evalsha` forms are left out as well; they are plain dispatches without a guard.
- `Board.MessageBoard.constructor`: the outcome of setup is taken but not kept. If `new Redis` throws, the `RedisClient` member stays uninitialised and later use is undefined; this is not modelled. Every command instead takes the outcome of its own dispatch as a parameter.
- `Board.MessageBoard.On`, `Board.MessageBoard.Off`, `Board.MessageBoard.Myslot`: each `set`/`get` goes through `Redis::command`, which can throw on any call. The model takes that outcome as a `dispatch` parameter and does not connect the board to `Client.Redis.Command`. The parameter is one of three cases: completed; refused before sending (for example "Connection is broken"); or reply lost after the command reached the server. A failure part-way through a send is treated as one of these two failure cases.
- `Board.MessageBoard.Myslot`: `OptionalString::value()` is defined in utils.h, which is not part of this model. Two readings are kept, selected by the `emptyRead` parameter. In the first, reading an absent reply throws; the model represents this with the client's `Error` type and the message "bad optional access", though in C++ it would be `std::bad_optional_access`, not the client's `Error`. In the second, the read gives an empty string, which shows grey.
- `Board.MessageBoard.Myslot`: an exception thrown out of a Qt slot is not modelled beyond the `Fail` outcome.
- `Client.Redis.Single`, `Client.Redis.Pooled`: these stand for the two construction modes of the client, one exclusive connection or a pool. They are declared in redis.h, which is not part of this model, so they have no row.
- `Connections.Connection.Reconnect`: this stands for the pool's re-establishment of a broken idle connection at checkout. It lives in the connection and pool sources, which are not part of this model, so it has no row.
