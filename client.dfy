/**
 * The command dispatcher of the client: one entry point that either uses the
 * client's single connection, refusing it when broken, or checks a connection
 * out of the pool and always gives it back; then sends exactly one command and
 * receives exactly one reply. The wrappers build an argument list and funnel
 * through it.
 */
module Client {
  import opened Wrappers
  import opened Protocol
  import opened Connections
  import opened Commands

  const BrokenMessage := "Connection is broken"
  const EmptyRangeMessage := "command: empty range"

  /** Sends one command on a healthy connection, then performs one receive and returns its reply. */
  method Exchange(connection: Connection, args: seq<string>, incoming: Incoming) returns (r: Result<Reply>)
    requires !connection.broken
    modifies connection
    ensures connection.RoundTripped(old(connection.sent), old(connection.received), args, incoming, r)
  {
    connection.Send(args);
    r := connection.Recv(incoming);
  }

  /** The serializer of the range form: appends every element of the range, in order, to an empty argument list. */
  method SerializeRange(range: seq<string>) returns (cmdArgs: seq<string>)
    ensures cmdArgs == range
  {
    cmdArgs := [];
    var i := 0;
    while i < |range|
      invariant 0 <= i <= |range|
      invariant cmdArgs == range[..i]
    {
      cmdArgs := cmdArgs + [range[i]];
      i := i + 1;
    }
  }

  class Redis {
    /** The client's own connection; null when the client works from its pool. */
    const connection: Connection?
    const pool: ConnectionPool

    /** The pool keeps its invariant, and the client's own connection is never one of the pool's. */
    ghost predicate Valid()
      reads this, pool
    {
      && pool.Valid()
      && (connection != null ==> connection !in pool.idle && connection !in pool.busy)
    }

    constructor Single(c: Connection)
      ensures Valid() && connection == c
    {
      connection := c;
      pool := new ConnectionPool(0);
    }

    constructor Pooled(p: ConnectionPool)
      requires p.Valid()
      ensures Valid() && connection == null && pool == p
    {
      connection := null;
      pool := p;
    }

    /**
     * What one dispatch of args did, given what the network delivered:
     * in single-connection mode, a broken connection is refused with
     * "Connection is broken" and nothing is sent; a healthy one makes one round
     * trip. In pool mode, the checked-out connection (used) made one round trip
     * and is idle again, so the checked-out set is what it was, and no other
     * idle connection changed; used is null only when the pool had nothing to
     * lend.
     */
    twostate predicate Dispatched(args: seq<string>, incoming: Incoming, new r: Result<Reply>, new used: Connection?)
      reads this, connection, pool, pool.idle, used
    {
      if connection != null then
        && used == connection
        && unchanged(pool)
        && unchanged(pool.idle)
        && if old(connection.broken) then
             r == Failure(Error(BrokenMessage)) && unchanged(connection)
           else
             connection.RoundTripped(old(connection.sent), old(connection.received), args, incoming, r)
      else
        && pool.busy == old(pool.busy)
        && old(pool.idle) <= pool.idle
        && (forall c :: c in old(pool.idle) && c != used ==> unchanged(c))
        && if used == null then
             r == Failure(Error(PoolExhausted)) && old(pool.idle) == {} && pool.idle == {}
           else
             && pool.idle == old(pool.idle) + {used}
             && if used in old(pool.idle) then
                  used.RoundTripped(old(used.sent), old(used.received), args, incoming, r)
                else
                  old(pool.idle) == {} && used.RoundTripped([], [], args, incoming, r)
    }

    /** Nothing reachable from the client changed: no command was sent, no connection checked out. */
    twostate predicate Untouched()
      reads this, connection, pool, pool.idle
    {
      && (connection != null ==> unchanged(connection))
      && unchanged(pool)
      && unchanged(pool.idle)
    }

    /** The chokepoint every command goes through. */
    method Command(args: seq<string>, incoming: Incoming) returns (r: Result<Reply>, ghost used: Connection?)
      requires Valid()
      modifies connection, pool, pool.idle
      ensures Valid()
      ensures Dispatched(args, incoming, r, used)
    {
      if connection != null {
        used := connection;
        if connection.broken {
          return Failure(Error(BrokenMessage)), used;
        }
        r := Exchange(connection, args, incoming);
      } else {
        var fetched := pool.Fetch();
        if fetched.Failure? {
          return Failure(fetched.error), null;
        }
        var c := fetched.value;
        used := c;
        r := Exchange(c, args, incoming);
        // The guard's destructor: the connection goes back whatever Exchange returned.
        pool.Release(c);
      }
    }

    /** The named form: the command name followed by its arguments, sent as one list. */
    method NamedCommand(name: string, args: seq<string>, incoming: Incoming) returns (r: Result<Reply>, ghost used: Connection?)
      requires Valid()
      modifies connection, pool, pool.idle
      ensures Valid()
      ensures Dispatched([name] + args, incoming, r, used)
    {
      r, used := Command([name] + args, incoming);
    }

    /** The range form: an empty range throws before any connection is touched. */
    method RangeCommand(range: seq<string>, incoming: Incoming) returns (r: Result<Reply>, ghost used: Connection?)
      requires Valid()
      modifies connection, pool, pool.idle
      ensures Valid()
      ensures range == [] ==> r == Failure(Error(EmptyRangeMessage)) && Untouched()
      ensures range != [] ==> Dispatched(range, incoming, r, used)
    {
      if range == [] {
        return Failure(Error(EmptyRangeMessage)), null;
      }
      var cmdArgs := SerializeRange(range);
      r, used := Command(cmdArgs, incoming);
    }

    /** A multi-key wrapper: its guard, then one dispatch of its argument list. */
    method RangeCall(c: MultiKey, lead: seq<string>, range: seq<string>, trail: seq<string>, incoming: Incoming)
      returns (r: Result<Reply>, ghost used: Connection?)
      requires Valid()
      requires |lead| == LeadArity(c) && |trail| == TrailArity(c)
      modifies connection, pool, pool.idle
      ensures Valid()
      ensures Guarded(c) && range == [] ==> r == Failure(Error(Name(c) + ": no key specified")) && Untouched()
      ensures !(Guarded(c) && range == []) ==> Dispatched(Words(c) + lead + range + trail, incoming, r, used)
    {
      var request := RangeRequest(c, lead, range, trail);
      match request
      case Failure(e) =>
        return Failure(e), null;
      case Success(args) =>
        r, used := Command(args, incoming);
    }

    /** The full form of a scan command; the overloads reach it through ScanWithPattern, ScanWithCount and ScanFromCursor. */
    method ScanCommand(call: ScanCall, incoming: Incoming) returns (r: Result<Reply>, ghost used: Connection?)
      requires Valid()
      requires KeyFits(call.family, call.key)
      modifies connection, pool, pool.idle
      ensures Valid()
      ensures Dispatched(ScanArgs(call), incoming, r, used)
    {
      r, used := Command(ScanArgs(call), incoming);
    }

    /** A sorted-set range command whose WITHSCORES flag is chosen by the shape of its output. */
    method ScoreCommand(shape: OutputShape, args: seq<string>, incoming: Incoming) returns (r: Result<Reply>, ghost used: Connection?)
      requires Valid()
      modifies connection, pool, pool.idle
      ensures Valid()
      ensures Dispatched(ScoreArgs(shape, args), incoming, r, used)
    {
      r, used := Command(ScoreArgs(shape, args), incoming);
    }
  }
}
