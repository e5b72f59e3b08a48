/**
 * The argument lists the client builds before it dispatches: the uniform
 * empty-range guard of the multi-key wrappers, the default arguments of the
 * scan family, and the WITHSCORES selector of the sorted-set range commands.
 */
module Commands {
  import opened Wrappers
  import opened Protocol

  /** The wrappers whose keys (or key/value items) come as an iterator range. */
  datatype MultiKey =
    | Del | Exists | Touch | Unlink
    | Bitop | Mget | Mset | Msetnx
    | Blpop | Brpop | Lpush | Rpush
    | Hdel | Hmget | Hmset
    | Sadd | Sdiff | Sdiffstore | Sinter | Sinterstore | Srem | Sunion | Sunionstore
    | Bzpopmax | Bzpopmin
    | Zadd | Zinterstore | Zrem | Zunionstore
    | Pfadd | Pfcount | Pfmerge
    | Geoadd | Geohash | Geopos
    | ScriptExists
    | Watch

  /** The command's name, as its wrapper spells it in the error it throws. */
  function Name(c: MultiKey): string
  {
    match c
    case Del => "DEL"
    case Exists => "EXISTS"
    case Touch => "TOUCH"
    case Unlink => "UNLINK"
    case Bitop => "BITOP"
    case Mget => "MGET"
    case Mset => "MSET"
    case Msetnx => "MSETNX"
    case Blpop => "BLPOP"
    case Brpop => "BRPOP"
    case Lpush => "LPUSH"
    case Rpush => "RPUSH"
    case Hdel => "HDEL"
    case Hmget => "HMGET"
    case Hmset => "HMSET"
    case Sadd => "SADD"
    case Sdiff => "SDIFF"
    case Sdiffstore => "SDIFFSTORE"
    case Sinter => "SINTER"
    case Sinterstore => "SINTERSTORE"
    case Srem => "SREM"
    case Sunion => "SUNION"
    case Sunionstore => "SUNIONSTORE"
    case Bzpopmax => "BZPOPMAX"
    case Bzpopmin => "BZPOPMIN"
    case Zadd => "ZADD"
    case Zinterstore => "ZINTERSTORE"
    case Zrem => "ZREM"
    case Zunionstore => "ZUNIONSTORE"
    case Pfadd => "PFADD"
    case Pfcount => "PFCOUNT"
    case Pfmerge => "PFMERGE"
    case Geoadd => "GEOADD"
    case Geohash => "GEOHASH"
    case Geopos => "GEOPOS"
    case ScriptExists => "SCRIPT EXISTS"
    case Watch => "WATCH"
  }

  /** The words that open the command on the wire. */
  function Words(c: MultiKey): seq<string>
  {
    if c == ScriptExists then ["SCRIPT", "EXISTS"] else [Name(c)]
  }

  /** How many scalar parameters the wrapper takes before its range: a key, a destination, a bit operation. */
  function LeadArity(c: MultiKey): nat
  {
    match c
    case Bitop => 2
    case Lpush | Rpush | Hdel | Hmget | Hmset | Sadd | Sdiffstore | Sinterstore | Srem | Sunionstore => 1
    case Zadd | Zinterstore | Zrem | Zunionstore | Pfadd | Pfmerge | Geoadd | Geohash | Geopos => 1
    case _ => 0
  }

  /** How many scalar parameters follow the range: a timeout, ZADD's update type and changed flag, an aggregation. */
  function TrailArity(c: MultiKey): nat
  {
    match c
    case Blpop | Brpop | Bzpopmax | Bzpopmin | Zinterstore | Zunionstore => 1
    case Zadd => 2
    case _ => 0
  }

  /** Whether the wrapper refuses an empty range before it dispatches. */
  predicate Guarded(c: MultiKey)
  {
    c != Watch && c != Bzpopmax && c != Bzpopmin
  }

  /**
   * What a multi-key wrapper does before any connection is touched: refuse an
   * empty range with "<NAME>: no key specified" when it is guarded, otherwise
   * build the argument list with every element of the range, once and in order.
   */
  function RangeRequest(c: MultiKey, lead: seq<string>, range: seq<string>, trail: seq<string>): (r: Result<seq<string>>)
    requires |lead| == LeadArity(c) && |trail| == TrailArity(c)
    ensures r.Failure? <==> Guarded(c) && range == []
    ensures r.Failure? ==> r.error == Error(Name(c) + ": no key specified")
    ensures r.Success? ==> |r.value| == |Words(c)| + |lead| + |range| + |trail|
    ensures r.Success? ==> r.value[..|Words(c)| + |lead|] == Words(c) + lead
    ensures r.Success? ==> forall k :: 0 <= k < |range| ==> r.value[|Words(c)| + |lead| + k] == range[k]
    ensures r.Success? ==> r.value[|r.value| - |trail|..] == trail
  {
    if Guarded(c) && range == [] then Failure(Error(Name(c) + ": no key specified"))
    else Success(Words(c) + lead + range + trail)
  }

  /**
   * Three range wrappers have no guard: WATCH and the range forms of BZPOPMAX
   * and BZPOPMIN dispatch even an empty range; every other one refuses it.
   */
  lemma UnguardedWrappers(c: MultiKey, lead: seq<string>, trail: seq<string>)
    requires |lead| == LeadArity(c) && |trail| == TrailArity(c)
    ensures RangeRequest(c, lead, [], trail).Success? <==> c in {Watch, Bzpopmax, Bzpopmin}
    ensures c == Watch ==> RangeRequest(c, lead, [], trail) == Success(["WATCH"])
  {
  }

  /** The scan family: SCAN walks the keyspace, HSCAN, SSCAN and ZSCAN one key. */
  datatype ScanFamily = Scan | Hscan | Sscan | Zscan

  /** The arguments of the full form of a scan command. */
  datatype ScanCall = ScanCall(family: ScanFamily, key: Option<string>, cursor: int, pattern: string, count: int)

  const DefaultPattern := "*"
  const DefaultCount := 10

  /** SCAN has no key parameter; the other three have one. */
  predicate KeyFits(family: ScanFamily, key: Option<string>)
  {
    key.None? <==> family == Scan
  }

  /** The overload without a count: it fills in count 10. */
  function ScanWithPattern(family: ScanFamily, key: Option<string>, cursor: int, pattern: string): (r: ScanCall)
    requires KeyFits(family, key)
    ensures r.count == DefaultCount
    ensures r.family == family && r.key == key && r.cursor == cursor && r.pattern == pattern
  {
    ScanCall(family, key, cursor, pattern, DefaultCount)
  }

  /** The overload without a pattern: it fills in pattern "*". */
  function ScanWithCount(family: ScanFamily, key: Option<string>, cursor: int, count: int): (r: ScanCall)
    requires KeyFits(family, key)
    ensures r.pattern == DefaultPattern
    ensures r.family == family && r.key == key && r.cursor == cursor && r.count == count
  {
    ScanCall(family, key, cursor, DefaultPattern, count)
  }

  /**
   * The overload with neither: both defaults, which is what the other two
   * overloads give when passed the default they leave out.
   */
  function ScanFromCursor(family: ScanFamily, key: Option<string>, cursor: int): (r: ScanCall)
    requires KeyFits(family, key)
    ensures r.pattern == "*" && r.count == 10
    ensures r.family == family && r.key == key && r.cursor == cursor
    ensures r == ScanWithPattern(family, key, cursor, "*") == ScanWithCount(family, key, cursor, 10)
  {
    ScanCall(family, key, cursor, DefaultPattern, DefaultCount)
  }

  /** The argument list of a scan: NAME [key] cursor MATCH pattern COUNT count. */
  function ScanArgs(call: ScanCall): seq<string>
  {
    var name := match call.family
      case Scan => "SCAN"
      case Hscan => "HSCAN"
      case Sscan => "SSCAN"
      case Zscan => "ZSCAN";
    var key := if call.key.Some? then [call.key.value] else [];
    [name] + key + [IntToString(call.cursor), "MATCH", call.pattern, "COUNT", IntToString(call.count)]
  }

  /** The shape of the output iterator a sorted-set range command writes into. */
  datatype OutputShape = Members | MemberScorePairs

  /** The flag appended by the score-command selector: true exactly for member/score pairs. */
  predicate WithScores(shape: OutputShape)
  {
    shape.MemberScorePairs?
  }

  /**
   * The argument list of a sorted-set range command once the selector has
   * spoken: the given arguments unchanged, followed by WITHSCORES exactly when
   * the output takes member/score pairs.
   */
  function ScoreArgs(shape: OutputShape, args: seq<string>): (r: seq<string>)
    ensures |r| == if shape == MemberScorePairs then |args| + 1 else |args|
    ensures r[..|args|] == args
    ensures shape == MemberScorePairs ==> r[|args|] == "WITHSCORES"
  {
    if WithScores(shape) then args + ["WITHSCORES"] else args
  }
}
