/**
 * A connection to the server, seen through what the dispatcher relies on: a
 * broken flag, the log of argument lists it has sent and the replies it has
 * received; and a pool that lends connections out and takes them back.
 */
module Connections {
  import opened Wrappers
  import opened Protocol

  const PoolExhausted := "connection pool exhausted"

  class Connection {
    var broken: bool
    var sent: seq<seq<string>>
    var received: seq<Reply>

    constructor ()
      ensures !broken && sent == [] && received == []
    {
      broken, sent, received := false, [], [];
    }

    /** Writes one command; the log records the argument list. */
    method Send(args: seq<string>)
      modifies this
      ensures sent == old(sent) + [args]
      ensures broken == old(broken) && received == old(received)
    {
      sent := sent + [args];
    }

    /** Blocks for one reply; an I/O failure marks the connection broken and throws. */
    method Recv(incoming: Incoming) returns (r: Result<Reply>)
      modifies this
      ensures sent == old(sent)
      ensures incoming.Delivered? ==>
        r == Success(incoming.reply) && received == old(received) + [incoming.reply] && broken == old(broken)
      ensures incoming.IoFailure? ==>
        r == Failure(Error(incoming.reason)) && received == old(received) && broken
    {
      match incoming
      case Delivered(reply) =>
        received := received + [reply];
        r := Success(reply);
      case IoFailure(reason) =>
        broken := true;
        r := Failure(Error(reason));
    }

    /** Re-establishes the stream of a broken connection. */
    method Reconnect()
      modifies this
      ensures !broken && sent == old(sent) && received == old(received)
    {
      broken := false;
    }

    /**
     * Starting from the logs sent0 and received0 of a healthy connection,
     * exactly one command (args) was sent and exactly one receive observed
     * incoming, and r is what that receive returned.
     */
    ghost predicate RoundTripped(sent0: seq<seq<string>>, received0: seq<Reply>,
                                 args: seq<string>, incoming: Incoming, r: Result<Reply>)
      reads this
    {
      && sent == sent0 + [args]
      && match incoming
         case Delivered(reply) => r == Success(reply) && received == received0 + [reply] && !broken
         case IoFailure(reason) => r == Failure(Error(reason)) && received == received0 && broken
    }
  }

  class ConnectionPool {
    var idle: set<Connection>
    var busy: set<Connection>
    const size: nat

    /** A connection is either idle or checked out, and there are never more than size of them. */
    ghost predicate Valid()
      reads this
    {
      idle !! busy && |idle| + |busy| <= size
    }

    constructor (size: nat)
      ensures Valid() && idle == {} && busy == {} && this.size == size
    {
      idle, busy, this.size := {}, {}, size;
    }

    /**
     * Checks a connection out: an idle one, reconnected if it broke, or else a
     * new one while fewer than size exist. The returned connection is healthy.
     */
    method Fetch() returns (r: Result<Connection>)
      requires Valid()
      modifies this, idle
      ensures Valid()
      ensures r.Failure? ==>
        && r.error == Error(PoolExhausted)
        && old(idle) == {} && |old(busy)| >= size
        && idle == old(idle) && busy == old(busy)
      ensures r.Success? ==>
        && !r.value.broken
        && r.value !in old(busy)
        && busy == old(busy) + {r.value}
        && idle == old(idle) - {r.value}
        && (r.value in old(idle) || (old(idle) == {} && fresh(r.value)))
      ensures r.Success? && r.value in old(idle) ==>
        r.value.sent == old(r.value.sent) && r.value.received == old(r.value.received)
      ensures r.Success? && r.value !in old(idle) ==> r.value.sent == [] && r.value.received == []
      ensures forall c :: c in old(idle) && (r.Failure? || c != r.value) ==> unchanged(c)
    {
      if idle != {} {
        var c :| c in idle;
        if c.broken {
          c.Reconnect();
        }
        idle, busy := idle - {c}, busy + {c};
        r := Success(c);
      } else if |busy| < size {
        var c := new Connection();
        busy := busy + {c};
        r := Success(c);
      } else {
        r := Failure(Error(PoolExhausted));
      }
    }

    /** Takes a checked-out connection back into the idle set. */
    method Release(c: Connection)
      requires Valid() && c in busy
      modifies this
      ensures Valid()
      ensures busy == old(busy) - {c} && idle == old(idle) + {c}
    {
      idle, busy := idle + {c}, busy - {c};
    }
  }
}
