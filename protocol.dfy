/**
 * The reply kinds of the Redis Serialization Protocol, as the dispatcher hands
 * them back uninterpreted, and what one blocking receive can observe.
 */
module Protocol {
  import opened Wrappers

  /** One unit of server response. */
  datatype Reply =
    | Status(status: string)
    | ErrorReply(message: string)
    | Integer(number: int)
    | Bulk(bulk: Option<string>)
    | Array(elements: seq<Reply>)

  /**
   * What the network delivers to one receive: a reply, or an I/O failure
   * (the byte-level framing lives outside this model).
   */
  datatype Incoming = Delivered(reply: Reply) | IoFailure(reason: string)

  /** Decimal rendering of an integer argument, as the argument list carries it. */
  function IntToString(i: int): string
  {
    if i < 0 then "-" + NatToString(-i) else NatToString(i)
  }

  function NatToString(n: nat): string
    decreases n
  {
    if n < 10 then [Digit(n)] else NatToString(n / 10) + [Digit(n % 10)]
  }

  function Digit(d: nat): char
    requires d < 10
  {
    "0123456789"[d]
  }
}
