/** What lies outside the handler: sending a request to a named backend
    (`r.Send`) and handing a request off to Fanout (`handoff.Fanout`). Both are
    opaque here; the platform records which calls were made, and the answer
    a send gets is an input. */
module Host {
  import opened Http

  /** The outcome of sending a request to the origin: a response, or the
      text of the error that kept a response from arriving. */
  datatype OriginOutcome =
    | Ok(status: int, header: Header, body: seq<byte>)
    | Err(message: seq<byte>)

  /** A request sent directly to a backend. */
  datatype Forward = Forward(request: Request, backend: string)

  class Platform {
    /** What the network answers to any send. */
    var reply: OriginOutcome
    /** Direct sends, in the order they were made. */
    var sends: seq<Forward>
    /** Backends named in Fanout handoffs, in the order they were made. */
    var handoffs: seq<string>

    constructor (reply: OriginOutcome)
      ensures this.reply == reply && sends == [] && handoffs == []
    {
      this.reply, sends, handoffs := reply, [], [];
    }

    /** `r.Send(ctx, backend)`: the request goes out unchanged. */
    method Send(r: Request, backend: string) returns (outcome: OriginOutcome)
      modifies this`sends
      ensures outcome == reply
      ensures sends == old(sends) + [Forward(r, backend)]
    {
      sends := sends + [Forward(r, backend)];
      outcome := reply;
    }

    /** `handoff.Fanout(backend)`: the connection passes to Fanout. */
    method Fanout(backend: string)
      modifies this`handoffs
      ensures handoffs == old(handoffs) + [backend]
    {
      handoffs := handoffs + [backend];
    }
  }
}
