/** The request handler of the Fanout forwarding service (main.go:18-59).
    Each request is classified on its method and its `Upgrade` values; GET
    and HEAD requests are handed off to Fanout naming the backend "origin",
    every other request is sent to "origin" directly and the answer relayed
    to the client, or a 502 written when no answer arrived. */
module FanoutForward {
  import opened Http
  import opened Writer
  import opened Host

  /** The one backend the service addresses. */
  const Origin: string := "origin"

  /** The `Upgrade` token for WebSocket-over-HTTP. */
  const Websocket: string := "websocket"

  /** `fsthttp.StatusBadGateway`, section 15.6.3 of RFC 9110. */
  const StatusBadGateway: int := 502

  /** The request's `Upgrade` values include the exact token "websocket". */
  predicate WebSocketUpgrade(upgrade: seq<string>)
  {
    Contains(upgrade, Websocket)
  }

  /** The `useFanout` flag as the if/else chain leaves it: set for a GET
      asking for a WebSocket upgrade, and for any GET or HEAD. The first
      branch never decides anything the second would not: the flag is set
      exactly for GET and HEAD, whatever the `Upgrade` values are. */
  function UseFanout(verb: string, upgrade: seq<string>): (r: bool)
    ensures verb == MethodGet && WebSocketUpgrade(upgrade) ==> r
    ensures r <==> verb == MethodGet || verb == MethodHead
  {
    if verb == MethodGet && WebSocketUpgrade(upgrade) then true
    else if verb == MethodGet || verb == MethodHead then true
    else false
  }

  /** What the handler does with one request. */
  datatype Action =
    | Handoff(backend: string)                  // handoff.Fanout(backend) and nothing else
    | Proxy(backend: string, calls: seq<Call>)  // r.Send(backend), then these calls on the writer

  /** Header changes come first, then the status line, then the body. */
  function Phase(c: Call): nat
  {
    match c
    case ResetHeader(_) => 0
    case WriteHeader(_) => 1
    case Write(_) => 2
  }

  predicate InPhaseOrder(calls: seq<Call>)
  {
    forall i, j :: 0 <= i < j < |calls| ==> Phase(calls[i]) <= Phase(calls[j])
  }

  /** Exactly one call in `calls` sets the status. */
  predicate OneStatusCall(calls: seq<Call>)
  {
    exists k :: 0 <= k < |calls| && calls[k].WriteHeader?
      && forall i :: 0 <= i < |calls| && i != k ==> !calls[i].WriteHeader?
  }

  /** The handler's behaviour, given what the origin would answer to a send. */
  function Dispatch(r: Request, reply: OriginOutcome): (a: Action)
    ensures a.backend == Origin
    ensures a.Handoff? <==> r.verb == MethodGet || r.verb == MethodHead
    ensures a.Proxy? ==> InPhaseOrder(a.calls) && OneStatusCall(a.calls)
  {
    if UseFanout(r.verb, Values(r.header, UpgradeName)) then
      Handoff(Origin)
    else
      match reply
      case Err(message) =>
        var calls := [WriteHeader(StatusBadGateway), Write(message + [NewLine])];
        assert InPhaseOrder(calls);
        assert OneStatusCall(calls) by { assert calls[0].WriteHeader? && !calls[1].WriteHeader?; }
        Proxy(Origin, calls)
      case Ok(status, header, body) =>
        var calls := [ResetHeader(header), WriteHeader(status), Write(body)];
        assert InPhaseOrder(calls);
        assert OneStatusCall(calls) by {
          assert calls[1].WriteHeader? && !calls[0].WriteHeader? && !calls[2].WriteHeader?;
        }
        Proxy(Origin, calls)
  }

  /** The handler closure passed to `fsthttp.ServeFunc`: the flag, then the
      handoff or the send and relay. The platform's `reply` is what the
      origin answers should the request be sent. */
  method Serve(w: ResponseWriter, r: Request, host: Platform)
    modifies w, host
    ensures host.reply == old(host.reply)
    ensures match Dispatch(r, old(host.reply))
      case Handoff(backend) =>
        && host.handoffs == old(host.handoffs) + [backend]
        && host.sends == old(host.sends)
        && w.State() == old(w.State())
      case Proxy(backend, calls) =>
        && host.sends == old(host.sends) + [Forward(r, backend)]
        && host.handoffs == old(host.handoffs)
        && w.State() == Run(old(w.State()), calls)
  {
    var useFanout := false;
    if r.verb == MethodGet && Contains(Values(r.header, UpgradeName), Websocket) {
      useFanout := true;
    } else if r.verb == MethodGet || r.verb == MethodHead {
      useFanout := true;
    }

    if useFanout {
      host.Fanout(Origin);
    } else {
      var resp := host.Send(r, Origin);
      if resp.Err? {
        w.WriteHeader(StatusBadGateway);
        w.Write(resp.message + [NewLine]);
        RunTwo(old(w.State()), WriteHeader(StatusBadGateway), Write(resp.message + [NewLine]));
        return;
      }
      w.ResetHeader(resp.header);
      w.WriteHeader(resp.status);
      w.Write(resp.body);
      RunThree(old(w.State()), ResetHeader(resp.header), WriteHeader(resp.status), Write(resp.body));
    }
  }

  /** The WebSocket test is exact membership of the whole token: no case
      folding and no splitting of comma-separated values. It decides nothing
      on its own: a GET is handed off either way, and no other method is. */
  lemma WebSocketTokenIsExact()
    ensures WebSocketUpgrade(["h2c", "websocket"])
    ensures !WebSocketUpgrade(["WebSocket"])
    ensures !WebSocketUpgrade(["h2c, websocket"])
    ensures !WebSocketUpgrade([])
    ensures UseFanout(MethodGet, ["WebSocket"]) && UseFanout(MethodGet, [])
    ensures !UseFanout("POST", ["websocket"])
    ensures !UseFanout("get", ["websocket"])
  {
  }

  /** The WebSocket test looks at the `Upgrade` entry alone: any other
      header can be set to anything without changing it. */
  lemma UpgradeTestReadsOnlyUpgrade(h: Header, other: string, vs: seq<string>)
    requires other != UpgradeName
    ensures WebSocketUpgrade(Values(h[other := vs], UpgradeName)) == WebSocketUpgrade(Values(h, UpgradeName))
  {
  }

  /** The decision depends on the method alone. */
  lemma DecisionIgnoresUpgrade(verb: string, u: seq<string>, v: seq<string>)
    ensures UseFanout(verb, u) == UseFanout(verb, v)
  {
  }

  /** A successful relay gives the client the origin's status, the origin's
      header map in place of whatever the writer held, and the origin's body. */
  lemma RelayPreservesOriginResponse(r: Request, status: int, header: Header, body: seq<byte>, prior: Header)
    requires r.verb != MethodGet && r.verb != MethodHead
    ensures Dispatch(r, Ok(status, header, body)).Proxy?
    ensures Response(Run(Fresh(prior), Dispatch(r, Ok(status, header, body)).calls))
         == Some(ClientResponse(status, header, body))
  {
    RunThree(Fresh(prior), ResetHeader(header), WriteHeader(status), Write(body));
    assert [] + body == body;
  }

  /** When the send fails the client gets one 502 whose body is the error
      text and a line terminator; the header map is the writer's own. */
  lemma BadGatewayResponse(r: Request, message: seq<byte>, prior: Header)
    requires r.verb != MethodGet && r.verb != MethodHead
    ensures Dispatch(r, Err(message)).Proxy?
    ensures Response(Run(Fresh(prior), Dispatch(r, Err(message)).calls))
         == Some(ClientResponse(StatusBadGateway, prior, message + [NewLine]))
  {
    RunTwo(Fresh(prior), WriteHeader(StatusBadGateway), Write(message + [NewLine]));
    assert [] + (message + [NewLine]) == message + [NewLine];
  }

  /** On the direct path exactly one status line goes out, whichever way
      the send ends; on the handoff path the writer is never called. */
  lemma {:induction false} ExactlyOneResponse(r: Request, reply: OriginOutcome, prior: Header)
    ensures Dispatch(r, reply).Proxy? ==> StatusLines(Fresh(prior), Dispatch(r, reply).calls) == 1
    ensures Dispatch(r, reply).Proxy? <==> r.verb != MethodGet && r.verb != MethodHead
  {
    var a := Dispatch(r, reply);
    if a.Proxy? {
      AtMostOneStatusLine(Fresh(prior), a.calls);
      match reply
      case Ok(status, header, body) => RelayPreservesOriginResponse(r, status, header, body, prior);
      case Err(message) => BadGatewayResponse(r, message, prior);
    }
  }

  /** Why the header reset must come before the status: the status line
      carries the header map as it is then, so a reset made afterwards never
      reaches the client. */
  lemma ResetAfterStatusIsLost(prior: Header, header: Header, status: int, body: seq<byte>)
    ensures Response(Run(Fresh(prior), [WriteHeader(status), ResetHeader(header), Write(body)]))
         == Some(ClientResponse(status, prior, body))
    ensures Response(Run(Fresh(prior), [ResetHeader(header), WriteHeader(status), Write(body)]))
         == Some(ClientResponse(status, header, body))
  {
    RunThree(Fresh(prior), WriteHeader(status), ResetHeader(header), Write(body));
    RunThree(Fresh(prior), ResetHeader(header), WriteHeader(status), Write(body));
    assert [] + body == body;
  }

  /** An origin answering 201 with `X-Test: v` and "hello" is relayed as
      such, and a header the writer held before is gone. */
  lemma CreatedIsRelayed(r: Request)
    requires r.verb == "POST"
    ensures var reply := Ok(201, map["X-Test" := ["v"]], Ascii("hello"));
      Response(Run(Fresh(map["X-Stale" := ["1"]]), Dispatch(r, reply).calls))
        == Some(ClientResponse(201, map["X-Test" := ["v"]], Ascii("hello")))
  {
    RelayPreservesOriginResponse(r, 201, map["X-Test" := ["v"]], Ascii("hello"), map["X-Stale" := ["1"]]);
  }

  /** A send that fails with "dial refused" yields 502 and "dial refused\n". */
  lemma DialRefusedIsBadGateway(r: Request)
    requires r.verb == "POST"
    ensures Response(Run(Fresh(map[]), Dispatch(r, Err(Ascii("dial refused"))).calls))
         == Some(ClientResponse(502, map[], Ascii("dial refused\n")))
  {
    BadGatewayResponse(r, Ascii("dial refused"), map[]);
    AsciiAppend("dial refused", "\n");
    assert "dial refused" + "\n" == "dial refused\n";
    assert Ascii("\n") == [NewLine];
  }

  /** Two requests through the handler, as a client of its contract: a
      WebSocket upgrade is handed off without any send or write, and a POST
      whose send fails gets its 502. */
  method ServeTwoRequests()
  {
    var upgrade := Request(MethodGet, map[UpgradeName := [Websocket]], []);
    var post := Request("POST", map[], Ascii("x"));
    var refused := Err(Ascii("dial refused"));

    var host := new Platform(refused);
    var w1 := new ResponseWriter();
    Serve(w1, upgrade, host);
    assert host.handoffs == [Origin] && host.sends == [];
    assert Response(w1.State()) == None;

    var w2 := new ResponseWriter();
    Serve(w2, post, host);
    assert host.handoffs == [Origin] && host.sends == [Forward(post, Origin)];
    DialRefusedIsBadGateway(post);
    assert Response(w2.State()) == Some(ClientResponse(502, map[], Ascii("dial refused\n")));
  }
}
