/** The response writer the runtime hands to the handler (`w` in main.go).
    Its behaviour is that of Go's `http.ResponseWriter` contract: the first
    `WriteHeader` commits the status line together with the header map as it
    is at that moment; a later `WriteHeader` is ignored; a `Write` before any
    `WriteHeader` first commits status 200; body bytes are appended in order.

    The semantics is given once, as a pure step function over `WriterState`;
    the `ResponseWriter` class is proved to follow it call by call. */
module Writer {
  import opened Http

  /** One call the handler makes on the writer. */
  datatype Call =
    | ResetHeader(header: Header)   // w.Header().Reset(h)
    | WriteHeader(status: int)      // w.WriteHeader(code)
    | Write(data: seq<byte>)        // w.Write(p), as done by Fprintln and io.Copy

  /** Whether the status line has gone out, and with which header map. */
  datatype Commit = Pending | Committed(status: int, header: Header)

  datatype WriterState = WriterState(header: Header, commit: Commit, body: seq<byte>)

  /** The state a request starts in: nothing sent yet, the given header map. */
  function Fresh(header: Header): WriterState
  {
    WriterState(header, Pending, [])
  }

  /** What one call does to the writer. */
  function Step(s: WriterState, c: Call): (t: WriterState)
    ensures c.ResetHeader? ==> t.header == c.header && t.commit == s.commit && t.body == s.body
    ensures c.WriteHeader? ==> t.header == s.header && t.body == s.body
    ensures c.WriteHeader? && s.commit.Pending? ==> t.commit == Committed(c.status, s.header)
    ensures c.Write? ==> t.header == s.header && t.body == s.body + c.data
    ensures c.Write? && s.commit.Pending? ==> t.commit == Committed(200, s.header)
    ensures s.commit.Committed? ==> t.commit == s.commit
  {
    match c
    case ResetHeader(h) => s.(header := h)
    case WriteHeader(code) =>
      if s.commit.Pending? then s.(commit := Committed(code, s.header)) else s
    case Write(data) =>
      var committed := if s.commit.Pending? then Committed(200, s.header) else s.commit;
      s.(commit := committed, body := s.body + data)
  }

  /** What a sequence of calls does, first to last. */
  function Run(s: WriterState, calls: seq<Call>): WriterState
    decreases |calls|
  {
    if |calls| == 0 then s else Run(Step(s, calls[0]), calls[1..])
  }

  lemma RunOne(s: WriterState, c0: Call)
    ensures Run(s, [c0]) == Step(s, c0)
  {
  }

  lemma RunTwo(s: WriterState, c0: Call, c1: Call)
    ensures Run(s, [c0, c1]) == Step(Step(s, c0), c1)
  {
    assert [c0, c1][1..] == [c1];
    RunOne(Step(s, c0), c1);
  }

  lemma RunThree(s: WriterState, c0: Call, c1: Call, c2: Call)
    ensures Run(s, [c0, c1, c2]) == Step(Step(Step(s, c0), c1), c2)
  {
    assert [c0, c1, c2][1..] == [c1, c2];
    RunTwo(Step(s, c0), c1, c2);
  }

  /** The response the client sees, once a status line has gone out. */
  function Response(s: WriterState): (r: Option<ClientResponse>)
    ensures r.Some? <==> s.commit.Committed?
    ensures r.Some? ==>
              r.value.status == s.commit.status && r.value.header == s.commit.header && r.value.body == s.body
  {
    match s.commit
    case Pending => None
    case Committed(status, header) => Some(ClientResponse(status, header, s.body))
  }

  /** How many calls in `calls`, run from `s`, send a status line. */
  function StatusLines(s: WriterState, calls: seq<Call>): nat
    decreases |calls|
  {
    if |calls| == 0 then 0
    else
      var t := Step(s, calls[0]);
      (if s.commit.Pending? && t.commit.Committed? then 1 else 0) + StatusLines(t, calls[1..])
  }

  /** Once the status line is out, no call changes the status or the headers
      the client received, and the body only grows at its end. */
  lemma {:induction false} CommitIsFinal(s: WriterState, calls: seq<Call>)
    requires s.commit.Committed?
    ensures Run(s, calls).commit == s.commit
    ensures |Run(s, calls).body| >= |s.body| && Run(s, calls).body[..|s.body|] == s.body
    ensures StatusLines(s, calls) == 0
    decreases |calls|
  {
    if |calls| != 0 {
      var t := Step(s, calls[0]);
      CommitIsFinal(t, calls[1..]);
      assert Run(t, calls[1..]).body[..|t.body|][..|s.body|] == s.body;
    }
  }

  /** A writer sends at most one status line, however it is driven, and it
      sends one exactly when it ends up committed. */
  lemma {:induction false} AtMostOneStatusLine(s: WriterState, calls: seq<Call>)
    ensures StatusLines(s, calls) <= 1
    ensures StatusLines(s, calls) == 1 <==> s.commit.Pending? && Run(s, calls).commit.Committed?
    decreases |calls|
  {
    if |calls| != 0 {
      var t := Step(s, calls[0]);
      if t.commit.Committed? {
        CommitIsFinal(t, calls[1..]);
      } else {
        AtMostOneStatusLine(t, calls[1..]);
      }
    }
  }

  /** Body writes, one per element of `chunks`. */
  function Writes(chunks: seq<seq<byte>>): (calls: seq<Call>)
    ensures |calls| == |chunks|
    ensures forall i :: 0 <= i < |chunks| ==> calls[i] == Write(chunks[i])
  {
    if |chunks| == 0 then [] else [Write(chunks[0])] + Writes(chunks[1..])
  }

  function Concat(chunks: seq<seq<byte>>): seq<byte>
  {
    if |chunks| == 0 then [] else chunks[0] + Concat(chunks[1..])
  }

  /** `io.Copy` hands the body to the writer in chunks of its own choosing.
      After the status line, that is the same as writing the whole body at
      once; in particular an empty body (no chunk at all) changes nothing. */
  lemma {:induction false} ChunkedCopy(s: WriterState, chunks: seq<seq<byte>>)
    requires s.commit.Committed?
    ensures Run(s, Writes(chunks)) == Step(s, Write(Concat(chunks)))
    decreases |chunks|
  {
    if |chunks| != 0 {
      var t := Step(s, Write(chunks[0]));
      ChunkedCopy(t, chunks[1..]);
      assert Writes(chunks)[1..] == Writes(chunks[1..]);
      assert s.body + chunks[0] + Concat(chunks[1..]) == s.body + (chunks[0] + Concat(chunks[1..]));
    } else {
      assert s.body + [] == s.body;
    }
  }

  /** The writer the runtime hands to the handler. */
  class ResponseWriter {
    var header: Header
    var commit: Commit
    var body: seq<byte>

    function State(): WriterState
      reads this
    {
      WriterState(header, commit, body)
    }

    /** A fresh writer for one request: empty header map, nothing sent. */
    constructor ()
      ensures State() == Fresh(map[])
    {
      header, commit, body := map[], Pending, [];
    }

    /** `w.Header().Reset(h)`: the header map becomes `h`, whatever it held. */
    method ResetHeader(h: Header)
      modifies this
      ensures State() == Step(old(State()), Call.ResetHeader(h))
    {
      header := h;
    }

    /** `w.WriteHeader(code)`: the first call sends the status line with the
        current header map; later calls are ignored. */
    method WriteHeader(code: int)
      modifies this
      ensures State() == Step(old(State()), Call.WriteHeader(code))
    {
      if commit.Pending? {
        commit := Committed(code, header);
      }
    }

    /** `w.Write(p)`: sends status 200 first if nothing was sent yet, then
        appends `p` to the body. */
    method Write(p: seq<byte>)
      modifies this
      ensures State() == Step(old(State()), Call.Write(p))
    {
      if commit.Pending? {
        commit := Committed(200, header);
      }
      body := body + p;
    }
  }
}
