# Fanout forwarding handler, modelled in Dafny

This project models the per-request handler of a Fastly Compute service that
sits in front of a backend named `origin`. For each request the handler
decides whether to hand the connection off to Fanout, Fastly's real-time
messaging layer, or to proxy it. A proxied request is sent to `origin`. The
handler then relays the origin's status, headers and body to the client. If
no response arrives, it writes a `502 Bad Gateway` (section 15.6.3 of
RFC 9110) whose body is the error text and a newline.

Modules:

- `Http` (http.dfy): bytes, header maps (as Go's `http.Header`), requests,
  client responses, `Header.Values` and `slices.Contains`.
- `Writer` (writer.dfy): the response writer. Its semantics is a pure step
  function over a `WriterState`. The first status write sends the status line
  with the header map as it is then. Later status writes are ignored. A body
  write before any status write first sends status 200. Body bytes are
  appended. The class `ResponseWriter` is proved to follow `Step` call by call.
- `Host` (host.dfy): the platform the handler calls out to. `Send` records
  the request and returns the outcome given as input. `Fanout` records the
  handoff.
- `FanoutForward` (fanout_forward.dfy): the classification (`UseFanout`), the
  handler's behaviour as a value (`Dispatch`), the handler itself (`Serve`,
  which mutates the writer and the platform step by step as main.go does),
  and the lemmas about it.

The main result is `UseFanout`'s contract: the flag is set exactly for `GET`
and `HEAD`, whatever the `Upgrade` values are. The WebSocket branch never
decides anything on its own. `Serve`'s contract ties the handler's effects
to `Dispatch`. The lemmas about `Dispatch` then give the relay guarantees:
the origin's response passes through unchanged with its headers replacing
the writer's, a failure gives exactly one 502 with the error text and a
newline, and exactly one status line goes out on the direct path.

main.go ignores the results of `io.Copy` and `handoff.Fanout`: a body copy
that fails midway and a handoff that fails are not reported anywhere, and
the model follows main.go in this.

The WebSocket test is case-sensitive and does not split comma-separated
values. RFC 6455 (section 4.2.1) treats the token as case-insensitive. This
makes no observable difference here, because every GET is handed off anyway
(`WebSocketTokenIsExact`).

## Model

| member | source | states |
|---|---|---|
| `Http.ValuesOfOneName` | main.go:21 | `Header.Values` sees exactly the entry of the name asked for: setting it is seen in full, setting another name changes nothing, and an absent name yields no values |
| `FanoutForward.UpgradeTestReadsOnlyUpgrade` | main.go:21 | the WebSocket test reads only the `Upgrade` entry: changing any other header leaves its result unchanged |
| `Http.Contains` | main.go:21 | `slices.Contains` is true exactly when some element of the list equals the token, as a whole string |
| `FanoutForward.UseFanout` | main.go:19-39 | a GET with an exact `websocket` Upgrade value sets the flag, and overall the flag is set if and only if the method is `GET` or `HEAD`, whatever the Upgrade values are |
| `FanoutForward.WebSocketTokenIsExact` | main.go:21-38 | `WebSocket` and `h2c, websocket` do not match and `websocket` among other values does; a GET is handed off with or without a match; a POST with `websocket` and a lower-case `get` are not |
| `FanoutForward.DecisionIgnoresUpgrade` | main.go:19-39 | two requests with the same method get the same decision, whatever their Upgrade values |
| `FanoutForward.Dispatch` | main.go:42-57 | the backend is always `origin`; the handoff is chosen if and only if the method is GET or HEAD; on the direct path the writer calls go header reset, then status, then body, and exactly one of them sets the status |
| `FanoutForward.Serve` | main.go:18-58 | on handoff: one Fanout handoff naming `origin`, no send, and the writer unchanged; otherwise: one send of the unchanged request to `origin`, no handoff, and the writer's new state is the old one run through `Dispatch`'s calls |
| `FanoutForward.RelayPreservesOriginResponse` | main.go:55-57 | after a successful send the client gets the origin's status, the origin's header map in place of whatever the writer held, and the origin's body |
| `FanoutForward.BadGatewayResponse` | main.go:49-52 | after a failed send the client gets status 502 and a body that is the error text followed by a newline, with nothing written after it |
| `FanoutForward.ExactlyOneResponse` | main.go:42-57 | the direct path is taken if and only if the method is neither GET nor HEAD, and on it exactly one status line goes out, whether the send succeeds or fails |
| `FanoutForward.ResetAfterStatusIsLost` | main.go:55-56 | the header reset must come before the status write: done afterwards, the client receives the old headers; done before, it receives the new ones |
| `FanoutForward.CreatedIsRelayed` | main.go:55-57 | an origin answer of 201 with `X-Test: v` and `hello` reaches the client as exactly that, and a header the writer held before is gone |
| `FanoutForward.DialRefusedIsBadGateway` | main.go:49-51 | a send failing with `dial refused` gives status 502 and the body `dial refused\n` |
| `Writer.CommitIsFinal` | main.go:56-57 | once the status line is out, no writer call changes the status or the headers the client got, and the body only grows at its end |
| `Writer.AtMostOneStatusLine` | main.go:50-57 | any sequence of writer calls sends at most one status line, and it sends one if and only if the writer started uncommitted and ends committed |
| `Writer.ChunkedCopy` | main.go:57 | after the status line, copying a body in any chunks (none for an empty body) leaves the writer as one write of the whole body would |
| `Writer.ResponseWriter.ResetHeader` | main.go:55 | `Header().Reset(h)`: the header map becomes `h`; status and body are unchanged |
| `Writer.ResponseWriter.WriteHeader` | main.go:50 | the first call sends the status line with the current headers; later calls change nothing |
| `Writer.ResponseWriter.Write` | main.go:51 | appends the bytes to the body, sending status 200 first if no status line was out |
| `Host.Platform.Send` | main.go:48 | the request goes to the named backend unchanged, and the outcome is the network's answer |
| `Host.Platform.Fanout` | main.go:44 | records one handoff naming the backend |

## Left out

- The startup log line with the service version (main.go:17) is not modelled. It is I/O with no effect on routing.
- `fsthttp.ServeFunc`, the request context and per-request concurrency (main.go:18) are not modelled. They are host runtime plumbing; `Serve` is one invocation of the handler.
- The internals of `handoff.Fanout` (main.go:44) are not modelled, nor its returned error, which main.go ignores. A handoff is recorded only as the backend it names.
- The networking inside `r.Send` (main.go:48) is not modelled. The outcome is an input to `Host.Platform`: a response, or the error's text. Transport errors, timeouts and cancellation appear only as that text.
- `Serve`: `io.Copy` (main.go:57) is modelled as one write of the whole body, so the model does not capture streaming, memory use or a copy that fails midway. main.go ignores the copy's error. `Writer.ChunkedCopy` shows that a chunked copy gives the same final state when nothing fails.
- The compute-sdk-go library (`fsthttp`) is not part of this model. The writer follows Go's `http.ResponseWriter` convention for repeated status writes and for body writes before a status. Invalid status codes are not modelled.
- `Header.Values` canonicalises the header name (main.go:21). The model takes header-map keys as already canonical and looks up `Upgrade` directly.
- Header maps are values, so the aliasing between `w.Header()` and the map passed to `Reset` is not modelled.
- Error texts and bodies are byte sequences. `Http.Ascii` gives the bytes of ASCII text for the concrete examples; no other text encoding is modelled.
