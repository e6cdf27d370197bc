/** The HTTP vocabulary the handler works with: bytes, header maps, requests
    and responses, the two method tokens it tests, and the library lookups it
    relies on (`Header.Values` and `slices.Contains`). */
module Http {

  /** One octet of a body or of a Go string (Go strings are byte strings). */
  newtype byte = x: int | 0 <= x < 256

  /** The line terminator that `fmt.Fprintln` appends. */
  const NewLine: byte := 10

  /** A header map as Go's `http.Header`: canonical name to the list of values
      the name carries, in order. */
  type Header = map<string, seq<string>>

  const MethodGet: string := "GET"
  const MethodHead: string := "HEAD"

  /** The canonical form of the header name the handler asks for. */
  const UpgradeName: string := "Upgrade"

  /** An inbound request as the handler sees it; `verb` is the method token
      (`r.Method`), compared byte for byte. */
  datatype Request = Request(verb: string, header: Header, body: seq<byte>)

  datatype Option<T> = None | Some(value: T)

  /** A complete response as the client receives it. */
  datatype ClientResponse = ClientResponse(status: int, header: Header, body: seq<byte>)

  /** `Header.Values(name)`: every value of `name`, or none when it is absent.
      The keys of `h` are taken to be canonical already. */
  function Values(h: Header, name: string): seq<string>
  {
    if name in h then h[name] else []
  }

  /** `Values` reads only the entry of the name asked for: setting that
      entry is seen in full, setting any other entry changes nothing, and a
      map without the name yields no values. */
  lemma ValuesOfOneName(h: Header, name: string, other: string, vs: seq<string>)
    ensures Values(h[name := vs], name) == vs
    ensures other != name ==> Values(h[other := vs], name) == Values(h, name)
    ensures Values(h - {name}, name) == []
  {
  }

  /** `slices.Contains`: whether some element of `values` is exactly `token`,
      scanning from the front. */
  function Contains(values: seq<string>, token: string): (r: bool)
    ensures r <==> exists i :: 0 <= i < |values| && values[i] == token
  {
    if |values| == 0 then false
    else if values[0] == token then true
    else
      var rest := Contains(values[1..], token);
      assert rest ==> exists i :: 0 <= i < |values| && values[i] == token by {
        if rest {
          var j :| 0 <= j < |values| - 1 && values[1..][j] == token;
          assert values[j + 1] == token;
        }
      }
      assert (exists i :: 0 <= i < |values| && values[i] == token) ==> rest by {
        if exists i :: 0 <= i < |values| && values[i] == token {
          var i :| 0 <= i < |values| && values[i] == token;
          assert i != 0 && values[1..][i - 1] == token;
        }
      }
      rest
  }

  /** The bytes of a 7-bit ASCII string, for writing concrete messages
      (each character's code modulo 256, which is exact for ASCII). */
  function Ascii(s: string): (bs: seq<byte>)
  {
    seq(|s|, i requires 0 <= i < |s| => (s[i] as int % 256) as byte)
  }

  lemma AsciiAppend(s: string, t: string)
    ensures Ascii(s + t) == Ascii(s) + Ascii(t)
  {
  }
}
