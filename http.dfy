/**
 The relay's own HTTP helpers (src/modules/web_client/http.rs): header lookup,
 header construction and the serialisation of a response.  The layout loosely
 follows the message format of section 2.1 of RFC 9112, but every line ends in a
 bare LF, and the blank line before the body is written only when there is a body.
 */
module Http {
  import opened Wrappers
  import opened Strings

  /** `httparse::Header`; the value bytes are kept as the string they decode to. */
  datatype Header = Header(name: string, value: string)

  /** `httparse::Response`: optional status code and reason phrase, and the headers. */
  datatype Response = Response(code: Option<nat>, reason: Option<string>, headers: seq<Header>)

  /** Header `i` is the first one whose name is exactly `target`. */
  ghost predicate FirstNamed(headers: seq<Header>, target: string, i: int) {
    0 <= i < |headers| && headers[i].name == target
    && forall j :: 0 <= j < i ==> headers[j].name != target
  }

  /**
   `get_header`: the value of the first header named exactly `target`
   (case-sensitive), or None when no header has that name.
   */
  function GetHeader(headers: seq<Header>, target: string): (r: Option<string>)
    ensures r.None? <==> forall i :: 0 <= i < |headers| ==> headers[i].name != target
    ensures r.Some? ==> exists i :: FirstNamed(headers, target, i) && r.value == headers[i].value
  {
    if headers == [] then None
    else if headers[0].name == target then
      assert FirstNamed(headers, target, 0);
      Some(headers[0].value)
    else
      var r := GetHeader(headers[1..], target);
      assert forall i :: FirstNamed(headers[1..], target, i) ==> FirstNamed(headers, target, i + 1);
      r
  }

  /** `new_headers`: one header per key/value pair, in the same order. */
  function NewHeaders(pairs: seq<(string, string)>): (r: seq<Header>)
    ensures |r| == |pairs|
    ensures forall i :: 0 <= i < |pairs| ==> r[i].name == pairs[i].0 && r[i].value == pairs[i].1
  {
    seq(|pairs|, i requires 0 <= i < |pairs| => Header(pairs[i].0, pairs[i].1))
  }

  /** The key/value pairs a header list was built from. */
  function Pairs(headers: seq<Header>): seq<(string, string)> {
    seq(|headers|, i requires 0 <= i < |headers| => (headers[i].name, headers[i].value))
  }

  /** Building headers loses nothing: the pairs can be read back. */
  lemma NewHeadersRoundTrip(pairs: seq<(string, string)>)
    ensures Pairs(NewHeaders(pairs)) == pairs
  {
  }

  /** Looking a name up in built headers finds the first pair with that key. */
  lemma {:induction false} GetHeaderOfNewHeaders(pairs: seq<(string, string)>, target: string, i: nat)
    requires i < |pairs| && pairs[i].0 == target
    requires forall j :: 0 <= j < i ==> pairs[j].0 != target
    ensures GetHeader(NewHeaders(pairs), target) == Some(pairs[i].1)
  {
    var hs := NewHeaders(pairs);
    var r := GetHeader(hs, target);
    var k :| FirstNamed(hs, target, k) && r.value == hs[k].value;
    assert FirstNamed(hs, target, i);
  }

  /** "HTTP/1.1 {code} {reason}\n" */
  function StatusLine(code: nat, reason: string): string {
    "HTTP/1.1 " + Decimal(code) + " " + reason + "\n"
  }

  /** "{name}: {value}\n" */
  function HeaderLine(h: Header): string {
    h.name + ": " + h.value + "\n"
  }

  function HeaderLines(headers: seq<Header>): (lines: seq<string>)
    ensures |lines| == |headers|
  {
    seq(|headers|, i requires 0 <= i < |headers| => HeaderLine(headers[i]))
  }

  /** `Vec<Vec<u8>>::concat` */
  function Concat(parts: seq<string>): string {
    if parts == [] then "" else parts[0] + Concat(parts[1..])
  }

  /** The header lines, one after the other, with nothing in between. */
  function HeaderBlock(headers: seq<Header>): string {
    Concat(HeaderLines(headers))
  }

  /** Status line and header lines: everything before the (optional) blank line. */
  function Head(response: Response): string
    requires response.code.Some? && response.reason.Some?
  {
    StatusLine(response.code.value, response.reason.value) + HeaderBlock(response.headers)
  }

  /** The text `response_to_string` produces. */
  function Render(response: Response, body: Option<string>): string
    requires response.code.Some? && response.reason.Some?
  {
    Head(response) + (if body.Some? then "\n" + body.value else "")
  }

  /**
   `response_to_string`: the status line, then a line per header (built in a
   loop), then, only if there is a body, an empty line and the body.  Both the
   code and the reason must be present (the source unwraps them).
   */
  method ResponseToString(response: Response, body: Option<string>) returns (out: string)
    requires response.code.Some? && response.reason.Some?
    ensures out == Render(response, body)
  {
    var code := StatusLine(response.code.value, response.reason.value);
    var headers: seq<string> := [];
    var i := 0;
    while i < |response.headers|
      invariant 0 <= i <= |response.headers|
      invariant headers == HeaderLines(response.headers[..i])
    {
      headers := headers + [HeaderLine(response.headers[i])];
      i := i + 1;
      assert headers == HeaderLines(response.headers[..i]);
    }
    assert response.headers[..i] == response.headers;
    out := code + Concat(headers);
    if body.Some? {
      out := out + "\n" + body.value;
    }
  }

  lemma {:induction false} ConcatAppend(a: seq<string>, b: seq<string>)
    ensures Concat(a + b) == Concat(a) + Concat(b)
  {
    if a == [] {
      assert a + b == b;
    } else {
      assert (a + b)[1..] == a[1..] + b;
      ConcatAppend(a[1..], b);
    }
  }

  /** The i-th header's line sits between the lines of the headers before and after it. */
  lemma HeaderBlockAt(headers: seq<Header>, i: nat)
    requires i < |headers|
    ensures HeaderBlock(headers)
            == HeaderBlock(headers[..i]) + HeaderLine(headers[i]) + HeaderBlock(headers[i + 1..])
  {
    var lines := HeaderLines(headers);
    assert lines == HeaderLines(headers[..i]) + [HeaderLine(headers[i])] + HeaderLines(headers[i + 1..]);
    ConcatAppend(HeaderLines(headers[..i]) + [HeaderLine(headers[i])], HeaderLines(headers[i + 1..]));
    ConcatAppend(HeaderLines(headers[..i]), [HeaderLine(headers[i])]);
  }

  /** A line: at least one character, then a single LF that ends it. */
  predicate IsLine(l: string) {
    |l| >= 2 && l[|l| - 1] == '\n' && '\n' !in l[..|l| - 1]
  }

  /** No two LFs in a row anywhere: the text holds no empty line. */
  predicate NoBlankLine(s: string) {
    forall i :: 0 <= i < |s| - 1 ==> !(s[i] == '\n' && s[i + 1] == '\n')
  }

  /** A run of lines holds no empty line, and if not empty starts with a non-LF and ends in LF. */
  lemma {:induction false} ConcatLines(lines: seq<string>)
    requires forall k :: 0 <= k < |lines| ==> IsLine(lines[k])
    ensures var s := Concat(lines);
      NoBlankLine(s) && (s != [] ==> s[0] != '\n' && s[|s| - 1] == '\n')
    ensures Count(Concat(lines), '\n') == |lines|
  {
    if lines != [] {
      var l, rest := lines[0], Concat(lines[1..]);
      ConcatLines(lines[1..]);
      assert l[0] != '\n' by { assert l[0] == l[..|l| - 1][0]; }
      forall i | 0 <= i < |l + rest| - 1
        ensures !((l + rest)[i] == '\n' && (l + rest)[i + 1] == '\n')
      {
        if i < |l| - 1 {
          assert (l + rest)[i] == l[..|l| - 1][i];
        } else if i >= |l| {
          assert (l + rest)[i] == rest[i - |l|] && (l + rest)[i + 1] == rest[i - |l| + 1];
        }
      }
      CountAppend(l, rest, '\n');
      CountAppend(l[..|l| - 1], [l[|l| - 1]], '\n');
      assert l == l[..|l| - 1] + [l[|l| - 1]];
    }
  }

  /** The head of a response whose reason and header fields hold no LF. */
  predicate SingleLineFields(response: Response) {
    response.reason.Some? && '\n' !in response.reason.value
    && forall k :: 0 <= k < |response.headers| ==>
         '\n' !in response.headers[k].name && '\n' !in response.headers[k].value
  }

  lemma HeadIsLines(response: Response)
    requires response.code.Some? && SingleLineFields(response)
    ensures var h := Head(response);
      h != [] && h[|h| - 1] == '\n' && NoBlankLine(h)
    ensures Count(Head(response), '\n') == 1 + |response.headers|
  {
    var status := StatusLine(response.code.value, response.reason.value);
    var lines := [status] + HeaderLines(response.headers);
    assert '\n' !in Decimal(response.code.value) by {
      var d := Decimal(response.code.value);
      assert forall k :: 0 <= k < |d| ==> IsDigit(d[k]);
    }
    assert IsLine(status) by {
      assert status[..|status| - 1] == "HTTP/1.1 " + Decimal(response.code.value) + " " + response.reason.value;
    }
    forall k | 0 <= k < |response.headers|
      ensures IsLine(HeaderLine(response.headers[k]))
    {
      var h := response.headers[k];
      assert HeaderLine(h)[..|HeaderLine(h)| - 1] == h.name + ": " + h.value;
    }
    ConcatLines(lines);
    assert lines[1..] == HeaderLines(response.headers);
  }

  /**
   The body a reader finds after the first empty line (LF LF) of a message, or
   None when the message has no empty line.
   */
  function BodyAfterBlankLine(s: string): Option<string> {
    if |s| < 2 then None
    else if s[0] == '\n' && s[1] == '\n' then Some(s[2..])
    else BodyAfterBlankLine(s[1..])
  }

  lemma {:induction false} BlankLineAfterHead(h: string, tail: Option<string>)
    requires h != [] && h[|h| - 1] == '\n' && NoBlankLine(h)
    ensures BodyAfterBlankLine(h + (if tail.Some? then "\n" + tail.value else "")) == tail
  {
    var s := h + (if tail.Some? then "\n" + tail.value else "");
    if |h| == 1 {
      if tail.Some? {
        assert s[0] == '\n' && s[1] == '\n' && s[2..] == tail.value;
      }
    } else {
      assert h[0] != '\n' || h[1] != '\n';
      assert s[1..] == h[1..] + (if tail.Some? then "\n" + tail.value else "");
      BlankLineAfterHead(h[1..], tail);
    }
  }

  /**
   The layout of `response_to_string`: with single-line fields, the output is
   1 + (number of headers) lines with no empty line among them; a body, when
   given, follows the first (and only) empty line and is exactly what a reader
   recovers there; without a body the output holds no empty line at all.
   */
  lemma RenderLayout(response: Response, body: Option<string>)
    requires response.code.Some? && SingleLineFields(response)
    ensures var out := Render(response, body);
      out[..|Head(response)|] == Head(response)
      && BodyAfterBlankLine(out) == body
      && (body.None? ==> NoBlankLine(out))
    ensures Count(Head(response), '\n') == 1 + |response.headers|
  {
    HeadIsLines(response);
    BlankLineAfterHead(Head(response), body);
  }

  /**
   `response_to_string` adds no carriage return: CR appears in the output only
   where it was already in the reason, a header or the body.
   */
  lemma NoCarriageReturn(response: Response, body: Option<string>)
    requires response.code.Some? && response.reason.Some?
    requires '\r' !in response.reason.value
    requires forall k :: 0 <= k < |response.headers| ==>
               '\r' !in response.headers[k].name && '\r' !in response.headers[k].value
    requires body.Some? ==> '\r' !in body.value
    ensures '\r' !in Render(response, body)
  {
    var d := Decimal(response.code.value);
    assert forall k :: 0 <= k < |d| ==> IsDigit(d[k]);
    NoCarriageReturnInLines(HeaderLines(response.headers));
  }

  lemma {:induction false} NoCarriageReturnInLines(lines: seq<string>)
    requires forall k :: 0 <= k < |lines| ==> '\r' !in lines[k]
    ensures '\r' !in Concat(lines)
  {
    if lines != [] {
      NoCarriageReturnInLines(lines[1..]);
    }
  }
}
