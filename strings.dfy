/**
 The few operations on Rust `str` that the relay relies on: `trim`, `split` on a
 one-character separator, `join`, the UTF-8 byte length `len`, and the decimal
 rendering of an integer by `to_string` / `format!("{}")`.
 A Rust string is modelled as the sequence of its Unicode scalar values.
 */
module Strings {

  /** The characters with the Unicode White_Space property. */
  const Whitespace: set<char> := {
    '\U{9}', '\U{A}', '\U{B}', '\U{C}', '\U{D}', '\U{20}', '\U{85}', '\U{A0}',
    '\U{1680}', '\U{2000}', '\U{2001}', '\U{2002}', '\U{2003}', '\U{2004}',
    '\U{2005}', '\U{2006}', '\U{2007}', '\U{2008}', '\U{2009}', '\U{200A}',
    '\U{2028}', '\U{2029}', '\U{202F}', '\U{205F}', '\U{3000}'
  }

  /** `char::is_whitespace` */
  predicate IsWhitespace(c: char) {
    c in Whitespace
  }

  predicate AllWhitespace(s: string) {
    forall i :: 0 <= i < |s| ==> IsWhitespace(s[i])
  }

  /** The number of whitespace characters `s` starts with. */
  function Leading(s: string): (k: nat)
    ensures k <= |s| && forall j :: 0 <= j < k ==> IsWhitespace(s[j])
    ensures k < |s| ==> !IsWhitespace(s[k])
  {
    if s != [] && IsWhitespace(s[0]) then
      var k := Leading(s[1..]);
      assert forall j :: 0 < j < k + 1 ==> s[j] == s[1..][j - 1];
      k + 1
    else
      0
  }

  /** The length of `s` without the whitespace it ends with. */
  function Unpadded(s: string): (k: nat)
    ensures k <= |s| && forall j :: k <= j < |s| ==> IsWhitespace(s[j])
    ensures 0 < k ==> !IsWhitespace(s[k - 1])
  {
    if s != [] && IsWhitespace(s[|s| - 1]) then
      var k := Unpadded(s[..|s| - 1]);
      assert forall j :: k <= j < |s| - 1 ==> s[j] == s[..|s| - 1][j];
      k
    else
      |s|
  }

  /**
   `str::trim`: whitespace removed at both ends and nothing else (see
   `TrimBounds`).  It is empty exactly when `s` is all
   whitespace, and otherwise starts and ends with a non-whitespace character.
   */
  function Trim(s: string): (r: string)
    ensures |r| <= |s|
    ensures r == [] <==> AllWhitespace(s)
    ensures r != [] ==> !IsWhitespace(r[0]) && !IsWhitespace(r[|r| - 1])
  {
    var i := Leading(s);
    var t := s[i..];
    var n := Unpadded(t);
    var r := s[i..i + n];
    if n == 0 then
      assert i == |s|;
      r
    else
      assert r[0] == s[i] && r[n - 1] == t[n - 1];
      assert !AllWhitespace(s) by {
        assert !IsWhitespace(s[i]);
      }
      r
  }

  /** After any prefix, what `Unpadded` leaves out is whitespace running to the end. */
  lemma UnpaddedTail(s: string, i: nat)
    requires i <= |s|
    ensures var n := Unpadded(s[i..]);
      i + n <= |s| && forall j :: i + n <= j < |s| ==> IsWhitespace(s[j])
  {
    var n := Unpadded(s[i..]);
    assert forall j :: i + n <= j < |s| ==> s[j] == s[i..][j - i];
  }

  /**
   What `trim` does: it keeps the slice of `s` that starts after the leading
   whitespace run and ends before the trailing whitespace run, and removes
   only those two runs.
   */
  lemma TrimBounds(s: string)
    ensures var i := Leading(s); var n := Unpadded(s[i..]);
      && i + n <= |s|
      && Trim(s) == s[i..i + n]
      && (forall j :: 0 <= j < i ==> IsWhitespace(s[j]))
      && (forall j :: i + n <= j < |s| ==> IsWhitespace(s[j]))
  {
    TrimIsSlice(s);
    UnpaddedTail(s, Leading(s));
  }

  /** Only unfolds `Trim` for `TrimBounds`, in a proof context of its own. */
  lemma TrimIsSlice(s: string)
    ensures var i := Leading(s); Trim(s) == s[i..i + Unpadded(s[i..])]
  {
  }

  /** Trimming only removes characters. */
  lemma TrimKeepsAbsent(s: string, c: char)
    requires c !in s
    ensures c !in Trim(s)
  {
    TrimBounds(s);
    var i, r := Leading(s), Trim(s);
    assert forall j :: 0 <= j < |r| ==> r[j] == s[i + j];
  }

  /** Trimming is idempotent: `email.trim().len()` after `let email = email.trim()` sees the same string. */
  lemma TrimIdempotent(s: string)
    ensures Trim(Trim(s)) == Trim(s)
  {
    var t := Trim(s);
    if t != [] {
      assert Leading(t) == 0;
      assert Unpadded(t) == |t|;
      assert t[0..|t|] == t;
    }
  }

  /** The number of occurrences of `c` in `s`. */
  function Count(s: string, c: char): (n: nat)
    ensures n <= |s|
    ensures n == 0 <==> c !in s
  {
    if s == [] then 0
    else (if s[0] == c then 1 else 0) + Count(s[1..], c)
  }

  lemma {:induction false} CountAppend(a: string, b: string, c: char)
    ensures Count(a + b, c) == Count(a, c) + Count(b, c)
  {
    if a == [] {
      assert a + b == b;
    } else {
      assert (a + b)[1..] == a[1..] + b;
      CountAppend(a[1..], b, c);
    }
  }

  /**
   `s.split(sep).collect::<Vec<&str>>()` for a one-character separator:
   one piece more than there are separators, none of them containing `sep`.
   */
  function Split(s: string, sep: char): (parts: seq<string>)
    ensures |parts| == Count(s, sep) + 1
    ensures forall i :: 0 <= i < |parts| ==> sep !in parts[i]
  {
    if s == [] then [""]
    else
      var rest := Split(s[1..], sep);
      if s[0] == sep then [""] + rest
      else [[s[0]] + rest[0]] + rest[1..]
  }

  /** `parts.join(sep)`; the empty list joins to the empty string. */
  function Join(parts: seq<string>, sep: char): string {
    if parts == [] then ""
    else if |parts| == 1 then parts[0]
    else parts[0] + [sep] + Join(parts[1..], sep)
  }

  lemma JoinCons(x: string, parts: seq<string>, sep: char)
    requires parts != []
    ensures Join([x + parts[0]] + parts[1..], sep) == x + Join(parts, sep)
  {
    var ps := [x + parts[0]] + parts[1..];
    assert ps[1..] == parts[1..];
  }

  /** Joining the pieces of a split with the same separator gives back the string. */
  lemma {:induction false} JoinSplit(s: string, sep: char)
    ensures Join(Split(s, sep), sep) == s
  {
    if s != [] {
      var rest := Split(s[1..], sep);
      JoinSplit(s[1..], sep);
      if s[0] == sep {
        assert ([""] + rest)[1..] == rest;
        assert s == [sep] + s[1..];
      } else {
        JoinCons([s[0]], rest, sep);
        assert s == [s[0]] + s[1..];
      }
    }
  }

  lemma {:induction false} SplitNoSeparator(s: string, sep: char)
    requires sep !in s
    ensures Split(s, sep) == [s]
  {
    if s != [] {
      SplitNoSeparator(s[1..], sep);
      assert s == [s[0]] + s[1..];
    }
  }

  /** A piece without separator followed by a separator splits off as one piece. */
  lemma {:induction false} SplitAfterPiece(a: string, b: string, sep: char)
    requires sep !in a
    ensures Split(a + [sep] + b, sep) == [a] + Split(b, sep)
  {
    if a == [] {
      assert a + [sep] + b == [sep] + b;
      assert ([sep] + b)[1..] == b;
    } else {
      var s, t := a + [sep] + b, a[1..] + [sep] + b;
      assert s[0] == a[0] && s[1..] == t;
      assert s[0] != sep;
      SplitAfterPiece(a[1..], b, sep);
      calc {
        Split(s, sep);
        [[a[0]] + Split(t, sep)[0]] + Split(t, sep)[1..];
        { assert Split(t, sep) == [a[1..]] + Split(b, sep); }
        [[a[0]] + a[1..]] + Split(b, sep);
        { assert [a[0]] + a[1..] == a; }
        [a] + Split(b, sep);
      }
    }
  }

  lemma JoinThree(a: string, b: string, c: string, sep: char)
    ensures Join([a, b, c], sep) == a + [sep] + b + [sep] + c
  {
    var parts := [a, b, c];
    assert parts[1..] == [b, c] && parts[1..][1..] == [c];
    assert Join([b, c], sep) == b + [sep] + c;
  }

  /** Splitting a join of separator-free pieces gives back the pieces. */
  lemma {:induction false} SplitJoin(parts: seq<string>, sep: char)
    requires parts != []
    requires forall i :: 0 <= i < |parts| ==> sep !in parts[i]
    ensures Split(Join(parts, sep), sep) == parts
  {
    if |parts| == 1 {
      SplitNoSeparator(parts[0], sep);
    } else {
      SplitJoin(parts[1..], sep);
      SplitAfterPiece(parts[0], Join(parts[1..], sep), sep);
      assert [parts[0]] + parts[1..] == parts;
    }
  }

  /** The number of bytes of `c` in UTF-8. */
  function CharWidth(c: char): nat {
    var n := c as int;
    if n < 0x80 then 1 else if n < 0x800 then 2 else if n < 0x10000 then 3 else 4
  }

  /** `str::len`: the length of the UTF-8 encoding, between one and four bytes per character. */
  function ByteLen(s: string): (n: nat)
    ensures |s| <= n <= 4 * |s|
  {
    if s == [] then 0 else CharWidth(s[0]) + ByteLen(s[1..])
  }

  predicate IsDigit(c: char) {
    '0' <= c <= '9'
  }

  predicate IsDigits(s: string) {
    forall i :: 0 <= i < |s| ==> IsDigit(s[i])
  }

  function DigitChar(d: nat): (c: char)
    requires d < 10
    ensures IsDigit(c)
  {
    (48 + d) as char
  }

  function DigitValue(c: char): nat
    requires IsDigit(c)
  {
    c as int - 48
  }

  /** `n.to_string()`: the decimal digits of `n`, without leading zeros. */
  function Decimal(n: nat): (s: string)
    ensures s != [] && IsDigits(s)
    ensures s[0] == '0' ==> n == 0
  {
    if n < 10 then [DigitChar(n)]
    else Decimal(n / 10) + [DigitChar(n % 10)]
  }

  /** The value of a string of decimal digits (the reading a client gives a Content-Length). */
  function ParseDecimal(s: string): nat
    requires IsDigits(s)
  {
    if s == [] then 0
    else 10 * ParseDecimal(s[..|s| - 1]) + DigitValue(s[|s| - 1])
  }

  /** Reading back a rendered number gives the number. */
  lemma {:induction false} DecimalRoundTrip(n: nat)
    ensures ParseDecimal(Decimal(n)) == n
  {
    if n >= 10 {
      var s := Decimal(n);
      assert s[..|s| - 1] == Decimal(n / 10);
      DecimalRoundTrip(n / 10);
    }
  }
}
