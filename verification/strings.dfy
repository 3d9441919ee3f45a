/** Character and string helpers: Python's `str.isspace`/`str.strip`,
    `str.lower` (ASCII letters), substring search (`in` on strings), and
    decimal rendering/parsing of integers (Python `str(int)`, SQLite's
    text-to-integer affinity). */
module Strings {
  import opened Options

  /** Python's `str.isspace`: the characters `str.strip()` removes. */
  predicate IsSpace(c: char) {
    || ('\U{9}' <= c <= '\U{D}')
    || ('\U{1C}' <= c <= '\U{20}')
    || c == '\U{85}' || c == '\U{A0}' || c == '\U{1680}'
    || ('\U{2000}' <= c <= '\U{200A}')
    || c == '\U{2028}' || c == '\U{2029}' || c == '\U{202F}' || c == '\U{205F}'
    || c == '\U{3000}'
  }

  /** Drops leading whitespace. */
  function TrimLeft(s: string): (r: string)
    ensures |r| <= |s| && r == s[|s| - |r|..]
    ensures forall i :: 0 <= i < |s| - |r| ==> IsSpace(s[i])
    ensures |r| == 0 || !IsSpace(r[0])
  {
    if |s| > 0 && IsSpace(s[0]) then TrimLeft(s[1..]) else s
  }

  /** Drops trailing whitespace. */
  function TrimRight(s: string): (r: string)
    ensures |r| <= |s| && r == s[..|r|]
    ensures forall i :: |r| <= i < |s| ==> IsSpace(s[i])
    ensures |r| == 0 || !IsSpace(r[|r| - 1])
  {
    if |s| > 0 && IsSpace(s[|s| - 1]) then TrimRight(s[..|s| - 1]) else s
  }

  /** Python `s.strip()` with no argument. */
  function Strip(s: string): string {
    TrimRight(TrimLeft(s))
  }

  /** `s.strip().startswith(c)` holds exactly when the first character that
      is not whitespace is `c` (for a non-space `c`). */
  lemma StripStartsWith(s: string, c: char)
    requires !IsSpace(c)
    ensures (|Strip(s)| > 0 && Strip(s)[0] == c)
        <==> (exists i :: 0 <= i < |s| && s[i] == c && forall k :: 0 <= k < i ==> IsSpace(s[k]))
  {
    var l := TrimLeft(s);
    var n := |s| - |l|;
    if |Strip(s)| > 0 && Strip(s)[0] == c {
      assert s[n] == c;
    }
    if exists i :: 0 <= i < |s| && s[i] == c && forall k :: 0 <= k < i ==> IsSpace(s[k]) {
      var i :| 0 <= i < |s| && s[i] == c && forall k :: 0 <= k < i ==> IsSpace(s[k]);
      if i < n {
        assert false;
      } else if i > n {
        assert false;
      }
      assert l[0] == c;
      assert |TrimRight(l)| > 0;
    }
  }

  /** Lower-cases one character; only ASCII letters change. */
  function LowerChar(c: char): char {
    if 'A' <= c <= 'Z' then (c as int + 32) as char else c
  }

  /** Python `s.lower()`, restricted to ASCII letters. */
  function Lower(s: string): (r: string)
    ensures |r| == |s|
    ensures forall i :: 0 <= i < |s| ==> r[i] == LowerChar(s[i])
  {
    if |s| == 0 then "" else [LowerChar(s[0])] + Lower(s[1..])
  }

  lemma LowerIdempotent(s: string)
    ensures Lower(Lower(s)) == Lower(s)
  {
  }

  lemma LowerAppend(a: string, b: string)
    ensures Lower(a + b) == Lower(a) + Lower(b)
  {
  }

  /** Python `needle in hay` for strings. */
  predicate Contains(hay: string, needle: string) {
    exists i :: 0 <= i <= |hay| - |needle| && OccursAt(hay, needle, i)
  }

  /** `needle` occurs in `hay` starting at position `i`. */
  predicate OccursAt(hay: string, needle: string, i: int) {
    0 <= i <= |hay| - |needle| && hay[i..i + |needle|] == needle
  }

  /** The digit character of `d`. */
  function DigitChar(d: nat): char
    requires d < 10
  {
    "0123456789"[d]
  }

  predicate IsDigit(c: char) {
    '0' <= c <= '9'
  }

  function DigitValue(c: char): nat
    requires IsDigit(c)
  {
    c as int - '0' as int
  }

  /** Decimal digits of `n`, with no leading zero. */
  function Digits(n: nat): (r: string)
    ensures |r| > 0
    ensures forall i :: 0 <= i < |r| ==> IsDigit(r[i])
  {
    if n < 10 then [DigitChar(n)] else Digits(n / 10) + [DigitChar(n % 10)]
  }

  /** Python `str(i)` for an integer. */
  function IntToDecimal(i: int): string {
    if i < 0 then "-" + Digits(-i) else Digits(i)
  }

  predicate AllDigits(s: string) {
    forall i :: 0 <= i < |s| ==> IsDigit(s[i])
  }

  /** Value of a string of decimal digits. */
  function DigitsValue(s: string): nat
    requires AllDigits(s)
  {
    if |s| == 0 then 0 else DigitsValue(s[..|s| - 1]) * 10 + DigitValue(s[|s| - 1])
  }

  /** Reads an integer literal: an optional `+` or `-` followed by one or
      more decimal digits. */
  function ParseInteger(s: string): Option<int> {
    if |s| > 0 && (s[0] == '-' || s[0] == '+') then
      var body := s[1..];
      if |body| > 0 && AllDigits(body) then
        var v: int := DigitsValue(body);
        Some(if s[0] == '-' then -v else v)
      else None
    else if |s| > 0 && AllDigits(s) then Some(DigitsValue(s))
    else None
  }

  lemma {:induction false} DigitsRoundTrip(n: nat)
    ensures DigitsValue(Digits(n)) == n
  {
    if n >= 10 {
      var d := Digits(n);
      var front := Digits(n / 10);
      assert d[..|d| - 1] == front;
      DigitsRoundTrip(n / 10);
    }
  }

  /** Reading back the decimal rendering of any integer gives that integer. */
  lemma IntToDecimalRoundTrip(i: int)
    ensures ParseInteger(IntToDecimal(i)) == Some(i)
  {
    var n: nat := if i < 0 then -i else i;
    var d := Digits(n);
    DigitsRoundTrip(n);
    assert DigitsValue(d) == n;
    if i < 0 {
      assert IntToDecimal(i) == "-" + d;
      ParseSigned(d);
    } else {
      assert IntToDecimal(i) == d;
      ParseUnsigned(d);
    }
  }

  /** A bare run of digits reads as its value. */
  lemma ParseUnsigned(d: string)
    requires |d| > 0 && AllDigits(d)
    ensures ParseInteger(d) == Some(DigitsValue(d))
  {
    assert IsDigit(d[0]);
  }

  /** A minus sign before a run of digits negates its value. */
  lemma ParseSigned(d: string)
    requires |d| > 0 && AllDigits(d)
    ensures ParseInteger("-" + d) == Some(-(DigitsValue(d) as int))
  {
    assert ("-" + d)[1..] == d;
  }

  /** Zero-padded decimal of `n` in exactly `width` characters. */
  function PadDigits(n: nat, width: nat): (r: string)
    requires n < Pow10(width)
    ensures |r| == width && AllDigits(r)
    ensures DigitsValue(r) == n
  {
    if width == 0 then ""
    else
      var front := PadDigits(n / 10, width - 1);
      var r := front + [DigitChar(n % 10)];
      assert r[..|r| - 1] == front;
      r
  }

  function Pow10(k: nat): (r: nat)
    ensures r > 0
  {
    if k == 0 then 1 else 10 * Pow10(k - 1)
  }
}
