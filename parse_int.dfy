/**
 * JavaScript's `parseInt(text, 10)` on the strings the router hands it:
 * leading white space is skipped, one sign is allowed, then the longest run
 * of decimal digits is read and anything after it ignored; no digit at all
 * gives NaN.
 */
module ParseInt {

  datatype Parsed = NaN | Int(value: int)

  /** The white space `parseInt` skips: tab, vertical tab, form feed, the line terminators and the space separators. */
  predicate IsWhitespace(c: char) {
    || c == '\t' || c == '\n' || c == '\U{000B}' || c == '\U{000C}' || c == '\r' || c == ' '
    || c == '\U{00A0}' || c == '\U{1680}' || ('\U{2000}' <= c <= '\U{200A}')
    || c == '\U{2028}' || c == '\U{2029}' || c == '\U{202F}' || c == '\U{205F}'
    || c == '\U{3000}' || c == '\U{FEFF}'
  }

  predicate IsDigit(c: char) {
    '0' <= c <= '9'
  }

  predicate AllDigits(s: string) {
    forall i | 0 <= i < |s| :: IsDigit(s[i])
  }

  function DigitValue(c: char): nat
    requires IsDigit(c)
  {
    c as int - '0' as int
  }

  function DigitChar(d: nat): (c: char)
    requires d < 10
    ensures IsDigit(c) && DigitValue(c) == d
  {
    ('0' as int + d) as char
  }

  /** The number of white-space characters `s` starts with. */
  function LeadingWhitespace(s: string): (n: nat)
    ensures n <= |s|
    ensures forall i | 0 <= i < n :: IsWhitespace(s[i])
    ensures n < |s| ==> !IsWhitespace(s[n])
  {
    if |s| > 0 && IsWhitespace(s[0]) then 1 + LeadingWhitespace(s[1..]) else 0
  }

  /** The length of the run of digits `s` starts with. */
  function DigitRun(s: string): (n: nat)
    ensures n <= |s|
    ensures AllDigits(s[..n])
    ensures n < |s| ==> !IsDigit(s[n])
  {
    if |s| > 0 && IsDigit(s[0]) then
      var m := DigitRun(s[1..]);
      assert s[..1 + m] == [s[0]] + s[1..][..m];
      1 + m
    else 0
  }

  /** The value of a string of decimal digits, most significant first. */
  function DigitsValue(d: string): nat
    requires AllDigits(d)
  {
    if d == [] then 0 else 10 * DigitsValue(d[..|d| - 1]) + DigitValue(d[|d| - 1])
  }

  /** `parseInt(s, 10)`, exact on integers. */
  function Parse(s: string): Parsed {
    ParseSigned(s[LeadingWhitespace(s)..])
  }

  /** The sign and the digits, once the white space is skipped. */
  function ParseSigned(t: string): Parsed {
    var negative := |t| > 0 && t[0] == '-';
    var u := if |t| > 0 && (t[0] == '-' || t[0] == '+') then t[1..] else t;
    var n := DigitRun(u);
    var magnitude: int := DigitsValue(u[..n]);
    if n == 0 then NaN
    else if negative then Int(-magnitude)
    else Int(magnitude)
  }

  /** The decimal spelling of a natural number, without leading zeros. */
  function Decimal(n: nat): (s: string)
    ensures |s| > 0 && AllDigits(s)
    ensures |s| > 1 ==> s[0] != '0'
  {
    if n < 10 then [DigitChar(n)] else Decimal(n / 10) + [DigitChar(n % 10)]
  }

  // ---------------------------------------------------------------------
  // Properties
  // ---------------------------------------------------------------------

  lemma {:induction false} DecimalValue(n: nat)
    ensures DigitsValue(Decimal(n)) == n
  {
    if n >= 10 {
      DecimalValue(n / 10);
      var d := Decimal(n);
      assert d[..|d| - 1] == Decimal(n / 10);
    }
  }

  lemma {:induction false} DigitRunOfDigits(d: string, rest: string)
    requires AllDigits(d)
    requires rest == [] || !IsDigit(rest[0])
    ensures DigitRun(d + rest) == |d|
  {
    if d != [] {
      assert (d + rest)[1..] == d[1..] + rest;
      DigitRunOfDigits(d[1..], rest);
    }
  }

  /** Reading a decimal back gives the number, whatever non-digit text follows it. */
  lemma DecimalRoundTrip(n: nat, rest: string)
    requires rest == [] || !IsDigit(rest[0])
    ensures Parse(Decimal(n) + rest) == Int(n)
  {
    var s := Decimal(n) + rest;
    assert s[0] == Decimal(n)[0];
    assert LeadingWhitespace(s) == 0;
    DigitRunOfDigits(Decimal(n), rest);
    assert s[..|Decimal(n)|] == Decimal(n);
    DecimalValue(n);
  }

  /** Leading white space does not change the result. */
  lemma WhitespaceIgnored(ws: string, s: string)
    requires forall i | 0 <= i < |ws| :: IsWhitespace(ws[i])
    ensures Parse(ws + s) == Parse(s)
  {
    LeadingWhitespaceSkipped(ws, s);
    DropAfterPrefix(ws, s, LeadingWhitespace(s));
    assert (ws + s)[LeadingWhitespace(ws + s)..] == s[LeadingWhitespace(s)..];
  }

  lemma DropAfterPrefix(a: string, b: string, n: nat)
    requires n <= |b|
    ensures (a + b)[|a| + n..] == b[n..]
  {
  }

  lemma {:induction false} LeadingWhitespaceSkipped(ws: string, s: string)
    requires forall i | 0 <= i < |ws| :: IsWhitespace(ws[i])
    ensures LeadingWhitespace(ws + s) == |ws| + LeadingWhitespace(s)
  {
    if ws != [] {
      assert (ws + s)[0] == ws[0];
      assert (ws + s)[1..] == ws[1..] + s;
      LeadingWhitespaceSkipped(ws[1..], s);
    } else {
      assert ws + s == s;
    }
  }

  /** Text with no digit after the white space and the sign is NaN. */
  lemma NoDigitsIsNaN(s: string)
    requires forall i | 0 <= i < |s| :: !IsDigit(s[i])
    ensures Parse(s) == NaN
  {
  }
}
