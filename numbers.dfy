/**
 * Integer text as JavaScript writes and reads it: `Number.prototype.toString()` for integers
 * and `parseInt(s)` with no radix (leading white space skipped, an optional sign, a `0x`
 * prefix switching to base 16, then the longest run of digits; no digits is `NaN`).
 */
module Numbers {
  import opened Wrappers
  import Text

  /** The value of `c` as a digit in base 10 or 16, if it is one. */
  function DigitOf(c: char, radix: nat): Option<nat> {
    if '0' <= c <= '9' then Some(c as int - '0' as int)
    else if radix == 16 && 'a' <= c <= 'f' then Some(c as int - 'a' as int + 10)
    else if radix == 16 && 'A' <= c <= 'F' then Some(c as int - 'A' as int + 10)
    else None
  }

  predicate AllDigits(s: string, radix: nat) {
    forall i :: 0 <= i < |s| ==> DigitOf(s[i], radix).Some?
  }

  /** The number a run of digits stands for, most significant first. */
  function Value(s: string, radix: nat): nat
    requires AllDigits(s, radix)
  {
    if s == [] then 0 else Value(s[..|s| - 1], radix) * radix + DigitOf(s[|s| - 1], radix).value
  }

  /** The length of the longest run of digits at the front of `s`. */
  function DigitRun(s: string, radix: nat): (n: nat)
    ensures n <= |s| && AllDigits(s[..n], radix)
    ensures n < |s| ==> DigitOf(s[n], radix).None?
  {
    if s != [] && DigitOf(s[0], radix).Some? then
      var n := 1 + DigitRun(s[1..], radix);
      assert s[..n] == [s[0]] + s[1..][..n - 1];
      n
    else 0
  }

  /** What `parseInt` reads after the sign: an optional `0x` prefix, then the longest run of
      digits; `None` when the run is empty. */
  function ParseMagnitude(u: string): Option<nat> {
    var hex := |u| >= 2 && u[0] == '0' && (u[1] == 'x' || u[1] == 'X');
    var radix := if hex then 16 else 10;
    var v := if hex then u[2..] else u;
    var n := DigitRun(v, radix);
    if n == 0 then None else Some(Value(v[..n], radix))
  }

  function Negate(m: Option<nat>): Option<int> {
    if m.None? then None else var v: int := 0 - (m.value as int); Some(v)
  }

  /** `parseInt(s)`; `None` is `NaN`. */
  function ParseInt(s: string): (r: Option<int>)
    ensures Text.LeadingSpace(s) == |s| ==> r.None?
  {
    var t := s[Text.LeadingSpace(s)..];
    if t != [] && t[0] == '-' then Negate(ParseMagnitude(t[1..]))
    else if t != [] && t[0] == '+' then
      var m := ParseMagnitude(t[1..]);
      if m.None? then None else Some(m.value)
    else
      var m := ParseMagnitude(t);
      if m.None? then None else Some(m.value)
  }

  function DigitChar(d: nat): (c: char)
    requires d < 10
    ensures DigitOf(c, 10) == Some(d)
  {
    ('0' as int + d) as char
  }

  /** `n.toString()` for a natural number: decimal digits, no leading zero. */
  function NatText(n: nat): (s: string)
    ensures s != [] && AllDigits(s, 10)
    ensures |s| > 1 ==> s[0] != '0'
    ensures (n == 0) == (s == "0")
  {
    if n < 10 then [DigitChar(n)]
    else
      var front := NatText(n / 10);
      var s := front + [DigitChar(n % 10)];
      assert s[0] == front[0];
      s
  }

  /** `n.toString()` for an integer. */
  function IntText(n: int): (t: string)
    ensures t != [] && (t[0] == '-' <==> n < 0)
  {
    if n < 0 then "-" + NatText(-n) else NatText(n)
  }

  /** Reading the digits `NatText` writes gives the number back. */
  lemma {:induction false} NatTextValue(n: nat)
    ensures Value(NatText(n), 10) == n
  {
    if n >= 10 {
      NatTextValue(n / 10);
      var s := NatText(n);
      assert s[..|s| - 1] == NatText(n / 10);
    }
  }

  /** A run of decimal digits without a leading zero reads as its value. */
  lemma MagnitudeOfDigits(u: string)
    requires u != [] && AllDigits(u, 10) && (|u| > 1 ==> u[0] != '0')
    ensures ParseMagnitude(u) == Some(Value(u, 10))
  {
    AllDigitsRun(u, 10);
    assert u[..|u|] == u;
  }

  lemma AllDigitsRun(s: string, radix: nat)
    requires AllDigits(s, radix)
    ensures DigitRun(s, radix) == |s|
  {
  }

  /** `parseInt(n.toString()) === n`: the text an integer is shown as reads back as that
      integer. */
  lemma ParseIntText(n: int)
    ensures ParseInt(IntText(n)) == Some(n)
  {
    var m: nat := if n < 0 then -n else n;
    var u := NatText(m);
    NatTextValue(m);
    MagnitudeOfDigits(u);
    var s := IntText(n);
    assert s == if n < 0 then "-" + u else u;
    assert !Text.IsSpace(s[0]);
    assert s[Text.LeadingSpace(s)..] == s;
    if n < 0 {
      assert s[1..] == u;
    } else {
      assert s[0] != '-' && s[0] != '+';
    }
  }

  /** A `0x` prefix switches `parseInt` to base 16. */
  lemma ParseIntHexExample()
    ensures ParseInt("0x10") == Some(16)
  {
    assert Text.LeadingSpace("0x10") == 0;
    assert "0x10"[0..] == "0x10";
    assert "0x10"[2..] == "10";
    assert "10"[1..] == "0" && "0"[1..] == "";
    assert DigitRun("0", 16) == 1;
    assert DigitRun("10", 16) == 2;
    assert "10"[..2] == "10" && "10"[..1] == "1" && "1"[..0] == "";
    assert Value("1", 16) == 1;
    assert Value("10", 16) == 16;
    assert ParseMagnitude("0x10") == Some(16);
  }

  /** `parseInt` skips leading white space and stops at the first non-digit. */
  lemma ParseIntPrefixExample()
    ensures ParseInt(" 12ab") == Some(12)
  {
    assert Text.IsSpace(" 12ab"[0]) && !Text.IsSpace(" 12ab"[1..][0]);
    assert Text.LeadingSpace(" 12ab"[1..]) == 0;
    assert Text.LeadingSpace(" 12ab") == 1;
    assert " 12ab"[1..] == "12ab";
    assert "12ab"[1..] == "2ab" && "2ab"[1..] == "ab";
    assert DigitRun("ab", 10) == 0;
    assert DigitRun("2ab", 10) == 1;
    assert DigitRun("12ab", 10) == 2;
    assert "12ab"[..2] == "12" && "12"[..1] == "1" && "1"[..0] == "";
    assert Value("1", 10) == 1;
    assert Value("12", 10) == 12;
    assert ParseMagnitude("12ab") == Some(12);
  }

  /** No digit is `NaN`. */
  lemma ParseIntNaNExamples()
    ensures ParseInt("") == None && ParseInt("abc") == None && ParseInt("-") == None
  {
    assert Text.LeadingSpace("abc") == 0 && "abc"[0..] == "abc";
    assert ParseMagnitude("abc") == None;
    assert Text.LeadingSpace("-") == 0 && "-"[0..] == "-" && "-"[1..] == "";
    assert ParseMagnitude("") == None;
  }
}
