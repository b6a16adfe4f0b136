/**
 * JavaScript numbers as the lab-report core uses them: every number it
 * handles is either NaN or a decimal value, and decimal literals are exact,
 * so a finite number is a `real`. `parseFloat` is modelled on the inputs the
 * core gives it: optional leading whitespace, an optional sign, digits, an
 * optional point and more digits.
 */
module JsNumber {
  import opened JsText

  datatype Number = NaN | Num(r: real)

  /** `!!x`: NaN and zero are falsy. */
  predicate Truthy(x: Number) {
    x.Num? && x.r != 0.0
  }

  /** The four relational operators: every comparison with NaN is false. */
  predicate Less(a: Number, b: Number) {
    a.Num? && b.Num? && a.r < b.r
  }

  predicate Greater(a: Number, b: Number) {
    a.Num? && b.Num? && a.r > b.r
  }

  predicate AtMost(a: Number, b: Number) {
    a.Num? && b.Num? && a.r <= b.r
  }

  predicate AtLeast(a: Number, b: Number) {
    a.Num? && b.Num? && a.r >= b.r
  }

  predicate AllDigits(s: string) {
    forall i :: 0 <= i < |s| ==> IsDigit(s[i])
  }

  function DigitValue(c: char): nat
    requires IsDigit(c)
  {
    c as int - '0' as int
  }

  /** The value of a string of decimal digits (0 for the empty string). */
  function DigitsValue(d: string): nat
    requires AllDigits(d)
    decreases |d|
  {
    if d == [] then 0 else DigitsValue(d[..|d| - 1]) * 10 + DigitValue(d[|d| - 1])
  }

  function Pow10(n: nat): (p: nat)
    ensures p >= 1
  {
    if n == 0 then 1 else 10 * Pow10(n - 1)
  }

  /** The longest prefix of `s` made of digits. */
  function LeadingDigits(s: string): (d: string)
    ensures |d| <= |s| && d == s[..|d|] && AllDigits(d)
    ensures |d| == |s| || !IsDigit(s[|d|])
  {
    if |s| > 0 && IsDigit(s[0]) then [s[0]] + LeadingDigits(s[1..]) else []
  }

  /** The value of the numeral at the start of `u` (no sign), or NaN when there is none. */
  function UnsignedValue(u: string): Number {
    var whole := LeadingDigits(u);
    var rest := u[|whole|..];
    var fraction := if |rest| > 0 && rest[0] == '.' then LeadingDigits(rest[1..]) else [];
    if |whole| == 0 && |fraction| == 0 then NaN else Num(NumeralValue(whole, fraction))
  }

  /** The value of the numeral `whole.fraction`. */
  function NumeralValue(whole: string, fraction: string): real
    requires AllDigits(whole) && AllDigits(fraction)
  {
    DigitsValue(whole) as real + DigitsValue(fraction) as real / Pow10(|fraction|) as real
  }

  function Negate(x: Number): Number {
    if x.NaN? then NaN else Num(-x.r)
  }

  /** `parseFloat(s)`: the longest numeric prefix after leading whitespace, or NaN. */
  function ParseFloat(s: string): Number {
    var t := TrimStart(s);
    if |t| > 0 && t[0] == '-' then Negate(UnsignedValue(t[1..]))
    else if |t| > 0 && t[0] == '+' then UnsignedValue(t[1..])
    else UnsignedValue(t)
  }

  lemma {:induction false} LeadingDigitsOf(d: string, rest: string)
    requires AllDigits(d)
    requires rest == [] || !IsDigit(rest[0])
    ensures LeadingDigits(d + rest) == d
    decreases |d|
  {
    if d != [] {
      LeadingDigitsOf(d[1..], rest);
      assert (d + rest)[1..] == d[1..] + rest;
      assert d == [d[0]] + d[1..];
    }
  }

  /** A string that starts with a digit is what `parseFloat` reads after trimming. */
  lemma StartsWithDigit(s: string)
    requires |s| > 0 && IsDigit(s[0])
    ensures ParseFloat(s) == UnsignedValue(s)
  {
    assert TrimStart(s) == s;
  }

  /** `parseFloat` reads a whole number that is not followed by a digit or a point. */
  lemma ParseWholeNumeral(d: string, rest: string)
    requires |d| > 0 && AllDigits(d)
    requires rest == [] || (!IsDigit(rest[0]) && rest[0] != '.')
    ensures ParseFloat(d + rest) == Num(DigitsValue(d) as real)
  {
    var s := d + rest;
    assert s[0] == d[0];
    StartsWithDigit(s);
    LeadingDigitsOf(d, rest);
    assert s[|d|..] == rest;
    UnsignedWhole(s, d, rest);
  }

  lemma UnsignedWhole(s: string, d: string, rest: string)
    requires |d| > 0 && AllDigits(d) && LeadingDigits(s) == d && s[|d|..] == rest
    requires rest == [] || rest[0] != '.'
    ensures UnsignedValue(s) == Num(DigitsValue(d) as real)
  {
    assert s[|LeadingDigits(s)|..] == rest;
    assert Pow10(0) == 1 && DigitsValue([]) == 0;
    assert NumeralValue(d, []) == DigitsValue(d) as real;
  }

  /** `parseFloat` reads a decimal fraction `d.f` that is not followed by a digit. */
  lemma ParseDecimalNumeral(d: string, f: string, rest: string)
    requires |d| > 0 && AllDigits(d) && AllDigits(f)
    requires rest == [] || !IsDigit(rest[0])
    ensures ParseFloat(d + "." + f + rest) == Num(NumeralValue(d, f))
  {
    var tail := f + rest;
    var s := d + ("." + tail);
    assert d + "." + f + rest == s;
    assert s[0] == d[0];
    StartsWithDigit(s);
    LeadingDigitsOf(d, "." + tail);
    assert s[|d|..] == "." + tail;
    LeadingDigitsOf(f, rest);
    UnsignedDecimal(s, d, tail, f);
  }

  lemma UnsignedDecimal(s: string, d: string, tail: string, f: string)
    requires |d| > 0 && AllDigits(d) && AllDigits(f)
    requires LeadingDigits(s) == d && s[|d|..] == "." + tail && LeadingDigits(tail) == f
    ensures UnsignedValue(s) == Num(NumeralValue(d, f))
  {
    var rest := s[|LeadingDigits(s)|..];
    assert rest == "." + tail;
    assert |rest| > 0 && rest[0] == '.';
    assert rest[1..] == tail;
  }

  lemma {:induction false} NatToStringValue(n: nat)
    ensures AllDigits(NatToString(n)) && DigitsValue(NatToString(n)) == n
    decreases n
  {
    var s := NatToString(n);
    if n < 10 {
      assert s[..0] == [];
    } else {
      NatToStringValue(n / 10);
      assert s[..|s| - 1] == NatToString(n / 10);
    }
  }

  /** Printing a count with `${n}` and reading it back with `parseFloat` gives the count. */
  lemma ParseNatToString(n: nat)
    ensures ParseFloat(NatToString(n)) == Num(n as real)
  {
    NatToStringValue(n);
    ParseWholeNumeral(NatToString(n), []);
    assert NatToString(n) + [] == NatToString(n);
  }
}
