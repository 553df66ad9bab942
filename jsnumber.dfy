/**
 * JavaScript numbers as the admin forms produce them: `parseFloat` and `parseInt`
 * on form text, `NaN` when no digits are found, and the arithmetic applied to the
 * results (NaN absorbs every operation).
 */
module JsNumber {
  import opened Text
  import opened Numerals

  /** A JavaScript number: a finite value or NaN (infinities are not produced by the forms). */
  datatype Number = Num(value: real) | NaN

  /** Length of the longest prefix of `s` made of digits of `base`. */
  function DigitRun(s: string, base: nat): (k: nat)
    ensures k <= |s| && AllDigits(s[..k], base)
    ensures k < |s| ==> DigitValue(s[k]) >= base
  {
    if |s| > 0 && DigitValue(s[0]) < base then
      var k := 1 + DigitRun(s[1..], base);
      assert s[..k] == [s[0]] + s[1..][..k - 1];
      k
    else 0
  }

  lemma {:induction false} DigitRunOf(digits: string, rest: string, base: nat)
    requires AllDigits(digits, base)
    requires rest == [] || DigitValue(rest[0]) >= base
    ensures DigitRun(digits + rest, base) == |digits|
  {
    if digits != [] {
      assert (digits + rest)[1..] == digits[1..] + rest;
      DigitRunOf(digits[1..], rest, base);
    } else {
      assert digits + rest == rest;
    }
  }

  /** What `parseFloat` and `parseInt` share: skip leading whitespace, then read an optional sign. */
  function SignAndBody(s: string): (bool, string)
  {
    var t := s[LeadingSpace(s)..];
    if |t| > 0 && (t[0] == '+' || t[0] == '-') then (t[0] == '-', t[1..]) else (false, t)
  }

  function Signed(negative: bool, magnitude: real): real {
    if negative then -magnitude else magnitude
  }

  /**
   * `parseFloat(s)`: the longest prefix of the form `digits[.digits]` or `.digits`
   * after whitespace and an optional sign; NaN when that prefix holds no digit.
   */
  function ParseFloat(s: string): Number
  {
    var (negative, u) := SignAndBody(s);
    match UnsignedDecimal(u)
    case NaN => NaN
    case Num(v) => Num(Signed(negative, v))
  }

  /** The unsigned part of `parseFloat`: `digits[.digits]` or `.digits` at the start of `u`. */
  function UnsignedDecimal(u: string): Number
  {
    var whole := WholeDigits(u);
    var frac := FractionDigits(u);
    if whole == [] && frac == [] then NaN
    else Num(ValueOf(whole, 10) as real + FractionValue(frac))
  }

  /** The decimal digits at the start of `u`. */
  function WholeDigits(u: string): string {
    u[..DigitRun(u, 10)]
  }

  /** The decimal digits after a point that follows the whole digits; none without a point. */
  function FractionDigits(u: string): string {
    var rest := u[|WholeDigits(u)|..];
    if |rest| > 0 && rest[0] == '.' then rest[1..][..DigitRun(rest[1..], 10)] else ""
  }

  /** The value of the digits after the point, each worth a tenth of the one before: `.25` is 0.25. */
  function FractionValue(frac: string): real {
    if frac == [] then 0.0 else (DigitValue(frac[0]) as real + FractionValue(frac[1..])) / 10.0
  }

  /**
   * `parseInt(s)` without a radix: after whitespace and an optional sign, a `0x`
   * or `0X` prefix selects hexadecimal, otherwise decimal; NaN when no digit follows.
   */
  function ParseInt(s: string): Number
  {
    var (negative, u) := SignAndBody(s);
    if |u| >= 2 && u[0] == '0' && (u[1] == 'x' || u[1] == 'X') then
      var digits := u[2..][..DigitRun(u[2..], 16)];
      if digits == [] then NaN else Num(Signed(negative, ValueOf(digits, 16) as real))
    else
      var digits := u[..DigitRun(u, 10)];
      if digits == [] then NaN else Num(Signed(negative, ValueOf(digits, 10) as real))
  }

  /** Text without a digit in the right place is NaN: the empty field in particular. */
  lemma ParseOfEmpty()
    ensures ParseFloat("") == NaN && ParseInt("") == NaN
  {
  }

  /** `toFixed(2)` and `parseFloat` are inverse on amounts held in cents. */
  lemma FormatCentsParses(cents: int)
    ensures ParseFloat(FormatCents(cents)) == Num(cents as real / 100.0)
  {
    var m := if cents < 0 then -cents else cents;
    var whole := NatToString(m / 100, 10);
    var body := whole + "." + [DigitChar(m % 100 / 10), DigitChar(m % 100 % 10)];
    assert FormatCents(cents) == (if cents < 0 then "-" else "") + body;
    assert body[0] == whole[0];
    SignOfDigits(cents < 0, body);
    UnsignedCentsValue(m);
  }

  /** A numeral after an optional minus sign: no whitespace to skip, and the sign is read. */
  lemma SignOfDigits(negative: bool, body: string)
    requires |body| > 0 && DigitValue(body[0]) < 10
    ensures SignAndBody((if negative then "-" else "") + body) == (negative, body)
  {
    var s := (if negative then "-" else "") + body;
    DecimalDigitIsNotSpace(body[0]);
    if negative {
      assert s[0] == '-' && s[1..] == body;
    } else {
      assert s == body;
    }
    assert LeadingSpace(s) == 0;
    assert s[0..] == s;
  }

  /** A numeral with a fractional part reads as its whole part plus its fraction scaled down. */
  lemma DecimalParts(whole: string, frac: string)
    requires AllDigits(whole, 10) && AllDigits(frac, 10) && (whole != [] || frac != [])
    ensures UnsignedDecimal(whole + ("." + frac)) == Num(ValueOf(whole, 10) as real + FractionValue(frac))
  {
    DigitsOfNumeral(whole, frac);
    UnsignedDecimalOf(whole + ("." + frac), whole, frac);
  }

  lemma UnsignedDecimalOf(u: string, whole: string, frac: string)
    requires WholeDigits(u) == whole && FractionDigits(u) == frac && (whole != [] || frac != [])
    ensures UnsignedDecimal(u) == Num(ValueOf(whole, 10) as real + FractionValue(frac))
  {
  }

  lemma DigitsOfNumeral(whole: string, frac: string)
    requires AllDigits(whole, 10) && AllDigits(frac, 10)
    ensures WholeDigits(whole + ("." + frac)) == whole && FractionDigits(whole + ("." + frac)) == frac
  {
    var u := whole + ("." + frac);
    DigitRunOf(whole, "." + frac, 10);
    assert WholeDigits(u) == whole;
    assert u[|whole|..] == "." + frac;
    assert ("." + frac)[1..] == frac;
    DigitRunOf(frac, "", 10);
    assert frac + "" == frac;
  }

  lemma DecimalDigitIsNotSpace(c: char)
    requires DigitValue(c) < 10
    ensures '0' <= c <= '9' && !IsWhitespace(c) && c != '+' && c != '-'
  {
  }

  /** Two cent digits are digits, and they are worth their value in hundredths. */
  lemma TwoDigits(d1: nat, d0: nat)
    requires d1 < 10 && d0 < 10
    ensures var dd := [DigitChar(d1), DigitChar(d0)];
      AllDigits(dd, 10) && FractionValue(dd) == (10 * d1 + d0) as real / 100.0
  {
    var dd := [DigitChar(d1), DigitChar(d0)];
    DigitRoundTrip(d1);
    DigitRoundTrip(d0);
    assert dd[1..] == [DigitChar(d0)] && dd[1..][1..] == [];
    assert FractionValue(dd[1..]) == d0 as real / 10.0;
  }

  lemma CentsReal(m: nat)
    ensures (m / 100) as real + (10 * (m % 100 / 10) + m % 100 % 10) as real / 100.0 == m as real / 100.0
  {
    var q, r := m / 100, m % 100;
    assert 10 * (r / 10) + r % 10 == r;
    assert m == 100 * q + r;
    assert m as real == 100.0 * q as real + r as real;
  }

  lemma UnsignedCentsValue(m: nat)
    ensures UnsignedDecimal(NatToString(m / 100, 10) + "." + [DigitChar(m % 100 / 10), DigitChar(m % 100 % 10)])
         == Num(m as real / 100.0)
  {
    var q, d1, d0 := m / 100, m % 100 / 10, m % 100 % 10;
    var whole := NatToString(q, 10);
    var dd := [DigitChar(d1), DigitChar(d0)];
    assert whole + "." + dd == whole + ("." + dd);
    TwoDigits(d1, d0);
    DecimalParts(whole, dd);
    NatToStringValue(q, 10);
    CentsReal(m);
  }

  /** A non-negative integer's decimal numeral reads back through `parseInt`. */
  lemma {:induction false} NatToStringParsesAsInt(n: nat)
    ensures ParseInt(NatToString(n, 10)) == Num(n as real)
  {
    var s := NatToString(n, 10);
    assert DigitValue(s[0]) < 10;
    assert LeadingSpace(s) == 0;
    assert s[0..] == s;
    assert SignAndBody(s) == (false, s);
    assert !(|s| >= 2 && s[0] == '0');
    DigitRunOf(s, "", 10);
    assert s + "" == s;
    NatToStringValue(n, 10);
  }

  /** `x || 0` on a number: NaN and zero both give zero. */
  function OrZero(n: Number): real
  {
    if n.NaN? then 0.0 else n.value
  }

  function Add(a: Number, b: Number): Number {
    if a.NaN? || b.NaN? then NaN else Num(a.value + b.value)
  }

  function Mul(a: Number, b: Number): Number {
    if a.NaN? || b.NaN? then NaN else Num(a.value * b.value)
  }
}
