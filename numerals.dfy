/**
 * Positional numerals: `Number.prototype.toString(base)` on non-negative integers,
 * the decimal rendering of integers in template literals, and `toFixed(2)` on an
 * amount held as integer cents.
 */
module Numerals {

  /** The digit character for `d`, lower-case letters above 9, as `toString(36)` writes it. */
  function DigitChar(d: nat): char
    requires d < 36
  {
    if d < 10 then ('0' as int + d) as char else ('a' as int + d - 10) as char
  }

  /** The value of a digit character, letters read in either case; 36 for anything else. */
  function DigitValue(c: char): (v: nat)
    ensures v <= 36
  {
    if '0' <= c <= '9' then c as int - '0' as int
    else if 'a' <= c <= 'z' then c as int - 'a' as int + 10
    else if 'A' <= c <= 'Z' then c as int - 'A' as int + 10
    else 36
  }

  lemma DigitRoundTrip(d: nat)
    requires d < 36
    ensures DigitValue(DigitChar(d)) == d
  {
  }

  /** Every character of `s` is a digit of `base`. */
  predicate AllDigits(s: string, base: nat) {
    forall i :: 0 <= i < |s| ==> DigitValue(s[i]) < base
  }

  /** The value of a numeral read most significant digit first. */
  function ValueOf(s: string, base: nat): nat
  {
    if s == [] then 0 else ValueOf(s[..|s| - 1], base) * base + DigitValue(s[|s| - 1])
  }

  /** `n.toString(base)`: digits of `base` only, with no leading zero. */
  function NatToString(n: nat, base: nat): (r: string)
    requires 2 <= base <= 36
    ensures |r| >= 1 && AllDigits(r, base)
    ensures n == 0 ==> r == "0"
    ensures n > 0 ==> r[0] != '0'
  {
    DigitRoundTrip(n % base);
    if n < base then [DigitChar(n)]
    else
      QuotientBounds(n, base);
      NatToString(n / base, base) + [DigitChar(n % base)]
  }

  lemma QuotientBounds(n: nat, base: nat)
    requires 2 <= base <= n
    ensures 1 <= n / base < n
  {
    var q, r := n / base, n % base;
    assert n == q * base + r && 0 <= r < base;
    assert q * base >= q * 2 by { MulMonotone(q, 2, base); }
  }

  lemma MulMonotone(q: nat, a: nat, b: nat)
    requires a <= b
    ensures q * a <= q * b
  {
  }

  /** The numeral `n.toString(base)` reads back as `n`. */
  lemma {:induction false} NatToStringValue(n: nat, base: nat)
    requires 2 <= base <= 36
    ensures ValueOf(NatToString(n, base), base) == n
  {
    if n < base {
      SingleDigitValue(n, base);
    } else {
      QuotientBounds(n, base);
      NatToStringValue(n / base, base);
      LastDigitValue(n, base);
    }
  }

  lemma SingleDigitValue(n: nat, base: nat)
    requires 2 <= base <= 36 && n < base
    ensures ValueOf(NatToString(n, base), base) == n
  {
    DigitRoundTrip(n);
    assert NatToString(n, base) == [] + [DigitChar(n)];
    ValueOfAppend([], DigitChar(n), base);
  }

  /** The numeral of `n` is that of `n / base` followed by the digit `n % base`, and reads back accordingly. */
  lemma LastDigitValue(n: nat, base: nat)
    requires 2 <= base <= 36 && base <= n
    requires ValueOf(NatToString(n / base, base), base) == n / base
    ensures ValueOf(NatToString(n, base), base) == n
  {
    var q, d := n / base, n % base;
    DigitRoundTrip(d);
    var head := NatToString(q, base);
    assert NatToString(n, base) == head + [DigitChar(d)];
    ValueOfAppend(head, DigitChar(d), base);
    DivMod(n, base);
  }

  /** Appending a digit multiplies by the base and adds the digit. */
  lemma ValueOfAppend(s: string, c: char, base: nat)
    ensures ValueOf(s + [c], base) == ValueOf(s, base) * base + DigitValue(c)
  {
    assert (s + [c])[..|s|] == s;
  }

  lemma DivMod(n: nat, base: nat)
    requires base > 0
    ensures n == (n / base) * base + n % base
  {
  }

  /** A number in a template literal when it is an integer. */
  function IntToDecimal(i: int): string
  {
    if i < 0 then "-" + NatToString(-i, 10) else NatToString(i, 10)
  }

  /**
   * `(cents / 100).toFixed(2)`: optional minus sign, whole units, a point and
   * exactly two digits of cents.
   */
  function FormatCents(cents: int): string
  {
    var m := if cents < 0 then -cents else cents;
    var c := m % 100;
    (if cents < 0 then "-" else "") + NatToString(m / 100, 10) + "." + [DigitChar(c / 10), DigitChar(c % 10)]
  }
}
