/**
 * Decimal rendering of integers, as JavaScript's `Number.prototype.toString()`
 * produces it for integral values, and `padStart(2, "0")`, which every clock
 * face of the application applies to its hour, minute and second fields.
 */
module Decimal {

  predicate IsDigit(c: char) {
    '0' <= c <= '9'
  }

  /** The character of a single decimal digit. */
  function DigitChar(d: nat): (c: char)
    requires d < 10
    ensures IsDigit(c)
    ensures DigitValue(c) == d
  {
    ('0' as int + d) as char
  }

  /** The value of a digit character; the partner of DigitChar. */
  function DigitValue(c: char): nat
    requires IsDigit(c)
  {
    c as int - '0' as int
  }

  predicate AllDigits(s: string) {
    forall i :: 0 <= i < |s| ==> IsDigit(s[i])
  }

  /** `n.toString()` for a non-negative integer: the shortest decimal numeral. */
  function NatToString(n: nat): (s: string)
    ensures 1 <= |s|
    ensures n < 10 <==> |s| == 1
    ensures 10 <= n < 100 ==> |s| == 2
    decreases n
  {
    if n < 10 then [DigitChar(n)] else NatToString(n / 10) + [DigitChar(n % 10)]
  }

  /** A numeral consists of digits only. */
  lemma {:induction false} NatToStringDigits(n: nat)
    ensures AllDigits(NatToString(n))
    decreases n
  {
    if n >= 10 {
      NatToStringDigits(n / 10);
    }
  }

  /** The value of a string of digits, read as a decimal numeral. */
  function NumeralValue(s: string): nat
    requires AllDigits(s)
  {
    if s == [] then 0 else 10 * NumeralValue(s[..|s| - 1]) + DigitValue(s[|s| - 1])
  }

  /** Reading back a rendered numeral gives the number that was rendered. */
  lemma {:induction false} NumeralValueOfNatToString(n: nat)
    ensures AllDigits(NatToString(n)) && NumeralValue(NatToString(n)) == n
    decreases n
  {
    NatToStringDigits(n);
    var s := NatToString(n);
    if n < 10 {
      assert s[..0] == [];
    } else {
      NumeralValueOfNatToString(n / 10);
      assert s[..|s| - 1] == NatToString(n / 10);
    }
  }

  /** Different numbers have different numerals. */
  lemma NatToStringInjective(a: nat, b: nat)
    requires NatToString(a) == NatToString(b)
    ensures a == b
  {
    NumeralValueOfNatToString(a);
    NumeralValueOfNatToString(b);
  }

  /** `n.toString()` for any integer: negative numbers carry a leading minus sign. */
  function IntToString(n: int): (s: string)
    ensures n >= 0 ==> s == NatToString(n)
    ensures n < 0 ==> s == ['-'] + NatToString(-n)
  {
    if n < 0 then ['-'] + NatToString(-n) else NatToString(n)
  }

  /** `s.padStart(2, "0")`: strings shorter than two characters get leading zeros. */
  function PadStart2(s: string): (r: string)
    ensures |s| >= 2 ==> r == s
    ensures |s| < 2 ==> |r| == 2
  {
    if |s| >= 2 then s else if |s| == 1 then ['0'] + s else ['0', '0']
  }

  /** `n.toString().padStart(2, "0")`, the two-digit field of every clock face. */
  function Pad2(n: int): string {
    PadStart2(IntToString(n))
  }

  /** For 0 <= n < 100 the field is exactly the two decimal digits of n. */
  lemma Pad2Digits(n: int)
    requires 0 <= n < 100
    ensures Pad2(n) == [DigitChar(n / 10), DigitChar(n % 10)]
  {
    var q, r := n / 10, n % 10;
    assert 0 <= q < 10 && 0 <= r < 10;
    if n >= 10 {
      assert NatToString(q) == [DigitChar(q)];
      assert NatToString(n) == NatToString(q) + [DigitChar(r)];
    } else {
      assert q == 0 && r == n;
    }
  }

  /** A two-digit field is two digits long and reads back as n. */
  lemma Pad2Value(n: int)
    requires 0 <= n < 100
    ensures |Pad2(n)| == 2 && IsDigit(Pad2(n)[0]) && IsDigit(Pad2(n)[1])
    ensures 10 * DigitValue(Pad2(n)[0]) + DigitValue(Pad2(n)[1]) == n
  {
    Pad2Digits(n);
  }

  /** Different values in 0..99 give different two-digit fields. */
  lemma Pad2Injective(a: int, b: int)
    requires 0 <= a < 100 && 0 <= b < 100
    requires Pad2(a) == Pad2(b)
    ensures a == b
  {
    Pad2Value(a);
    Pad2Value(b);
  }

  /** In a numeral followed by a colon, the first colon is the one after the numeral. */
  lemma FirstColon(a: string, x: string)
    requires AllDigits(a)
    ensures (a + [':'] + x)[|a|] == ':'
    ensures forall i :: 0 <= i < |a| ==> (a + [':'] + x)[i] != ':'
  {
  }

  /** A numeral followed by a colon can be split off unambiguously. */
  lemma SplitAtColon(a: string, x: string, b: string, y: string)
    requires AllDigits(a) && AllDigits(b)
    requires a + [':'] + x == b + [':'] + y
    ensures a == b && x == y
  {
    var l := a + [':'] + x;
    FirstColon(a, x);
    FirstColon(b, y);
    assert |a| == |b|;
    assert a == l[..|a|] == b;
    assert x == l[|a| + 1..] == y;
  }
}
