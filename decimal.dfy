/** ASCII decimal digits (what Java's `\d` matches without the UNICODE_CHARACTER_CLASS flag)
    and the value of a numeral, as `Integer.parseInt` / `Long.parseLong` compute it on a
    string of digits. */
module Decimal {

  predicate IsDigit(c: char) {
    '0' <= c <= '9'
  }

  function DigitValue(c: char): (d: nat)
    requires IsDigit(c)
    ensures d < 10
  {
    (c as int) - ('0' as int)
  }

  predicate AllDigits(s: string) {
    forall i :: 0 <= i < |s| ==> IsDigit(s[i])
  }

  /** The end of the run of digits that starts at position i (the greedy `\d+`). */
  function RunEnd(line: string, i: nat): (e: nat)
    requires i <= |line|
    ensures i <= e <= |line|
    ensures forall q :: i <= q < e ==> IsDigit(line[q])
    ensures e == |line| || !IsDigit(line[e])
    decreases |line| - i
  {
    if i < |line| && IsDigit(line[i]) then RunEnd(line, i + 1) else i
  }

  /** The value of a numeral, most significant digit first. */
  function ParseNat(s: string): nat
    requires AllDigits(s)
  {
    if s == [] then 0 else 10 * ParseNat(s[..|s| - 1]) + DigitValue(s[|s| - 1])
  }

  /** Appending a digit shifts the value one decimal place. */
  lemma ParseNatAppend(s: string, c: char)
    requires AllDigits(s) && IsDigit(c)
    ensures AllDigits(s + [c]) && ParseNat(s + [c]) == 10 * ParseNat(s) + DigitValue(c)
  {
    assert (s + [c])[..|s + [c]| - 1] == s;
  }

  /** A two-character numeral, as `Integer.parseInt(first.concat(last))` reads it. */
  lemma ParseTwoDigits(a: char, b: char)
    requires IsDigit(a) && IsDigit(b)
    ensures AllDigits([a, b]) && ParseNat([a, b]) == 10 * DigitValue(a) + DigitValue(b)
  {
    ParseNatAppend([a], b);
    assert [a] + [b] == [a, b];
    ParseNatAppend([], a);
    assert [] + [a] == [a];
  }
}
