/** Numbers printed in decimal: Go's %d and JavaScript's String(n). */
module Decimals {

  function Digit(d: nat): char
    requires d < 10
  {
    '0' + d as char
  }

  /** %d of an unsigned number. */
  function Decimal(n: nat): string {
    (if n < 10 then "" else Decimal(n / 10)) + [Digit(n % 10)]
  }

  /** The number that digits read as, most significant first. */
  function Value(digits: string): int {
    if digits == "" then 0
    else
      var last := |digits| - 1;
      10 * Value(digits[..last]) + digits[last] as int - '0' as int
  }

  /** The digits are the number's decimal numeral: they read as the number, without a leading zero. */
  predicate IsNumeral(digits: string, n: nat) {
    && digits != "" && Value(digits) == n && (digits[0] == '0' ==> |digits| == 1)
    && forall i | 0 <= i < |digits| :: '0' <= digits[i] <= '9'
  }

  lemma OneDigit(c: char)
    ensures Value([c]) == c as int - '0' as int
  {
    assert [c][..0] == "";
  }

  lemma DigitNumeral(n: nat)
    requires n < 10
    ensures IsNumeral([Digit(n)], n)
  {
    OneDigit(Digit(n));
  }

  lemma NumeralSnoc(digits: string, n: nat, d: nat)
    requires n > 0 && IsNumeral(digits, n) && d < 10
    ensures IsNumeral(digits + [Digit(d)], 10 * n + d)
  {
    assert (digits + [Digit(d)])[..|digits|] == digits;
    OneDigit(digits[0]);
    assert |digits| == 1 ==> digits == [digits[0]];
  }

  lemma {:induction false} DecimalReads(n: nat)
    ensures IsNumeral(Decimal(n), n)
  {
    if n >= 10 {
      DecimalReads(n / 10);
      hide IsNumeral;
      NumeralSnoc(Decimal(n / 10), n / 10, n % 10);
    } else {
      hide IsNumeral;
      DigitNumeral(n);
      assert Decimal(n) == "" + [Digit(n)] == [Digit(n)];
    }
  }

  lemma DecimalInjective(m: nat, n: nat)
    ensures Decimal(m) == Decimal(n) ==> m == n
  {
    DecimalReads(m);
    DecimalReads(n);
  }

  lemma DecimalNonEmpty(n: nat)
    ensures Decimal(n) != "" && ':' !in Decimal(n)
  {
    DecimalReads(n);
  }
}
