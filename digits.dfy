/** Decimal digit counting, as used by decimal fields with max_digits. */
module Digits {

  function Pow10(n: nat): (r: nat)
    ensures r >= 1
  {
    if n == 0 then 1 else 10 * Pow10(n - 1)
  }

  /** Number of decimal digits of n; 0 is written with one digit. */
  function NumDigits(n: nat): (r: nat)
    ensures r >= 1
  {
    if n < 10 then 1 else 1 + NumDigits(n / 10)
  }

  function Abs(x: int): nat {
    if x < 0 then -x else x
  }

  /** n is written with at most k digits exactly when n < 10^k. */
  lemma {:induction false} NumDigitsBound(n: nat, k: nat)
    requires k >= 1
    ensures NumDigits(n) <= k <==> n < Pow10(k)
  {
    if k == 1 {
      assert Pow10(1) == 10;
    } else {
      PowAtLeastTen(k);
      if n >= 10 {
        NumDigitsBound(n / 10, k - 1);
      }
    }
  }

  lemma PowAtLeastTen(k: nat)
    requires k >= 1
    ensures Pow10(k) >= 10
  {
  }
}
