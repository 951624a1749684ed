/** Multiples of a period, kept additive so that the proofs about wraps stay linear. */
module Arithmetic {
  /** `k` whole periods. */
  function Periods(k: nat, period: nat): nat {
    if k == 0 then 0 else period + Periods(k - 1, period)
  }

  lemma {:induction false} PeriodsIsProduct(k: nat, period: nat)
    ensures Periods(k, period) == k * period
  {
    if k > 0 {
      PeriodsIsProduct(k - 1, period);
      assert k * period == (k - 1) * period + period;
    }
  }

  lemma {:induction false} PeriodsGrow(a: nat, b: nat, period: nat)
    requires a < b
    ensures Periods(a, period) + period <= Periods(b, period)
  {
    if a + 1 < b {
      PeriodsGrow(a, b - 1, period);
    }
  }

  /** Quotient and remainder are the only way to write a number as whole periods and a rest. */
  lemma DivisionUnique(x: nat, period: nat, q: nat, r: nat)
    requires r < period && x == Periods(q, period) + r
    ensures x / period == q && x % period == r
  {
    var q' := x / period;
    assert x == q' * period + x % period;
    PeriodsIsProduct(q', period);
    if q' < q {
      PeriodsGrow(q', q, period);
    }
    if q < q' {
      PeriodsGrow(q, q', period);
    }
  }

  lemma Division(x: nat, period: nat)
    requires period > 0
    ensures x == Periods(x / period, period) + x % period
  {
    PeriodsIsProduct(x / period, period);
  }

  lemma ProductMonotone(a: nat, b: nat, c: nat)
    requires a <= b
    ensures a * c <= b * c
  {
    assert b * c == a * c + (b - a) * c;
    assert (b - a) * c >= 0;
  }
}
