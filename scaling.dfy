/** How both harness variants scale a round's workload with its size
    multiplier: buffers grow in proportion, iteration counts shrink in
    inverse proportion. */
module Scaling {
  import opened Platform

  /** Side length of the square tensors for a multiplier, int(128 * m). */
  function ScaledSize(m: nat): nat {
    128 * m
  }

  /** Kernel rounds per call for a multiplier, int(1000 / m). */
  function ScaledCount(m: nat): nat
    requires m >= 1
  {
    1000 / m
  }

  /** A multiplier schedule in which every entry at least doubles the one before. */
  ghost predicate Doubling(ms: seq<nat>) {
    forall i :: 0 <= i < |ms| - 1 ==> 2 * ms[i] <= ms[i + 1]
  }

  lemma {:induction false} DoublingSpread(ms: seq<nat>, i: nat, j: nat)
    requires Doubling(ms) && i < j < |ms|
    ensures 2 * ms[i] <= ms[j]
    decreases j - i
  {
    if i + 1 < j {
      DoublingSpread(ms, i, j - 1);
      assert 2 * ms[j - 1] <= ms[j];
    }
  }

  /** Dividing by a larger multiplier never gives more rounds. */
  lemma CountAntitone(m1: nat, m2: nat)
    requires 1 <= m1 <= m2
    ensures ScaledCount(m2) <= ScaledCount(m1)
  {
    var q := 1000 / m2;
    DivMod(m2);
    MulMonotone(m1, m2, q);
    QuotientBound(q, m1);
  }

  /** At least doubling the multiplier, while it stays at most 1000, strictly
      lowers the number of rounds. */
  lemma CountHalves(m1: nat, m2: nat)
    requires 1 <= m1 && 2 * m1 <= m2 <= 1000
    ensures ScaledCount(m2) < ScaledCount(m1)
  {
    var q := 1000 / m2;
    DivMod(m2);
    MulMonotone(1, q, m2);
    MulMonotone(2 * m1, m2, q);
    assert q * (2 * m1) == (2 * q) * m1;
    QuotientBound(2 * q, m1);
  }

  /** A count whose multiple by m fits in 1000 is at most 1000 / m. */
  lemma QuotientBound(q: nat, m: nat)
    requires m >= 1 && q * m <= 1000
    ensures q <= 1000 / m
  {
    var r := 1000 / m;
    DivMod(m);
    assert (r + 1) * m == r * m + m;
    MulCancel(q, r + 1, m);
  }

  lemma DivMod(m: nat)
    requires m >= 1
    ensures (1000 / m) * m <= 1000 < (1000 / m) * m + m
  {
    assert 1000 == (1000 / m) * m + 1000 % m;
  }

  lemma MulCancel(a: nat, b: nat, c: nat)
    requires c >= 1 && a * c < b * c
    ensures a < b
  {
    if b <= a {
      MulMonotone(b, a, c);
    }
  }

  /** Over a doubling schedule of multipliers between 1 and 1000, sizes
      strictly increase and round counts strictly decrease. */
  lemma ScheduleMonotone(ms: seq<nat>)
    requires Doubling(ms)
    requires forall i :: 0 <= i < |ms| ==> 1 <= ms[i] <= 1000
    ensures forall i, j :: 0 <= i < j < |ms| ==>
      ms[i] < ms[j] && ScaledSize(ms[i]) < ScaledSize(ms[j]) && ScaledCount(ms[j]) < ScaledCount(ms[i])
  {
    forall i, j | 0 <= i < j < |ms|
      ensures ms[i] < ms[j] && ScaledSize(ms[i]) < ScaledSize(ms[j]) && ScaledCount(ms[j]) < ScaledCount(ms[i])
    {
      DoublingSpread(ms, i, j);
      CountHalves(ms[i], ms[j]);
    }
  }
}
