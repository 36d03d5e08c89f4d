/**
 * The integer folds that `processHosts` (go-mtr, mtr.go:109-158) runs over one
 * hop's latency samples, each over the first n samples so that a loop can carry
 * it, and the properties that give each fold its meaning.
 */
module MtrStats {

  /** Starting value of `best` (mtr.go:119): the largest 32-bit signed integer. */
  const BestStart: int := 0x7fff_ffff

  function Abs(x: int): int {
    if x < 0 then -x else x
  }

  function Max(a: int, b: int): int {
    if a < b then b else a
  }

  /** The jitter of sample k against sample k - 1; the slot of sample 0 is 0 (`jitters[0]`). */
  function Gap(s: seq<int>, k: nat): int
    requires k < |s|
  {
    if k == 0 then 0 else Abs(s[k] - s[k - 1])
  }

  /** `totalPacketTime` after n samples: their sum. */
  function Total(s: seq<int>, n: nat): int
    requires n <= |s|
  {
    if n == 0 then 0 else Total(s, n - 1) + s[n - 1]
  }

  /** `worst` after n samples: running maximum from 0. */
  function Worst(s: seq<int>, n: nat): int
    requires n <= |s|
  {
    if n == 0 then 0 else Max(Worst(s, n - 1), s[n - 1])
  }

  /** `best` after n samples: running minimum from 2^31 - 1. */
  function Best(s: seq<int>, n: nat): int
    requires n <= |s|
  {
    if n == 0 then BestStart
    else if s[n - 1] < Best(s, n - 1) then s[n - 1]
    else Best(s, n - 1)
  }

  /** `worstJitter` after n samples: running maximum of the gaps, from 0. */
  function WorstJitter(s: seq<int>, n: nat): int
    requires n <= |s|
  {
    if n == 0 then 0 else Max(WorstJitter(s, n - 1), Gap(s, n - 1))
  }

  /** `jitterSum` over the first n `jitters` slots: the sum of the gaps. */
  function JitterTotal(s: seq<int>, n: nat): int
    requires n <= |s|
  {
    if n == 0 then 0 else JitterTotal(s, n - 1) + Gap(s, n - 1)
  }

  /**
   * One update of the scaled interarrival jitter accumulator of RFC 3550
   * Appendix A.8, J += d - ((J + 8) >> 4). Go's `>>` on a signed int is an
   * arithmetic shift, which is division by 16 rounding down, as Dafny's `/` by
   * a positive divisor does. The accumulator holds 16 times the jitter
   * estimate; Go stores it as it is (mtr.go:133) and never applies A.8's final
   * `J >> 4`, so `Host.InterarrivalJitter` is 16 times the RFC's jitter.
   */
  function IajStep(j: int, d: int): int {
    j + d - (j + 8) / 16
  }

  /** `host.InterarrivalJitter` after n samples, from the starting value `j`; sample 0 is skipped. It is the scaled accumulator, not J/16. */
  function Iaj(j: int, s: seq<int>, n: nat): int
    requires n <= |s|
  {
    if n <= 1 then j else IajStep(Iaj(j, s, n - 1), Gap(s, n - 1))
  }

  /** Worst is the maximum of the samples and 0. */
  lemma {:induction false} WorstIsMax(s: seq<int>, n: nat)
    requires n <= |s|
    ensures Worst(s, n) >= 0
    ensures forall k :: 0 <= k < n ==> s[k] <= Worst(s, n)
    ensures Worst(s, n) == 0 || exists k :: 0 <= k < n && s[k] == Worst(s, n)
  {
    if n > 0 {
      WorstIsMax(s, n - 1);
    }
  }

  /** Best is the minimum of the samples and 2^31 - 1. */
  lemma {:induction false} BestIsMin(s: seq<int>, n: nat)
    requires n <= |s|
    ensures Best(s, n) <= BestStart
    ensures forall k :: 0 <= k < n ==> Best(s, n) <= s[k]
    ensures Best(s, n) == BestStart || exists k :: 0 <= k < n && s[k] == Best(s, n)
  {
    if n > 0 {
      BestIsMin(s, n - 1);
    }
  }

  /** WorstJitter is the largest |s[k] - s[k-1]|, and 0 with fewer than two samples. */
  lemma {:induction false} WorstJitterIsMaxGap(s: seq<int>, n: nat)
    requires n <= |s|
    ensures WorstJitter(s, n) >= 0
    ensures n <= 1 ==> WorstJitter(s, n) == 0
    ensures forall k :: 1 <= k < n ==> Abs(s[k] - s[k - 1]) <= WorstJitter(s, n)
    ensures WorstJitter(s, n) == 0 || exists k :: 1 <= k < n && Abs(s[k] - s[k - 1]) == WorstJitter(s, n)
  {
    if n > 0 {
      WorstJitterIsMaxGap(s, n - 1);
    }
  }

  lemma MulMonotone(n: nat, a: int, b: int)
    requires a <= b
    ensures n * a <= n * b
  {
  }

  /** The mean is at least Best: n * Best <= Total. */
  lemma {:induction false} TotalAtLeastBest(s: seq<int>, n: nat)
    requires n <= |s|
    ensures n * Best(s, n) <= Total(s, n)
  {
    if n > 0 {
      TotalAtLeastBest(s, n - 1);
      MulMonotone(n - 1, Best(s, n), Best(s, n - 1));
      assert n * Best(s, n) == (n - 1) * Best(s, n) + Best(s, n);
    }
  }

  /** The mean is at most Worst: Total <= n * Worst. */
  lemma {:induction false} TotalAtMostWorst(s: seq<int>, n: nat)
    requires n <= |s|
    ensures Total(s, n) <= n * Worst(s, n)
  {
    if n > 0 {
      TotalAtMostWorst(s, n - 1);
      MulMonotone(n - 1, Worst(s, n - 1), Worst(s, n));
      assert n * Worst(s, n) == (n - 1) * Worst(s, n) + Worst(s, n);
    }
  }

  /** The mean jitter never exceeds the worst: 0 <= JitterTotal <= (n - 1) * WorstJitter. */
  lemma {:induction false} JitterTotalBounded(s: seq<int>, n: nat)
    requires n <= |s|
    ensures 0 <= JitterTotal(s, n)
    ensures n > 0 ==> JitterTotal(s, n) <= (n - 1) * WorstJitter(s, n)
  {
    if n > 1 {
      JitterTotalBounded(s, n - 1);
      WorstJitterIsMaxGap(s, n - 1);
      MulMonotone(n - 2, WorstJitter(s, n - 1), WorstJitter(s, n));
      assert (n - 1) * WorstJitter(s, n) == (n - 2) * WorstJitter(s, n) + WorstJitter(s, n);
    }
  }

  /** The A.8 update keeps a non-negative accumulator non-negative for a non-negative gap. */
  lemma IajStepNonNegative(j: int, d: int)
    requires j >= 0 && d >= 0
    ensures IajStep(j, d) >= 0
  {
  }

  /** The interarrival jitter accumulator stays >= 0 from a non-negative start. */
  lemma {:induction false} IajNonNegative(j: int, s: seq<int>, n: nat)
    requires j >= 0 && n <= |s|
    ensures Iaj(j, s, n) >= 0
  {
    if n > 1 {
      IajNonNegative(j, s, n - 1);
      IajStepNonNegative(Iaj(j, s, n - 1), Gap(s, n - 1));
    }
  }

  /** J - (J + 8) / 16 is monotone, so the update cannot overshoot 16 times a bound on d. */
  lemma IajStepBounded(j: int, d: int, bound: int)
    requires 0 <= d <= bound && j <= 16 * bound
    ensures IajStep(j, d) <= 16 * bound
  {
    assert (16 * bound + 8) / 16 == bound;
    assert j - (j + 8) / 16 <= 16 * bound - (16 * bound + 8) / 16;
  }

  /**
   * The scaled accumulator never exceeds 16 times any bound on the gaps; from
   * J = 0 the RFC's jitter J/16 is thus at most the worst jitter.
   */
  lemma {:induction false} IajBounded(j: int, s: seq<int>, n: nat, bound: int)
    requires n <= |s| && WorstJitter(s, n) <= bound && j <= 16 * bound
    ensures Iaj(j, s, n) <= 16 * bound
  {
    if n > 1 {
      WorstJitterIsMaxGap(s, n - 1);
      WorstJitterIsMaxGap(s, n);
      IajBounded(j, s, n - 1, bound);
      IajStepBounded(Iaj(j, s, n - 1), Gap(s, n - 1), bound);
    }
  }
}
