/**
 The capped exponential delay of the notification retry loop, in whole clock ticks:
 before attempt n (n >= 2) the sender sleeps min(base * 2^(n-1), cap).
 */
module Backoff {
  import opened Basics

  datatype Delays = Delays(base: int, cap: int)

  function Before(d: Delays, attempt: nat): int
    requires attempt >= 1
  {
    Min(d.base * Pow2(attempt - 1), d.cap)
  }

  /** Sum of the sleeps taken before attempts 2..n. */
  function Total(d: Delays, n: nat): int
  {
    if n <= 1 then 0 else Total(d, n - 1) + Before(d, n)
  }

  /** The closed bound on all sleeping: geometric while uncapped, linear in the cap. */
  lemma {:induction false} TotalBound(d: Delays, n: nat)
    requires n >= 1
    ensures Total(d, n) <= d.base * (Pow2(n) - 2)
    ensures Total(d, n) <= (n - 1) * d.cap
  {
    if n > 1 {
      TotalBound(d, n - 1);
      assert d.base * (Pow2(n - 1) - 2) + d.base * Pow2(n - 1) == d.base * (Pow2(n) - 2);
      assert (n - 2) * d.cap + d.cap == (n - 1) * d.cap;
    }
  }

  /** The bound is met with equality when the cap never bites. */
  lemma {:induction false} TotalUncapped(d: Delays, n: nat)
    requires n >= 1
    requires forall i {:trigger Pow2(i)} :: 1 <= i < n ==> d.base * Pow2(i) <= d.cap
    ensures Total(d, n) == d.base * (Pow2(n) - 2)
  {
    if n > 1 {
      TotalUncapped(d, n - 1);
      assert Before(d, n) == d.base * Pow2(n - 1);
    }
  }

  /** Once every sleep reaches the cap, the linear bound is met with equality. */
  lemma {:induction false} TotalCapped(d: Delays, n: nat)
    requires n >= 1
    requires forall i {:trigger Pow2(i)} :: 1 <= i < n ==> d.base * Pow2(i) >= d.cap
    ensures Total(d, n) == (n - 1) * d.cap
  {
    if n > 1 {
      TotalCapped(d, n - 1);
      assert Before(d, n) == d.cap by { assert d.base * Pow2(n - 1) >= d.cap; }
      assert (n - 2) * d.cap + d.cap == (n - 1) * d.cap;
    }
  }

  lemma {:induction false} Pow2Positive(n: nat)
    ensures Pow2(n) >= 1
  {
    if n > 0 { Pow2Positive(n - 1); }
  }
}
