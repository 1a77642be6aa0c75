/** The generic retry helper: a policy with jittered exponential delays and the loop that follows it. */
module Retry {
  import opened Basics

  datatype Policy = Policy(attempts: int, base: real, cap: real, jitter: bool, factor: real)

  /** How one call of the wrapped function ends; `Fatal` is an exception outside the retryable ones. */
  datatype Call<V> = Value(v: V) | Retryable(exc: nat) | Fatal(exc: nat)

  /** How the helper ends; `RaisedNothing` is its `raise None`, a TypeError. */
  datatype Ending<V> = Returned(v: V) | Raised(exc: nat) | RaisedNothing

  function Power(x: real, n: nat): real { if n == 0 then 1.0 else x * Power(x, n - 1) }

  function Plain(p: Policy, attempt: nat): real
    requires attempt >= 1
  {
    var d := p.base * Power(p.factor, attempt - 1);
    if d <= p.cap then d else p.cap
  }

  /** The delay after failed attempt `attempt`; `draw` is the random number it uses. */
  function DelayForAttempt(p: Policy, attempt: nat, draw: real): real
    requires attempt >= 1
  {
    if p.jitter then Plain(p, attempt) * (0.5 + draw * 0.5) else Plain(p, attempt)
  }

  function MaxRetries(p: Policy): nat { Max(0, p.attempts - 1) }

  /** The loop stops after call n: all calls before it were retryable, and it was not, or was the last allowed. */
  predicate StopsAt<V(!new)>(p: Policy, calls: nat -> Call<V>, n: nat)
  {
    && (forall i :: 1 <= i < n ==> calls(i).Retryable?)
    && (if n == 0 then p.attempts <= 0 else n <= p.attempts && (calls(n).Retryable? ==> n == p.attempts))
  }

  /** At most one n qualifies, so the postcondition of the loop determines how often it calls. */
  lemma StopsOnce<V(!new)>(p: Policy, calls: nat -> Call<V>, n: nat, k: nat)
    requires StopsAt(p, calls, n) && StopsAt(p, calls, k)
    ensures n == k
  {
    assert 0 < n < k ==> calls(n).Retryable?;
    assert 0 < k < n ==> calls(k).Retryable?;
  }

  method ExponentialBackoffWithJitter<V(!new)>(p: Policy, calls: nat -> Call<V>, draws: nat -> real)
    returns (r: Ending<V>, made: nat, sleeps: seq<real>)
    ensures StopsAt(p, calls, made)
    ensures made <= MaxRetries(p) + 1 && |sleeps| == Max(0, made - 1)
    ensures forall i :: 0 <= i < |sleeps| ==> sleeps[i] == DelayForAttempt(p, i + 1, draws(i + 1))
    ensures made == 0 <==> r.RaisedNothing?
    ensures made > 0 ==>
        r == match calls(made) case Value(v) => Returned(v) case Retryable(e) => Raised(e) case Fatal(e) => Raised(e)
  {
    r, made, sleeps := RaisedNothing, 0, [];
    var attempt := 1;
    while attempt <= p.attempts
      invariant attempt >= 1 && made == attempt - 1 == |sleeps|
      invariant made <= Max(0, p.attempts) && (made > 0 ==> made < p.attempts)
      invariant r == if made == 0 then RaisedNothing
          else match calls(made) case Retryable(e) => Raised(e) case _ => RaisedNothing
      invariant forall i :: 1 <= i <= made ==> calls(i).Retryable?
      invariant forall i :: 0 <= i < |sleeps| ==> sleeps[i] == DelayForAttempt(p, i + 1, draws(i + 1))
    {
      made := attempt;
      match calls(attempt) {
        case Value(v) => return Returned(v), made, sleeps;
        case Fatal(e) => return Raised(e), made, sleeps;
        case Retryable(e) => r := Raised(e);
      }
      if attempt == p.attempts { break; }
      sleeps := sleeps + [DelayForAttempt(p, attempt, draws(attempt))];
      attempt := attempt + 1;
    }
  }

  function Sum(s: seq<real>): real { if s == [] then 0.0 else Sum(s[..|s| - 1]) + s[|s| - 1] }

  lemma {:induction false} PowerNonNegative(x: real, n: nat)
    requires x >= 0.0
    ensures Power(x, n) >= 0.0
  {
    if n > 0 { PowerNonNegative(x, n - 1); }
  }

  lemma Scaled(full: real, draw: real)
    requires full >= 0.0 && 0.0 <= draw <= 1.0
    ensures full / 2.0 <= full * (0.5 + draw * 0.5) <= full
  {
    Times(full, 0.5, 0.5 + draw * 0.5);
    Times(full, 0.5 + draw * 0.5, 1.0);
  }

  lemma Times(f: real, a: real, b: real)
    requires f >= 0.0 && a <= b
    ensures f * a <= f * b
  {
  }

  lemma PlainRange(p: Policy, attempt: nat)
    requires attempt >= 1 && p.base >= 0.0 && p.factor >= 0.0 && p.cap >= 0.0
    ensures 0.0 <= Plain(p, attempt) <= p.cap && Plain(p, attempt) <= p.base * Power(p.factor, attempt - 1)
  {
    PowerNonNegative(p.factor, attempt - 1);
    Times(p.base, 0.0, Power(p.factor, attempt - 1));
  }

  /** A delay lies between half of the plain one and all of it, and never above the cap. */
  lemma DelayRange(p: Policy, attempt: nat, draw: real)
    requires attempt >= 1 && 0.0 <= draw <= 1.0 && p.base >= 0.0 && p.factor >= 0.0 && p.cap >= 0.0
    ensures 0.0 <= Plain(p, attempt) / 2.0 <= DelayForAttempt(p, attempt, draw) <= Plain(p, attempt) <= p.cap
  {
    PlainRange(p, attempt);
    var full := Plain(p, attempt);
    Scaled(full, draw);
    assert DelayForAttempt(p, attempt, draw) == if p.jitter then full * (0.5 + draw * 0.5) else full;
  }

  /** Sleeps the policy can produce with random numbers between 0 and 1. */
  ghost predicate Follows(p: Policy, draws: nat -> real, sleeps: seq<real>)
  {
    && (forall i :: 0.0 <= draws(i) <= 1.0)
    && (forall i :: 0 <= i < |sleeps| ==> sleeps[i] == DelayForAttempt(p, i + 1, draws(i + 1)))
  }

  /** base, base * factor, base * factor^2, ... */
  function Term(base: real, factor: real, i: nat): real { base * Power(factor, i) }

  /** The sum of the first n terms: the sleeping without cap and jitter. */
  function Series(base: real, factor: real, n: nat): real
  {
    if n == 0 then 0.0 else Series(base, factor, n - 1) + Term(base, factor, n - 1)
  }

  lemma NextTerm(base: real, factor: real, i: nat)
    ensures Term(base, factor, i + 1) == factor * Term(base, factor, i)
  {
  }

  /** The closed form, written without a division so that factor 1 needs no case of its own. */
  lemma {:induction false} SeriesClosed(base: real, factor: real, n: nat)
    ensures factor * Series(base, factor, n) + base == Series(base, factor, n) + Term(base, factor, n)
  {
    if n > 0 {
      SeriesClosed(base, factor, n - 1);
      NextTerm(base, factor, n - 1);
      assert factor * (Series(base, factor, n - 1) + Term(base, factor, n - 1))
          == factor * Series(base, factor, n - 1) + factor * Term(base, factor, n - 1);
    }
  }

  lemma {:induction false} SumBelowSeries(s: seq<real>, base: real, factor: real)
    requires forall i :: 0 <= i < |s| ==> 0.0 <= s[i] <= Term(base, factor, i)
    ensures 0.0 <= Sum(s) <= Series(base, factor, |s|)
  {
    if s != [] { SumBelowSeries(s[..|s| - 1], base, factor); }
  }

  lemma {:induction false} SumBelowCap(s: seq<real>, cap: real)
    requires forall i :: 0 <= i < |s| ==> s[i] <= cap
    ensures Sum(s) <= |s| as real * cap
  {
    if s != [] {
      var n := |s| - 1;
      SumBelowCap(s[..n], cap);
      assert |s| as real == n as real + 1.0;
    }
  }

  lemma DelayBelowTerm(p: Policy, i: nat, draw: real)
    requires 0.0 <= draw <= 1.0 && p.base >= 0.0 && p.factor >= 0.0 && p.cap >= 0.0
    ensures 0.0 <= DelayForAttempt(p, i + 1, draw) <= p.cap
    ensures DelayForAttempt(p, i + 1, draw) <= Term(p.base, p.factor, i)
  {
    DelayRange(p, i + 1, draw);
    PlainRange(p, i + 1);
    assert p.base * Power(p.factor, (i + 1) - 1) == Term(p.base, p.factor, i);
  }

  lemma EachSleepBelow(p: Policy, draws: nat -> real, sleeps: seq<real>, i: nat)
    requires p.base >= 0.0 && p.factor >= 0.0 && p.cap >= 0.0 && Follows(p, draws, sleeps) && i < |sleeps|
    ensures 0.0 <= sleeps[i] <= p.cap && sleeps[i] <= Term(p.base, p.factor, i)
  {
    assert 0.0 <= draws(i + 1) <= 1.0;
    DelayBelowTerm(p, i, draws(i + 1));
  }

  lemma SleepBelowSeries(p: Policy, draws: nat -> real, sleeps: seq<real>)
    requires p.base >= 0.0 && p.factor >= 0.0 && p.cap >= 0.0 && Follows(p, draws, sleeps)
    ensures 0.0 <= Sum(sleeps) <= Series(p.base, p.factor, |sleeps|)
  {
    forall i | 0 <= i < |sleeps| ensures 0.0 <= sleeps[i] <= Term(p.base, p.factor, i) {
      EachSleepBelow(p, draws, sleeps, i);
    }
    SumBelowSeries(sleeps, p.base, p.factor);
  }

  lemma SleepBelowCap(p: Policy, draws: nat -> real, sleeps: seq<real>)
    requires p.base >= 0.0 && p.factor >= 0.0 && p.cap >= 0.0 && Follows(p, draws, sleeps)
    ensures Sum(sleeps) <= |sleeps| as real * p.cap
  {
    forall i | 0 <= i < |sleeps| ensures sleeps[i] <= p.cap { EachSleepBelow(p, draws, sleeps, i); }
    SumBelowCap(sleeps, p.cap);
  }

  /** All sleeping together: at most the geometric series, and linear in the cap. */
  lemma SleepBound(p: Policy, draws: nat -> real, sleeps: seq<real>)
    requires p.base >= 0.0 && p.factor >= 0.0 && p.cap >= 0.0 && Follows(p, draws, sleeps)
    ensures 0.0 <= Sum(sleeps) <= Series(p.base, p.factor, |sleeps|)
    ensures Sum(sleeps) <= |sleeps| as real * p.cap
  {
    SleepBelowSeries(p, draws, sleeps);
    SleepBelowCap(p, draws, sleeps);
  }

  /** Without jitter, and as long as the cap does not bite, it is exactly that series. */
  lemma {:induction false} SleepExactly(p: Policy, draws: nat -> real, sleeps: seq<real>)
    requires !p.jitter && Follows(p, draws, sleeps)
    requires forall i :: 1 <= i <= |sleeps| ==> Plain(p, i) < p.cap
    ensures Sum(sleeps) == Series(p.base, p.factor, |sleeps|)
  {
    var n := |sleeps| - 1;
    if n >= 0 {
      SleepExactly(p, draws, sleeps[..n]);
      assert Plain(p, n + 1) < p.cap;
    }
  }

  /** How the loop stops, told by the calls alone. */
  lemma StopLaws<V(!new)>(p: Policy, calls: nat -> Call<V>, n: nat)
    requires StopsAt(p, calls, n)
    ensures n == 0 <==> p.attempts <= 0
    ensures p.attempts > 0 ==> 1 <= n <= p.attempts && MaxRetries(p) == p.attempts - 1
    ensures p.attempts <= 0 ==> MaxRetries(p) == 0
    ensures forall i :: 1 <= i < n ==> calls(i).Retryable?
    ensures 0 < n < p.attempts ==> calls(n).Value? || calls(n).Fatal?
  {
  }

  /** A random number d of a jittered policy places the delay that far between half and all of the plain one. */
  lemma JitterLaws(p: Policy, attempt: nat, draw: real)
    requires attempt >= 1
    ensures p.jitter ==> DelayForAttempt(p, attempt, draw) == Plain(p, attempt) / 2.0 + draw * (Plain(p, attempt) / 2.0)
    ensures !p.jitter ==> DelayForAttempt(p, attempt, draw) == Plain(p, attempt)
  {
    var full := Plain(p, attempt);
    assert full * (0.5 + draw * 0.5) == full / 2.0 + draw * (full / 2.0);
  }

  /** The plain delays: base at first, the factor more each time, and the cap once that exceeds it. */
  lemma PlainLaws(p: Policy, attempt: nat)
    requires attempt >= 1
    ensures p.base <= p.cap ==> Plain(p, 1) == p.base
    ensures p.base * Power(p.factor, attempt) >= p.cap ==> Plain(p, attempt + 1) == p.cap
    ensures Plain(p, attempt) < p.cap && p.factor * Plain(p, attempt) <= p.cap ==>
      Plain(p, attempt + 1) == p.factor * Plain(p, attempt)
  {
    var before := Power(p.factor, attempt - 1);
    assert Power(p.factor, attempt) == p.factor * before;
    assert p.base * (p.factor * before) == p.factor * (p.base * before);
    assert Power(p.factor, 0) == 1.0 && p.base * 1.0 == p.base;
  }
}
