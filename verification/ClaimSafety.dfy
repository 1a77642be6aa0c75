/**
 The send claim over every run: while the claim store answers, no database write fails after an
 acceptance and every acceptance is reported, the provider accepts a dedup key at most once in any
 window as long as a claim's lifetime, whatever sessions, rollbacks, crashes and redeliveries do.
 */
module ClaimSafety {
  import opened Basics
  import opened Backoff
  import opened Delivery

  function Attempts(c: Config): nat { Max(c.retries, 0) + 1 }

  /** Time after its claim by which a send is over: all calls and all sleeps. */
  function Span(c: Config, n: nat): int { n * c.callTime + Total(c.delays, n) }

  /** A claim outlives the longest send. */
  predicate Timely(c: Config)
  {
    c.callTime >= 0 && c.delays.base >= 0 && c.delays.cap >= 0 && Span(c, Attempts(c)) < c.ttl
  }

  predicate FaultFree(f: Faults)
  {
    !f.claimUnanswered && !f.claimAnswerLost && !f.writeAfterAccept && !f.acceptanceUnseen
  }

  /** Two acceptances of one key come from claims taken at least `ttl` apart. */
  ghost predicate OncePerWindow(log: seq<Acceptance>, ttl: int)
  {
    forall i, j :: 0 <= i < j < |log| && log[i].key == log[j].key ==> log[i].at + ttl <= log[j].at
  }

  /** The simple sufficient bound on the settings, with every sleep as long as its cap. */
  lemma SimpleBoundIsTimely(c: Config)
    requires c.callTime >= 0 && c.delays.base >= 0 && c.delays.cap >= 0 && c.retries >= 0
    requires (c.retries + 1) * c.callTime + c.retries * c.delays.cap < c.ttl
    ensures Timely(c)
  {
    TotalBound(c.delays, c.retries + 1);
  }

  lemma {:induction false} SpanMonotone(c: Config, m: nat, n: nat)
    requires Timely(c) && 1 <= m <= n
    ensures Span(c, m) <= Span(c, n)
  {
    if m < n {
      SpanMonotone(c, m, n - 1);
      Pow2Positive(n - 1);
      assert Before(c.delays, n) >= 0;
      assert (n - 1) * c.callTime + c.callTime == n * c.callTime;
    }
  }

  // ---- invariant ----

  /** Latest end of the current stage, counted from the claim. */
  function StageSpan(c: Config, g: Stage): int
  {
    match g
    case Preparing(_) => Span(c, 1)
    case Calling(n, _) => Span(c, n)
    case Sleeping(n, _) => Span(c, n) - c.callTime
    case Recording(_) => Span(c, Attempts(c))
    case Failing(_) => Span(c, Attempts(c))
  }

  predicate AttemptOk(c: Config, g: Stage)
  {
    match g
    case Calling(n, _) => 1 <= n <= Attempts(c) && c.retries >= 0
    case Sleeping(n, _) => 2 <= n <= Attempts(c)
    case _ => true
  }

  ghost predicate SendOk(c: Config, s: State, sid: nat, x: Send)
  {
    && x.claimed && x.key in s.claims && s.claims[x.key] == Claim(sid, x.at + c.ttl)
    && 0 <= x.at <= s.now <= x.stage.deadline <= x.at + StageSpan(c, x.stage)
    && AttemptOk(c, x.stage)
    && forall i :: 0 <= i < |s.accepted| && s.accepted[i].key == x.key ==>
         s.accepted[i].at + c.ttl <= x.at || (x.stage.Recording? && s.accepted[i].at == x.at)
  }

  ghost predicate AcceptedOk(c: Config, s: State, a: Acceptance)
  {
    && 0 <= a.at <= s.now
    && (a.at + c.ttl <= s.now || (a.key in s.claims && s.claims[a.key].expires == a.at + c.ttl))
  }

  ghost predicate ClaimInv(c: Config, s: State)
  {
    && 0 <= s.now
    && (forall t :: t in s.sends ==> SendOk(c, s, t, s.sends[t]))
    && (forall i :: 0 <= i < |s.accepted| ==> AcceptedOk(c, s, s.accepted[i]))
    && OncePerWindow(s.accepted, c.ttl)
  }

  /** The end of any stage lies before the claim's expiry. */
  lemma StageEndsInTime(c: Config, g: Stage)
    requires Timely(c) && AttemptOk(c, g)
    ensures StageSpan(c, g) < c.ttl
  {
    match g
    case Calling(n, _) => SpanMonotone(c, n, Attempts(c));
    case Sleeping(n, _) => SpanMonotone(c, n, Attempts(c));
    case _ => SpanMonotone(c, 1, Attempts(c));
  }

  /** Two sends in flight never share a key. */
  lemma KeysDiffer(c: Config, s: State, t: nat, u: nat)
    requires ClaimInv(c, s) && t in s.sends && u in s.sends && t != u
    ensures s.sends[t].key != s.sends[u].key
  {
    assert SendOk(c, s, t, s.sends[t]);
    assert SendOk(c, s, u, s.sends[u]);
  }

  // ---- steps ----

  lemma ClaimTick(c: Config, s: State, d: int, s': State)
    requires Timely(c) && ClaimInv(c, s) && Step(c, s, Tick(d)) == Some(s')
    ensures ClaimInv(c, s')
    ensures forall t :: t in s.sends ==> s.sends[t].key in s'.claims
  {
    forall t | t in s.sends
      ensures SendOk(c, s', t, s'.sends[t]) && s.sends[t].key in s'.claims
    {
      assert SendOk(c, s, t, s.sends[t]);
      StageEndsInTime(c, s.sends[t].stage);
    }
    forall i | 0 <= i < |s.accepted|
      ensures AcceptedOk(c, s', s'.accepted[i])
    {
      assert AcceptedOk(c, s, s.accepted[i]);
    }
  }

  lemma ClaimAsk(c: Config, s: State, sid: nat, key: string, s': State)
    requires Timely(c) && ClaimInv(c, s) && DoAsk(c, s, sid, key) == Some(s')
    ensures ClaimInv(c, s')
  {
    if key !in s.claims {
      SpanMonotone(c, 1, Attempts(c));
      forall i | 0 <= i < |s.accepted|
        ensures AcceptedOk(c, s', s.accepted[i])
        ensures s.accepted[i].key == key ==> s.accepted[i].at + c.ttl <= s.now
      {
        assert AcceptedOk(c, s, s.accepted[i]);
      }
      forall t | t in s'.sends
        ensures SendOk(c, s', t, s'.sends[t])
      {
        if t != sid { assert SendOk(c, s, t, s.sends[t]); }
      }
    }
  }

  /** A send moves to a stage other than Recording, with nothing accepted. */
  lemma ClaimMoves(c: Config, s: State, sid: nat, g: Stage, s': State)
    requires ClaimInv(c, s) && sid in s.sends
    requires !s.sends[sid].stage.Recording? && AttemptOk(c, g)
    requires s.now <= g.deadline <= s.sends[sid].at + StageSpan(c, g)
    requires s'.sends == s.sends[sid := s.sends[sid].(stage := g)]
    requires s'.now == s.now && s'.claims == s.claims && s'.accepted == s.accepted
    ensures ClaimInv(c, s')
  {
    forall t | t in s'.sends
      ensures SendOk(c, s', t, s'.sends[t])
    {
      assert SendOk(c, s, t, s.sends[t]);
    }
    forall i | 0 <= i < |s.accepted|
      ensures AcceptedOk(c, s', s'.accepted[i])
    {
      assert AcceptedOk(c, s, s.accepted[i]);
    }
  }

  /** A refused attempt leads to a stage that still ends within its span. */
  lemma RefusalInTime(c: Config, now: int, x: Send, retryable: bool)
    requires Timely(c) && x.stage.Calling? && AttemptOk(c, x.stage)
        && 0 <= now <= x.stage.deadline <= x.at + StageSpan(c, x.stage)
    ensures var g := AfterRefusal(c, now, x, retryable).stage;
      !g.Recording? && AttemptOk(c, g) && now <= g.deadline <= x.at + StageSpan(c, g)
  {
    var n := x.stage.attempt;
    SpanMonotone(c, n, Attempts(c));
    Pow2Positive(n);
    assert (n + 1) * c.callTime == n * c.callTime + c.callTime;
  }

  lemma ClaimRefuse(c: Config, s: State, sid: nat, retryable: bool, s': State)
    requires Timely(c) && ClaimInv(c, s) && sid in s.sends && DoRefuse(c, s, sid, retryable, false) == Some(s')
    ensures ClaimInv(c, s')
  {
    var x := s.sends[sid];
    assert SendOk(c, s, sid, x);
    RefusalInTime(c, s.now, x, retryable);
    ClaimMoves(c, s, sid, s'.sends[sid].stage, s');
  }

  lemma ClaimPrepareOrWake(c: Config, s: State, sid: nat, op: SendOp, s': State)
    requires Timely(c) && ClaimInv(c, s) && SendStep(c, s, sid, op) == Some(s')
    requires op.Prepare? || op.RenderFails? || op.Wake?
    ensures ClaimInv(c, s')
  {
    var x := s.sends[sid];
    assert SendOk(c, s, sid, x);
    SpanMonotone(c, 1, Attempts(c));
    ClaimMoves(c, s, sid, s'.sends[sid].stage, s');
  }

  lemma ClaimAccept(c: Config, s: State, sid: nat, s': State)
    requires Timely(c) && ClaimInv(c, s) && sid in s.sends && DoAccept(c, s, sid) == Some(s')
    ensures ClaimInv(c, s')
  {
    var x := s.sends[sid];
    assert SendOk(c, s, sid, x);
    SpanMonotone(c, x.stage.attempt, Attempts(c));
    forall t | t in s'.sends
      ensures SendOk(c, s', t, s'.sends[t])
    {
      assert SendOk(c, s, t, s.sends[t]);
      if t != sid { KeysDiffer(c, s, t, sid); }
    }
    forall i | 0 <= i < |s'.accepted|
      ensures AcceptedOk(c, s', s'.accepted[i])
    {
      if i < |s.accepted| { assert AcceptedOk(c, s, s.accepted[i]); }
    }
  }

  /** A send ends, with or without deleting its claim; deleting requires that nothing was accepted. */
  lemma ClaimEnds(c: Config, s: State, sid: nat, s': State)
    requires ClaimInv(c, s) && s'.sends == s.sends - {sid} && s'.now == s.now && s'.accepted == s.accepted
    requires s'.claims == s.claims
          || (sid in s.sends && !s.sends[sid].stage.Recording? && s'.claims == s.claims - {s.sends[sid].key})
    ensures ClaimInv(c, s')
  {
    forall t | t in s'.sends
      ensures SendOk(c, s', t, s'.sends[t])
    {
      assert SendOk(c, s, t, s.sends[t]);
      if sid in s.sends { KeysDiffer(c, s, t, sid); }
    }
    forall i | 0 <= i < |s.accepted|
      ensures AcceptedOk(c, s', s'.accepted[i])
    {
      assert AcceptedOk(c, s, s.accepted[i]);
      if sid in s.sends { assert SendOk(c, s, sid, s.sends[sid]); }
    }
  }

  lemma ClaimSend(c: Config, s: State, sid: nat, op: SendOp, s': State)
    requires Timely(c) && FaultFree(c.faults) && ClaimInv(c, s) && SendStep(c, s, sid, op) == Some(s')
    ensures ClaimInv(c, s')
  {
    match op
    case Ask(key) => ClaimAsk(c, s, sid, key, s');
    case Accept => ClaimAccept(c, s, sid, s');
    case Refuse(retryable) => ClaimRefuse(c, s, sid, retryable, s');
    case Record => ClaimEnds(c, s, sid, s');
    case Release(_) => assert SendOk(c, s, sid, s.sends[sid]); ClaimEnds(c, s, sid, s');
    case AskUnanswered(_) =>
    case AskAnswerLost(_) =>
    case AcceptUnseen(_) =>
    case RecordRaises(_) =>
    case _ => ClaimPrepareOrWake(c, s, sid, op, s');
  }

  lemma ClaimFrame(c: Config, s: State, s': State)
    requires ClaimInv(c, s)
    requires s'.sends == s.sends && s'.claims == s.claims && s'.accepted == s.accepted && s'.now == s.now
    ensures ClaimInv(c, s')
  {
    forall t | t in s'.sends ensures SendOk(c, s', t, s'.sends[t]) { assert SendOk(c, s, t, s.sends[t]); }
    forall i | 0 <= i < |s.accepted| ensures AcceptedOk(c, s', s'.accepted[i]) {
      assert AcceptedOk(c, s, s.accepted[i]);
    }
  }

  lemma ClaimUntouched(c: Config, s: State, a: Action, s': State)
    requires Step(c, s, a) == Some(s') && !a.Sending? && !a.Tick? && !a.Crash?
    ensures s'.sends == s.sends && s'.claims == s.claims && s'.accepted == s.accepted && s'.now == s.now
  {
  }

  lemma ClaimStep(c: Config, s: State, a: Action, s': State)
    requires Timely(c) && FaultFree(c.faults) && ClaimInv(c, s) && Step(c, s, a) == Some(s')
    ensures ClaimInv(c, s')
  {
    match a
    case Sending(sid, op) => ClaimSend(c, s, sid, op, s');
    case Tick(d) => ClaimTick(c, s, d, s');
    case Crash(sid) => ClaimEnds(c, s, sid, s');
    case _ =>
      ClaimUntouched(c, s, a, s');
      ClaimFrame(c, s, s');
  }

  // ---- theorems over all runs ----

  lemma {:induction false} ClaimInvHolds(c: Config, acts: seq<Action>, s: State)
    requires Timely(c) && FaultFree(c.faults) && Run(c, acts) == Some(s)
    ensures ClaimInv(c, s)
  {
    if acts != [] {
      var prior := Run(c, acts[..|acts| - 1]).value;
      ClaimInvHolds(c, acts[..|acts| - 1], prior);
      ClaimStep(c, prior, acts[|acts| - 1], s);
    }
  }

  /** Each dedup key is accepted at most once per claim lifetime, over all runs. */
  lemma AtMostOneAcceptance(c: Config, s: State)
    requires Timely(c) && FaultFree(c.faults) && Reachable(c, s)
    ensures OncePerWindow(s.accepted, c.ttl)
    ensures s.now < c.ttl ==> forall i, j :: 0 <= i < j < |s.accepted| ==> s.accepted[i].key != s.accepted[j].key
  {
    var acts :| Run(c, acts) == Some(s);
    ClaimInvHolds(c, acts, s);
    forall i, j | 0 <= i < j < |s.accepted| && s.accepted[i].key == s.accepted[j].key
      ensures s.now >= c.ttl
    {
      assert AcceptedOk(c, s, s.accepted[i]) && AcceptedOk(c, s, s.accepted[j]);
    }
  }

  /**
   No claim expires under its owner: a send in flight still owns its key, whatever time has passed, so
   the unconditional delete at its end removes its own claim and no other session's.
   */
  lemma ClaimOutlivesItsSend(c: Config, s: State, sid: nat)
    requires Timely(c) && FaultFree(c.faults) && Reachable(c, s) && sid in s.sends
    ensures s.sends[sid].key in s.claims && s.claims[s.sends[sid].key].owner == sid
    ensures s.now < s.claims[s.sends[sid].key].expires
  {
    var acts :| Run(c, acts) == Some(s);
    ClaimInvHolds(c, acts, s);
    assert SendOk(c, s, sid, s.sends[sid]);
    StageEndsInTime(c, s.sends[sid].stage);
  }

  /**
   After an acceptance, for as long as a claim lives, every session that asks for the key is
   suppressed: it is told SENT and nothing changes.
   */
  lemma AcceptedKeyIsSuppressed(c: Config, s: State, i: nat, sid: nat)
    requires Timely(c) && FaultFree(c.faults) && Reachable(c, s)
    requires i < |s.accepted| && s.now < s.accepted[i].at + c.ttl
    requires sid !in s.sends && sid in s.workers && s.workers[sid].phase.Running?
    ensures s.accepted[i].key in s.claims
    ensures Step(c, s, Sending(sid, Ask(s.accepted[i].key))) == Some(s)
  {
    var acts :| Run(c, acts) == Some(s);
    ClaimInvHolds(c, acts, s);
    assert AcceptedOk(c, s, s.accepted[i]);
  }
}
