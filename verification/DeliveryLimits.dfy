/**
 Where the delivery guarantees end: each hypothesis of the at-most-once theorem is needed, and the
 status of an event row, unlike the processing rows, is not stable.
 */
module DeliveryLimits {
  import opened Basics
  import opened Backoff
  import opened Tables
  import opened Delivery
  import opened ClaimSafety

  lemma Take(c: Config, s: State, a: Action) returns (s': State)
    requires Reachable(c, s) && Step(c, s, a).Some?
    ensures s' == Step(c, s, a).value && Reachable(c, s')
  {
    var acts :| Run(c, acts) == Some(s);
    s' := Step(c, s, a).value;
    assert (acts + [a])[..|acts|] == acts;
    assert Run(c, acts + [a]) == Some(s');
  }

  lemma InitialReachable(c: Config)
    ensures Reachable(c, Initial())
  {
    assert Run(c, []) == Some(Initial());
  }

  /** No session and no durable row knows the event. */
  ghost predicate FreshEvent(s: State, e: string)
  {
    && (forall k :: k in s.db.rows ==> k.event != e)
    && (forall t, k :: t in s.workers && k in s.workers[t].overlay.rows ==> k.event != e)
  }

  /** Only session sid and the bookkeeping of its event differ. */
  ghost predicate OthersKept(s: State, s': State, sid: nat)
  {
    && s'.sends == s.sends && s'.claims == s.claims && s'.accepted == s.accepted && s'.now == s.now
    && (forall m :: m in s.queue ==> m in s'.queue && s'.queue[m] == s.queue[m])
    && (forall t :: t in s.workers ==> t in s'.workers && (t != sid ==> s'.workers[t] == s.workers[t]))
    && (forall t :: t in s'.workers ==> t in s.workers || t == sid)
  }

  /** A session takes its message up to the routing loop. */
  lemma ToRouting(c: Config, s: State, sid: nat, mid: nat) returns (s': State)
    requires Reachable(c, s) && sid !in s.workers && mid in s.queue
    requires s.queue[mid].Valid? && Handlers(c, s.queue[mid]) != []
    ensures Reachable(c, s') && OthersKept(s, s', sid) && s'.queue == s.queue && s'.deleted == s.deleted
    ensures sid in s'.workers
        && s'.workers[sid] == Worker(mid, Routing(0, false), NO_WRITES.(event := Some(EvProcessing)))
    ensures s'.db.rows == s.db.rows
  {
    s' := Take(c, s, Receive(sid, mid));
    s' := Take(c, s', Persist(sid));
    s' := Take(c, s', Resolve(sid));
  }

  /** ... and acquires its first handler when nobody holds the pair. */
  lemma ToRunning(c: Config, s: State, sid: nat, mid: nat) returns (s': State)
    requires Reachable(c, s) && sid !in s.workers && mid in s.queue
    requires s.queue[mid].Valid? && Handlers(c, s.queue[mid]) != [] && FreshEvent(s, s.queue[mid].event)
    ensures Reachable(c, s') && OthersKept(s, s', sid) && s'.queue == s.queue && s'.deleted == s.deleted
    ensures sid in s'.workers && s'.workers[sid].mid == mid
    ensures s'.workers[sid].phase.Running? && s'.workers[sid].phase.i == 0 && !s'.workers[sid].phase.failed
    ensures var k := PKey(s.queue[mid].event, Handlers(c, s.queue[mid])[0]);
      s'.workers[sid].overlay.rows == map[k := ProcRow(s'.workers[sid].phase.id, Processing)]
    ensures s'.db.rows == s.db.rows
  {
    s' := ToRouting(c, s, sid, mid);
    s' := Take(c, s', Lookup(sid));
    s' := Take(c, s', Insert(sid));
  }

  /** Session sid runs its first handler and can send. */
  ghost predicate CanSend(c: Config, s: State, sid: nat)
  {
    Active(s, sid) && MsgOf(s, sid).Valid? && Handlers(c, MsgOf(s, sid)) != []
    && s.workers[sid].phase.Running? && s.workers[sid].phase.i == 0
  }

  /** From a claim (or the lack of one) to the provider's acceptance. */
  lemma ToAccepted(c: Config, s: State, sid: nat) returns (s': State)
    requires Reachable(c, s) && c.retries >= 0 && CanSend(c, s, sid)
    requires sid in s.sends && s.sends[sid].stage.Preparing?
    ensures Reachable(c, s') && CanSend(c, s', sid) && s'.now == s.now && s'.claims == s.claims
    ensures s'.accepted == s.accepted + [Acceptance(s.sends[sid].key, s.sends[sid].at)]
    ensures sid in s'.sends && s'.sends[sid].stage.Recording?
        && s'.sends == s.sends[sid := s.sends[sid].(stage := s'.sends[sid].stage)]
    ensures s'.queue == s.queue && forall t :: t in s.workers && t != sid ==>
        t in s'.workers && s'.workers[t] == s.workers[t]
  {
    s' := Take(c, s, Sending(sid, Prepare));
    s' := Take(c, s', Sending(sid, Accept));
  }

  /** A first running session in an otherwise empty system. */
  lemma OneSession(c: Config, t: string) returns (s: State)
    requires t in c.registry && c.registry[t] != []
    ensures Reachable(c, s) && CanSend(c, s, 0)
    ensures s.sends == map[] && s.claims == map[] && s.accepted == [] && s.now == 0
    ensures s.queue == map[0 := Valid("a", t)] && s.db.rows == map[] && s.workers.Keys == {0}
    ensures s.workers[0].overlay.rows == map[PKey("a", c.registry[t][0]) := ProcRow(s.workers[0].phase.id, Processing)]
    ensures !s.workers[0].phase.failed && s.workers[0].mid == 0
  {
    InitialReachable(c);
    s := Take(c, Initial(), Post(0, Valid("a", t)));
    assert FreshEvent(s, "a");
    var s1 := ToRunning(c, s, 0, 0);
    assert s1.workers.Keys == {0};
    s := s1;
  }

  /** Redis not answering the claim lets a key through twice. */
  lemma UnansweredClaimSendsTwice(c: Config, t: string) returns (s: State)
    requires c.retries >= 0 && t in c.registry && c.registry[t] != [] && c.faults.claimUnanswered
    ensures Reachable(c, s) && s.accepted == [Acceptance("k", 0), Acceptance("k", 0)]
  {
    s := OneSession(c, t);
    s := Take(c, s, Sending(0, AskUnanswered("k")));
    s := ToAccepted(c, s, 0);
    s := Take(c, s, Sending(0, Record));
    s := Take(c, s, Sending(0, AskUnanswered("k")));
    s := ToAccepted(c, s, 0);
  }

  /** So does a claim that is taken while its answer is lost. */
  lemma LostClaimAnswerSendsTwice(c: Config, t: string) returns (s: State)
    requires c.retries >= 0 && t in c.registry && c.registry[t] != [] && c.faults.claimAnswerLost
    ensures Reachable(c, s) && s.accepted == [Acceptance("k", 0), Acceptance("k", 0)]
  {
    s := OneSession(c, t);
    s := Take(c, s, Sending(0, AskAnswerLost("k")));
    s := ToAccepted(c, s, 0);
    s := Take(c, s, Sending(0, Record));
    s := Take(c, s, Sending(0, AskAnswerLost("k")));
    s := ToAccepted(c, s, 0);
  }

  /** A database write that raises after the acceptance releases the claim of a delivered message. */
  lemma LateWriteFailureSendsTwice(c: Config, t: string) returns (s: State)
    requires c.retries >= 0 && t in c.registry && c.registry[t] != [] && c.faults.writeAfterAccept
    ensures Reachable(c, s) && s.accepted == [Acceptance("k", 0), Acceptance("k", 0)]
  {
    s := OneSession(c, t);
    s := Take(c, s, Sending(0, Ask("k")));
    s := ToAccepted(c, s, 0);
    s := Take(c, s, Sending(0, RecordRaises(false)));
    s := Take(c, s, Sending(0, Ask("k")));
    s := ToAccepted(c, s, 0);
  }

  /** An attempt that the provider accepts while the caller sees a failure. */
  lemma ToUnseen(c: Config, s: State) returns (s': State)
    requires Reachable(c, s) && c.retries >= 0 && CanSend(c, s, 0) && c.faults.acceptanceUnseen
    requires s.sends == map[0 := Send("k", true, 0, Preparing(c.callTime))] && s.accepted == []
    ensures Reachable(c, s') && CanSend(c, s', 0) && s'.claims == s.claims && s'.now == s.now
    ensures s'.accepted == [Acceptance("k", 0)] && s'.sends == map[0 := Send("k", true, 0, Failing(c.callTime))]
  {
    s' := Take(c, s, Sending(0, Prepare));
    s' := Take(c, s', Sending(0, AcceptUnseen(false)));
  }

  /** The claim of a message that the provider has accepted is released. */
  lemma AcceptedUnseen(c: Config, t: string) returns (s: State)
    requires c.retries >= 0 && t in c.registry && c.registry[t] != [] && c.faults.acceptanceUnseen
    ensures Reachable(c, s) && CanSend(c, s, 0) && s.sends == map[] && s.claims == map[]
    ensures s.accepted == [Acceptance("k", 0)] && s.now == 0
  {
    s := OneSession(c, t);
    s := Take(c, s, Sending(0, Ask("k")));
    s := ToUnseen(c, s);
    s := Take(c, s, Sending(0, Release(false)));
  }

  /** Such a message is sent again. */
  lemma UnseenAcceptanceSendsTwice(c: Config, t: string) returns (s: State)
    requires c.retries >= 0 && t in c.registry && c.registry[t] != [] && c.faults.acceptanceUnseen
    ensures Reachable(c, s) && s.accepted == [Acceptance("k", 0), Acceptance("k", 0)]
  {
    s := AcceptedUnseen(c, t);
    s := Take(c, s, Sending(0, Ask("k")));
    s := ToAccepted(c, s, 0);
  }

  lemma TwoSessions(c: Config, t: string) returns (s: State)
    requires t in c.registry && c.registry[t] != []
    ensures Reachable(c, s) && CanSend(c, s, 0) && CanSend(c, s, 1)
    ensures s.sends == map[] && s.claims == map[] && s.accepted == [] && s.now == 0
  {
    s := OneSession(c, t);
    s := Take(c, s, Post(1, Valid("b", t)));
    assert FreshEvent(s, "b");
    s := ToRunning(c, s, 1, 1);
  }

  /** Session 0 has just begun attempt n of a send whose earlier attempts all took their full time and failed. */
  ghost predicate OnAttempt(c: Config, s: State, n: nat)
  {
    && Reachable(c, s) && CanSend(c, s, 0) && CanSend(c, s, 1) && s.accepted == []
    && s.sends == map[0 := Send("k", true, 0, Calling(n, Span(c, n)))] && s.now == Span(c, n) - c.callTime
    && forall k :: k in s.claims ==> s.claims[k].expires == c.ttl
  }

  lemma FirstAttempt(c: Config, t: string) returns (s: State)
    requires t in c.registry && c.registry[t] != [] && c.retries >= 0
    ensures OnAttempt(c, s, 1)
  {
    s := TwoSessions(c, t);
    s := Take(c, s, Sending(0, Ask("k")));
    s := Take(c, s, Sending(0, Prepare));
    assert Span(c, 1) == c.callTime;
  }

  /** The attempt uses up its time. */
  lemma TimePasses(c: Config, s: State, n: nat) returns (s': State)
    requires OnAttempt(c, s, n) && c.callTime >= 0
    ensures Reachable(c, s') && CanSend(c, s', 0) && CanSend(c, s', 1) && s'.accepted == []
    ensures s'.sends == s.sends && s'.now == Span(c, n)
    ensures forall k :: k in s'.claims ==> s'.now < s'.claims[k].expires == c.ttl
  {
    s' := Take(c, s, Tick(c.callTime));
  }

  /** ... fails, and the sender goes to sleep. */
  lemma FallsAsleep(c: Config, s: State, n: nat) returns (s': State)
    requires OnAttempt(c, s, n) && 1 <= n < c.retries + 1 && c.callTime >= 0
    ensures Reachable(c, s') && CanSend(c, s', 0) && CanSend(c, s', 1) && s'.accepted == [] && s'.now == Span(c, n)
    ensures s'.sends == map[0 := Send("k", true, 0, Sleeping(n + 1, Span(c, n) + Before(c.delays, n + 1)))]
    ensures forall k :: k in s'.claims ==> s'.claims[k].expires == c.ttl
  {
    s' := TimePasses(c, s, n);
    s' := Take(c, s', Sending(0, Refuse(true)));
  }

  lemma NextSpan(c: Config, n: nat)
    requires n >= 1 && c.delays.base >= 0 && c.delays.cap >= 0
    ensures Before(c.delays, n + 1) >= 0 && Span(c, n + 1) == Span(c, n) + Before(c.delays, n + 1) + c.callTime
  {
    Pow2Positive(n);
    assert (n + 1) * c.callTime == n * c.callTime + c.callTime;
  }

  /** Session 0 alone is in a send, and only claims with the usual expiry are left. */
  ghost predicate Sender(c: Config, s: State, stage: Stage)
  {
    && Reachable(c, s) && CanSend(c, s, 0) && CanSend(c, s, 1) && s.accepted == []
    && s.sends == map[0 := Send("k", true, 0, stage)] && forall k :: k in s.claims ==> s.claims[k].expires == c.ttl
  }

  /** A sleeper sleeps its time. */
  lemma SleepsOut(c: Config, s: State, m: nat, wake: int) returns (s': State)
    requires Sender(c, s, Sleeping(m, wake)) && s.now <= wake
    ensures Sender(c, s', Sleeping(m, wake)) && s'.now == wake
  {
    s' := Take(c, s, Tick(wake - s.now));
  }

  /** ... and wakes up on time. */
  lemma WakesUp(c: Config, s: State, m: nat, wake: int) returns (s': State)
    requires Sender(c, s, Sleeping(m, wake)) && s.now == wake
    ensures Sender(c, s', Calling(m, wake + c.callTime)) && s'.now == wake
  {
    s' := Take(c, s, Sending(0, Wake));
  }

  lemma NextAttempt(c: Config, s: State, n: nat) returns (s': State)
    requires OnAttempt(c, s, n) && 1 <= n < c.retries + 1 && c.callTime >= 0 && c.delays.base >= 0 && c.delays.cap >= 0
    ensures OnAttempt(c, s', n + 1)
  {
    NextSpan(c, n);
    s' := FallsAsleep(c, s, n);
    s' := SleepsOut(c, s', n + 1, Span(c, n) + Before(c.delays, n + 1));
    s' := WakesUp(c, s', n + 1, Span(c, n) + Before(c.delays, n + 1));
  }

  lemma {:induction false} ToAttempt(c: Config, t: string, n: nat) returns (s: State)
    requires t in c.registry && c.registry[t] != [] && 1 <= n <= c.retries + 1
    requires c.callTime >= 0 && c.delays.base >= 0 && c.delays.cap >= 0
    ensures OnAttempt(c, s, n)
  {
    if n == 1 {
      s := FirstAttempt(c, t);
    } else {
      s := ToAttempt(c, t, n - 1);
      s := NextAttempt(c, s, n - 1);
    }
  }

  /** A sender that can outlive its claim lets a second one in, and the key goes out twice. */
  lemma SlowSenderSendsTwice(c: Config, t: string) returns (s: State)
    requires t in c.registry && c.registry[t] != [] && c.retries >= 0 && c.ttl > 0
    requires c.callTime >= 0 && c.delays.base >= 0 && c.delays.cap >= 0 && Span(c, Attempts(c)) >= c.ttl
    ensures Reachable(c, s) && s.accepted == [Acceptance("k", Span(c, Attempts(c))), Acceptance("k", 0)]
  {
    var n := Attempts(c);
    s := ToAttempt(c, t, n);
    s := TimePasses(c, s, n);
    assert s.claims == map[];
    s := Take(c, s, Sending(1, Ask("k")));
    s := ToAccepted(c, s, 1);
    s := Take(c, s, Sending(0, Accept));
  }

  /** A run in which one key is accepted twice within a claim's lifetime. */
  lemma SendsTwice(c: Config, t: string) returns (s: State)
    requires t in c.registry && c.registry[t] != [] && c.retries >= 0 && c.ttl > 0
    requires c.callTime >= 0 && c.delays.base >= 0 && c.delays.cap >= 0
    requires !(Timely(c) && FaultFree(c.faults))
    ensures Reachable(c, s) && !OncePerWindow(s.accepted, c.ttl)
  {
    if c.faults.claimUnanswered {
      s := UnansweredClaimSendsTwice(c, t);
    } else if c.faults.claimAnswerLost {
      s := LostClaimAnswerSendsTwice(c, t);
    } else if c.faults.writeAfterAccept {
      s := LateWriteFailureSendsTwice(c, t);
    } else if c.faults.acceptanceUnseen {
      s := UnseenAcceptanceSendsTwice(c, t);
    } else {
      s := SlowSenderSendsTwice(c, t);
    }
    assert s.accepted[0].key == s.accepted[1].key && s.accepted[1].at == 0 <= s.accepted[0].at;
  }

  /**
   At most one acceptance per key and claim lifetime holds over all runs exactly when the claim store answers, no
   write fails after an acceptance, acceptances are reported, and a claim outlives the longest send.
   */
  lemma AtMostOnceExactly(c: Config, t: string)
    requires t in c.registry && c.registry[t] != [] && c.retries >= 0 && c.ttl > 0
    requires c.callTime >= 0 && c.delays.base >= 0 && c.delays.cap >= 0
    ensures (forall s :: Reachable(c, s) ==> OncePerWindow(s.accepted, c.ttl)) <==> FaultFree(c.faults) && Timely(c)
  {
    if FaultFree(c.faults) && Timely(c) {
      forall s | Reachable(c, s) ensures OncePerWindow(s.accepted, c.ttl) { AtMostOneAcceptance(c, s); }
    } else {
      var s := SendsTwice(c, t);
    }
  }

  /** A delivery whose only handler has just raised, its first rollback done. */
  lemma RaisedOnce(c: Config, t: string) returns (s: State)
    requires t in c.registry && |c.registry[t]| == 1
    ensures Reachable(c, s) && s.queue == map[0 := Valid("a", t)] && s.db.rows == map[]
    ensures s.workers == map[0 := Worker(0, Routing(1, true), NO_WRITES)] && s.sends == map[]
  {
    s := OneSession(c, t);
    s := Take(c, s, HandlerFails(0));
  }

  /** From a running handler to the committed pass. */
  lemma ToSucceeded(c: Config, s: State, sid: nat) returns (s': State)
    requires Reachable(c, s) && CanSend(c, s, sid) && sid !in s.sends && |Handlers(c, MsgOf(s, sid))| == 1
    requires !s.workers[sid].phase.failed
    ensures Reachable(c, s') && s'.queue == s.queue
        && s'.workers == s.workers[sid := Worker(s.workers[sid].mid, Finished(true), NO_WRITES)]
    ensures s'.accepted == s.accepted
    ensures MsgOf(s, sid).event in s'.db.events && s'.db.events[MsgOf(s, sid).event] == EvProcessed
  {
    s' := Take(c, s, Complete(sid));
    s' := Take(c, s', Succeed(sid));
  }

  /** A session dies between its claim and the provider call, and another takes the message over. */
  lemma SenderDies(c: Config, t: string) returns (s: State)
    requires t in c.registry && c.registry[t] != [] && c.faults.senderDies
    ensures Reachable(c, s) && s.queue == map[0 := Valid("a", t)] && s.workers == map[] && s.sends == map[]
    ensures s.db.rows == map[] && s.accepted == [] && s.now == 0 && s.claims == map["k" := Claim(0, c.ttl)]
  {
    s := OneSession(c, t);
    s := Take(c, s, Sending(0, Ask("k")));
    s := Take(c, s, Crash(0));
    assert s.workers == map[] && s.sends == map[];
  }

  /** The redelivery finds the key claimed: asking changes nothing. */
  lemma RedeliveryIsSuppressed(c: Config, t: string) returns (s: State)
    requires t in c.registry && |c.registry[t]| == 1 && c.faults.senderDies
    ensures Reachable(c, s) && CanSend(c, s, 1) && !s.workers[1].phase.failed && s.workers[1].mid == 0
    ensures s.queue == map[0 := Valid("a", t)] && s.accepted == [] && s.sends == map[]
    ensures Step(c, s, Sending(1, Ask("k"))) == Some(s)
  {
    s := SenderDies(c, t);
    assert FreshEvent(s, "a");
    s := ToRunning(c, s, 1, 0);
  }

  /**
   At most once is not exactly once: the claim of a session that died before calling the provider silences the key.
   The redelivery is told SENT, its pass succeeds and the message is deleted, yet nothing was ever accepted.
   */
  lemma CrashedSenderSilencesKey(c: Config, t: string) returns (s: State)
    requires t in c.registry && |c.registry[t]| == 1 && c.faults.senderDies
    ensures Reachable(c, s) && 0 in s.deleted && s.accepted == []
    ensures "a" in s.db.events && s.db.events["a"] == EvProcessed
  {
    s := RedeliveryIsSuppressed(c, t);
    s := ToSucceeded(c, s, 1);
    s := Take(c, s, Delete(1));
  }

  /** Session 0 is about to report a failure of the message that session 1 has delivered and deleted. */
  lemma FailureOvertaken(c: Config, t: string) returns (s: State)
    requires t in c.registry && |c.registry[t]| == 1
    ensures Reachable(c, s) && s.queue == map[0 := Valid("a", t)] && 0 in s.deleted
    ensures 0 in s.workers && s.workers[0] == Worker(0, Routing(1, true), NO_WRITES)
    ensures "a" in s.db.events && s.db.events["a"] == EvProcessed
  {
    s := RaisedOnce(c, t);
    assert FreshEvent(s, "a");
    s := ToRunning(c, s, 1, 0);
    s := ToSucceeded(c, s, 1);
    s := Take(c, s, Delete(1));
  }

  /**
   The event row is not a witness of delivery: with two deliveries of one message in progress its
   status can go back from PROCESSED to FAILED after all handlers completed and the message is gone.
   */
  lemma ProcessedCanTurnFailed(c: Config, t: string) returns (s: State, s': State)
    requires t in c.registry && |c.registry[t]| == 1
    ensures Reachable(c, s) && Step(c, s, ReportFailure(0)) == Some(s')
    ensures 0 in s.deleted && "a" in s.db.events && s.db.events["a"] == EvProcessed
    ensures 0 in s'.deleted && "a" in s'.db.events && s'.db.events["a"] == EvFailed
  {
    s := FailureOvertaken(c, t);
    s := Take(c, s, RollBackPass(0));
    s' := Take(c, s, ReportFailure(0));
  }
}
