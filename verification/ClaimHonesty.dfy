/**
 When a suppressed message was really sent. A session that finds its key claimed is told SENT; whether that is
 true rests on every claim being in use or justified by an acceptance.
 */
module ClaimHonesty {
  import opened Basics
  import opened Delivery
  import opened DeliveryLimits

  ghost predicate Accepted(s: State, key: string)
  {
    exists i :: 0 <= i < |s.accepted| && s.accepted[i].key == key
  }

  /** A send that holds a claim on the key is in flight. */
  ghost predicate InFlight(s: State, key: string)
  {
    exists t :: t in s.sends && s.sends[t].claimed && s.sends[t].key == key
  }

  /** Every claimed key is being sent or has been accepted. */
  ghost predicate Honest(s: State)
  {
    forall k :: k in s.claims ==> InFlight(s, k) || Accepted(s, k)
  }

  ghost predicate HonestInv(s: State)
  {
    && Honest(s)
    && forall t :: t in s.sends && s.sends[t].stage.Recording? ==> Accepted(s, s.sends[t].key)
  }

  predicate Reliable(c: Config) { !c.faults.senderDies && !c.faults.releaseLost && !c.faults.claimAnswerLost }

  /** Acceptances are never forgotten. */
  lemma AcceptedStays(s: State, s': State, key: string)
    requires s.accepted <= s'.accepted && Accepted(s, key)
    ensures Accepted(s', key)
  {
    var i :| 0 <= i < |s.accepted| && s.accepted[i].key == key;
    assert s'.accepted[i].key == key;
  }

  /** One send begins or moves on under the same key and claim; no other send changes. */
  lemma SendMoves(s: State, sid: nat, x: Send, s': State)
    requires HonestInv(s) && s'.sends == s.sends[sid := x]
    requires sid in s.sends ==> x.key == s.sends[sid].key && x.claimed == s.sends[sid].claimed
    requires forall k :: k in s'.claims ==> k in s.claims || (x.claimed && k == x.key)
    requires s.accepted <= s'.accepted && (x.stage.Recording? ==> Accepted(s', x.key))
    ensures HonestInv(s')
  {
    forall k | k in s'.claims ensures InFlight(s', k) || Accepted(s', k) {
      if x.claimed && k == x.key {
        assert s'.sends[sid].key == k;
      } else if InFlight(s, k) {
        var t :| t in s.sends && s.sends[t].claimed && s.sends[t].key == k;
        assert t in s'.sends && s'.sends[t].key == k;
      } else {
        AcceptedStays(s, s', k);
      }
    }
    forall t | t in s'.sends && s'.sends[t].stage.Recording? ensures Accepted(s', s'.sends[t].key) {
      if t != sid { AcceptedStays(s, s', s.sends[t].key); }
    }
  }

  /** One send ends: its claim is gone, or was none, or its key has been accepted. */
  lemma SendEnds(s: State, sid: nat, s': State)
    requires HonestInv(s) && sid in s.sends && s'.sends == s.sends - {sid} && s'.accepted == s.accepted
    requires s'.claims.Keys <= s.claims.Keys
    requires var x := s.sends[sid]; x.claimed && x.key in s'.claims ==> Accepted(s, x.key)
    ensures HonestInv(s')
  {
    forall k | k in s'.claims ensures InFlight(s', k) || Accepted(s', k) {
      if !Accepted(s, k) {
        var t :| t in s.sends && s.sends[t].claimed && s.sends[t].key == k;
        assert t in s'.sends;
      }
    }
  }

  /** Steps outside a send only let claims expire. */
  lemma OutsideSends(c: Config, s: State, a: Action, s': State)
    requires Reliable(c) && HonestInv(s) && Step(c, s, a) == Some(s') && !a.Sending?
    ensures HonestInv(s')
  {
    NoSendChanges(c, s, a, s');
    forall k | k in s'.claims ensures InFlight(s', k) || Accepted(s', k) {
      if InFlight(s, k) {
        var t :| t in s.sends && s.sends[t].claimed && s.sends[t].key == k;
        assert t in s'.sends && s'.sends[t].claimed;
      }
    }
  }

  lemma NoSendChanges(c: Config, s: State, a: Action, s': State)
    requires Reliable(c) && Step(c, s, a) == Some(s') && !a.Sending?
    ensures s'.sends == s.sends && s'.accepted == s.accepted && s'.claims.Keys <= s.claims.Keys
  {
    if a.Crash? { assert s'.sends == s.sends; }
  }

  lemma HonestSend(c: Config, s: State, sid: nat, op: SendOp, s': State)
    requires Reliable(c) && HonestInv(s) && SendStep(c, s, sid, op) == Some(s')
    ensures HonestInv(s')
  {
    match op
    case Record => SendEnds(s, sid, s');
    case RecordRaises(_) => SendEnds(s, sid, s');
    case Release(_) => SendEnds(s, sid, s');
    case Accept =>
      assert s'.accepted[|s.accepted|].key == s.sends[sid].key;
      SendMoves(s, sid, s'.sends[sid], s');
    case Ask(key) =>
      if s' != s { SendMoves(s, sid, s'.sends[sid], s'); }
    case AskAnswerLost(_) =>
    case _ => SendMoves(s, sid, s'.sends[sid], s');
  }

  lemma {:induction false} HonestRun(c: Config, acts: seq<Action>, s: State)
    requires Reliable(c) && Run(c, acts) == Some(s)
    ensures HonestInv(s)
  {
    if acts != [] {
      var prior, a := Run(c, acts[..|acts| - 1]).value, acts[|acts| - 1];
      HonestRun(c, acts[..|acts| - 1], prior);
      if a.Sending? { HonestSend(c, prior, a.sid, a.op, s); } else { OutsideSends(c, prior, a, s); }
    }
  }

  /**
   What SENT means to a suppressed session: unless a session dies during a send, or the answer to a claim that was
   taken or to a release gets lost, the message was accepted or a send that holds the claim is in flight, over every
   run.
   */
  lemma SuppressedWasSent(c: Config, s: State, sid: nat, key: string)
    requires Reliable(c) && Reachable(c, s) && key in s.claims
    requires sid !in s.sends && sid in s.workers && s.workers[sid].phase.Running?
    ensures Step(c, s, Sending(sid, Ask(key))) == Some(s)
    ensures Accepted(s, key) || InFlight(s, key)
    ensures s.sends == map[] ==> Accepted(s, key)
  {
    var acts :| Run(c, acts) == Some(s);
    HonestRun(c, acts, s);
  }

  /** An unanswered release after a failed send leaves the claim behind. */
  lemma ReleaseLost(c: Config, t: string) returns (s: State)
    requires t in c.registry && c.registry[t] != [] && c.faults.releaseLost
    ensures Reachable(c, s) && "k" in s.claims && s.sends == map[] && s.accepted == []
  {
    s := OneSession(c, t);
    s := Take(c, s, Sending(0, Ask("k")));
    s := Take(c, s, Sending(0, RenderFails));
    s := Take(c, s, Sending(0, Release(true)));
  }

  /** A claim that is taken while its answer is lost stays behind when the send fails: nobody releases it. */
  lemma ClaimAnswerLost(c: Config, t: string) returns (s: State)
    requires t in c.registry && c.registry[t] != [] && c.faults.claimAnswerLost
    ensures Reachable(c, s) && "k" in s.claims && s.sends == map[] && s.accepted == []
  {
    s := OneSession(c, t);
    s := Take(c, s, Sending(0, AskAnswerLost("k")));
    s := Take(c, s, Sending(0, RenderFails));
    s := Take(c, s, Sending(0, Release(false)));
  }

  /**
   Claims are honest over all runs exactly when no session dies during a send, no release goes unanswered, and no
   claim is taken unanswered. A claim store that does not answer because it does nothing does no harm here, nor do
   late write failures, unseen acceptances, and claims that expire under their owner.
   */
  lemma HonestExactly(c: Config, t: string)
    requires t in c.registry && c.registry[t] != []
    ensures (forall s :: Reachable(c, s) ==> Honest(s)) <==> Reliable(c)
  {
    if Reliable(c) {
      forall s | Reachable(c, s) ensures Honest(s) {
        var acts :| Run(c, acts) == Some(s);
        HonestRun(c, acts, s);
      }
    } else {
      var s: State;
      if c.faults.senderDies {
        s := SenderDies(c, t);
      } else if c.faults.releaseLost {
        s := ReleaseLost(c, t);
      } else {
        s := ClaimAnswerLost(c, t);
      }
      assert "k" in s.claims;
    }
  }
}
