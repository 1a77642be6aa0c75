/**
 No reachable state is a dead end: whatever sessions, sends and claims there are, some continuation ends them all, takes
 any given valid message through all its handlers, and deletes it.
 */
module Progress {
  import opened Basics
  import opened Tables
  import opened Delivery
  import opened DeliverySafety
  import opened DeliveryLimits
  import opened EventStatus
  import opened Correspondence
  import R = Routing

  // ---- sends belong to running handlers ----

  ghost predicate SendsRun(s: State)
  {
    forall t :: t in s.sends ==> t in s.workers && s.workers[t].phase.Running?
  }

  lemma SendsRunSend(c: Config, s: State, sid: nat, op: SendOp, s': State)
    requires SendsRun(s) && SendStep(c, s, sid, op) == Some(s')
    ensures SendsRun(s')
  {
  }

  lemma SendsRunStep(c: Config, s: State, a: Action, s': State)
    requires SendsRun(s) && Step(c, s, a) == Some(s')
    ensures SendsRun(s')
  {
    if a.Sending? { SendsRunSend(c, s, a.sid, a.op, s'); }
  }

  lemma {:induction false} SendsRunHolds(c: Config, acts: seq<Action>, s: State)
    requires Run(c, acts) == Some(s)
    ensures SendsRun(s)
  {
    if acts != [] {
      var prior := Run(c, acts[..|acts| - 1]).value;
      SendsRunHolds(c, acts[..|acts| - 1], prior);
      SendsRunStep(c, prior, acts[|acts| - 1], s);
    }
  }

  // ---- ending a send ----

  /** State s comes after z; the tables, the messages and what has been deleted are as in z. */
  ghost predicate Unchanged(c: Config, z: State, s: State)
  {
    Reached(c, z, s) && s.db == z.db && s.queue == z.queue && s.deleted == z.deleted
  }

  lemma SendIsReady(c: Config, s: State, sid: nat)
    requires Reachable(c, s) && sid in s.sends
    ensures Active(s, sid) && MsgOf(s, sid).Valid? && s.workers[sid].phase.Running?
    ensures s.workers[sid].phase.i < |Handlers(c, MsgOf(s, sid))|
  {
    var acts :| Run(c, acts) == Some(s);
    SendsRunHolds(c, acts, s);
    InvHolds(c, acts, s);
    assert WorkerOk(c, s, s.workers[sid]);
  }

  /** A send that does not sleep can be ended at once. */
  lemma EndSend(c: Config, z: State, s: State, sid: nat) returns (s': State)
    requires Unchanged(c, z, s) && sid in s.sends && !s.sends[sid].stage.Sleeping?
    ensures Unchanged(c, z, s') && s'.sends == s.sends - {sid}
  {
    SendIsReady(c, s, sid);
    s' := s;
    if s.sends[sid].stage.Recording? {
      s' := TakeFrom(c, z, s', Sending(sid, Record));
    } else {
      s' := FailSend(c, z, s, sid);
      s' := TakeFrom(c, z, s', Sending(sid, Release(false)));
    }
  }

  lemma FailSend(c: Config, z: State, s: State, sid: nat) returns (s': State)
    requires Unchanged(c, z, s) && sid in s.sends && !s.sends[sid].stage.Sleeping? && !s.sends[sid].stage.Recording?
    ensures Unchanged(c, z, s') && sid in s'.sends && s'.sends[sid].stage.Failing?
    ensures s'.sends == s.sends[sid := s'.sends[sid]]
  {
    SendIsReady(c, s, sid);
    s' := s;
    if s.sends[sid].stage.Preparing? {
      s' := TakeFrom(c, z, s, Sending(sid, RenderFails));
    } else if s.sends[sid].stage.Calling? {
      s' := TakeFrom(c, z, s, Sending(sid, Refuse(false)));
    }
  }

  /** The sender that wakes up first. */
  lemma {:induction false} FirstToWake(sends: map<nat, Send>) returns (t: nat)
    requires sends != map[]
    ensures t in sends && forall u :: u in sends ==> sends[t].stage.deadline <= sends[u].stage.deadline
    decreases |sends|
  {
    t :| t in sends;
    var rest := sends - {t};
    assert forall v :: v in sends ==> v == t || v in rest;
    if rest != map[] {
      var u := FirstToWake(rest);
      if sends[u].stage.deadline < sends[t].stage.deadline { t := u; }
    }
  }

  /** When all senders sleep, time can pass until the first of them wakes up. */
  lemma WaitForFirst(c: Config, z: State, s: State) returns (s': State, sid: nat)
    requires Unchanged(c, z, s) && s.sends != map[] && forall t :: t in s.sends ==> s.sends[t].stage.Sleeping?
    ensures Unchanged(c, z, s') && s'.sends == s.sends
    ensures sid in s.sends && s.sends[sid].stage.deadline <= s'.now
  {
    sid := FirstToWake(s.sends);
    s' := s;
    if s.now < s.sends[sid].stage.deadline {
      s' := TakeFrom(c, z, s', Tick(s.sends[sid].stage.deadline - s.now));
    }
  }

  lemma WakeFirst(c: Config, z: State, s: State) returns (s': State, sid: nat)
    requires Unchanged(c, z, s) && s.sends != map[] && forall t :: t in s.sends ==> s.sends[t].stage.Sleeping?
    ensures Unchanged(c, z, s') && sid in s'.sends && !s'.sends[sid].stage.Sleeping? && s'.sends.Keys == s.sends.Keys
  {
    s', sid := WaitForFirst(c, z, s);
    SendIsReady(c, s', sid);
    s' := TakeFrom(c, z, s', Sending(sid, Wake));
  }

  /** All sends can be ended. */
  lemma {:induction false} EndSends(c: Config, z: State, s: State) returns (s': State)
    requires Unchanged(c, z, s)
    ensures Unchanged(c, z, s') && s'.sends == map[]
    decreases |s.sends|
  {
    s' := s;
    if s.sends != map[] {
      var sid: nat;
      if t: nat :| t in s.sends && !s.sends[t].stage.Sleeping? {
        sid := t;
      } else {
        s', sid := WakeFirst(c, z, s);
        assert |s'.sends| == |s'.sends.Keys| == |s.sends|;
      }
      var m := EndSend(c, z, s', sid);
      assert |m.sends| < |s'.sends|;
      s' := EndSends(c, z, m);
    }
  }

  /** All sessions can be ended: their transactions are rolled back. */
  lemma {:induction false} EndSessions(c: Config, z: State, s: State) returns (s': State)
    requires Unchanged(c, z, s) && s.sends == map[]
    ensures Unchanged(c, z, s') && s'.sends == map[] && s'.workers == map[]
    decreases |s.workers|
  {
    s' := s;
    if s.workers != map[] {
      var sid :| sid in s.workers;
      var m := TakeFrom(c, z, s, Crash(sid));
      assert m.workers == s.workers - {sid} && |m.workers| < |s.workers|;
      s' := EndSessions(c, z, m);
    }
  }

  // ---- taking a message through ----

  /** A pass in which every handler sends nothing and completes. */
  function QuietPass(c: Config, s: State, msg: Message): Pass
    requires msg.Valid?
  {
    var hs := Handlers(c, msg);
    Pass(msg.event, hs, seq(|hs|, _ => R.HandlerRun([], false)), seq(|hs|, _ => []), s)
  }

  /**
   From every reachable state some continuation deletes any given valid message of the queue, after every handler
   registered for its event type has a durable COMPLETED row.
   */
  lemma NeverStuck(c: Config, z: State, m: nat, event: string, eventType: string) returns (s': State)
    requires Reachable(c, z) && m in z.queue && z.queue[m] == Valid(event, eventType)
    ensures Reachable(c, s') && Leads(c, z, s') && m in s'.deleted
    ensures forall h :: eventType in c.registry && h in c.registry[eventType] ==>
      PKey(event, h) in s'.db.rows && s'.db.rows[PKey(event, h)].status == Completed
  {
    LeadsNowhere(c, z);
    var s := EndSends(c, z, z);
    s := EndSessions(c, z, s);
    s := TakeFrom(c, z, s, Receive(0, m));
    s := Pass0(c, z, s, m);
    s' := TakeFrom(c, z, s, Delete(0));
    InvOfReachable(c, s');
    assert Handled(c, s'.db.rows, s'.queue[m]);
  }

  lemma Pass0(c: Config, z: State, s: State, m: nat) returns (s': State)
    requires Reached(c, z, s) && s.workers == map[0 := Worker(m, Phase.Received, NO_WRITES)] && s.sends == map[]
    requires m in s.queue && s.queue[m].Valid?
    ensures Reached(c, z, s') && 0 in s'.workers && s'.workers[0].phase == Finished(true) && s'.workers[0].mid == m
    ensures m in s'.queue && s'.queue[m] == s.queue[m]
  {
    LeadsNowhere(c, s);
    var p := QuietPass(c, s, s.queue[m]);
    var sent: seq<Attempted>;
    s', sent := PassIsARun(c, p, s, 0);
    LeadsThrough(c, z, s, s');
  }

  // ---- single steps that are always open ----

  /** Any message may arrive, and any session may take up any message of the queue. */
  lemma MessagesArrive(c: Config, s: State, m: nat, msg: Message, sid: nat)
    ensures m !in s.queue ==> Step(c, s, Post(m, msg)) == Some(s.(queue := s.queue[m := msg]))
    ensures m in s.queue && sid !in s.workers ==>
      Step(c, s, Receive(sid, m)) == Some(s.(workers := s.workers[sid := Worker(m, Phase.Received, NO_WRITES)]))
  {
  }

  /** A new event is recorded as RECEIVED, one recorded before is left as it is. */
  lemma EventsAreRecorded(c: Config, s: State, sid: nat)
    requires Active(s, sid) && s.workers[sid].phase == Phase.Received && MsgOf(s, sid).Valid?
    ensures var e := MsgOf(s, sid).event; var s' := Step(c, s, Persist(sid));
      s'.Some? && e in s'.value.db.events
      && s'.value.db.events[e] == if e in s.db.events then s.db.events[e] else EvReceived
  {
  }

  /** Outside a handler a session can fail at any time: it leaves nothing behind, and does not delete its message. */
  lemma SessionsCanFail(c: Config, s: State, sid: nat) returns (s': State)
    requires Active(s, sid) && !s.workers[sid].phase.Running? && !s.workers[sid].phase.Finished?
    ensures RunFrom(c, s, [Abort(sid), Close(sid)]) == Some(s')
    ensures s' == s.(workers := s.workers - {sid})
  {
    var t := Step(c, s, Abort(sid)).value;
    s' := Step(c, t, Close(sid)).value;
    assert [Abort(sid), Close(sid)][..1] == [Abort(sid)] && [Abort(sid)][..0] == [];
    assert RunFrom(c, s, []) == Some(s) && RunFrom(c, s, [Abort(sid)]) == Some(t);
    assert s'.workers == s.workers - {sid};
  }
}
