/**
 What the status of an event row is worth. PROCESSED is a true witness of delivery at every moment it is there; it
 stays exactly as long as no session that works on the event has already met a failing handler, and no message that
 fails the schema carries the event's id.
 */
module EventStatus {
  import opened Basics
  import opened Tables
  import opened Delivery
  import opened DeliverySafety

  ghost predicate Processed(s: State, e: string) { e in s.db.events && s.db.events[e] == EvProcessed }

  /** All messages for the event announce it under one event type. */
  ghost predicate OneType(s: State, e: string, t: string)
  {
    forall m :: m in s.queue && s.queue[m].Valid? && s.queue[m].event == e ==> s.queue[m].eventType == t
  }

  /** Some message in the queue fails the schema and carries the event's id. */
  ghost predicate Disputed(s: State, e: string) { exists m :: m in s.queue && s.queue[m] == Invalid(e) }

  /** Every handler registered for the type has a durable COMPLETED row for the event. */
  ghost predicate AllDone(c: Config, s: State, e: string, t: string)
  {
    forall h :: h in HandlersOf(c.registry, t) ==> Done(s.db.rows, PKey(e, h))
  }

  predicate Failing(p: Phase) { p.Reporting? || (p.Routing? && p.failed) }

  ghost predicate WorksOn(s: State, sid: nat, e: string)
  {
    Active(s, sid) && MsgOf(s, sid).Valid? && MsgOf(s, sid).event == e
  }

  /** Some session on the event has met a failing handler and has not reported it yet. */
  ghost predicate AboutToFail(s: State, e: string)
  {
    exists sid :: sid in s.workers && WorksOn(s, sid, e) && Failing(s.workers[sid].phase)
  }

  // ---- PROCESSED is a true witness ----

  lemma OneTypeBefore(c: Config, s: State, a: Action, s': State, e: string, t: string)
    requires Step(c, s, a) == Some(s') && OneType(s', e, t)
    ensures OneType(s, e, t)
  {
    QueueOnlyGrows(c, s, a, s');
  }

  lemma UndisputedBefore(c: Config, s: State, a: Action, s': State, e: string)
    requires Step(c, s, a) == Some(s') && !Disputed(s', e)
    ensures !Disputed(s, e)
  {
    QueueOnlyGrows(c, s, a, s');
    forall m | m in s.queue ensures s.queue[m] != Invalid(e) { assert s'.queue[m] == s.queue[m]; }
  }

  /** Only two steps make an event PROCESSED: the end of a successful pass, and a type without handlers. */
  lemma BecomesProcessed(c: Config, s: State, a: Action, s': State, e: string)
    requires Step(c, s, a) == Some(s') && Processed(s', e) && !Processed(s, e)
    ensures a.Succeed? || (a.Resolve? && Handlers(c, MsgOf(s, a.sid)) == [])
    ensures WorksOn(s, a.sid, e)
  {
    if a.Sending? { SendKeepsTables(c, s, a.sid, a.op, s'); }
  }

  lemma {:induction false} DoneWhenProcessed(c: Config, acts: seq<Action>, s: State, e: string, t: string)
    requires Run(c, acts) == Some(s) && OneType(s, e, t) && Processed(s, e)
    ensures AllDone(c, s, e, t)
  {
    if acts != [] {
      var prior, a := Run(c, acts[..|acts| - 1]).value, acts[|acts| - 1];
      OneTypeBefore(c, prior, a, s, e, t);
      InvHolds(c, acts[..|acts| - 1], prior);
      if Processed(prior, e) {
        DoneWhenProcessed(c, acts[..|acts| - 1], prior, e, t);
        RowsStay(c, prior, a, s);
      } else {
        BecomesProcessed(c, prior, a, s, e);
        if a.Succeed? { SuccessCommits(c, prior, a.sid, s); }
      }
    }
  }

  lemma RowsStay(c: Config, s: State, a: Action, s': State)
    requires Inv(c, s) && Step(c, s, a) == Some(s')
    ensures forall k :: k in s.db.rows ==> k in s'.db.rows && s'.db.rows[k] == s.db.rows[k]
  {
    if a.Succeed? { SuccessCommits(c, s, a.sid, s'); } else { OtherStepsKeepTables(c, s, a, s'); }
  }

  /** In every reachable state an event that is PROCESSED has all its handlers durably COMPLETED. */
  lemma ProcessedMeansDone(c: Config, s: State, e: string, t: string)
    requires Reachable(c, s) && OneType(s, e, t) && Processed(s, e)
    ensures AllDone(c, s, e, t)
    ensures forall h :: t in c.registry && h in c.registry[t] ==>
      PKey(e, h) in s.db.rows && s.db.rows[PKey(e, h)].status == Completed
  {
    var acts :| Run(c, acts) == Some(s);
    DoneWhenProcessed(c, acts, s, e, t);
  }

  // ---- how long it stays ----

  /** The event is delivered, and no session on it is about to fail. */
  ghost predicate Settled(c: Config, s: State, e: string, t: string)
  {
    Inv(c, s) && OneType(s, e, t) && !Disputed(s, e) && Processed(s, e) && AllDone(c, s, e, t) && !AboutToFail(s, e)
  }

  /** With all handlers done, none runs: its row would be both durable and uncommitted. */
  lemma NoneRuns(c: Config, s: State, sid: nat, e: string, t: string)
    requires Inv(c, s) && OneType(s, e, t) && AllDone(c, s, e, t) && WorksOn(s, sid, e)
    ensures !s.workers[sid].phase.Running?
  {
    var w, hs := s.workers[sid], HandlersOf(c.registry, t);
    assert WorkerOk(c, s, w);
    forall i | 0 <= i < |hs| ensures PKey(e, hs[i]) in s.db.rows { assert hs[i] in hs; }
  }

  /** A session on the settled event finds every row it looks for. */
  lemma FindsRow(c: Config, s: State, sid: nat, e: string, t: string, i: nat)
    requires Inv(c, s) && OneType(s, e, t) && AllDone(c, s, e, t) && WorksOn(s, sid, e)
    requires i < |Handlers(c, MsgOf(s, sid))|
    ensures var k := PKey(e, Handlers(c, MsgOf(s, sid))[i]); var rows := View(s.db, s.workers[sid].overlay);
      k in rows && rows[k].status == Completed
  {
    assert WorkerOk(c, s, s.workers[sid]);
    var hs := Handlers(c, MsgOf(s, sid));
    assert hs[i] in hs;
  }

  /** A session comes to fail only out of a running handler. */
  lemma FailsFromRunning(c: Config, s: State, a: Action, s': State, sid: nat)
    requires Step(c, s, a) == Some(s') && sid in s.workers && sid in s'.workers
    requires Failing(s'.workers[sid].phase) && !Failing(s.workers[sid].phase)
    ensures s.workers[sid].phase.Running?
  {
    if a.Sending? { SendKeepsPhases(c, s, a.sid, a.op, s', sid); }
  }

  lemma SendKeepsPhases(c: Config, s: State, at: nat, op: SendOp, s': State, sid: nat)
    requires SendStep(c, s, at, op) == Some(s') && sid in s.workers
    ensures sid in s'.workers && s'.workers[sid].phase == s.workers[sid].phase
  {
  }

  lemma OnlyItsOwn(c: Config, s: State, a: Action, s': State, sid: nat)
    requires Step(c, s, a) == Some(s') && sid in s'.workers
    ensures sid !in s.workers ==> s'.workers[sid].phase == Phase.Received
    ensures sid in s.workers ==> s'.workers[sid].mid == s.workers[sid].mid
  {
    if a.Sending? { SendKeepsMessages(c, s, a.sid, a.op, s'); } else { OthersKeepMessages(c, s, a, s'); }
  }

  lemma SendKeepsMessages(c: Config, s: State, at: nat, op: SendOp, s': State)
    requires SendStep(c, s, at, op) == Some(s')
    ensures s'.workers.Keys == s.workers.Keys && forall t :: t in s.workers ==> s'.workers[t].mid == s.workers[t].mid
  {
  }

  lemma OthersKeepMessages(c: Config, s: State, a: Action, s': State)
    requires Step(c, s, a) == Some(s') && !a.Sending?
    ensures forall t :: t in s'.workers ==>
      if t in s.workers then s'.workers[t].mid == s.workers[t].mid else s'.workers[t].phase == Phase.Received
  {
  }

  /** An event stops being PROCESSED only by the report of a failure, or of an invalid message, of its own. */
  lemma StopsBeingProcessed(c: Config, s: State, a: Action, s': State, e: string)
    requires Step(c, s, a) == Some(s') && !a.Sending? && Processed(s, e) && !Processed(s', e)
    ensures (a.ReportFailure? && WorksOn(s, a.sid, e) && s.workers[a.sid].phase.Reporting?)
      || (a.RecordInvalid? && Active(s, a.sid) && MsgOf(s, a.sid) == Invalid(e))
  {
  }

  lemma StaysProcessed(c: Config, s: State, a: Action, s': State, e: string)
    requires Processed(s, e) && !AboutToFail(s, e) && !Disputed(s, e) && Step(c, s, a) == Some(s')
    ensures Processed(s', e)
  {
    if a.Sending? {
      SendKeepsTables(c, s, a.sid, a.op, s');
    } else if !Processed(s', e) {
      StopsBeingProcessed(c, s, a, s', e);
      assert a.ReportFailure? ==> Failing(s.workers[a.sid].phase);
    }
  }

  lemma StaysSettled(c: Config, s: State, a: Action, s': State, e: string, t: string)
    requires Settled(c, s, e, t) && Step(c, s, a) == Some(s') && OneType(s', e, t) && !Disputed(s', e)
    ensures Settled(c, s', e, t)
  {
    InvStep(c, s, a, s');
    RowsStay(c, s, a, s');
    StaysProcessed(c, s, a, s', e);
    QueueOnlyGrows(c, s, a, s');
    forall sid | sid in s'.workers && WorksOn(s', sid, e) ensures !Failing(s'.workers[sid].phase) {
      StaysHarmless(c, s, a, s', e, t, sid);
    }
  }

  lemma StaysHarmless(c: Config, s: State, a: Action, s': State, e: string, t: string, sid: nat)
    requires Settled(c, s, e, t) && Step(c, s, a) == Some(s')
    ensures sid in s'.workers && WorksOn(s', sid, e) ==> !Failing(s'.workers[sid].phase)
  {
    if sid in s'.workers && WorksOn(s', sid, e) {
      OnlyItsOwn(c, s, a, s', sid);
      if sid in s.workers && Failing(s'.workers[sid].phase) {
        assert WorkerOk(c, s, s.workers[sid]);
        QueueOnlyGrows(c, s, a, s');
        assert WorksOn(s, sid, e) && !Failing(s.workers[sid].phase);
        FailsFromRunning(c, s, a, s', sid);
        NoneRuns(c, s, sid, e, t);
        assert false;
      }
    }
  }

  lemma {:induction false} SettledRun(c: Config, s: State, more: seq<Action>, s': State, e: string, t: string)
    requires Settled(c, s, e, t) && RunFrom(c, s, more) == Some(s') && OneType(s', e, t) && !Disputed(s', e)
    ensures Settled(c, s', e, t)
    decreases |more|
  {
    if more != [] {
      var mid, a := RunFrom(c, s, more[..|more| - 1]).value, more[|more| - 1];
      OneTypeBefore(c, mid, a, s', e, t);
      UndisputedBefore(c, mid, a, s', e);
      SettledRun(c, s, more[..|more| - 1], mid, e, t);
      StaysSettled(c, mid, a, s', e, t);
    }
  }

  // ---- and when it does not ----

  /** A session that has met a failing handler skips the rest of the settled event's handlers. */
  lemma {:induction false} SkipsTheRest(c: Config, s: State, m: State, sid: nat, e: string, t: string)
      returns (s': State)
    requires Leads(c, s, m) && Inv(c, m) && OneType(m, e, t) && AllDone(c, m, e, t) && WorksOn(m, sid, e)
    requires m.workers[sid].phase.Routing? && m.workers[sid].phase.failed
    ensures Leads(c, s, s') && WorksOn(s', sid, e) && s'.queue == m.queue && s'.workers[sid].phase.Routing?
    ensures s'.workers[sid].phase.failed && s'.workers[sid].phase.i >= |Handlers(c, MsgOf(s', sid))|
    decreases |Handlers(c, MsgOf(m, sid))| - m.workers[sid].phase.i
  {
    s' := m;
    var i := m.workers[sid].phase.i;
    if i < |Handlers(c, MsgOf(m, sid))| {
      FindsRow(c, m, sid, e, t, i);
      s' := LeadsOn(c, s, m, Lookup(sid));
      InvStep(c, m, Lookup(sid), s');
      s' := SkipsTheRest(c, s, s', sid, e, t);
    }
  }

  /** ... and reports its failure. */
  lemma FailureIsReported(c: Config, s: State, sid: nat, e: string, t: string) returns (s': State)
    requires Inv(c, s) && OneType(s, e, t) && AllDone(c, s, e, t) && WorksOn(s, sid, e) && Failing(s.workers[sid].phase)
    ensures Leads(c, s, s') && s'.queue == s.queue && !Processed(s', e)
  {
    assert RunFrom(c, s, []) == Some(s);
    s' := s;
    if s.workers[sid].phase.Routing? {
      s' := SkipsTheRest(c, s, s, sid, e, t);
      s' := LeadsOn(c, s, s', RollBackPass(sid));
    }
    s' := LeadsOn(c, s, s', ReportFailure(sid));
  }

  /** A number that no session has. */
  lemma FreshSession(ids: set<nat>) returns (n: nat)
    ensures forall i :: i in ids ==> i < n
  {
    n := 0;
    if ids != {} {
      var i :| i in ids;
      n := FreshSession(ids - {i});
      if n <= i { n := i + 1; }
      assert forall j :: j in ids ==> j == i || j in ids - {i};
    }
  }

  /** A message that fails the schema overwrites the status of the event whose id it carries. */
  lemma InvalidOverwrites(c: Config, s: State, m: nat, e: string) returns (s': State)
    requires m in s.queue && s.queue[m] == Invalid(e)
    ensures Leads(c, s, s') && s'.queue == s.queue && e in s'.db.events && s'.db.events[e] == EvInvalid
  {
    assert RunFrom(c, s, []) == Some(s);
    var sid := FreshSession(s.workers.Keys);
    s' := LeadsOn(c, s, s, Receive(sid, m));
    s' := LeadsOn(c, s, s', RecordInvalid(sid));
  }

  /** No invalid message for the event has come in since. */
  ghost predicate NoneInvalidSince(s: State, s': State, e: string)
  {
    forall m :: m in s'.queue && s'.queue[m] == Invalid(e) ==> m in s.queue && s.queue[m] == Invalid(e)
  }

  /**
   A PROCESSED event stays PROCESSED in every continuation that posts neither another type nor an invalid message for
   it, exactly when no session on it has met a failing handler that it has still to report, and no message in the
   queue fails the schema under its id. Sessions that only received the message, or are looking up its handlers, do
   no harm: they find all of them completed.
   */
  lemma ProcessedStaysExactly(c: Config, s: State, e: string, t: string)
    requires Reachable(c, s) && OneType(s, e, t) && Processed(s, e)
    ensures (forall s' :: Leads(c, s, s') && OneType(s', e, t) && NoneInvalidSince(s, s', e) ==> Processed(s', e))
      <==> !AboutToFail(s, e) && !Disputed(s, e)
  {
    InvOfReachable(c, s);
    ProcessedMeansDone(c, s, e, t);
    if AboutToFail(s, e) {
      var sid :| sid in s.workers && WorksOn(s, sid, e) && Failing(s.workers[sid].phase);
      var s' := FailureIsReported(c, s, sid, e, t);
    } else if Disputed(s, e) {
      var m :| m in s.queue && s.queue[m] == Invalid(e);
      var s' := InvalidOverwrites(c, s, m, e);
    } else {
      forall s' | Leads(c, s, s') && OneType(s', e, t) && NoneInvalidSince(s, s', e) ensures Processed(s', e) {
        var more :| RunFrom(c, s, more) == Some(s');
        SettledRun(c, s, more, s', e, t);
      }
    }
  }
}
