/**
 The delivery protocol as one transition system: queue consumer, message processor, router,
 idempotency guard, transactional repositories and the send-claim store, for any number of
 sessions whose steps interleave freely with each other, with crashes, with redelivery and with
 the passing of time.

 Each worker is one database session. Its uncommitted writes are an overlay; reads see the overlay
 over the committed tables (read committed). A row that another overlay holds under the same
 unique key blocks an insert or update: such a step is simply not enabled. An insert that waited
 fails when the key has been committed meanwhile.

 The claim store and the provider are outside every transaction: no rollback touches them.
 `accepted` is a history variable, the provider's log of accepted messages.
 */
module Delivery {
  import opened Basics
  import opened Backoff
  import opened Tables

  /**
   Malformed is no JSON, or carries no event id, or cannot be recorded; Invalid fails the schema but carries an id.
   */
  datatype Message = Malformed | Invalid(event: string) | Valid(event: string, eventType: string)

  /**
   Departures from the hypotheses of the claim's guarantees. The first four let a key be accepted twice; the last
   three, of which one is among those four, leave a claim behind although nothing was accepted.
   */
  datatype Faults = Faults(
    claimUnanswered: bool,   // Redis may fail to answer a claim: the send goes ahead without one
    writeAfterAccept: bool,  // a database write may raise after the provider accepted
    acceptanceUnseen: bool,  // the provider may accept and the caller still see a failure
    claimAnswerLost: bool,   // Redis may take the key and its answer be lost: the send goes ahead as without a claim
    senderDies: bool,        // a session may die during a send
    releaseLost: bool)       // Redis may fail to answer the release of a claim

  datatype Config = Config(
    registry: map<string, seq<string>>,  // handler class names by event type, never an empty list
    retries: int,                        // retries allowed after the first attempt
    delays: Delays,
    callTime: int,                       // bound on one attempt with its bookkeeping
    ttl: int,                            // lifetime of a claim
    faults: Faults)

  datatype Overlay = Overlay(event: Option<EventStatus>, rows: Rows, notifs: seq<Notif>)

  const NO_WRITES := Overlay(None, map[], [])

  datatype Phase =
    | Received                                       // message in hand
    | Starting                                       // event row committed, handlers not resolved yet
    | Routing(i: nat, failed: bool)                  // about to take handler i; failed: some handler raised
    | Inserting(i: nat, failed: bool)                // guard read no row and will insert one
    | Resuming(i: nat, failed: bool, id: nat)        // guard read a PENDING or FAILED row and will update it
    | Running(i: nat, failed: bool, id: nat)         // handler i runs under processing row id
    | Reporting                                      // second rollback done, failure not yet committed
    | Finished(ok: bool)

  datatype Worker = Worker(mid: nat, phase: Phase, overlay: Overlay)

  datatype Db = Db(events: map<string, EventStatus>, rows: Rows, notifs: seq<Notif>)

  datatype Claim = Claim(owner: nat, expires: int)

  datatype Stage =
    | Preparing(deadline: int)                  // claimed; notification row and rendering ahead
    | Calling(attempt: nat, deadline: int)
    | Recording(deadline: int)                  // accepted, outcome not yet written
    | Sleeping(attempt: nat, deadline: int)     // before that attempt
    | Failing(deadline: int)                    // FAILED written, claim not yet released

  datatype Send = Send(key: string, claimed: bool, at: int, stage: Stage)

  datatype Acceptance = Acceptance(key: string, at: int)  // `at`: when the accepted send took its claim

  datatype State = State(
    queue: map<nat, Message>, deleted: set<nat>,
    db: Db, workers: map<nat, Worker>, nextId: nat,
    now: int, claims: map<string, Claim>, sends: map<nat, Send>, accepted: seq<Acceptance>)

  datatype Action =
    | Post(mid: nat, msg: Message)
    | Receive(sid: nat, mid: nat)
    | Persist(sid: nat)
    | Resolve(sid: nat)
    | Lookup(sid: nat)
    | Insert(sid: nat)
    | Retake(sid: nat)
    | Complete(sid: nat)
    | HandlerFails(sid: nat)
    | Succeed(sid: nat)
    | RollBackPass(sid: nat)
    | ReportFailure(sid: nat)
    | RecordInvalid(sid: nat)
    | Abort(sid: nat)
    | Crash(sid: nat)
    | Delete(sid: nat)
    | Close(sid: nat)
    | Sending(sid: nat, op: SendOp)
    | Tick(d: int)

  datatype SendOp =
    | Ask(key: string)
    | AskUnanswered(key: string)
    | AskAnswerLost(key: string)
    | Prepare
    | RenderFails
    | Accept
    | AcceptUnseen(retryable: bool)
    | Refuse(retryable: bool)
    | Wake
    | Record
    | RecordRaises(lost: bool)
    | Release(lost: bool)         // after FAILED was recorded, or an exception before any acceptance

  function Initial(): State
  {
    State(map[], {}, Db(map[], map[], []), map[], 0, 0, map[], map[], [])
  }

  function Handlers(c: Config, msg: Message): seq<string>
  {
    if msg.Valid? then HandlersOf(c.registry, msg.eventType) else []
  }

  // ---- reading and writing through a session ----

  function View(db: Db, o: Overlay): Rows { db.rows + o.rows }

  function Commit(db: Db, e: string, o: Overlay): Db
  {
    Db(if o.event.Some? then db.events[e := o.event.value] else db.events, db.rows + o.rows, db.notifs + o.notifs)
  }

  /** Another session's uncommitted write holds the key. */
  predicate Locked(s: State, sid: nat, k: PKey)
  {
    exists t <- s.workers :: t != sid && k in s.workers[t].overlay.rows
  }

  function PutSend(s: State, sid: nat, x: Send): State
  {
    s.(sends := s.sends[sid := x])
  }

  /** The unconditional delete of a claim key; `lost` when the claim store does not answer it. */
  function Released(s: State, sid: nat, lost: bool): State
    requires sid in s.sends
  {
    s.(sends := s.sends - {sid},
       claims := if s.sends[sid].claimed && !lost then s.claims - {s.sends[sid].key} else s.claims)
  }

  /** Outcome of a refused attempt: sleep and try again, or give up. */
  function AfterRefusal(c: Config, now: int, x: Send, retryable: bool): Send
    requires x.stage.Calling?
  {
    var n := x.stage.attempt;
    if retryable && n < c.retries + 1
    then x.(stage := Sleeping(n + 1, now + Before(c.delays, n + 1)))
    else x.(stage := Failing(x.stage.deadline))
  }

  // ---- steps of one session through consumer, processor, router and guard ----

  predicate Active(s: State, sid: nat) { sid in s.workers && s.workers[sid].mid in s.queue }

  function MsgOf(s: State, sid: nat): Message
    requires Active(s, sid)
  {
    s.queue[s.workers[sid].mid]
  }

  /** Moves a worker on; its overlay and the database change with it. */
  function Move(s: State, sid: nat, phase: Phase, o: Overlay, db: Db): State
    requires sid in s.workers
  {
    s.(workers := s.workers[sid := Worker(s.workers[sid].mid, phase, o)], db := db)
  }

  /** Find or insert the event row, and commit. */
  function DoPersist(s: State, sid: nat): Option<State>
    requires Active(s, sid)
  {
    var msg := MsgOf(s, sid);
    if !s.workers[sid].phase.Received? || !msg.Valid? then None
    else
      var events := if msg.event in s.db.events then s.db.events else s.db.events[msg.event := EvReceived];
      Some(Move(s, sid, Starting, NO_WRITES, s.db.(events := events)))
  }

  /** Resolving the handlers: none registered means processed and committed, else the loop starts. */
  function DoResolve(c: Config, s: State, sid: nat): Option<State>
    requires Active(s, sid)
  {
    var msg := MsgOf(s, sid);
    if !s.workers[sid].phase.Starting? || !msg.Valid? then None
    else if Handlers(c, msg) == []
    then Some(Move(s, sid, Finished(true), NO_WRITES, s.db.(events := s.db.events[msg.event := EvProcessed])))
    else Some(Move(s, sid, Routing(0, false), NO_WRITES.(event := Some(EvProcessing)), s.db))
  }

  /** The guard reads the processing row; a conflict skips the handler. */
  function DoLookup(c: Config, s: State, sid: nat): Option<State>
    requires Active(s, sid)
  {
    var w, msg := s.workers[sid], MsgOf(s, sid);
    var hs := Handlers(c, msg);
    if !w.phase.Routing? || w.phase.i >= |hs| || !msg.Valid? then None
    else
      var phase := match Decide(View(s.db, w.overlay), PKey(msg.event, hs[w.phase.i]))
        case Conflict => Routing(w.phase.i + 1, w.phase.failed)
        case Resume(id) => Resuming(w.phase.i, w.phase.failed, id)
        case Create => Inserting(w.phase.i, w.phase.failed);
      Some(Move(s, sid, phase, w.overlay, s.db))
  }

  /** Insert, then mark PROCESSING. Waits on a lock; fails on a key committed meanwhile. */
  function DoInsert(c: Config, s: State, sid: nat): Option<State>
    requires Active(s, sid)
  {
    var w, msg := s.workers[sid], MsgOf(s, sid);
    var hs := Handlers(c, msg);
    if !w.phase.Inserting? || w.phase.i >= |hs| || !msg.Valid? || Locked(s, sid, PKey(msg.event, hs[w.phase.i]))
        then None
    else
      var k := PKey(msg.event, hs[w.phase.i]);
      if k in View(s.db, w.overlay) then Some(Move(s, sid, Finished(false), NO_WRITES, s.db))
      else
        var o := w.overlay.(rows := w.overlay.rows[k := ProcRow(s.nextId, Processing)]);
        Some(Move(s, sid, Running(w.phase.i, w.phase.failed, s.nextId), o, s.db).(nextId := s.nextId + 1))
  }

  /** Re-attempt of a PENDING or FAILED row: whatever it has become by now is marked PROCESSING. */
  function DoRetake(c: Config, s: State, sid: nat): Option<State>
    requires Active(s, sid)
  {
    var w, msg := s.workers[sid], MsgOf(s, sid);
    var hs := Handlers(c, msg);
    if !w.phase.Resuming? || w.phase.i >= |hs| || !msg.Valid? || Locked(s, sid, PKey(msg.event, hs[w.phase.i]))
        then None
    else
      var k, id := PKey(msg.event, hs[w.phase.i]), w.phase.id;
      var view := View(s.db, w.overlay);
      var rows := if k in view && view[k].id == id then w.overlay.rows[k := ProcRow(id, Processing)]
          else w.overlay.rows;
      Some(Move(s, sid, Running(w.phase.i, w.phase.failed, id), w.overlay.(rows := rows), s.db))
  }

  function DoComplete(s: State, sid: nat): Option<State>
    requires Active(s, sid)
  {
    var w := s.workers[sid];
    if !w.phase.Running? || sid in s.sends then None
    else
      var o := w.overlay.(rows := SetStatus(w.overlay.rows, w.phase.id, Completed));
      Some(Move(s, sid, Routing(w.phase.i + 1, w.phase.failed), o, s.db))
  }

  /** First rollback, then the guard's failure update by row id, which lands in the fresh overlay. */
  function DoHandlerFails(s: State, sid: nat): Option<State>
    requires Active(s, sid)
  {
    var w := s.workers[sid];
    if !w.phase.Running? || sid in s.sends then None
    else
      var hit := map k | k in s.db.rows && s.db.rows[k].id == w.phase.id :: s.db.rows[k].(status := Failed);
      Some(Move(s, sid, Routing(w.phase.i + 1, true), NO_WRITES.(rows := hit), s.db))
  }

  /** No handler raised: the event is marked processed and everything is committed. */
  function DoSucceed(c: Config, s: State, sid: nat): Option<State>
    requires Active(s, sid)
  {
    var w, msg := s.workers[sid], MsgOf(s, sid);
    if !w.phase.Routing? || w.phase.i < |Handlers(c, msg)| || w.phase.failed || !msg.Valid? then None
    else Some(Move(s, sid, Finished(true), NO_WRITES, Commit(s.db, msg.event, w.overlay.(event := Some(EvProcessed)))))
  }

  /** Some handler raised: second rollback. */
  function DoRollBackPass(c: Config, s: State, sid: nat): Option<State>
    requires Active(s, sid)
  {
    var w := s.workers[sid];
    if !w.phase.Routing? || w.phase.i < |Handlers(c, MsgOf(s, sid))| || !w.phase.failed then None
    else Some(Move(s, sid, Reporting, NO_WRITES, s.db))
  }

  /** ... and the failure of the event is committed on its own. */
  function DoReportFailure(s: State, sid: nat): Option<State>
    requires Active(s, sid)
  {
    var msg := MsgOf(s, sid);
    if !s.workers[sid].phase.Reporting? || !msg.Valid? then None
    else Some(Move(s, sid, Finished(false), NO_WRITES, s.db.(events := s.db.events[msg.event := EvFailed])))
  }

  /** A schema failure under an event id: its row, new or recorded before, is marked INVALID and committed. */
  function DoRecordInvalid(s: State, sid: nat): Option<State>
    requires Active(s, sid)
  {
    var msg := MsgOf(s, sid);
    if !s.workers[sid].phase.Received? || !msg.Invalid? then None
    else Some(Move(s, sid, Finished(false), NO_WRITES, s.db.(events := s.db.events[msg.event := EvInvalid])))
  }

  /** A malformed message, or any exception outside a handler. */
  function DoAbort(s: State, sid: nat): Option<State>
    requires Active(s, sid)
  {
    var phase := s.workers[sid].phase;
    if phase.Running? || phase.Finished? then None
    else Some(Move(s, sid, Finished(false), NO_WRITES, s.db))
  }

  /** The process dies: the transaction is rolled back and a send in flight is cut short. */
  function DoCrash(c: Config, s: State, sid: nat): Option<State>
  {
    if sid in s.sends && !c.faults.senderDies then None
    else Some(s.(workers := s.workers - {sid}, sends := s.sends - {sid}))
  }

  /** The session ends; the message is deleted from the queue only after success. */
  function DoClose(s: State, sid: nat, delete: bool): Option<State>
    requires Active(s, sid)
  {
    var w := s.workers[sid];
    if !w.phase.Finished? || (delete && !w.phase.ok) then None
    else Some(s.(workers := s.workers - {sid}, deleted := if delete then s.deleted + {w.mid} else s.deleted))
  }

  function Step(c: Config, s: State, a: Action): Option<State>
  {
    match a
    case Post(mid, msg) => if mid in s.queue then None else Some(s.(queue := s.queue[mid := msg]))
    case Receive(sid, mid) =>
      if sid in s.workers || mid !in s.queue then None
      else Some(s.(workers := s.workers[sid := Worker(mid, Phase.Received, NO_WRITES)]))
    case Tick(d) =>
      if d < 0 || exists t <- s.sends :: s.sends[t].stage.deadline < s.now + d then None
      else Some(s.(now := s.now + d, claims := map k | k in s.claims && s.now + d < s.claims[k].expires :: s.claims[k]))
    case Persist(sid) => if Active(s, sid) then DoPersist(s, sid) else None
    case Resolve(sid) => if Active(s, sid) then DoResolve(c, s, sid) else None
    case Lookup(sid) => if Active(s, sid) then DoLookup(c, s, sid) else None
    case Insert(sid) => if Active(s, sid) then DoInsert(c, s, sid) else None
    case Retake(sid) => if Active(s, sid) then DoRetake(c, s, sid) else None
    case Complete(sid) => if Active(s, sid) then DoComplete(s, sid) else None
    case HandlerFails(sid) => if Active(s, sid) then DoHandlerFails(s, sid) else None
    case Succeed(sid) => if Active(s, sid) then DoSucceed(c, s, sid) else None
    case RollBackPass(sid) => if Active(s, sid) then DoRollBackPass(c, s, sid) else None
    case ReportFailure(sid) => if Active(s, sid) then DoReportFailure(s, sid) else None
    case RecordInvalid(sid) => if Active(s, sid) then DoRecordInvalid(s, sid) else None
    case Abort(sid) => if Active(s, sid) then DoAbort(s, sid) else None
    case Crash(sid) => DoCrash(c, s, sid)
    case Delete(sid) => if Active(s, sid) then DoClose(s, sid, true) else None
    case Close(sid) => if Active(s, sid) then DoClose(s, sid, false) else None
    case Sending(sid, op) => SendStep(c, s, sid, op)
  }

  // ---- steps of a send ----

  /** The running worker's overlay with one more notification row, tagged with the run that writes it. */
  function RunNotif(c: Config, s: State, sid: nat, dedup: string): Option<Overlay>
  {
    if !Active(s, sid) then None
    else
      var w, msg := s.workers[sid], MsgOf(s, sid);
      if !w.phase.Running? || !msg.Valid? || w.phase.i >= |Handlers(c, msg)| then None
      else
        var n := Notif(PKey(msg.event, Handlers(c, msg)[w.phase.i]), w.phase.id, dedup);
        Some(w.overlay.(notifs := w.overlay.notifs + [n]))
  }

  predicate CanAsk(s: State, sid: nat) { sid !in s.sends && sid in s.workers && s.workers[sid].phase.Running? }

  /** Asking for the claim: a present key suppresses the send, which is then reported SENT. */
  function DoAsk(c: Config, s: State, sid: nat, key: string): Option<State>
  {
    if !CanAsk(s, sid) then None
    else if key in s.claims then Some(s)
    else Some(PutSend(s, sid, Send(key, true, s.now, Preparing(s.now + c.callTime)))
              .(claims := s.claims[key := Claim(sid, s.now + c.ttl)]))
  }

  /** No answer comes, whether the key was taken or not: the send goes ahead and will not release it. */
  function DoAskBlind(c: Config, s: State, sid: nat, key: string, taken: bool): Option<State>
  {
    if !CanAsk(s, sid) || !(if taken then c.faults.claimAnswerLost else c.faults.claimUnanswered) then None
    else
      var claims := if taken && key !in s.claims then s.claims[key := Claim(sid, s.now + c.ttl)] else s.claims;
      Some(PutSend(s, sid, Send(key, false, s.now, Preparing(s.now + c.callTime))).(claims := claims))
  }

  /** The notification row is written and the template rendered, or not. */
  function DoPrepare(c: Config, s: State, sid: nat, rendered: bool): Option<State>
    requires sid in s.sends
  {
    var x := s.sends[sid];
    if !x.stage.Preparing? then None
    else match RunNotif(c, s, sid, x.key)
      case None => None
      case Some(o) =>
        var stage := if rendered && c.retries >= 0 then Calling(1, x.stage.deadline) else Failing(x.stage.deadline);
        Some(PutSend(Move(s, sid, s.workers[sid].phase, o, s.db), sid, x.(stage := stage)))
  }

  function DoAccept(c: Config, s: State, sid: nat): Option<State>
    requires sid in s.sends
  {
    var x := s.sends[sid];
    if !x.stage.Calling? then None
    else
      var s' := PutSend(s, sid, x.(stage := Recording(x.stage.deadline)));
      Some(s'.(accepted := s.accepted + [Acceptance(x.key, x.at)]))
  }

  /** A failed attempt, as the caller sees it; `taken` when the provider accepted all the same. */
  function DoRefuse(c: Config, s: State, sid: nat, retryable: bool, taken: bool): Option<State>
    requires sid in s.sends
  {
    var x := s.sends[sid];
    if !x.stage.Calling? || (taken && !c.faults.acceptanceUnseen) then None
    else Some(PutSend(s, sid, AfterRefusal(c, s.now, x, retryable))
              .(accepted := if taken then s.accepted + [Acceptance(x.key, x.at)] else s.accepted))
  }

  function DoWake(c: Config, s: State, sid: nat): Option<State>
    requires sid in s.sends
  {
    var x := s.sends[sid];
    if !x.stage.Sleeping? || s.now < x.stage.deadline then None
    else Some(PutSend(s, sid, x.(stage := Calling(x.stage.attempt, s.now + c.callTime))))
  }

  /** `send` returns and no longer occupies its session. */
  function DoReturn(s: State, sid: nat): Option<State>
    requires sid in s.sends
  {
    if s.sends[sid].stage.Recording? then Some(s.(sends := s.sends - {sid})) else None
  }

  /** An exception leaves `send`, or a failed send ends: the claim is released. */
  function DoRelease(c: Config, s: State, sid: nat, lost: bool, recording: bool): Option<State>
    requires sid in s.sends
  {
    if s.sends[sid].stage.Recording? != recording || (recording && !c.faults.writeAfterAccept)
      || (lost && !c.faults.releaseLost) then None
    else Some(Released(s, sid, lost))
  }

  /** Steps of `send` inside the running handler of a session: one send at a time per session. */
  function SendStep(c: Config, s: State, sid: nat, op: SendOp): Option<State>
  {
    match op
    case Ask(key) => DoAsk(c, s, sid, key)
    case AskUnanswered(key) => DoAskBlind(c, s, sid, key, false)
    case AskAnswerLost(key) => DoAskBlind(c, s, sid, key, true)
    case Prepare => if sid in s.sends then DoPrepare(c, s, sid, true) else None
    case RenderFails => if sid in s.sends then DoPrepare(c, s, sid, false) else None
    case Accept => if sid in s.sends then DoAccept(c, s, sid) else None
    case AcceptUnseen(retryable) => if sid in s.sends then DoRefuse(c, s, sid, retryable, true) else None
    case Refuse(retryable) => if sid in s.sends then DoRefuse(c, s, sid, retryable, false) else None
    case Wake => if sid in s.sends then DoWake(c, s, sid) else None
    case Record => if sid in s.sends then DoReturn(s, sid) else None
    case RecordRaises(lost) => if sid in s.sends then DoRelease(c, s, sid, lost, true) else None
    case Release(lost) => if sid in s.sends then DoRelease(c, s, sid, lost, false) else None
  }

  // ---- runs ----

  /** The state after a list of actions from s, or None when one was not enabled. */
  function RunFrom(c: Config, s: State, acts: seq<Action>): Option<State>
  {
    if acts == [] then Some(s)
    else match RunFrom(c, s, acts[..|acts| - 1])
      case None => None
      case Some(t) => Step(c, t, acts[|acts| - 1])
  }

  function Run(c: Config, acts: seq<Action>): Option<State> { RunFrom(c, Initial(), acts) }

  lemma {:induction false} RunConcat(c: Config, s: State, acts: seq<Action>, more: seq<Action>)
    requires RunFrom(c, s, acts).Some?
    ensures RunFrom(c, s, acts + more) == RunFrom(c, RunFrom(c, s, acts).value, more)
    decreases |more|
  {
    if more == [] {
      assert acts + more == acts;
    } else {
      RunConcat(c, s, acts, more[..|more| - 1]);
      assert (acts + more)[..|acts + more| - 1] == acts + more[..|more| - 1];
    }
  }

  ghost predicate Reachable(c: Config, s: State)
  {
    exists acts :: Run(c, acts) == Some(s)
  }

  lemma ReachableOn(c: Config, s: State, more: seq<Action>, s': State)
    requires Reachable(c, s) && RunFrom(c, s, more) == Some(s')
    ensures Reachable(c, s')
  {
    var acts :| Run(c, acts) == Some(s);
    RunConcat(c, Initial(), acts, more);
    assert Run(c, acts + more) == Some(s');
  }

  /** Some continuation of s ends in s'. */
  ghost predicate Leads(c: Config, s: State, s': State) { exists more :: RunFrom(c, s, more) == Some(s') }

  lemma LeadsOn(c: Config, s: State, m: State, a: Action) returns (s': State)
    requires Leads(c, s, m) && Step(c, m, a).Some?
    ensures s' == Step(c, m, a).value && Leads(c, s, s')
  {
    s' := Step(c, m, a).value;
    var more :| RunFrom(c, s, more) == Some(m);
    RunConcat(c, s, more, [a]);
    assert RunFrom(c, m, []) == Some(m) && [a][..0] == [];
    assert RunFrom(c, s, more + [a]) == Some(s');
  }

  lemma LeadsThrough(c: Config, a: State, b: State, d: State)
    requires Leads(c, a, b) && Leads(c, b, d)
    ensures Leads(c, a, d)
  {
    var xs :| RunFrom(c, a, xs) == Some(b);
    var ys :| RunFrom(c, b, ys) == Some(d);
    RunConcat(c, a, xs, ys);
    assert RunFrom(c, a, xs + ys) == Some(d);
  }

  lemma LeadsNowhere(c: Config, s: State)
    ensures Leads(c, s, s)
  {
    assert RunFrom(c, s, []) == Some(s);
  }

  lemma LeadsReaches(c: Config, s: State, s': State)
    requires Reachable(c, s) && Leads(c, s, s')
    ensures Reachable(c, s')
  {
    var more :| RunFrom(c, s, more) == Some(s');
    ReachableOn(c, s, more, s');
  }
}
