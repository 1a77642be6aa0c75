/** Safety of the processing table over every run of the delivery protocol. */
module DeliverySafety {
  import opened Basics
  import opened Tables
  import opened Delivery

  /** Every handler registered for the message has its COMPLETED row among `rows`. */
  ghost predicate Handled(c: Config, rows: Rows, msg: Message)
  {
    msg.Valid? && forall h :: h in Handlers(c, msg) ==> Done(rows, PKey(msg.event, h))
  }

  predicate Done(rows: Rows, k: PKey) { k in rows && rows[k].status == Completed }

  /** No key and no row id in common. */
  ghost predicate Apart(a: Rows, b: Rows)
  {
    && (forall k :: k in a ==> k !in b)
    && (forall j, k :: j in a && k in b ==> a[j].id != b[k].id)
  }

  /** Every notification row names the processing row under which it was written. */
  ghost predicate Tagged(rows: Rows, notifs: seq<Notif>)
  {
    forall n :: n in notifs ==> n.key in rows && rows[n.key].id == n.run
  }

  /** Handlers before i are done, as far as this session can see. */
  ghost predicate DoneUpTo(c: Config, rows: Rows, msg: Message, i: nat)
  {
    msg.Valid? && i <= |Handlers(c, msg)| && forall j :: 0 <= j < i ==> Done(rows, PKey(msg.event, Handlers(c, msg)[j]))
  }

  ghost predicate PhaseOk(c: Config, db: Db, msg: Message, w: Worker)
  {
    var hs := Handlers(c, msg);
    match w.phase
    case Received => w.overlay == NO_WRITES
    case Starting => msg.Valid? && w.overlay == NO_WRITES
    case Routing(i, f) => msg.Valid? && AllCompleted(w.overlay.rows)
        && (!f ==> DoneUpTo(c, View(db, w.overlay), msg, i))
    case Inserting(i, f) => msg.Valid? && i < |hs| && AllCompleted(w.overlay.rows)
        && (!f ==> DoneUpTo(c, View(db, w.overlay), msg, i))
    case Resuming(i, f, id) => false
    case Running(i, f, id) =>
      && msg.Valid? && i < |hs|
      && PKey(msg.event, hs[i]) in w.overlay.rows
      && w.overlay.rows[PKey(msg.event, hs[i])] == ProcRow(id, Processing)
      && AllCompleted(w.overlay.rows - {PKey(msg.event, hs[i])})
      && (!f ==> DoneUpTo(c, View(db, w.overlay), msg, i))
    case Reporting => msg.Valid? && w.overlay == NO_WRITES
    case Finished(ok) => w.overlay == NO_WRITES && (ok ==> Handled(c, db.rows, msg))
  }

  ghost predicate WorkerOk(c: Config, s: State, w: Worker)
  {
    && w.mid in s.queue
    && Apart(w.overlay.rows, s.db.rows)
    && IdsBelow(w.overlay.rows, s.nextId)
    && Tagged(w.overlay.rows, w.overlay.notifs)
    && PhaseOk(c, s.db, s.queue[w.mid], w)
  }

  /** The durable tables. */
  ghost predicate TablesOk(s: State)
  {
    AllCompleted(s.db.rows) && IdsBelow(s.db.rows, s.nextId) && Tagged(s.db.rows, s.db.notifs)
  }

  ghost predicate WorkersOk(c: Config, s: State) { forall t :: t in s.workers ==> WorkerOk(c, s, s.workers[t]) }

  ghost predicate OverlaysApart(ws: map<nat, Worker>)
  {
    forall t, u :: t in ws && u in ws && t != u ==> Apart(ws[t].overlay.rows, ws[u].overlay.rows)
  }

  ghost predicate DeletedOk(c: Config, s: State)
  {
    forall m :: m in s.deleted ==> m in s.queue && Handled(c, s.db.rows, s.queue[m])
  }

  ghost predicate Inv(c: Config, s: State)
  {
    TablesOk(s) && WorkersOk(c, s) && OverlaysApart(s.workers) && DeletedOk(c, s)
  }

  // ---- frames ----

  /** A worker whose overlay is unaffected stays consistent when one of the others commits. */
  lemma WorkerOkAfterCommit(c: Config, s: State, s': State, w: Worker, o: Overlay)
    requires WorkerOk(c, s, w)
    requires s'.queue == s.queue && s'.nextId == s.nextId
    requires s'.db.rows == s.db.rows + o.rows
    requires Apart(w.overlay.rows, o.rows) && AllCompleted(o.rows) && Apart(o.rows, s.db.rows)
    ensures WorkerOk(c, s', w)
  {
    assert forall k :: k in s.db.rows ==> k in s'.db.rows && s'.db.rows[k] == s.db.rows[k];
    assert forall k :: k in View(s.db, w.overlay) ==>
        k in View(s'.db, w.overlay) && View(s'.db, w.overlay)[k] == View(s.db, w.overlay)[k];
  }

  /** All workers stay consistent when one is replaced by a consistent one. */
  lemma PutWorkerOk(c: Config, s: State, s': State, sid: nat, w: Worker)
    requires WorkersOk(c, s) && WorkerOk(c, s', w)
    requires s'.queue == s.queue && s'.db.rows == s.db.rows && s'.nextId >= s.nextId
        && s'.workers == s.workers[sid := w]
    ensures WorkersOk(c, s')
  {
    forall t | t in s'.workers
      ensures WorkerOk(c, s', s'.workers[t])
    {
      if t != sid { assert WorkerOk(c, s, s.workers[t]); }
    }
  }

  /** Overlays stay apart when one is replaced by one that is apart from the others. */
  lemma PutApart(ws: map<nat, Worker>, sid: nat, w: Worker)
    requires OverlaysApart(ws)
    requires forall t :: t in ws && t != sid ==> Apart(w.overlay.rows, ws[t].overlay.rows)
    ensures OverlaysApart(ws[sid := w])
  {
  }

  /** Replacing one worker keeps the invariant when it is consistent and apart from the others. */
  lemma PutWorker(c: Config, s: State, s': State, sid: nat, w: Worker)
    requires Inv(c, s)
    requires s'.queue == s.queue && s'.deleted == s.deleted && s'.db.rows == s.db.rows && s'.db.notifs == s.db.notifs
    requires s'.nextId >= s.nextId && s'.workers == s.workers[sid := w]
    requires WorkerOk(c, s', w)
    requires forall t :: t in s.workers && t != sid ==> Apart(w.overlay.rows, s.workers[t].overlay.rows)
    ensures Inv(c, s')
  {
    PutWorkerOk(c, s, s', sid, w);
    PutApart(s.workers, sid, w);
    StillHandled(c, s, s');
  }

  /** A fresh row under a key and an id that nobody else has keeps overlays apart. */
  lemma FreshRowApart(a: Rows, b: Rows, k: PKey, id: nat, st: ProcStatus)
    requires Apart(a, b) && k !in b && IdsBelow(b, id)
    ensures Apart(a[k := ProcRow(id, st)], b)
  {
  }

  /** The running worker that an insert under key k and fresh row id produces. */
  function Inserted(s: State, w: Worker, k: PKey): Worker
    requires w.phase.Inserting?
  {
    Worker(w.mid, Running(w.phase.i, w.phase.failed, s.nextId),
        w.overlay.(rows := w.overlay.rows[k := ProcRow(s.nextId, Processing)]))
  }

  lemma InsertedWorkerOk(c: Config, s: State, s': State, w: Worker, k: PKey)
    requires WorkerOk(c, s, w) && w.phase.Inserting? && IdsBelow(s.db.rows, s.nextId)
    requires k == PKey(s.queue[w.mid].event, Handlers(c, s.queue[w.mid])[w.phase.i]) && k !in View(s.db, w.overlay)
    requires s'.queue == s.queue && s'.db == s.db && s'.nextId == s.nextId + 1
    ensures WorkerOk(c, s', Inserted(s, w, k))
  {
    var w' := Inserted(s, w, k);
    assert w'.overlay.rows - {k} == w.overlay.rows;
    FreshRowApart(w.overlay.rows, s.db.rows, k, s.nextId, Processing);
    assert forall j :: j in View(s.db, w.overlay) ==>
        j in View(s.db, w'.overlay) && View(s.db, w'.overlay)[j] == View(s.db, w.overlay)[j];
  }

  lemma StepInsertFresh(c: Config, s: State, s': State, sid: nat, k: PKey)
    requires Inv(c, s) && sid in s.workers && s.workers[sid].phase.Inserting?
    requires s.workers[sid].mid in s.queue && s.workers[sid].phase.i < |Handlers(c, MsgOf(s, sid))|
        && MsgOf(s, sid).Valid?
    requires k == PKey(MsgOf(s, sid).event, Handlers(c, MsgOf(s, sid))[s.workers[sid].phase.i])
    requires k !in View(s.db, s.workers[sid].overlay) && !Locked(s, sid, k)
    requires s' == s.(workers := s.workers[sid := Inserted(s, s.workers[sid], k)], nextId := s.nextId + 1)
    ensures Inv(c, s')
  {
    var w := s.workers[sid];
    assert WorkerOk(c, s, w);
    InsertedWorkerOk(c, s, s', w, k);
    forall t | t in s.workers && t != sid
      ensures Apart(Inserted(s, w, k).overlay.rows, s.workers[t].overlay.rows)
    {
      assert WorkerOk(c, s, s.workers[t]);
      assert k !in s.workers[t].overlay.rows;
      FreshRowApart(w.overlay.rows, s.workers[t].overlay.rows, k, s.nextId, Processing);
    }
    PutWorker(c, s, s', sid, Inserted(s, w, k));
  }

  lemma StepInsert(c: Config, s: State, sid: nat, s': State)
    requires Inv(c, s) && Active(s, sid) && DoInsert(c, s, sid) == Some(s')
    ensures Inv(c, s')
  {
    var w := s.workers[sid];
    var k := PKey(MsgOf(s, sid).event, Handlers(c, MsgOf(s, sid))[w.phase.i]);
    if k in View(s.db, w.overlay) {
      PutCleared(c, s, s', sid, Worker(w.mid, Finished(false), NO_WRITES));
    } else {
      StepInsertFresh(c, s, s', sid, k);
    }
  }

  lemma LookedUpWorkerOk(c: Config, s: State, w: Worker, w': Worker)
    requires WorkerOk(c, s, w) && w.phase.Routing? && AllCompleted(s.db.rows)
    requires s.queue[w.mid].Valid? && w.phase.i < |Handlers(c, s.queue[w.mid])| && w'.mid == w.mid
        && w'.overlay == w.overlay
    requires var k := PKey(s.queue[w.mid].event, Handlers(c, s.queue[w.mid])[w.phase.i]);
      w'.phase == if k in View(s.db, w.overlay) then Routing(w.phase.i + 1, w.phase.failed)
          else Inserting(w.phase.i, w.phase.failed)
    ensures WorkerOk(c, s, w')
  {
    var view := View(s.db, w.overlay);
    assert AllCompleted(view);
  }

  lemma StepLookup(c: Config, s: State, sid: nat, s': State)
    requires Inv(c, s) && Active(s, sid) && DoLookup(c, s, sid) == Some(s')
    ensures Inv(c, s')
  {
    var w, w' := s.workers[sid], s'.workers[sid];
    assert WorkerOk(c, s, w);
    assert AllCompleted(View(s.db, w.overlay));
    LookedUpWorkerOk(c, s, w, w');
    PutWorker(c, s, s', sid, w');
  }

  /** Marking the one open row of an overlay completes it and changes nothing else. */
  lemma CompletedRows(rows: Rows, k: PKey, id: nat)
    requires k in rows && rows[k] == ProcRow(id, Processing) && AllCompleted(rows - {k})
    ensures var rows' := SetStatus(rows, id, Completed);
      && AllCompleted(rows') && rows'.Keys == rows.Keys
      && (forall j :: j in rows ==> rows'[j].id == rows[j].id)
      && (forall j :: j in rows && rows[j].status == Completed ==> rows'[j] == rows[j])
  {
    var rows' := SetStatus(rows, id, Completed);
    forall j | j in rows' ensures rows'[j].status == Completed {
      if j != k { assert j in rows - {k}; }
    }
  }

  lemma CompletedUpTo(c: Config, view: Rows, view': Rows, msg: Message, i: nat)
    requires DoneUpTo(c, view, msg, i) && i < |Handlers(c, msg)| && Done(view', PKey(msg.event, Handlers(c, msg)[i]))
    requires forall j :: Done(view, j) ==> Done(view', j)
    ensures DoneUpTo(c, view', msg, i + 1)
  {
  }

  lemma CompletedWorkerOk(c: Config, s: State, w: Worker, rows': Rows)
    requires WorkerOk(c, s, w) && w.phase.Running? && rows' == SetStatus(w.overlay.rows, w.phase.id, Completed)
    ensures WorkerOk(c, s, Worker(w.mid, Routing(w.phase.i + 1, w.phase.failed), w.overlay.(rows := rows')))
    ensures rows'.Keys == w.overlay.rows.Keys && forall j :: j in rows' ==> rows'[j].id == w.overlay.rows[j].id
  {
    var msg := s.queue[w.mid];
    var k := PKey(msg.event, Handlers(c, msg)[w.phase.i]);
    CompletedRows(w.overlay.rows, k, w.phase.id);
    var view, view' := View(s.db, w.overlay), View(s.db, w.overlay.(rows := rows'));
    if !w.phase.failed { CompletedUpTo(c, view, view', msg, w.phase.i); }
  }

  lemma StepComplete(c: Config, s: State, sid: nat, s': State)
    requires Inv(c, s) && Active(s, sid) && DoComplete(s, sid) == Some(s')
    ensures Inv(c, s')
  {
    var w, w' := s.workers[sid], s'.workers[sid];
    assert WorkerOk(c, s, w);
    CompletedWorkerOk(c, s, w, w'.overlay.rows);
    forall t | t in s.workers && t != sid
      ensures Apart(w'.overlay.rows, s.workers[t].overlay.rows)
    {
      assert Apart(w.overlay.rows, s.workers[t].overlay.rows);
    }
    PutWorker(c, s, s', sid, w');
  }

  lemma StepHandlerFails(c: Config, s: State, sid: nat, s': State)
    requires Inv(c, s) && Active(s, sid) && DoHandlerFails(s, sid) == Some(s')
    ensures Inv(c, s')
    ensures s'.workers[sid].overlay == NO_WRITES
  {
    var w := s.workers[sid];
    assert WorkerOk(c, s, w);
    assert s'.workers[sid].overlay.rows == map[];
    PutWorker(c, s, s', sid, s'.workers[sid]);
  }

  /** What committing a consistent overlay does to the tables. */
  lemma CommittedTables(c: Config, s: State, s': State, w: Worker)
    requires TablesOk(s)
    requires WorkerOk(c, s, w) && AllCompleted(w.overlay.rows)
    requires s'.nextId == s.nextId && s'.db.rows == s.db.rows + w.overlay.rows
        && s'.db.notifs == s.db.notifs + w.overlay.notifs
    ensures TablesOk(s')
    ensures forall k :: k in s.db.rows ==> k in s'.db.rows && s'.db.rows[k] == s.db.rows[k]
  {
  }

  lemma OthersAfterCommit(c: Config, s: State, s': State, sid: nat)
    requires Inv(c, s) && sid in s.workers && AllCompleted(s.workers[sid].overlay.rows)
    requires s'.queue == s.queue && s'.nextId == s.nextId && s'.db.rows == s.db.rows + s.workers[sid].overlay.rows
    ensures forall t :: t in s.workers && t != sid ==> WorkerOk(c, s', s.workers[t])
  {
    var w := s.workers[sid];
    assert WorkerOk(c, s, w);
    forall t | t in s.workers && t != sid
      ensures WorkerOk(c, s', s.workers[t])
    {
      assert WorkerOk(c, s, s.workers[t]);
      assert Apart(s.workers[t].overlay.rows, w.overlay.rows);
      WorkerOkAfterCommit(c, s, s', s.workers[t], w.overlay);
    }
  }

  /** A commit of worker sid's overlay, after which that worker is finished, keeps the invariant. */
  lemma CommitWorker(c: Config, s: State, s': State, sid: nat)
    requires Inv(c, s) && sid in s.workers && AllCompleted(s.workers[sid].overlay.rows)
    requires s'.queue == s.queue && s'.deleted == s.deleted && s'.nextId == s.nextId
    requires s'.workers == s.workers[sid := Worker(s.workers[sid].mid, Finished(true), NO_WRITES)]
    requires s'.db.rows == s.db.rows + s.workers[sid].overlay.rows
    requires s'.db.notifs == s.db.notifs + s.workers[sid].overlay.notifs
    requires s.workers[sid].mid in s.queue && Handled(c, s'.db.rows, s.queue[s.workers[sid].mid])
    ensures Inv(c, s')
  {
    var w, w' := s.workers[sid], s'.workers[sid];
    assert WorkerOk(c, s, w);
    CommittedTables(c, s, s', w);
    CommittedWorkers(c, s, s', sid);
    PutApart(s.workers, sid, w');
    StillHandled(c, s, s');
  }

  lemma CommittedWorkers(c: Config, s: State, s': State, sid: nat)
    requires Inv(c, s) && sid in s.workers && AllCompleted(s.workers[sid].overlay.rows)
    requires s'.queue == s.queue && s'.nextId == s.nextId && s'.db.rows == s.db.rows + s.workers[sid].overlay.rows
    requires s'.workers == s.workers[sid := Worker(s.workers[sid].mid, Finished(true), NO_WRITES)]
    requires s.workers[sid].mid in s.queue && Handled(c, s'.db.rows, s.queue[s.workers[sid].mid])
    ensures WorkersOk(c, s')
  {
    OthersAfterCommit(c, s, s', sid);
    forall t | t in s'.workers ensures WorkerOk(c, s', s'.workers[t]) {
      if t != sid { assert WorkerOk(c, s', s.workers[t]); }
    }
  }

  /** Handled messages stay handled while the table only gains rows. */
  lemma StillHandled(c: Config, s: State, s': State)
    requires forall k :: k in s.db.rows ==> k in s'.db.rows && s'.db.rows[k] == s.db.rows[k]
    requires DeletedOk(c, s) && s'.deleted == s.deleted && s'.queue == s.queue
    ensures DeletedOk(c, s')
  {
  }

  lemma StepSucceed(c: Config, s: State, sid: nat, s': State)
    requires Inv(c, s) && Active(s, sid) && DoSucceed(c, s, sid) == Some(s')
    ensures Inv(c, s')
  {
    var w := s.workers[sid];
    assert WorkerOk(c, s, w);
    assert s'.db.rows == View(s.db, w.overlay);
    CommitWorker(c, s, s', sid);
  }

  /** A running worker that has written one more notification row under its own processing row. */
  lemma NotedWorkerOk(c: Config, s: State, w: Worker, o: Overlay)
    requires WorkerOk(c, s, w) && w.phase.Running? && w.phase.i < |Handlers(c, s.queue[w.mid])|
    requires exists dedup :: o == w.overlay.(notifs := w.overlay.notifs
      + [Notif(PKey(s.queue[w.mid].event, Handlers(c, s.queue[w.mid])[w.phase.i]), w.phase.id, dedup)])
    ensures WorkerOk(c, s, Worker(w.mid, w.phase, o))
  {
  }

  lemma StepNotes(c: Config, s: State, sid: nat, rendered: bool, s': State)
    requires Inv(c, s) && sid in s.sends && DoPrepare(c, s, sid, rendered) == Some(s')
    ensures Inv(c, s')
  {
    var w, w' := s.workers[sid], s'.workers[sid];
    assert WorkerOk(c, s, w);
    NotedWorkerOk(c, s, w, w'.overlay);
    forall t | t in s.workers && t != sid ensures Apart(w'.overlay.rows, s.workers[t].overlay.rows) {
      assert Apart(w.overlay.rows, s.workers[t].overlay.rows);
    }
    PutWorker(c, s, s', sid, w');
  }

  /** Nothing of what the invariant speaks of changes. */
  lemma SameTables(c: Config, s: State, s': State)
    requires Inv(c, s) && s'.workers == s.workers && s'.db == s.db && s'.queue == s.queue
    requires s'.nextId == s.nextId && s'.deleted == s.deleted
    ensures Inv(c, s')
  {
    forall t | t in s'.workers ensures WorkerOk(c, s', s'.workers[t]) { assert WorkerOk(c, s, s.workers[t]); }
  }

  lemma StepSend(c: Config, s: State, sid: nat, op: SendOp, s': State)
    requires Inv(c, s) && SendStep(c, s, sid, op) == Some(s')
    ensures Inv(c, s')
  {
    match op
    case Prepare => StepNotes(c, s, sid, true, s');
    case RenderFails => StepNotes(c, s, sid, false, s');
    case _ => SameTables(c, s, s');
  }

  /** A worker that moves on with no processing or notification row of its own. */
  lemma PutCleared(c: Config, s: State, s': State, sid: nat, w: Worker)
    requires Inv(c, s) && sid in s.workers && w.mid in s.queue && w.overlay.rows == map[] && w.overlay.notifs == []
    requires s'.queue == s.queue && s'.deleted == s.deleted && s'.db.rows == s.db.rows && s'.db.notifs == s.db.notifs
    requires s'.nextId == s.nextId && s'.workers == s.workers[sid := w]
    requires PhaseOk(c, s'.db, s.queue[w.mid], w)
    ensures Inv(c, s')
  {
    PutWorker(c, s, s', sid, w);
  }

  lemma StepPersist(c: Config, s: State, sid: nat, s': State)
    requires Inv(c, s) && Active(s, sid) && DoPersist(s, sid) == Some(s')
    ensures Inv(c, s')
  {
    assert WorkerOk(c, s, s.workers[sid]);
    PutCleared(c, s, s', sid, s'.workers[sid]);
  }

  lemma StepResolve(c: Config, s: State, sid: nat, s': State)
    requires Inv(c, s) && Active(s, sid) && DoResolve(c, s, sid) == Some(s')
    ensures Inv(c, s')
  {
    assert WorkerOk(c, s, s.workers[sid]);
    PutCleared(c, s, s', sid, s'.workers[sid]);
  }

  /** Steps of a pass that does not succeed: they leave no write behind but the event's status. */
  lemma StepExit(c: Config, s: State, sid: nat, a: Action, s': State)
    requires Inv(c, s) && Step(c, s, a) == Some(s')
        && a in {RollBackPass(sid), ReportFailure(sid), RecordInvalid(sid), Abort(sid)}
    ensures Inv(c, s')
  {
    assert WorkerOk(c, s, s.workers[sid]);
    PutCleared(c, s, s', sid, s'.workers[sid]);
  }

  /** The guard never resumes a row, so there is no such step. */
  lemma NoRetake(c: Config, s: State, sid: nat)
    requires Inv(c, s)
    ensures Step(c, s, Retake(sid)) == None
  {
    if Active(s, sid) { assert WorkerOk(c, s, s.workers[sid]); }
  }

  lemma StepPost(c: Config, s: State, mid: nat, msg: Message, s': State)
    requires Inv(c, s) && Step(c, s, Post(mid, msg)) == Some(s')
    ensures Inv(c, s')
  {
    forall t | t in s'.workers ensures WorkerOk(c, s', s'.workers[t]) { assert WorkerOk(c, s, s.workers[t]); }
  }

  /** Steps that change only which workers and claims there are. */
  lemma StepOuter(c: Config, s: State, a: Action, s': State)
    requires Inv(c, s) && Step(c, s, a) == Some(s')
    requires a.Tick? || a.Crash? || a.Delete? || a.Close?
    ensures Inv(c, s')
  {
    if a.Delete? { assert WorkerOk(c, s, s.workers[a.sid]); }
    forall t | t in s'.workers
      ensures WorkerOk(c, s', s'.workers[t])
    {
      assert WorkerOk(c, s, s.workers[t]);
    }
  }

  lemma StepReceive(c: Config, s: State, sid: nat, mid: nat, s': State)
    requires Inv(c, s) && Step(c, s, Receive(sid, mid)) == Some(s')
    ensures Inv(c, s')
  {
    PutWorker(c, s, s', sid, s'.workers[sid]);
  }

  /** Steps that end or begin a handler, and the end of a pass. */
  lemma StepHandler(c: Config, s: State, a: Action, s': State)
    requires Inv(c, s) && Step(c, s, a) == Some(s')
    requires a.Insert? || a.Lookup? || a.Complete? || a.HandlerFails? || a.Succeed?
    ensures Inv(c, s')
  {
    match a
    case Insert(sid) => StepInsert(c, s, sid, s');
    case Lookup(sid) => StepLookup(c, s, sid, s');
    case Complete(sid) => StepComplete(c, s, sid, s');
    case HandlerFails(sid) => StepHandlerFails(c, s, sid, s');
    case Succeed(sid) => StepSucceed(c, s, sid, s');
  }

  /** The invariant is inductive. */
  lemma InvStep(c: Config, s: State, a: Action, s': State)
    requires Inv(c, s) && Step(c, s, a) == Some(s')
    ensures Inv(c, s')
  {
    match a
    case Sending(sid, op) => StepSend(c, s, sid, op, s');
    case Post(mid, msg) => StepPost(c, s, mid, msg, s');
    case Receive(sid, mid) => StepReceive(c, s, sid, mid, s');
    case Retake(sid) => NoRetake(c, s, sid);
    case Tick(_) => StepOuter(c, s, a, s');
    case Crash(_) => StepOuter(c, s, a, s');
    case Delete(_) => StepOuter(c, s, a, s');
    case Close(_) => StepOuter(c, s, a, s');
    case Insert(_) => StepHandler(c, s, a, s');
    case Lookup(_) => StepHandler(c, s, a, s');
    case Complete(_) => StepHandler(c, s, a, s');
    case HandlerFails(_) => StepHandler(c, s, a, s');
    case Succeed(_) => StepHandler(c, s, a, s');
    case Persist(sid) => StepPersist(c, s, sid, s');
    case Resolve(sid) => StepResolve(c, s, sid, s');
    case _ => StepExit(c, s, a.sid, a, s');
  }

  // ---- theorems over all runs ----

  lemma {:induction false} InvHolds(c: Config, acts: seq<Action>, s: State)
    requires Run(c, acts) == Some(s)
    ensures Inv(c, s)
  {
    if acts != [] {
      var prior := Run(c, acts[..|acts| - 1]).value;
      InvHolds(c, acts[..|acts| - 1], prior);
      InvStep(c, prior, acts[|acts| - 1], s);
    }
  }

  lemma InvOfReachable(c: Config, s: State)
    requires Reachable(c, s)
    ensures Inv(c, s)
  {
    var acts :| Run(c, acts) == Some(s);
    InvHolds(c, acts, s);
  }

  /** Session t is between acquiring the pair and the end of its transaction. */
  predicate Holds(s: State, t: nat, k: PKey)
  {
    t in s.workers && k in s.workers[t].overlay.rows
  }

  /** At most one session at a time holds a pair, and none holds a pair that is already durable. */
  lemma ExclusiveProcessing(c: Config, s: State, t: nat, u: nat, k: PKey)
    requires Reachable(c, s) && Holds(s, t, k)
    ensures Holds(s, u, k) ==> t == u
    ensures k !in s.db.rows
  {
    InvOfReachable(c, s);
    assert WorkerOk(c, s, s.workers[t]);
    assert u in s.workers && t != u ==> Apart(s.workers[t].overlay.rows, s.workers[u].overlay.rows);
  }

  /**
   Only COMPLETED processing rows ever become durable, and so the guard's re-attempt of a PENDING or
   FAILED row, which two sessions could enter together, is never entered by any.
   */
  lemma OnlyCompletedIsDurable(c: Config, s: State)
    requires Reachable(c, s)
    ensures AllCompleted(s.db.rows)
    ensures forall t :: t in s.workers ==> !s.workers[t].phase.Resuming?
  {
    InvOfReachable(c, s);
    forall t | t in s.workers ensures !s.workers[t].phase.Resuming? { assert WorkerOk(c, s, s.workers[t]); }
  }

  /** The FAILED status that the guard records after the first rollback finds no row to land on. */
  lemma GuardFailureIsNeverRecorded(c: Config, s: State, sid: nat, s': State)
    requires Reachable(c, s) && Step(c, s, HandlerFails(sid)) == Some(s')
    ensures s'.workers[sid].overlay == NO_WRITES && s'.db == s.db
  {
    InvOfReachable(c, s);
    StepHandlerFails(c, s, sid, s');
  }

  /** A step changes the durable tables by nothing, or by one whole pass that succeeded for every handler. */
  lemma PassIsAllOrNothing(c: Config, s: State, a: Action, s': State)
    requires Reachable(c, s) && Step(c, s, a) == Some(s')
    ensures s'.db.rows != s.db.rows || s'.db.notifs != s.db.notifs ==>
      a.Succeed? && s'.workers[a.sid].phase == Finished(true) && Handled(c, s'.db.rows, MsgOf(s, a.sid))
      && s'.db.events[MsgOf(s, a.sid).event] == EvProcessed
    ensures forall k :: k in s.db.rows ==> k in s'.db.rows && s'.db.rows[k] == s.db.rows[k]
    ensures s.db.notifs <= s'.db.notifs
  {
    if a.Succeed? {
      InvOfReachable(c, s);
      SuccessCommits(c, s, a.sid, s');
    } else {
      OtherStepsKeepTables(c, s, a, s');
    }
  }

  lemma SuccessCommits(c: Config, s: State, sid: nat, s': State)
    requires Inv(c, s) && Active(s, sid) && DoSucceed(c, s, sid) == Some(s')
    ensures s'.workers[sid].phase == Finished(true) && Handled(c, s'.db.rows, MsgOf(s, sid))
    ensures s'.db.events[MsgOf(s, sid).event] == EvProcessed
    ensures forall k :: k in s.db.rows ==> k in s'.db.rows && s'.db.rows[k] == s.db.rows[k]
    ensures s.db.notifs <= s'.db.notifs
  {
    assert WorkerOk(c, s, s.workers[sid]);
    assert s'.db.rows == View(s.db, s.workers[sid].overlay);
  }

  lemma SendKeepsTables(c: Config, s: State, sid: nat, op: SendOp, s': State)
    requires SendStep(c, s, sid, op) == Some(s')
    ensures s'.db == s.db && s'.queue == s.queue && s'.deleted == s.deleted
  {
  }

  lemma OtherStepsKeepTables(c: Config, s: State, a: Action, s': State)
    requires !a.Succeed? && Step(c, s, a) == Some(s')
    ensures s'.db.rows == s.db.rows && s'.db.notifs == s.db.notifs
  {
    if a.Sending? { SendKeepsTables(c, s, a.sid, a.op, s'); }
  }

  lemma QueueOnlyGrows(c: Config, s: State, a: Action, s': State)
    requires Step(c, s, a) == Some(s')
    ensures s.deleted <= s'.deleted && (forall m :: m in s.queue ==> m in s'.queue && s'.queue[m] == s.queue[m])
  {
    if a.Sending? {
      SendKeepsTables(c, s, a.sid, a.op, s');
    } else {
      assert s'.queue == if a.Post? then s.queue[a.mid := a.msg] else s.queue;
    }
  }

  /** Durable processing and notification rows are never changed nor removed by anything that follows. */
  lemma {:induction false} DurableRowsStay(c: Config, s: State, more: seq<Action>, s': State)
    requires Reachable(c, s) && RunFrom(c, s, more) == Some(s')
    ensures forall k :: k in s.db.rows ==> k in s'.db.rows && s'.db.rows[k] == s.db.rows[k]
    ensures s.db.notifs <= s'.db.notifs
    ensures s.deleted <= s'.deleted && (forall m :: m in s.queue ==> m in s'.queue && s'.queue[m] == s.queue[m])
    decreases |more|
  {
    if more != [] {
      var most, a := more[..|more| - 1], more[|more| - 1];
      var mid := RunFrom(c, s, most).value;
      DurableRowsStay(c, s, most, mid);
      ReachableOn(c, s, most, mid);
      PassIsAllOrNothing(c, mid, a, s');
      QueueOnlyGrows(c, mid, a, s');
    }
  }

  /**
   No message is lost: once a message has been deleted from the queue, every handler registered for
   its event type has a durable COMPLETED row, then and in every later state.
   */
  lemma NoMessageLost(c: Config, s: State, more: seq<Action>, s': State, m: nat)
    requires Reachable(c, s) && RunFrom(c, s, more) == Some(s')
    requires m in s.deleted
    ensures m in s.queue && m in s'.queue && s'.queue[m] == s.queue[m]
    ensures Handled(c, s.db.rows, s.queue[m]) && Handled(c, s'.db.rows, s.queue[m])
    ensures s.queue[m].Valid?
    ensures forall h :: s.queue[m].eventType in c.registry && h in c.registry[s.queue[m].eventType] ==>
      var k := PKey(s.queue[m].event, h);
      && k in s.db.rows && s.db.rows[k].status == Completed && k in s'.db.rows && s'.db.rows[k].status == Completed
  {
    DurableRowsStay(c, s, more, s');
    InvOfReachable(c, s);
  }

  /**
   At most one execution of an (event, handler) pair ever commits its effects: all notification rows
   that are durable for the pair, at whatever two moments, were written by one and the same run, and
   that run's processing row is the durable COMPLETED one.
   */
  lemma OneExecutionCommits(c: Config, s: State, more: seq<Action>, s': State, n: Notif, n': Notif)
    requires Reachable(c, s) && RunFrom(c, s, more) == Some(s')
    requires n in s.db.notifs && n' in s'.db.notifs && n.key == n'.key
    ensures n.run == n'.run
    ensures n.key in s.db.rows && s.db.rows[n.key] == ProcRow(n.run, Completed)
  {
    DurableRowsStay(c, s, more, s');
    InvOfReachable(c, s);
    ReachableOn(c, s, more, s');
    InvOfReachable(c, s');
  }
}
