/**
 One delivery, as the code runs it: database session, repositories, idempotency guard, router,
 message processor and consumer, with their state updated in place. Interleaving with other
 sessions is the subject of module Delivery; here a pass is related to the tables it started from.
 */
module Routing {
  import opened Basics
  import opened Tables

  datatype EventRow = EventRow(status: EventStatus, retryCount: nat)

  datatype Snapshot = Snapshot(events: map<string, EventRow>, rows: Rows, notifs: seq<Notif>)

  /** What one handler does when invoked: the notification rows it writes, and whether it then raises. */
  datatype HandlerRun = HandlerRun(dedups: seq<string>, raises: bool)

  /** A transaction over the tables: `working` is what the session reads, `committed` what survives. */
  class DbSession {
    var committed: Snapshot
    var working: Snapshot
    var nextId: nat

    constructor (tables: Snapshot, nextId: nat)
      ensures committed == working == tables && this.nextId == nextId
    {
      committed, working, this.nextId := tables, tables, nextId;
    }

    method Commit()
      modifies this
      ensures committed == working == old(working) && nextId == old(nextId)
    {
      committed := working;
    }

    method Rollback()
      modifies this
      ensures committed == working == old(committed) && nextId == old(nextId)
    {
      working := committed;
    }

    /** Writes the event's status; a row that is not there is not updated. */
    method MarkEvent(event: string, status: EventStatus)
      modifies this
      ensures committed == old(committed) && nextId == old(nextId)
      ensures OnlyEventDiffers(old(working), working, event) && working.events.Keys == old(working).events.Keys
      ensures event in working.events ==> working.events[event] == old(working).events[event].(status := status)
      ensures working.events == WithStatus(old(working).events, event, status)
    {
      if event in working.events {
        working := working.(events := working.events[event := working.events[event].(status := status)]);
      }
    }

    /** The failure of one event: its status and one more retry; nothing else changes. */
    method MarkEventFailed(event: string)
      modifies this
      ensures committed == old(committed) && nextId == old(nextId)
      ensures OnlyEventDiffers(old(working), working, event) && working.events.Keys == old(working).events.Keys
      ensures event in working.events ==>
        working.events[event].status == EvFailed
            && working.events[event].retryCount == old(working).events[event].retryCount + 1
      ensures working.events == WithFailure(old(working).events, event)
    {
      if event in working.events {
        var row := working.events[event];
        working := working.(events := working.events[event := EventRow(EvFailed, row.retryCount + 1)]);
      }
    }

    /** Returns the recorded event or inserts a new RECEIVED row. */
    method CreateEvent(event: string)
      modifies this
      ensures committed == old(committed) && nextId == old(nextId)
      ensures OnlyEventDiffers(old(working), working, event) && event in working.events
      ensures forall e :: e in old(working).events ==> working.events[e] == old(working).events[e]
      ensures event !in old(working).events ==> working.events[event] == EventRow(EvReceived, 0)
      ensures working.events == WithEvent(old(working).events, event)
    {
      if event !in working.events {
        working := working.(events := working.events[event := EventRow(EvReceived, 0)]);
      }
    }
  }

  /** The two snapshots agree on everything but the row of one event. */
  ghost predicate OnlyEventDiffers(a: Snapshot, b: Snapshot, event: string)
  {
    && a.rows == b.rows && a.notifs == b.notifs
    && forall e :: e != event ==> (e in a.events <==> e in b.events) && (e in a.events ==> a.events[e] == b.events[e])
  }

  function WithFailure(events: map<string, EventRow>, event: string): map<string, EventRow>
  {
    if event in events then events[event := EventRow(EvFailed, events[event].retryCount + 1)] else events
  }

  function WithEvent(events: map<string, EventRow>, event: string): map<string, EventRow>
  {
    if event in events then events else events[event := EventRow(EvReceived, 0)]
  }

  function WithStatus(events: map<string, EventRow>, event: string, status: EventStatus): map<string, EventRow>
  {
    if event in events then events[event := events[event].(status := status)] else events
  }

  class IdempotencyGuard {
    const db: DbSession

    constructor (db: DbSession)
      ensures this.db == db
    {
      this.db := db;
    }

    /** The processing row id under which to run the handler, or None on an idempotency conflict. */
    method Acquire(event: string, handler: string) returns (id: Option<nat>)
      modifies db
      ensures db.committed == old(db.committed)
      ensures db.working.notifs == old(db.working.notifs) && db.working.events == old(db.working.events)
      ensures match Decide(old(db.working.rows), PKey(event, handler))
        case Conflict => id == None && db.working == old(db.working) && db.nextId == old(db.nextId)
        case Resume(i) => (id == Some(i) && db.nextId == old(db.nextId)
          && db.working.rows == SetStatus(old(db.working.rows), i, Processing))
        case Create => (id == Some(old(db.nextId)) && db.nextId == old(db.nextId) + 1
          && db.working.rows == old(db.working.rows)[PKey(event, handler) := ProcRow(old(db.nextId), Processing)])
      ensures id == None <==>
        PKey(event, handler) in old(db.working.rows)
        && old(db.working.rows)[PKey(event, handler)].status in {Completed, Processing, Skipped}
    {
      var k := PKey(event, handler);
      if k in db.working.rows {
        var existing := db.working.rows[k];
        if existing.status in {Completed, Processing, Skipped} {
          return None;
        }
        db.working := db.working.(rows := SetStatus(db.working.rows, existing.id, Processing));
        return Some(existing.id);
      }
      var id0 := db.nextId;
      db.nextId := db.nextId + 1;
      db.working := db.working.(rows := db.working.rows[k := ProcRow(id0, Processing)]);
      return Some(id0);
    }

    method Mark(id: nat, status: ProcStatus)
      modifies db
      ensures db.committed == old(db.committed) && db.nextId == old(db.nextId)
      ensures db.working == old(db.working).(rows := SetStatus(old(db.working.rows), id, status))
    {
      db.working := db.working.(rows := SetStatus(db.working.rows, id, status));
    }
  }

  // ---- what a pass is supposed to do, stated on the tables before it ----

  /** Handler i is reached with no row for it: not completed before, not named earlier in the list. */
  ghost predicate Fresh(rows: Rows, event: string, hs: seq<string>, i: nat)
    requires i < |hs|
  {
    PKey(event, hs[i]) !in rows && forall j :: 0 <= j < i ==> hs[j] != hs[i]
  }

  /** Some handler that has to run raises. */
  ghost predicate SomeHandlerRaises(rows: Rows, event: string, hs: seq<string>, script: seq<HandlerRun>)
    requires |script| == |hs|
  {
    exists i :: 0 <= i < |hs| && Fresh(rows, event, hs, i) && script[i].raises
  }

  /** Notification rows as (pair, dedup key), without the id of the run that wrote them. */
  function Untagged(ns: seq<Notif>): seq<(PKey, string)>
  {
    seq(|ns|, i requires 0 <= i < |ns| => (ns[i].key, ns[i].dedup))
  }

  function Written(k: PKey, dedups: seq<string>): seq<(PKey, string)>
  {
    seq(|dedups|, i requires 0 <= i < |dedups| => (k, dedups[i]))
  }

  /** Effects of the first n handlers: each fresh one contributes its notification rows, once, in order. */
  ghost function Effects(rows: Rows, event: string, hs: seq<string>, script: seq<HandlerRun>, n: nat)
    : seq<(PKey, string)>
    requires n <= |hs| == |script|
  {
    if n == 0 then [] else
      var mine := if Fresh(rows, event, hs, n - 1) then Written(PKey(event, hs[n - 1]), script[n - 1].dedups) else [];
      Effects(rows, event, hs, script, n - 1) + mine
  }

  /** The pairs of the first n handlers. */
  function Keys(event: string, hs: seq<string>, n: nat): set<PKey>
    requires n <= |hs|
  {
    set h | h in hs[..n] :: PKey(event, h)
  }

  /** Between two handlers, while none has raised. */
  ghost predicate SoFar(start: Snapshot, now: Snapshot, event: string, hs: seq<string>, script: seq<HandlerRun>, i: nat)
    requires i <= |hs| == |script|
  {
    && AllCompleted(now.rows)
    && now.rows.Keys == start.rows.Keys + Keys(event, hs, i)
    && (forall k :: k in start.rows ==> now.rows[k] == start.rows[k])
    && Untagged(now.notifs) == Untagged(start.notifs) + Effects(start.rows, event, hs, script, i)
    && (forall j :: 0 <= j < i && Fresh(start.rows, event, hs, j) ==> !script[j].raises)
  }

  /** A pass without a failure is as it should be so far; after one it is bound to fail. */
  ghost predicate OnCourse(start: Snapshot, now: Snapshot, event: string, hs: seq<string>, script: seq<HandlerRun>,
      i: nat, clean: bool)
    requires i <= |hs| == |script|
  {
    if clean then SoFar(start, now, event, hs, script, i) else SomeHandlerRaises(start.rows, event, hs, script)
  }

  lemma KeysGrow(event: string, hs: seq<string>, i: nat)
    requires i < |hs|
    ensures Keys(event, hs, i + 1) == Keys(event, hs, i) + {PKey(event, hs[i])}
    ensures PKey(event, hs[i]) in Keys(event, hs, i) <==> exists j :: 0 <= j < i && hs[j] == hs[i]
  {
    assert hs[..i + 1] == hs[..i] + [hs[i]];
    if PKey(event, hs[i]) in Keys(event, hs, i) {
      assert hs[i] in hs[..i];
    }
    if j :| 0 <= j < i && hs[j] == hs[i] {
      assert hs[..i][j] == hs[i];
    }
  }

  lemma SoFarStarts(start: Snapshot, now: Snapshot, event: string, hs: seq<string>, script: seq<HandlerRun>)
    requires |script| == |hs| && AllCompleted(start.rows) && now.rows == start.rows && now.notifs == start.notifs
    ensures SoFar(start, now, event, hs, script, 0)
  {
  }

  lemma OneRaises(rows: Rows, event: string, hs: seq<string>, script: seq<HandlerRun>, i: nat)
    requires |script| == |hs| && i < |hs| && Fresh(rows, event, hs, i) && script[i].raises
    ensures SomeHandlerRaises(rows, event, hs, script)
  {
  }

  lemma NoneRaised(start: Snapshot, now: Snapshot, event: string, hs: seq<string>, script: seq<HandlerRun>)
    requires |script| == |hs| && SoFar(start, now, event, hs, script, |hs|)
    ensures !SomeHandlerRaises(start.rows, event, hs, script)
  {
  }

  lemma UntaggedAppend(a: seq<Notif>, b: seq<Notif>)
    ensures Untagged(a + b) == Untagged(a) + Untagged(b)
  {
  }

  /** A handler skipped by the guard: already completed, before or in this pass. */
  lemma SkippedStep(start: Snapshot, now: Snapshot, event: string, hs: seq<string>, script: seq<HandlerRun>, i: nat)
    requires i < |hs| == |script| && SoFar(start, now, event, hs, script, i)
    requires PKey(event, hs[i]) in now.rows
    ensures SoFar(start, now, event, hs, script, i + 1) && !Fresh(start.rows, event, hs, i)
  {
    KeysGrow(event, hs, i);
  }

  /** A handler that ran under a new row, wrote its notifications and was completed. */
  lemma CompletedStep(start: Snapshot, now: Snapshot, then_: Snapshot, event: string, hs: seq<string>,
                      script: seq<HandlerRun>, i: nat,
                      id: nat, mine: seq<Notif>)
    requires i < |hs| == |script| && SoFar(start, now, event, hs, script, i) && !script[i].raises
    requires PKey(event, hs[i]) !in now.rows
    requires then_.rows == SetStatus(now.rows[PKey(event, hs[i]) := ProcRow(id, Processing)], id, Completed)
    requires forall k :: k in now.rows ==> now.rows[k].id != id
    requires then_.notifs == now.notifs + mine && Untagged(mine) == Written(PKey(event, hs[i]), script[i].dedups)
    ensures SoFar(start, then_, event, hs, script, i + 1)
  {
    KeysGrow(event, hs, i);
    UntaggedAppend(now.notifs, mine);
  }

  datatype RouteResult = Routed | UnknownType | HandlersFailed(errors: seq<string>)

  class EventRouter {
    const registry: map<string, seq<string>>

    constructor (registry: map<string, seq<string>>)
      ensures this.registry == registry
    {
      this.registry := registry;
    }

    /** Runs one handler: its rows are flushed into the session, never committed by it. */
    method Handle(db: DbSession, k: PKey, run: nat, script: HandlerRun) returns (ghost mine: seq<Notif>, raised: bool)
      modifies db
      ensures db.committed == old(db.committed) && db.nextId == old(db.nextId)
      ensures db.working == old(db.working).(notifs := old(db.working.notifs) + mine)
      ensures Untagged(mine) == Written(k, script.dedups)
      ensures forall n :: n in mine ==> n.key == k && n.run == run
      ensures raised == script.raises
    {
      var rows: seq<Notif> :=
          seq(|script.dedups|, i requires 0 <= i < |script.dedups| => Notif(k, run, script.dedups[i]));
      db.working := db.working.(notifs := db.working.notifs + rows);
      mine, raised := rows, script.raises;
    }

    /** The loop body for handler i; reports whether it raised. */
    method RunNext(ghost start: Snapshot, event: string, hs: seq<string>, script: seq<HandlerRun>, i: nat, clean: bool,
                   guard: IdempotencyGuard) returns (raised: bool)
      requires i < |hs| == |script| && guard.db.committed == start
      requires IdsBelow(guard.db.working.rows, guard.db.nextId) && IdsBelow(start.rows, guard.db.nextId)
      requires OnCourse(start, guard.db.working, event, hs, script, i, clean)
      modifies guard.db
      ensures guard.db.committed == start && guard.db.nextId >= old(guard.db.nextId)
      ensures IdsBelow(guard.db.working.rows, guard.db.nextId)
      ensures OnCourse(start, guard.db.working, event, hs, script, i + 1, clean && !raised)
      ensures clean && !raised ==> guard.db.working.events == old(guard.db.working.events)
    {
      var db := guard.db;
      ghost var before := db.working;
      var k := PKey(event, hs[i]);
      KeysGrow(event, hs, i);
      var processing := guard.Acquire(event, hs[i]);
      if processing == None {
        if clean { SkippedStep(start, before, event, hs, script, i); }
        return false;
      }
      var id := processing.value;
      ghost var mine: seq<Notif>;
      mine, raised := Handle(db, k, id, script[i]);
      if raised {
        db.Rollback();
        guard.Mark(id, Failed);
        if clean { OneRaises(start.rows, event, hs, script, i); }
      } else {
        guard.Mark(id, Completed);
        if clean { CompletedStep(start, before, db.working, event, hs, script, i, id, mine); }
      }
    }

    /** The loop over the resolved handlers; `errors` names those that raised. */
    method RunEach(ghost start: Snapshot, event: string, hs: seq<string>, script: seq<HandlerRun>,
        guard: IdempotencyGuard)
      returns (errors: seq<string>)
      requires |script| == |hs| && guard.db.committed == start && SoFar(start, guard.db.working, event, hs, script, 0)
      requires IdsBelow(guard.db.working.rows, guard.db.nextId) && IdsBelow(start.rows, guard.db.nextId)
      modifies guard.db
      ensures guard.db.committed == start && guard.db.nextId >= old(guard.db.nextId)
      ensures IdsBelow(guard.db.working.rows, guard.db.nextId)
      ensures OnCourse(start, guard.db.working, event, hs, script, |hs|, errors == [])
      ensures errors == [] ==> guard.db.working.events == old(guard.db.working.events)
    {
      var db := guard.db;
      errors := [];
      var i := 0;
      while i < |hs|
        invariant 0 <= i <= |hs| && db.committed == start && db.nextId >= old(db.nextId)
        invariant IdsBelow(db.working.rows, db.nextId)
        invariant OnCourse(start, db.working, event, hs, script, i, errors == [])
        invariant errors == [] ==> db.working.events == old(db.working.events)
      {
        var raised := RunNext(start, event, hs, script, i, errors == [], guard);
        if raised {
          errors := errors + [hs[i]];
        }
        i := i + 1;
      }
    }

    /** All handlers of a session with nothing written yet: errors exactly when one that has to run raises. */
    method RunAll(event: string, hs: seq<string>, script: seq<HandlerRun>, db: DbSession) returns (errors: seq<string>)
      requires |script| == |hs| && AllCompleted(db.committed.rows)
      requires db.working.rows == db.committed.rows && db.working.notifs == db.committed.notifs
      requires IdsBelow(db.committed.rows, db.nextId)
      modifies db
      ensures db.committed == old(db.committed) && db.nextId >= old(db.nextId) && IdsBelow(db.working.rows, db.nextId)
      ensures errors != [] <==> SomeHandlerRaises(db.committed.rows, event, hs, script)
      ensures errors == [] ==>
        SoFar(db.committed, db.working, event, hs, script, |hs|) && db.working.events == old(db.working.events)
    {
      SoFarStarts(db.committed, db.working, event, hs, script);
      var guard := new IdempotencyGuard(db);
      errors := RunEach(db.committed, event, hs, script, guard);
      if errors == [] { NoneRaised(db.committed, db.working, event, hs, script); }
    }

    /**
     All or nothing. From a consistent committed state: either no handler that has to run raises, and the
     session then shows every resolved handler COMPLETED with its effects and the event PROCESSED; or the
     processing and notification tables are as before, and only the event's failure is committed.
     */
    method Route(event: string, eventType: string, script: seq<HandlerRun>, db: DbSession) returns (r: RouteResult)
      requires db.working == db.committed && AllCompleted(db.committed.rows)
      requires IdsBelow(db.committed.rows, db.nextId) && event in db.committed.events
      requires |script| == |HandlersOf(registry, eventType)|
      modifies db
      ensures db.nextId >= old(db.nextId) && IdsBelow(db.working.rows, db.nextId)
      ensures RouteOutcome(old(db.committed), HandlersOf(registry, eventType), event, script, r, db.committed,
          db.working)
    {
      var hs := HandlersOf(registry, eventType);
      if hs == [] {
        return UnknownType;
      }
      db.MarkEvent(event, EvProcessing);
      var errors := RunAll(event, hs, script, db);
      if errors != [] {
        db.Rollback();
        db.MarkEventFailed(event);
        db.Commit();
        return HandlersFailed(errors);
      }
      db.MarkEvent(event, EvProcessed);
      return Routed;
    }
  }

  ghost predicate RouteOutcome(start: Snapshot, hs: seq<string>, event: string, script: seq<HandlerRun>,
                               r: RouteResult, committed: Snapshot, working: Snapshot)
    requires |script| == |hs|
  {
    if hs == [] then
      r == UnknownType && committed == working == start
    else if SomeHandlerRaises(start.rows, event, hs, script) then
      && r.HandlersFailed? && r.errors != []
      && committed == working == start.(events := WithFailure(start.events, event))
    else
      && r == Routed && committed == start
      && SoFar(start, working, event, hs, script, |hs|)
      && working.events == WithStatus(start.events, event, EvProcessed)
  }

  // ---- message processor and consumer ----

  /** A message body after parsing and schema validation. */
  datatype Parsed =
    | BadJson(key: string)      // primary key made up for the INVALID row
    | BadSchema(key: string)    // event id found in the body, or a made-up key
    | Unrecordable              // valid JSON, but no object, or of a version that does not convert: recording it raises
    | Envelope(event: string, eventType: string)

  /** The retry count of an event; none recorded counts as zero. */
  function RetriesOf(tables: Snapshot, event: string): nat
  {
    if event in tables.events then tables.events[event].retryCount else 0
  }

  /** Processing the body failed on a handler of the event. */
  predicate FailsOn(body: Parsed, success: bool, event: string) { body.Envelope? && body.event == event && !success }

  /** What one processed message does to the retry counts, whatever kind of message it is. */
  ghost predicate Counted(before: Snapshot, after: Snapshot, body: Parsed, success: bool)
  {
    && before.events.Keys <= after.events.Keys
    && forall e :: RetriesOf(after, e) == RetriesOf(before, e) + if FailsOn(body, success, e) then 1 else 0
  }

  /** How many of the first n processed messages failed on the event. */
  function FailuresAmong(bodies: seq<Parsed>, successes: seq<bool>, event: string, n: nat): nat
    requires n <= |bodies| == |successes|
  {
    if n == 0 then 0
    else
      var last := if FailsOn(bodies[n - 1], successes[n - 1], event) then 1 else 0;
      FailuresAmong(bodies, successes, event, n - 1) + last
  }

  /**
   Over any history of messages processed one after the other, as ProcessRawMessage leaves the tables each time, an
   event's retry count grows by exactly the number of its deliveries that failed on a handler.
   */
  lemma {:induction false} FailuresAreCounted(tables: seq<Snapshot>, bodies: seq<Parsed>, successes: seq<bool>,
                                              event: string, n: nat)
    requires n <= |bodies| == |successes| && |tables| == |bodies| + 1
    requires forall i :: 0 <= i < |bodies| ==> Counted(tables[i], tables[i + 1], bodies[i], successes[i])
    ensures RetriesOf(tables[n], event) == RetriesOf(tables[0], event) + FailuresAmong(bodies, successes, event, n)
  {
    if n > 0 {
      FailuresAreCounted(tables, bodies, successes, event, n - 1);
      assert Counted(tables[n - 1], tables[n - 1 + 1], bodies[n - 1], successes[n - 1]);
    }
  }

  class MessageProcessor {
    const router: EventRouter

    constructor (router: EventRouter)
      ensures this.router == router
    {
      this.router := router;
    }

    /** The message is recorded as INVALID, on a new row or on the one that has its id already. */
    method RecordInvalid(event: string, db: DbSession)
      requires db.working == db.committed
      modifies db
      ensures db.committed == db.working && db.nextId == old(db.nextId)
      ensures OnlyEventDiffers(old(db.committed), db.committed, event)
      ensures event in db.committed.events && db.committed.events[event].status == EvInvalid
      ensures RetriesOf(db.committed, event) == RetriesOf(old(db.committed), event)
    {
      db.CreateEvent(event);
      db.MarkEvent(event, EvInvalid);
      db.Commit();
    }

    /**
     One message within one session. Success means that the session's work is committed with every
     registered handler COMPLETED; failure leaves the processing and notification tables untouched. A malformed
     message leaves an INVALID event row, one that cannot even be recorded nothing at all.
     The committed processing rows stay consistent either way.
     */
    method ProcessRawMessage(body: Parsed, script: seq<HandlerRun>, db: DbSession) returns (success: bool)
      requires db.working == db.committed && AllCompleted(db.committed.rows) && IdsBelow(db.committed.rows, db.nextId)
      requires body.Envelope? ==> |script| == |HandlersOf(router.registry, body.eventType)|
      modifies db
      ensures db.working == db.committed && AllCompleted(db.committed.rows) && IdsBelow(db.committed.rows, db.nextId)
      ensures success <==> Deliverable(body, router.registry, old(db.committed).rows, script)
      ensures success ==> var hs := HandlersOf(router.registry, body.eventType);
        SoFar(old(db.committed), db.committed, body.event, hs, script, |hs|)
        && body.event in db.committed.events && db.committed.events[body.event].status == EvProcessed
      ensures !success ==>
          db.committed.rows == old(db.committed).rows && db.committed.notifs == old(db.committed).notifs
      ensures !success && body.Envelope? ==>
        db.committed.events == WithFailure(WithEvent(old(db.committed).events, body.event), body.event)
      ensures body.BadJson? || body.BadSchema? ==>
        OnlyEventDiffers(old(db.committed), db.committed, body.key)
        && body.key in db.committed.events && db.committed.events[body.key].status == EvInvalid
      ensures body.Unrecordable? ==> db.committed == old(db.committed)
      ensures Counted(old(db.committed), db.committed, body, success)
      ensures body.Envelope? ==>
          OnlyEventDiffers(db.committed.(rows := old(db.committed.rows), notifs := old(db.committed.notifs)),
                                                  old(db.committed), body.event)
    {
      match body
      case Unrecordable =>
        db.Rollback();
        return false;
      case BadJson(key) =>
        RecordInvalid(key, db);
        return false;
      case BadSchema(key) =>
        RecordInvalid(key, db);
        return false;
      case Envelope(event, eventType) =>
        success := ProcessEnvelope(event, eventType, script, db);
    }

    /** A valid message: recorded, routed, and committed or rolled back. */
    method ProcessEnvelope(event: string, eventType: string, script: seq<HandlerRun>, db: DbSession)
      returns (success: bool)
      requires db.working == db.committed && AllCompleted(db.committed.rows) && IdsBelow(db.committed.rows, db.nextId)
      requires |script| == |HandlersOf(router.registry, eventType)|
      modifies db
      ensures db.working == db.committed && IdsBelow(db.committed.rows, db.nextId)
      ensures success <==>
        !SomeHandlerRaises(old(db.committed).rows, event, HandlersOf(router.registry, eventType), script)
      ensures success ==> var hs := HandlersOf(router.registry, eventType);
        SoFar(old(db.committed), db.committed, event, hs, script, |hs|)
        && db.committed.events == WithStatus(WithEvent(old(db.committed).events, event), event, EvProcessed)
      ensures !success ==>
        db.committed == old(db.committed).(events := WithFailure(WithEvent(old(db.committed).events, event), event))
    {
      db.CreateEvent(event);
      db.Commit();
      var r := router.Route(event, eventType, script, db);
      match r
      case Routed =>
        db.Commit();
        return true;
      case UnknownType =>
        db.MarkEvent(event, EvProcessed);
        db.Commit();
        return true;
      case HandlersFailed(_) =>
        db.Rollback();
        return false;
    }
  }

  /** The message is well formed and no handler that has to run raises. */
  ghost predicate Deliverable(body: Parsed, registry: map<string, seq<string>>, rows: Rows, script: seq<HandlerRun>)
    requires body.Envelope? ==> |script| == |HandlersOf(registry, body.eventType)|
  {
    body.Envelope? && !SomeHandlerRaises(rows, body.event, HandlersOf(registry, body.eventType), script)
  }

  class SqsConsumer {
    const processor: MessageProcessor
    var deleted: set<string>   // receipt handles of deleted messages

    constructor (processor: MessageProcessor)
      ensures this.processor == processor && deleted == {}
    {
      this.processor := processor;
      deleted := {};
    }

    ghost predicate AllHandled(rows: Rows, event: string, eventType: string)
    {
      forall h :: h in HandlersOf(processor.router.registry, eventType) ==>
        PKey(event, h) in rows && rows[PKey(event, h)].status == Completed
    }

    /** A message is deleted exactly when processing succeeded, it has a receipt handle and the queue takes the call. */
    method ProcessAndDelete(receipt: string, body: Parsed, script: seq<HandlerRun>, db: DbSession, queueAnswers: bool)
      requires db.working == db.committed && AllCompleted(db.committed.rows) && IdsBelow(db.committed.rows, db.nextId)
      requires body.Envelope? ==> |script| == |HandlersOf(processor.router.registry, body.eventType)|
      modifies this, db
      ensures AllCompleted(db.committed.rows) && db.working == db.committed && IdsBelow(db.committed.rows, db.nextId)
      ensures receipt in deleted - old(deleted) ==>
          body.Envelope? && AllHandled(db.committed.rows, body.event, body.eventType)
      ensures receipt in deleted - old(deleted) ==>
        var registry := processor.router.registry;
        forall h :: body.eventType in registry && h in registry[body.eventType] ==>
          PKey(body.event, h) in db.committed.rows && db.committed.rows[PKey(body.event, h)].status == Completed
      ensures deleted == if receipt != "" && queueAnswers
          && Deliverable(body, processor.router.registry, old(db.committed).rows, script)
        then old(deleted) + {receipt} else old(deleted)
    {
      var success := processor.ProcessRawMessage(body, script, db);
      if success && receipt != "" && queueAnswers {
        ghost var hs := HandlersOf(processor.router.registry, body.eventType);
        assert hs[..|hs|] == hs;
        deleted := deleted + {receipt};
      }
    }
  }

  /**
   Redelivery is harmless: on the tables that a successful pass left behind, no handler has to run, so no
   script can make the pass fail and none adds a notification.
   */
  lemma {:induction false} RedeliveryAddsNothing(start: Snapshot, after: Snapshot, event: string, hs: seq<string>,
                                                 script: seq<HandlerRun>, again: seq<HandlerRun>, n: nat)
    requires |script| == |hs| == |again| && n <= |hs|
    requires SoFar(start, after, event, hs, script, |hs|)
    ensures !SomeHandlerRaises(after.rows, event, hs, again)
    ensures Effects(after.rows, event, hs, again, n) == []
  {
    assert hs[..|hs|] == hs;
    forall i | 0 <= i < |hs| ensures PKey(event, hs[i]) in after.rows { assert hs[i] in hs; }
    if n > 0 { RedeliveryAddsNothing(start, after, event, hs, script, again, n - 1); }
  }
}
