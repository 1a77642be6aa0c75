/**
 The two views of a delivery agree: whatever one pass of the code does to the tables (module Routing), a run of the
 transition system does too (module Delivery), so that its safety theorems are about the code's passes.
 */
module Correspondence {
  import opened Basics
  import opened Tables
  import opened Delivery
  import opened DeliverySafety
  import opened DeliveryLimits
  import R = Routing

  /** The notification rows that a run of pair k writes for the given keys. */
  function RowsFor(k: PKey, run: nat, keys: seq<string>): seq<Notif>
  {
    seq(|keys|, i requires 0 <= i < |keys| => Notif(k, run, keys[i]))
  }

  /** One send: its dedup key, and whether the provider accepts the message; if not, it does not render. */
  datatype Attempted = Attempted(key: string, taken: bool)

  function KeysOf(xs: seq<Attempted>): seq<string> { seq(|xs|, i requires 0 <= i < |xs| => xs[i].key) }

  /** The provider's log of the sends, all at one time. */
  function Log(xs: seq<Attempted>, now: int): seq<Acceptance>
  {
    if xs == [] then []
    else
      var last := xs[|xs| - 1];
      Log(xs[..|xs| - 1], now) + (if last.taken then [Acceptance(last.key, now)] else [])
  }

  lemma {:induction false} LogAppend(a: seq<Attempted>, b: seq<Attempted>, now: int)
    ensures Log(a + b, now) == Log(a, now) + Log(b, now)
    decreases |b|
  {
    if b == [] {
      assert a + b == a;
    } else {
      assert (a + b)[..|a + b| - 1] == a + b[..|b| - 1];
      LogAppend(a, b[..|b| - 1], now);
    }
  }

  /** State s comes after the reachable state z. */
  ghost predicate Reached(c: Config, z: State, s: State)
  {
    Reachable(c, z) && Reachable(c, s) && Leads(c, z, s)
  }

  lemma TakeFrom(c: Config, z: State, s: State, a: Action) returns (s': State)
    requires Reached(c, z, s) && Step(c, s, a).Some?
    ensures s' == Step(c, s, a).value && Reached(c, z, s')
  {
    s' := Take(c, s, a);
    var t := LeadsOn(c, z, s, a);
  }

  /** Session sid works on the event and is not sending; no other session holds a pair of the event. */
  ghost predicate Undisturbed(c: Config, z: State, s: State, sid: nat, event: string, hs: seq<string>)
  {
    && Reached(c, z, s) && sid !in s.sends
    && Active(s, sid) && MsgOf(s, sid).Valid? && MsgOf(s, sid).event == event && Handlers(c, MsgOf(s, sid)) == hs
    && forall t, k :: t in s.workers && t != sid && k in s.workers[t].overlay.rows ==> k.event != event
  }

  /** Worker sid has moved on; tables, other workers and sends are as they were, and no time has passed. */
  ghost predicate Moved(s: State, s': State, sid: nat, phase: Phase, o: Overlay)
  {
    && sid in s.workers && s'.workers == s.workers[sid := Worker(s.workers[sid].mid, phase, o)]
    && s'.db == s.db && s'.queue == s.queue && s'.sends == s.sends && s'.now == s.now
  }

  /** What sends did outside the tables: the accepted ones are logged, and only their keys are claimed since. */
  ghost predicate SentOff(s: State, s': State, xs: seq<Attempted>)
  {
    && s'.accepted == s.accepted + Log(xs, s.now)
    && forall k :: k in s'.claims ==> k in s.claims || Attempted(k, true) in xs
  }

  /** The session is in a send that has just claimed the key. */
  ghost predicate JustClaimed(c: Config, z: State, s: State, sid: nat, event: string, hs: seq<string>, key: string)
  {
    && Reached(c, z, s) && Active(s, sid) && MsgOf(s, sid).Valid? && MsgOf(s, sid).event == event
    && Handlers(c, MsgOf(s, sid)) == hs && s.workers[sid].phase.Running? && s.workers[sid].phase.i < |hs|
    && sid in s.sends && s.sends[sid].stage.Preparing? && s.sends[sid] == Send(key, true, s.now, s.sends[sid].stage)
  }

  /** The workers once session sid has written a notification row for the key. */
  function WithRow(s: State, sid: nat, event: string, hs: seq<string>, key: string): map<nat, Worker>
    requires sid in s.workers && s.workers[sid].phase.Running? && s.workers[sid].phase.i < |hs|
  {
    var w := s.workers[sid];
    var n := Notif(PKey(event, hs[w.phase.i]), w.phase.id, key);
    s.workers[sid := Worker(w.mid, w.phase, w.overlay.(notifs := w.overlay.notifs + [n]))]
  }

  /** A message that does not render: its row is written, no provider is called, and the claim is given back. */
  lemma Unrendered(c: Config, z: State, s: State, sid: nat, event: string, hs: seq<string>, key: string)
      returns (s': State)
    requires JustClaimed(c, z, s, sid, event, hs, key)
    ensures Reached(c, z, s') && s'.sends == s.sends - {sid} && s'.claims == s.claims - {key} && s'.db == s.db
    ensures s'.queue == s.queue && s'.now == s.now && s'.accepted == s.accepted
    ensures s'.workers == WithRow(s, sid, event, hs, key)
  {
    s' := TakeFrom(c, z, s, Sending(sid, RenderFails));
    s' := TakeFrom(c, z, s', Sending(sid, Release(false)));
  }

  /** A message that renders: its row is written, and the provider is about to be called. */
  lemma Called(c: Config, z: State, s: State, sid: nat, event: string, hs: seq<string>, key: string) returns (s': State)
    requires JustClaimed(c, z, s, sid, event, hs, key) && c.retries >= 0
    ensures Reached(c, z, s') && s'.claims == s.claims && s'.db == s.db
    ensures s'.queue == s.queue && s'.now == s.now && s'.accepted == s.accepted
    ensures s'.workers == WithRow(s, sid, event, hs, key)
    ensures sid in s'.sends && s'.sends == s.sends[sid := s'.sends[sid]]
    ensures s'.sends[sid].stage.Calling? && s'.sends[sid].key == key && s'.sends[sid].at == s.now
  {
    s' := TakeFrom(c, z, s, Sending(sid, Prepare));
  }

  /** A message that renders and is accepted at once: its row is written and the claim stays. */
  lemma Rendered(c: Config, z: State, s: State, sid: nat, event: string, hs: seq<string>, key: string)
      returns (s': State)
    requires JustClaimed(c, z, s, sid, event, hs, key) && c.retries >= 0
    ensures Reached(c, z, s') && s'.sends == s.sends - {sid} && s'.claims == s.claims && s'.db == s.db
    ensures s'.queue == s.queue && s'.now == s.now && s'.accepted == s.accepted + [Acceptance(key, s.now)]
    ensures s'.workers == WithRow(s, sid, event, hs, key)
  {
    s' := Called(c, z, s, sid, event, hs, key);
    s' := TakeFrom(c, z, s', Sending(sid, Accept));
    s' := TakeFrom(c, z, s', Sending(sid, Record));
  }

  /** A free key is claimed. */
  lemma Claims(c: Config, z: State, s: State, sid: nat, event: string, hs: seq<string>, key: string) returns (s': State)
    requires Undisturbed(c, z, s, sid, event, hs) && s.workers[sid].phase.Running? && s.workers[sid].phase.i < |hs|
    requires key !in s.claims
    ensures JustClaimed(c, z, s', sid, event, hs, key) && s'.workers == s.workers && s'.db == s.db
        && s'.queue == s.queue
    ensures s'.now == s.now && s'.accepted == s.accepted
    ensures s'.sends - {sid} == s.sends && s'.claims - {key} == s.claims && s'.claims.Keys == s.claims.Keys + {key}
  {
    s' := TakeFrom(c, z, s, Sending(sid, Ask(key)));
    assert s'.sends - {sid} == s.sends && s'.claims - {key} == s.claims;
  }

  /** One send of the running handler, accepted or not. */
  lemma OneSend(c: Config, z: State, s: State, sid: nat, event: string, hs: seq<string>, x: Attempted)
      returns (s': State)
    requires Undisturbed(c, z, s, sid, event, hs) && s.workers[sid].phase.Running? && s.workers[sid].phase.i < |hs|
    requires x.key !in s.claims && (x.taken ==> c.retries >= 0)
    ensures Undisturbed(c, z, s', sid, event, hs) && SentOff(s, s', [x])
    ensures var w := s.workers[sid];
      Moved(s, s', sid, w.phase,
        w.overlay.(notifs := w.overlay.notifs + RowsFor(PKey(event, hs[w.phase.i]), w.phase.id, [x.key])))
  {
    var w := s.workers[sid];
    var k := PKey(event, hs[w.phase.i]);
    assert RowsFor(k, w.phase.id, [x.key]) == [Notif(k, w.phase.id, x.key)];
    assert [x][..0] == [] && Attempted(x.key, true) in [x] <==> x.taken;
    s' := Claims(c, z, s, sid, event, hs, x.key);
    if x.taken {
      s' := Rendered(c, z, s', sid, event, hs, x.key);
    } else {
      s' := Unrendered(c, z, s', sid, event, hs, x.key);
    }
    assert s'.sends == s.sends;
  }

  /** A key whose send was accepted is claimed, so no later send can write a row for it. */
  ghost predicate TakenLast(xs: seq<Attempted>)
  {
    forall i, j :: 0 <= i < j < |xs| && xs[i].taken ==> xs[i].key != xs[j].key
  }

  /** The sends can write their rows: no key is claimed before, nor accepted in between. */
  ghost predicate CanWrite(c: Config, s: State, xs: seq<Attempted>)
  {
    TakenLast(xs) && forall x :: x in xs ==> x.key !in s.claims && (x.taken ==> c.retries >= 0)
  }

  lemma SentOffTwice(s: State, m: State, s': State, a: seq<Attempted>, b: seq<Attempted>)
    requires SentOff(s, m, a) && SentOff(m, s', b) && m.now == s.now
    ensures SentOff(s, s', a + b)
  {
    LogAppend(a, b, s.now);
    assert s.accepted + Log(a, s.now) + Log(b, s.now) == s.accepted + (Log(a, s.now) + Log(b, s.now));
  }

  /** After all sends but the last, the last can still write its row. */
  lemma LastCanWrite(c: Config, s: State, m: State, xs: seq<Attempted>)
    requires xs != [] && CanWrite(c, s, xs) && SentOff(s, m, xs[..|xs| - 1])
    ensures xs[|xs| - 1].key !in m.claims
  {
    var most, last := xs[..|xs| - 1], xs[|xs| - 1];
    forall i | 0 <= i < |most| ensures most[i] != Attempted(last.key, true) { assert xs[i] == most[i]; }
    assert last in xs;
  }

  lemma RowsForMore(k: PKey, run: nat, xs: seq<Attempted>, notifs: seq<Notif>)
    requires xs != []
    ensures notifs + RowsFor(k, run, KeysOf(xs[..|xs| - 1])) + RowsFor(k, run, [xs[|xs| - 1].key])
         == notifs + RowsFor(k, run, KeysOf(xs))
  {
  }

  /** All sends of the running handler. */
  lemma {:induction false} AllSends(c: Config, z: State, s: State, sid: nat, event: string, hs: seq<string>,
      xs: seq<Attempted>)
    returns (s': State)
    requires Undisturbed(c, z, s, sid, event, hs) && s.workers[sid].phase.Running? && s.workers[sid].phase.i < |hs|
    requires CanWrite(c, s, xs)
    ensures Undisturbed(c, z, s', sid, event, hs) && SentOff(s, s', xs)
    ensures var w := s.workers[sid];
      Moved(s, s', sid, w.phase,
        w.overlay.(notifs := w.overlay.notifs + RowsFor(PKey(event, hs[w.phase.i]), w.phase.id, KeysOf(xs))))
    decreases |xs|
  {
    var w := s.workers[sid];
    var k := PKey(event, hs[w.phase.i]);
    if xs == [] {
      s' := s;
      assert w.overlay.notifs + RowsFor(k, w.phase.id, KeysOf(xs)) == w.overlay.notifs;
    } else {
      var most, last := xs[..|xs| - 1], xs[|xs| - 1];
      var m := AllSends(c, z, s, sid, event, hs, most);
      LastCanWrite(c, s, m, xs);
      s' := OneSend(c, z, m, sid, event, hs, last);
      SentOffTwice(s, m, s', most, [last]);
      assert most + [last] == xs;
      RowsForMore(k, w.phase.id, xs, w.overlay.notifs);
    }
  }

  lemma InvOf(c: Config, s: State, sid: nat)
    requires Reachable(c, s) && sid in s.workers
    ensures Inv(c, s) && WorkerOk(c, s, s.workers[sid])
  {
    InvOfReachable(c, s);
  }

  lemma IdsOf(c: Config, s: State, sid: nat)
    requires Reachable(c, s) && sid in s.workers
    ensures IdsBelow(s.db.rows, s.nextId) && IdsBelow(s.workers[sid].overlay.rows, s.nextId)
  {
    InvOf(c, s, sid);
  }

  /** Session sid is at the guard for its next handler. */
  ghost predicate AtGuard(c: Config, z: State, s: State, sid: nat, event: string, hs: seq<string>)
  {
    Undisturbed(c, z, s, sid, event, hs) && s.workers[sid].phase.Routing? && s.workers[sid].phase.i < |hs|
  }

  /** The pair it is about to look up. */
  function NextPair(s: State, sid: nat, event: string, hs: seq<string>): PKey
    requires sid in s.workers && s.workers[sid].phase.Routing? && s.workers[sid].phase.i < |hs|
  {
    PKey(event, hs[s.workers[sid].phase.i])
  }

  /** The guard finds no row: the handler starts under a fresh processing row. */
  lemma Acquires(c: Config, z: State, s: State, sid: nat, event: string, hs: seq<string>) returns (s': State)
    requires AtGuard(c, z, s, sid, event, hs) && NextPair(s, sid, event, hs) !in View(s.db, s.workers[sid].overlay)
    ensures Undisturbed(c, z, s', sid, event, hs) && s'.claims == s.claims && s'.accepted == s.accepted
    ensures var w := s.workers[sid]; var k := NextPair(s, sid, event, hs);
      Moved(s, s', sid, Running(w.phase.i, w.phase.failed, s.nextId),
            w.overlay.(rows := w.overlay.rows[k := ProcRow(s.nextId, Processing)]))
  {
    s' := TakeFrom(c, z, s, Lookup(sid));
    s' := TakeFrom(c, z, s', Insert(sid));
  }

  /** What the session sees. */
  function Seen(s: State, sid: nat): R.Snapshot
    requires sid in s.workers
  {
    R.Snapshot(map[], View(s.db, s.workers[sid].overlay), s.db.notifs + s.workers[sid].overlay.notifs)
  }

  /** A handler runs from its acquisition to its completion. */
  lemma HandlerDone(c: Config, z: State, s: State, sid: nat, event: string, hs: seq<string>, xs: seq<Attempted>)
    returns (s': State)
    requires AtGuard(c, z, s, sid, event, hs) && NextPair(s, sid, event, hs) !in View(s.db, s.workers[sid].overlay)
    requires CanWrite(c, s, xs)
    ensures Undisturbed(c, z, s', sid, event, hs) && SentOff(s, s', xs)
    ensures var w := s.workers[sid]; var k := NextPair(s, sid, event, hs);
      Moved(s, s', sid, Routing(w.phase.i + 1, w.phase.failed),
            Overlay(w.overlay.event, SetStatus(w.overlay.rows[k := ProcRow(s.nextId, Processing)], s.nextId, Completed),
                    w.overlay.notifs + RowsFor(k, s.nextId, KeysOf(xs))))
  {
    s' := Acquires(c, z, s, sid, event, hs);
    s' := AllSends(c, z, s', sid, event, hs, xs);
    s' := IsCompleted(c, z, s', sid, event, hs);
  }

  /** The running handler's row is marked COMPLETED. */
  lemma IsCompleted(c: Config, z: State, s: State, sid: nat, event: string, hs: seq<string>) returns (s': State)
    requires Undisturbed(c, z, s, sid, event, hs) && s.workers[sid].phase.Running?
    ensures Undisturbed(c, z, s', sid, event, hs) && s'.claims == s.claims && s'.accepted == s.accepted
    ensures var w := s.workers[sid];
      Moved(s, s', sid, Routing(w.phase.i + 1, w.phase.failed),
            w.overlay.(rows := SetStatus(w.overlay.rows, w.phase.id, Completed)))
  {
    s' := TakeFrom(c, z, s, Complete(sid));
    OwnRowsOnly(s, s', sid, event);
  }

  /** Changes to the session's own overlay leave the others without a pair of the event. */
  lemma OwnRowsOnly(s: State, s': State, sid: nat, event: string)
    requires forall t, k :: t in s.workers && t != sid && k in s.workers[t].overlay.rows ==> k.event != event
    requires forall t :: t in s'.workers && t != sid ==> t in s.workers && s'.workers[t] == s.workers[t]
    ensures forall t, k :: t in s'.workers && t != sid && k in s'.workers[t].overlay.rows ==> k.event != event
  {
  }

  /** A handler runs from its acquisition until it raises. */
  lemma HandlerRaised(c: Config, z: State, s: State, sid: nat, event: string, hs: seq<string>, xs: seq<Attempted>)
    returns (s': State)
    requires AtGuard(c, z, s, sid, event, hs) && NextPair(s, sid, event, hs) !in View(s.db, s.workers[sid].overlay)
    requires CanWrite(c, s, xs)
    ensures Undisturbed(c, z, s', sid, event, hs) && SentOff(s, s', xs)
    ensures Moved(s, s', sid, Routing(s.workers[sid].phase.i + 1, true), NO_WRITES)
  {
    s' := Acquires(c, z, s, sid, event, hs);
    s' := AllSends(c, z, s', sid, event, hs, xs);
    s' := HasRaised(c, z, s', sid, event, hs);
  }

  /** The running handler raises: the session is left with no write of its own. */
  lemma HasRaised(c: Config, z: State, s: State, sid: nat, event: string, hs: seq<string>) returns (s': State)
    requires Undisturbed(c, z, s, sid, event, hs) && s.workers[sid].phase.Running?
    ensures Undisturbed(c, z, s', sid, event, hs) && s'.claims == s.claims && s'.accepted == s.accepted
    ensures Moved(s, s', sid, Routing(s.workers[sid].phase.i + 1, true), NO_WRITES)
  {
    s' := TakeFrom(c, z, s, HandlerFails(sid));
    GuardFailureIsNeverRecorded(c, s, sid, s');
    OwnRowsOnly(s, s', sid, event);
  }

  /** At the guard a session sees only COMPLETED rows: any it finds is a conflict. */
  lemma SeesCompleted(c: Config, z: State, s: State, sid: nat, event: string, hs: seq<string>)
    requires AtGuard(c, z, s, sid, event, hs) && NextPair(s, sid, event, hs) in View(s.db, s.workers[sid].overlay)
    ensures Decide(View(s.db, s.workers[sid].overlay), NextPair(s, sid, event, hs)) == Conflict
  {
    InvOf(c, s, sid);
    assert AllCompleted(View(s.db, s.workers[sid].overlay));
  }

  /** The guard finds a row. */
  lemma HandlerSkipped(c: Config, z: State, s: State, sid: nat, event: string, hs: seq<string>) returns (s': State)
    requires AtGuard(c, z, s, sid, event, hs) && NextPair(s, sid, event, hs) in View(s.db, s.workers[sid].overlay)
    ensures Undisturbed(c, z, s', sid, event, hs) && s'.claims == s.claims && s'.accepted == s.accepted
    ensures Moved(s, s', sid, Routing(s.workers[sid].phase.i + 1, s.workers[sid].phase.failed), s.workers[sid].overlay)
  {
    SeesCompleted(c, z, s, sid, event, hs);
    s' := TakeFrom(c, z, s, Lookup(sid));
  }

  /** Completing the new row in the overlay is completing it in what the session sees. */
  lemma SeenCompleted(db: Rows, o: Rows, k: PKey, id: nat)
    requires k !in db + o && IdsBelow(db, id)
    ensures db + SetStatus(o[k := ProcRow(id, Processing)], id, Completed)
         == SetStatus((db + o)[k := ProcRow(id, Processing)], id, Completed)
  {
  }

  /** What the session sees of a completed handler is what module Routing has after it. */
  lemma SeenStep(start: R.Snapshot, rows: Rows, notifs: seq<Notif>, o: Overlay, id: nat, event: string, hs: seq<string>,
                 script: seq<R.HandlerRun>, i: nat)
    requires i < |hs| == |script| && !script[i].raises && IdsBelow(rows, id) && IdsBelow(o.rows, id)
    requires PKey(event, hs[i]) !in rows + o.rows
    requires R.SoFar(start, R.Snapshot(map[], rows + o.rows, notifs + o.notifs), event, hs, script, i)
    ensures var k := PKey(event, hs[i]);
      var done := SetStatus(o.rows[k := ProcRow(id, Processing)], id, Completed);
      R.SoFar(start, R.Snapshot(map[], rows + done, notifs + (o.notifs + RowsFor(k, id, script[i].dedups))),
              event, hs, script, i + 1)
  {
    var k := PKey(event, hs[i]);
    var mine := RowsFor(k, id, script[i].dedups);
    var done := SetStatus(o.rows[k := ProcRow(id, Processing)], id, Completed);
    SeenCompleted(rows, o.rows, k, id);
    assert notifs + (o.notifs + mine) == notifs + o.notifs + mine;
    R.CompletedStep(start, R.Snapshot(map[], rows + o.rows, notifs + o.notifs),
                    R.Snapshot(map[], rows + done, notifs + (o.notifs + mine)), event, hs, script, i, id, mine);
  }

  /**
   The pass can write the rows that its script lists. From handler i on no key is claimed; and a key whose send is
   accepted does not come again in the pass: while a claim lives, the code writes no row for its key either.
   */
  ghost predicate Sendable(c: Config, s: State, sends: seq<seq<Attempted>>, i: nat)
  {
    && (forall j :: i <= j < |sends| ==> CanWrite(c, s, sends[j]))
    && (forall j, k, x, y :: i <= j < k < |sends| && x in sends[j] && x.taken && y in sends[k] ==> x.key != y.key)
  }

  lemma StillSendable(c: Config, s: State, s': State, sends: seq<seq<Attempted>>, i: nat)
    requires i < |sends| && Sendable(c, s, sends, i)
    requires SentOff(s, s', sends[i]) || s'.claims == s.claims
    ensures Sendable(c, s', sends, i + 1)
  {
    forall j | i + 1 <= j < |sends| ensures CanWrite(c, s', sends[j]) {
      assert CanWrite(c, s, sends[j]);
      forall y | y in sends[j] ensures y.key !in s'.claims {
        assert forall x :: x in sends[i] && x.taken ==> x.key != y.key;
      }
    }
  }

  /** A pass that began in s0 and sent off the given sends, with the tables as they were. */
  ghost predicate Since(s0: State, s: State, sent: seq<Attempted>)
  {
    && s.db.rows == s0.db.rows && s.db.notifs == s0.db.notifs && s.now == s0.now
    && s.accepted == s0.accepted + Log(sent, s0.now)
  }

  lemma SinceOn(s0: State, s: State, s': State, sent: seq<Attempted>, xs: seq<Attempted>)
    requires Since(s0, s, sent) && SentOff(s, s', xs) && s'.db == s.db && s'.now == s.now
    ensures Since(s0, s', sent + xs)
  {
    LogAppend(sent, xs, s0.now);
    assert s0.accepted + Log(sent, s0.now) + Log(xs, s0.now) == s0.accepted + (Log(sent, s0.now) + Log(xs, s0.now));
  }

  /** A pass: its event and handlers, what the handlers do and send, and where it began. */
  datatype Pass = Pass(event: string, hs: seq<string>, script: seq<R.HandlerRun>, sends: seq<seq<Attempted>>, s0: State)

  /** The script lists, handler by handler, the notifications of the sends. */
  ghost predicate WellFormed(p: Pass)
  {
    |p.hs| == |p.script| == |p.sends| && forall i :: 0 <= i < |p.script| ==> p.script[i].dedups == KeysOf(p.sends[i])
  }

  /** The keys of a clean pass's notifications are the keys it has sent off, in order. */
  ghost predicate SentEffects(p: Pass, i: nat, sent: seq<Attempted>)
    requires WellFormed(p) && i <= |p.hs|
  {
    KeysOf(sent) == EffectKeys(R.Effects(Start(p).rows, p.event, p.hs, p.script, i))
  }

  function EffectKeys(es: seq<(PKey, string)>): seq<string> { seq(|es|, i requires 0 <= i < |es| => es[i].1) }

  lemma SentEffectsGrow(p: Pass, i: nat, sent: seq<Attempted>)
    requires WellFormed(p) && i < |p.hs| && SentEffects(p, i, sent) && R.Fresh(Start(p).rows, p.event, p.hs, i)
    ensures SentEffects(p, i + 1, sent + p.sends[i])
  {
    var es := R.Effects(Start(p).rows, p.event, p.hs, p.script, i);
    var mine := R.Written(PKey(p.event, p.hs[i]), p.script[i].dedups);
    assert EffectKeys(es + mine) == EffectKeys(es) + EffectKeys(mine);
    assert EffectKeys(mine) == p.script[i].dedups;
    assert KeysOf(sent + p.sends[i]) == KeysOf(sent) + KeysOf(p.sends[i]);
  }

  function Start(p: Pass): R.Snapshot { R.Snapshot(map[], p.s0.db.rows, p.s0.db.notifs) }

  /** The session still works on the message that it had in s0. */
  ghost predicate Same(s0: State, s: State, sid: nat)
  {
    sid in s0.workers && sid in s.workers && s.workers[sid].mid == s0.workers[sid].mid && s.queue == s0.queue
  }

  /** Before handler i. */
  ghost predicate AtHandler(c: Config, p: Pass, s: State, sid: nat, i: nat, failed: bool, sent: seq<Attempted>)
  {
    && Undisturbed(c, p.s0, s, sid, p.event, p.hs) && WellFormed(p) && i <= |p.hs|
    && Same(p.s0, s, sid)
    && s.workers[sid].phase == Routing(i, failed)
    && Since(p.s0, s, sent) && Sendable(c, s, p.sends, i) && (!failed ==> SentEffects(p, i, sent))
    && R.OnCourse(Start(p), Seen(s, sid), p.event, p.hs, p.script, i, !failed)
  }

  /** The guard finds a row: the handler is skipped. */
  lemma Skips(c: Config, p: Pass, s: State, sid: nat, i: nat, failed: bool, sent: seq<Attempted>) returns (s': State)
    requires AtHandler(c, p, s, sid, i, failed, sent) && i < |p.hs|
    requires PKey(p.event, p.hs[i]) in View(s.db, s.workers[sid].overlay)
    ensures AtHandler(c, p, s', sid, i + 1, failed, sent)
  {
    s' := HandlerSkipped(c, p.s0, s, sid, p.event, p.hs);
    StillSendable(c, s, s', p.sends, i);
    if !failed { SkippedOnCourse(p, Seen(s, sid), i, sent); }
  }

  lemma SkippedOnCourse(p: Pass, now: R.Snapshot, i: nat, sent: seq<Attempted>)
    requires WellFormed(p) && i < |p.hs| && R.SoFar(Start(p), now, p.event, p.hs, p.script, i)
        && SentEffects(p, i, sent)
    requires PKey(p.event, p.hs[i]) in now.rows
    ensures R.SoFar(Start(p), now, p.event, p.hs, p.script, i + 1) && SentEffects(p, i + 1, sent)
  {
    R.SkippedStep(Start(p), now, p.event, p.hs, p.script, i);
    var es := R.Effects(Start(p).rows, p.event, p.hs, p.script, i);
    assert es + [] == es;
  }

  /** Besides the course of the pass, all that AtHandler says of the state after handler i has sent its messages. */
  lemma AfterSends(c: Config, p: Pass, s: State, s': State, sid: nat, i: nat, failed: bool, failed': bool,
      sent: seq<Attempted>)
    requires AtHandler(c, p, s, sid, i, failed, sent) && i < |p.hs| && (!failed' ==> !failed)
    requires Undisturbed(c, p.s0, s', sid, p.event, p.hs) && SentOff(s, s', p.sends[i])
    requires s'.db == s.db && s'.now == s.now && s'.workers[sid].phase == Routing(i + 1, failed') && Same(p.s0, s', sid)
    ensures var fine := (!failed ==> R.Fresh(Start(p).rows, p.event, p.hs, i))
        && R.OnCourse(Start(p), Seen(s', sid), p.event, p.hs, p.script, i + 1, !failed');
      fine ==> AtHandler(c, p, s', sid, i + 1, failed', sent + p.sends[i])
  {
    StillSendable(c, s, s', p.sends, i);
    SinceOn(p.s0, s, s', sent, p.sends[i]);
    if !failed && R.Fresh(Start(p).rows, p.event, p.hs, i) { SentEffectsGrow(p, i, sent); }
  }

  /** In a clean pass a handler without a row is fresh. */
  lemma IsFresh(p: Pass, now: R.Snapshot, i: nat)
    requires WellFormed(p) && i < |p.hs| && R.SoFar(Start(p), now, p.event, p.hs, p.script, i)
    requires PKey(p.event, p.hs[i]) !in now.rows
    ensures R.Fresh(Start(p).rows, p.event, p.hs, i)
  {
    R.KeysGrow(p.event, p.hs, i);
  }

  /** The handler runs, writes its notifications and is completed. */
  lemma Completes(c: Config, p: Pass, s: State, sid: nat, i: nat, failed: bool, sent: seq<Attempted>)
    returns (s': State)
    requires AtHandler(c, p, s, sid, i, failed, sent) && i < |p.hs| && !p.script[i].raises
    requires PKey(p.event, p.hs[i]) !in View(s.db, s.workers[sid].overlay)
    ensures AtHandler(c, p, s', sid, i + 1, failed, sent + p.sends[i])
  {
    s' := HandlerDone(c, p.s0, s, sid, p.event, p.hs, p.sends[i]);
    if !failed { IsFresh(p, Seen(s, sid), i); }
    AfterSends(c, p, s, s', sid, i, failed, failed, sent);
    if !failed {
      IdsOf(c, s, sid);
      StaysOnCourse(p, s, s', sid, i);
    }
  }

  /** A clean pass is still on course after the completed handler. */
  lemma StaysOnCourse(p: Pass, s: State, s': State, sid: nat, i: nat)
    requires sid in s.workers && sid in s'.workers && s'.db == s.db && i < |p.hs| == |p.script| && !p.script[i].raises
    requires IdsBelow(s.db.rows, s.nextId) && IdsBelow(s.workers[sid].overlay.rows, s.nextId)
    requires PKey(p.event, p.hs[i]) !in View(s.db, s.workers[sid].overlay)
    requires var o := s.workers[sid].overlay; var k := PKey(p.event, p.hs[i]);
      s'.workers[sid].overlay ==
        Overlay(o.event, SetStatus(o.rows[k := ProcRow(s.nextId, Processing)], s.nextId, Completed),
                o.notifs + RowsFor(k, s.nextId, p.script[i].dedups))
    requires R.SoFar(Start(p), Seen(s, sid), p.event, p.hs, p.script, i)
    ensures R.SoFar(Start(p), Seen(s', sid), p.event, p.hs, p.script, i + 1)
  {
    SeenStep(Start(p), s.db.rows, s.db.notifs, s.workers[sid].overlay, s.nextId, p.event, p.hs, p.script, i);
  }

  /** The handler runs, writes its notifications and raises: all writes of the pass are gone, all sends are not. */
  lemma Raises(c: Config, p: Pass, s: State, sid: nat, i: nat, failed: bool, sent: seq<Attempted>) returns (s': State)
    requires AtHandler(c, p, s, sid, i, failed, sent) && i < |p.hs| && p.script[i].raises
    requires PKey(p.event, p.hs[i]) !in View(s.db, s.workers[sid].overlay)
    ensures AtHandler(c, p, s', sid, i + 1, true, sent + p.sends[i])
  {
    s' := HandlerRaised(c, p.s0, s, sid, p.event, p.hs, p.sends[i]);
    if !failed {
      IsFresh(p, Seen(s, sid), i);
      R.OneRaises(Start(p).rows, p.event, p.hs, p.script, i);
    }
    AfterSends(c, p, s, s', sid, i, failed, true, sent);
  }

  /** The whole handler loop; `sent` is what its handlers have sent off, in order. */
  lemma {:induction false} LoopRuns(c: Config, p: Pass, s: State, sid: nat, i: nat, failed: bool, sent: seq<Attempted>)
    returns (s': State, failed': bool, sent': seq<Attempted>)
    requires AtHandler(c, p, s, sid, i, failed, sent)
    ensures AtHandler(c, p, s', sid, |p.hs|, failed', sent')
    decreases |p.hs| - i
  {
    s', failed', sent' := s, failed, sent;
    if i < |p.hs| {
      if PKey(p.event, p.hs[i]) in View(s.db, s.workers[sid].overlay) {
        s' := Skips(c, p, s, sid, i, failed, sent);
      } else {
        sent' := sent + p.sends[i];
        if p.script[i].raises {
          s' := Raises(c, p, s, sid, i, failed, sent);
          failed' := true;
        } else {
          s' := Completes(c, p, s, sid, i, failed, sent);
        }
      }
      s', failed', sent' := LoopRuns(c, p, s', sid, i + 1, failed', sent');
    }
  }

  /** The end of a pass as the message processor of module Routing promises it. */
  ghost predicate PassOutcome(p: Pass, db: Db, ok: bool)
    requires |p.script| == |p.hs|
  {
    && (ok <==> !R.SomeHandlerRaises(Start(p).rows, p.event, p.hs, p.script))
    && p.event in db.events
    && (if ok then
          R.SoFar(Start(p), R.Snapshot(map[], db.rows, db.notifs), p.event, p.hs, p.script, |p.hs|)
          && db.events[p.event] == EvProcessed
        else db.rows == Start(p).rows && db.notifs == Start(p).notifs && db.events[p.event] == EvFailed)
  }

  /** The end of a pass in which some handler raised. */
  lemma EndsFailed(c: Config, p: Pass, s: State, sid: nat, sent: seq<Attempted>) returns (s': State)
    requires AtHandler(c, p, s, sid, |p.hs|, true, sent)
    ensures Reached(c, p.s0, s') && Same(p.s0, s', sid) && s'.workers[sid].phase == Finished(false)
    ensures PassOutcome(p, s'.db, false) && s'.accepted == s.accepted
  {
    s' := TakeFrom(c, p.s0, s, RollBackPass(sid));
    s' := TakeFrom(c, p.s0, s', ReportFailure(sid));
  }

  /** From the end of the handler loop to the end of the pass. */
  lemma Ends(c: Config, p: Pass, s: State, sid: nat, failed: bool, sent: seq<Attempted>) returns (s': State)
    requires AtHandler(c, p, s, sid, |p.hs|, failed, sent)
    ensures Reached(c, p.s0, s') && Same(p.s0, s', sid) && s'.workers[sid].phase == Finished(!failed)
    ensures PassOutcome(p, s'.db, !failed) && s'.accepted == s.accepted
  {
    if failed {
      s' := EndsFailed(c, p, s, sid, sent);
    } else {
      s' := TakeFrom(c, p.s0, s, Succeed(sid));
      R.NoneRaised(Start(p), Seen(s, sid), p.event, p.hs, p.script);
    }
  }

  /** A session with the message in hand, which the pass begins with. */
  ghost predicate Ready(c: Config, p: Pass, s: State, sid: nat)
  {
    && Undisturbed(c, p.s0, s, sid, p.event, p.hs) && s.workers[sid].phase == Phase.Received && WellFormed(p)
    && p.s0 == s && Sendable(c, s, p.sends, 0)
  }

  /** The event row is there and the handlers are resolved. */
  lemma ToLoop(c: Config, z: State, s: State, sid: nat, event: string, hs: seq<string>) returns (s': State)
    requires Undisturbed(c, z, s, sid, event, hs) && s.workers[sid].phase == Phase.Received && hs != []
    ensures Undisturbed(c, z, s', sid, event, hs) && s'.claims == s.claims && s'.accepted == s.accepted
        && s'.now == s.now
    ensures s'.db.rows == s.db.rows && s'.db.notifs == s.db.notifs && Same(s, s', sid)
    ensures s'.workers[sid].phase == Routing(0, false)
        && s'.workers[sid].overlay == NO_WRITES.(event := Some(EvProcessing))
  {
    s' := TakeFrom(c, z, s, Persist(sid));
    s' := TakeFrom(c, z, s', Resolve(sid));
  }

  /** Up to the first handler. */
  lemma Begins(c: Config, p: Pass, s: State, sid: nat) returns (s': State)
    requires Ready(c, p, s, sid) && p.hs != []
    ensures AtHandler(c, p, s', sid, 0, false, [])
  {
    OnlyCompletedIsDurable(c, s);
    s' := ToLoop(c, p.s0, s, sid, p.event, p.hs);
    assert s'.db.notifs + [] == s'.db.notifs && s'.db.rows + map[] == s'.db.rows;
    R.SoFarStarts(Start(p), Seen(s', sid), p.event, p.hs, p.script);
  }

  /** An event type without handlers is recorded as processed. */
  lemma Unroutable(c: Config, p: Pass, s: State, sid: nat) returns (s': State)
    requires Ready(c, p, s, sid) && p.hs == []
    ensures Reached(c, p.s0, s') && Same(p.s0, s', sid) && s'.workers[sid].phase == Finished(true)
    ensures PassOutcome(p, s'.db, true) && s'.accepted == s.accepted
  {
    OnlyCompletedIsDurable(c, s);
    s' := TakeFrom(c, p.s0, s, Persist(sid));
    s' := TakeFrom(c, p.s0, s', Resolve(sid));
    R.SoFarStarts(Start(p), R.Snapshot(map[], s'.db.rows, s'.db.notifs), p.event, [], p.script);
  }

  /**
   Every pass of the code is a run of the transition system. On from any reachable state, whatever other sessions are
   doing as long as none holds a pair of the event: for whatever the handlers do and whichever of their sends the
   provider accepts, some run ends the session with the tables exactly as MessageProcessor.ProcessRawMessage leaves
   them, and with those sends accepted; when the pass succeeds they are the sends of its notifications, in order.
   */
  lemma PassIsARun(c: Config, p: Pass, s: State, sid: nat) returns (s': State, sent: seq<Attempted>)
    requires Ready(c, p, s, sid)
    ensures Reached(c, p.s0, s') && Same(s, s', sid)
    ensures s'.workers[sid].phase == Finished(!R.SomeHandlerRaises(Start(p).rows, p.event, p.hs, p.script))
    ensures PassOutcome(p, s'.db, !R.SomeHandlerRaises(Start(p).rows, p.event, p.hs, p.script))
    ensures s'.accepted == s.accepted + Log(sent, s.now)
    ensures s'.workers[sid].phase.ok ==> SentEffects(p, |p.hs|, sent)
  {
    sent := [];
    if p.hs == [] {
      s' := Unroutable(c, p, s, sid);
    } else {
      var failed: bool;
      s' := Begins(c, p, s, sid);
      s', failed, sent := LoopRuns(c, p, s', sid, 0, false, []);
      s' := Ends(c, p, s', sid, failed, sent);
    }
  }
}
