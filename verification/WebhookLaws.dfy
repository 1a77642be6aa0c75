/** Laws of the callbacks: replay, order, the status history, and inbound messages. */
module WebhookLaws {
  import opened Basics
  import opened Notification
  import opened Webhook

  // ---- statuses ----

  lemma {:induction false} AfterAllAppend(st: Status, xs: seq<Name>, ys: seq<Name>)
    ensures AfterAll(st, xs + ys) == AfterAll(AfterAll(st, xs), ys)
    decreases |xs|
  {
    if xs == [] {
      assert xs + ys == ys;
    } else {
      assert (xs + ys)[1..] == xs[1..] + ys;
      AfterAllAppend(After(st, xs[0]), xs[1..], ys);
    }
  }

  /** The status that callbacks without `failed` lead to, from the set of their names alone. */
  function Settled(st: Status, names: set<Name>): Status
  {
    if NameRead in names then Read
    else if NameDelivered in names then (if st == Read then Read else Delivered)
    else if NameSent in names && st in {Created, Queued, Processing} then Sent
    else st
  }

  function Names(xs: seq<Name>): set<Name> { set x | x in xs }

  lemma {:induction false} WithoutFailed(st: Status, xs: seq<Name>)
    requires NameFailed !in xs
    ensures AfterAll(st, xs) == Settled(st, Names(xs))
    decreases |xs|
  {
    if xs != [] {
      WithoutFailed(After(st, xs[0]), xs[1..]);
      assert Names(xs) == {xs[0]} + Names(xs[1..]);
    }
  }

  /** However often `sent` is reported alone, it moves a notification only out of the states before sending. */
  lemma SentAlone(st: Status, xs: seq<Name>)
    requires xs != [] && forall x :: x in xs ==> x == NameSent
    ensures AfterAll(st, xs) == if st == Created || st == Queued || st == Processing then Sent else st
  {
    assert xs[0] in xs;
    WithoutFailed(st, xs);
    assert NameSent in Names(xs) && NameRead !in Names(xs) && NameDelivered !in Names(xs);
  }

  /** One callback at a time: the whole table of statuses and names. */
  lemma OneCallback(st: Status, name: Name)
    ensures AfterAll(st, [name]) ==
      match name
      case NameSent => if st == Created || st == Queued || st == Processing then Sent else st
      case NameDelivered => if st == Read then Read else Delivered
      case NameRead => Read
      case NameFailed => Failed
      case _ => st
  {
    assert [name][1..] == [];
    if name == NameSent { SentAlone(st, [name]); }
  }

  /** Without `failed`, order and duplicates do not matter. */
  lemma OrderIrrelevantWithoutFailed(st: Status, xs: seq<Name>, ys: seq<Name>)
    requires NameFailed !in xs && NameFailed !in ys && Names(xs) == Names(ys)
    ensures AfterAll(st, xs) == AfterAll(st, ys)
  {
    WithoutFailed(st, xs);
    WithoutFailed(st, ys);
  }

  /** A failure forgets everything before it: what follows the last `failed` decides, as from FAILED. */
  lemma LastFailureDecides(st: Status, xs: seq<Name>, ys: seq<Name>)
    requires NameFailed !in ys
    ensures AfterAll(st, xs + [NameFailed] + ys) == Settled(Failed, Names(ys))
  {
    AfterAllAppend(st, xs + [NameFailed], ys);
    AfterAllAppend(st, xs, [NameFailed]);
    var mid := AfterAll(st, xs);
    assert AfterAll(mid, [NameFailed]) == AfterAll(After(mid, NameFailed), [NameFailed][1..]) == Failed;
    WithoutFailed(Failed, ys);
  }

  /** With `failed` the order does matter: it overrides READ, and a later `delivered` overrides it. */
  lemma OrderMattersWithFailed()
    ensures AfterAll(Sent, [NameRead, NameFailed]) == Failed && AfterAll(Sent, [NameFailed, NameRead]) == Read
    ensures AfterAll(Sent, [NameFailed, NameDelivered]) == Delivered
  {
    assert [NameRead, NameFailed][1..] == [NameFailed] && [NameFailed, NameRead][1..] == [NameRead];
    assert [NameFailed, NameDelivered][1..] == [NameDelivered];
    assert AfterAll(Read, [NameFailed]) == AfterAll(After(Read, NameFailed), [NameFailed][1..]);
    assert AfterAll(Failed, [NameRead]) == AfterAll(After(Failed, NameRead), [NameRead][1..]);
    assert AfterAll(Failed, [NameDelivered]) == AfterAll(After(Failed, NameDelivered), [NameDelivered][1..]);
  }

  /** Position just after the last `failed`, or 0. */
  function AfterLastFailure(xs: seq<Name>): (i: nat)
    ensures i <= |xs| && NameFailed !in xs[i..] && (i == 0 ==> NameFailed !in xs) && (i > 0 ==> xs[i - 1] == NameFailed)
  {
    if xs == [] then 0
    else if xs[|xs| - 1] == NameFailed then |xs|
    else
      var i := AfterLastFailure(xs[..|xs| - 1]);
      assert xs[i..] == xs[..|xs| - 1][i..] + [xs[|xs| - 1]];
      i
  }

  /** Replaying any sequence of callbacks changes no status. */
  lemma ReplayKeepsStatus(st: Status, xs: seq<Name>)
    ensures AfterAll(AfterAll(st, xs), xs) == AfterAll(st, xs)
  {
    var i := AfterLastFailure(xs);
    if i == 0 {
      WithoutFailed(st, xs);
      WithoutFailed(AfterAll(st, xs), xs);
    } else {
      assert xs == xs[..i - 1] + [NameFailed] + xs[i..];
      LastFailureDecides(st, xs[..i - 1], xs[i..]);
      LastFailureDecides(AfterAll(st, xs), xs[..i - 1], xs[i..]);
    }
  }

  // ---- from payloads to the statuses of one notification ----

  /** Message ids and notifications of the attempts, which no callback changes. */
  ghost predicate SameRoutes(a: seq<AttemptRow>, b: seq<AttemptRow>)
  {
    |a| == |b| && forall i :: 0 <= i < |a| ==>
        a[i].messageId == b[i].messageId && a[i].notification == b[i].notification
  }

  lemma {:induction false} LatestSame(a: seq<AttemptRow>, b: seq<AttemptRow>, id: string)
    requires SameRoutes(a, b)
    ensures Latest(a, id) == Latest(b, id)
    decreases |a|
  {
    if a != [] { LatestSame(a[..|a| - 1], b[..|b| - 1], id); }
  }

  /** The status names that the first n events address to notification `id`, in order. */
  function NamesFor(s: Stored, es: seq<Event>, n: nat, id: string): seq<Name>
    requires n <= |es|
  {
    if n == 0 then []
    else
      var e := es[n - 1];
      var mine := e.StatusEvent? && Addressed(s, e.item)
          && s.attempts[Latest(s.attempts, e.item.id)].notification == id;
      NamesFor(s, es, n - 1, id) + (if mine then [e.item.name] else [])
  }

  /** What callbacks never change: which notifications and attempts there are, and who belongs to whom. */
  ghost predicate SameShape(s: Stored, t: Stored)
  {
    SameRoutes(s.attempts, t.attempts) && s.notes.Keys == t.notes.Keys
  }

  lemma ApplyKeepsShape(s: Stored, e: Event)
    ensures SameShape(s, Apply(s, e))
  {
  }

  lemma {:induction false} ApplyToKeepsShape(s: Stored, es: seq<Event>, n: nat)
    requires n <= |es|
    ensures SameShape(s, ApplyTo(s, es, n))
  {
    if n > 0 {
      ApplyToKeepsShape(s, es, n - 1);
      ApplyKeepsShape(ApplyTo(s, es, n - 1), es[n - 1]);
    }
  }

  lemma {:induction false} NamesForSame(s: Stored, t: Stored, es: seq<Event>, n: nat, id: string)
    requires SameShape(s, t) && n <= |es|
    ensures NamesFor(s, es, n, id) == NamesFor(t, es, n, id)
  {
    if n > 0 {
      NamesForSame(s, t, es, n - 1, id);
      if es[n - 1].StatusEvent? { LatestSame(s.attempts, t.attempts, es[n - 1].item.id); }
    }
  }

  /** One more event, for one notification. */
  lemma StatusAfterOne(s: Stored, t: Stored, e: Event, id: string)
    requires SameShape(s, t) && id in s.notes
    ensures id in Apply(t, e).notes
    ensures var mine := e.StatusEvent? && Addressed(s, e.item)
        && s.attempts[Latest(s.attempts, e.item.id)].notification == id;
      Apply(t, e).notes[id].status == if mine then After(t.notes[id].status, e.item.name) else t.notes[id].status
  {
    if e.StatusEvent? { LatestSame(s.attempts, t.attempts, e.item.id); }
  }

  lemma AfterAllSnoc(st: Status, names: seq<Name>, name: Name)
    ensures AfterAll(st, names + [name]) == After(AfterAll(st, names), name)
  {
    AfterAllAppend(st, names, [name]);
    var mid := AfterAll(st, names);
    assert AfterAll(mid, [name]) == AfterAll(After(mid, name), [name][1..]);
  }

  /** A notification's status after any payloads is its own callbacks applied in order; no other event touches it. */
  lemma {:induction false} StatusFollowsItsCallbacks(s: Stored, es: seq<Event>, n: nat, id: string)
    requires id in s.notes && n <= |es|
    ensures id in ApplyTo(s, es, n).notes
    ensures ApplyTo(s, es, n).notes[id].status == AfterAll(s.notes[id].status, NamesFor(s, es, n, id))
  {
    if n > 0 {
      var t, e, names := ApplyTo(s, es, n - 1), es[n - 1], NamesFor(s, es, n - 1, id);
      StatusFollowsItsCallbacks(s, es, n - 1, id);
      ApplyToKeepsShape(s, es, n - 1);
      StatusAfterOne(s, t, e, id);
      if e.StatusEvent? { AfterAllSnoc(s.notes[id].status, names, e.item.name); }
      assert names + [] == names;
    }
  }

  /** A callback reaches a notification by the last attempt that got the message id it carries. */
  lemma AddressedExactly(s: Stored, item: StatusItem)
    ensures Addressed(s, item) <==> (
      && item.id != "" && item.name != NoName
      && exists i :: 0 <= i < |s.attempts| && s.attempts[i].messageId == item.id
          && s.attempts[i].notification in s.notes
           && forall j :: i < j < |s.attempts| ==> s.attempts[j].messageId != item.id)
  {
    var k := Latest(s.attempts, item.id);
    if k < |s.attempts| {
      assert s.attempts[k].messageId == item.id;
    }
  }

  /** It counts as processed when it reaches one and has one of the four names; otherwise no status changes. */
  lemma CountedExactly(s: Stored, item: StatusItem)
    ensures Counted(s, StatusEvent(item)) <==>
      Addressed(s, item) && item.name in {NameSent, NameDelivered, NameRead, NameFailed}
    ensures !Counted(s, StatusEvent(item)) ==> ApplyStatus(s, item) == s
  {
  }

  /** The callback is recorded in the history: whatever it says, unless it comes too late to say anything. */
  predicate Recorded(st: Status, name: Name)
  {
    name == NameRead || name == NameFailed || (name == NameDelivered && st != Read)
    || (name == NameSent && (st == Created || st == Queued || st == Processing))
  }

  /** One callback leaves one history entry, from the status before to the one after, exactly when it is recorded. */
  lemma HistoryAfterOne(s: Stored, item: StatusItem)
    requires Addressed(s, item)
    ensures var id := s.attempts[Latest(s.attempts, item.id)].notification;
      var n, n' := s.notes[id], ApplyStatus(s, item).notes[id];
      n'.history == n.history + (if Recorded(n.status, item.name) then [Transition(Some(n.status), n'.status)] else [])
      && n'.retryCount == n.retryCount
  {
    var n := s.notes[s.attempts[Latest(s.attempts, item.id)].notification];
    assert n.history + [] == n.history;
  }

  lemma TallyOfOne(s: Stored, e: Event)
    ensures TallyOf(s, [e]) == One(s, e)
  {
    assert TallyTo(s, [e], 0) == Tally(0, 0);
    assert ApplyTo(s, [e], 0) == s;
  }

  /** What a tally counts: each processed status, and each message with id and sender, for one. */
  lemma OneLaws(s: Stored, item: StatusItem, m: Message, v: Value)
    ensures One(s, StatusEvent(item)) == if Counted(s, StatusEvent(item)) then Tally(1, 0) else Tally(0, 0)
    ensures One(s, MessageEvent(m, v)) == if m.id != "" && m.from != "" then Tally(0, 1) else Tally(0, 0)
  {
  }

  /** The names that the first n events carry to attempt i, in order. */
  function NamesToAttempt(s: Stored, es: seq<Event>, n: nat, i: nat): seq<Name>
    requires n <= |es|
  {
    if n == 0 then []
    else
      var e := es[n - 1];
      var mine := e.StatusEvent? && Addressed(s, e.item) && Latest(s.attempts, e.item.id) == i;
      NamesToAttempt(s, es, n - 1, i) + (if mine then [e.item.name] else [])
  }

  /** What the names leave of an attempt: the last of delivered, read and failed decides; failed rules out a retry. */
  function Decided(status: AttemptStatus, retryable: bool, xs: seq<Name>): (AttemptStatus, bool)
  {
    if xs == [] then (status, retryable)
    else
      var before := Decided(status, retryable, xs[..|xs| - 1]);
      match xs[|xs| - 1]
      case NameDelivered => (Success, before.1)
      case NameRead => (Success, before.1)
      case NameFailed => (AttemptFailed, false)
      case _ => before
  }

  lemma DecidedSnoc(status: AttemptStatus, retryable: bool, xs: seq<Name>, x: Name)
    ensures Decided(status, retryable, xs + [x]) ==
      var before := Decided(status, retryable, xs);
      match x
      case NameDelivered => (Success, before.1)
      case NameRead => (Success, before.1)
      case NameFailed => (AttemptFailed, false)
      case _ => before
  {
    assert (xs + [x])[..|xs|] == xs;
  }

  lemma AttemptAfterOne(s: Stored, t: Stored, e: Event, i: nat)
    requires SameShape(s, t) && i < |s.attempts|
    ensures SameShape(s, Apply(t, e))
    ensures var mine := e.StatusEvent? && Addressed(s, e.item) && Latest(s.attempts, e.item.id) == i;
      Apply(t, e).attempts[i] == if mine then AttemptAfter(t.attempts[i], e.item.name) else t.attempts[i]
  {
    if e.StatusEvent? { LatestSame(s.attempts, t.attempts, e.item.id); }
  }

  /** Where an attempt stands. */
  function Standing(a: AttemptRow): (AttemptStatus, bool) { (a.status, a.retryable) }

  /** One more event, for one attempt. */
  lemma StandingAfterOne(s: Stored, t: Stored, e: Event, i: nat, names: seq<Name>)
    requires SameShape(s, t) && i < |s.attempts|
    requires Standing(t.attempts[i]) == Decided(s.attempts[i].status, s.attempts[i].retryable, names)
    ensures SameShape(s, Apply(t, e))
    ensures var mine := e.StatusEvent? && Addressed(s, e.item) && Latest(s.attempts, e.item.id) == i;
      Standing(Apply(t, e).attempts[i])
        == Decided(s.attempts[i].status, s.attempts[i].retryable, names + if mine then [e.item.name] else [])
  {
    AttemptAfterOne(s, t, e, i);
    if e.StatusEvent? { DecidedSnoc(s.attempts[i].status, s.attempts[i].retryable, names, e.item.name); }
    assert names + [] == names;
  }

  /** An attempt's row after any payloads is what its own callbacks make of it. */
  lemma {:induction false} AttemptFollowsItsCallbacks(s: Stored, es: seq<Event>, n: nat, i: nat)
    requires n <= |es| && i < |s.attempts|
    ensures SameShape(s, ApplyTo(s, es, n))
    ensures Standing(ApplyTo(s, es, n).attempts[i])
      == Decided(s.attempts[i].status, s.attempts[i].retryable, NamesToAttempt(s, es, n, i))
  {
    if n > 0 {
      AttemptFollowsItsCallbacks(s, es, n - 1, i);
      StandingAfterOne(s, ApplyTo(s, es, n - 1), es[n - 1], i, NamesToAttempt(s, es, n - 1, i));
    }
  }

  // ---- histories ----

  ghost predicate AllChained(s: Stored)
  {
    forall id :: id in s.notes ==> Chained(s.notes[id])
  }

  lemma OneHistoryGrows(n: Note, name: Name)
    requires Chained(n)
    ensures var m := match Target(n.status, name) case Some(st) => UpdateStatus(n, st) case None => n;
      Chained(m) && n.history <= m.history
  {
    match Target(n.status, name)
    case Some(st) => UpdateKeepsChain(n, st);
    case None =>
  }

  lemma ApplyKeepsChains(s: Stored, e: Event)
    requires AllChained(s)
    ensures AllChained(Apply(s, e)) && Apply(s, e).notes.Keys == s.notes.Keys
    ensures forall id :: id in s.notes ==> s.notes[id].history <= Apply(s, e).notes[id].history
  {
    if e.StatusEvent? && Addressed(s, e.item) {
      OneHistoryGrows(s.notes[s.attempts[Latest(s.attempts, e.item.id)].notification], e.item.name);
    }
  }

  /** Every history stays a linked chain and only grows. */
  lemma {:induction false} HistoriesStayChained(s: Stored, es: seq<Event>, n: nat)
    requires AllChained(s) && n <= |es|
    ensures AllChained(ApplyTo(s, es, n))
    ensures ApplyTo(s, es, n).notes.Keys == s.notes.Keys
    ensures forall id :: id in s.notes ==> s.notes[id].history <= ApplyTo(s, es, n).notes[id].history
  {
    if n > 0 {
      HistoriesStayChained(s, es, n - 1);
      ApplyKeepsChains(ApplyTo(s, es, n - 1), es[n - 1]);
    }
  }

  /** A turn of anybody: a callback or inbound message, or a send that creates or updates its own note. */
  datatype Turn = Incoming(event: Event) | Creates(id: string) | Sends(id: string, update: Update)

  function TurnTaken(s: Stored, t: Turn): Stored
  {
    match t
    case Incoming(e) => Apply(s, e)
    case Creates(id) => if id in s.notes then s else s.(notes := s.notes[id := NEW_NOTE])
    case Sends(id, u) => if id in s.notes then s.(notes := s.notes[id := Updated(s.notes[id], u)]) else s
  }

  function TurnsTaken(s: Stored, ts: seq<Turn>, n: nat): Stored
    requires n <= |ts|
  {
    if n == 0 then s else TurnTaken(TurnsTaken(s, ts, n - 1), ts[n - 1])
  }

  lemma OneTurn(s: Stored, t: Turn)
    requires AllChained(s)
    ensures AllChained(TurnTaken(s, t)) && s.notes.Keys <= TurnTaken(s, t).notes.Keys
    ensures forall id :: id in s.notes ==> s.notes[id].history <= TurnTaken(s, t).notes[id].history
  {
    if t.Incoming? { ApplyKeepsChains(s, t.event); }
  }

  /** Under any mix of send loops and callbacks every history stays a linked chain and only grows. */
  lemma {:induction false} AnyMixStaysChained(s: Stored, ts: seq<Turn>, n: nat)
    requires AllChained(s) && n <= |ts|
    ensures AllChained(TurnsTaken(s, ts, n)) && s.notes.Keys <= TurnsTaken(s, ts, n).notes.Keys
    ensures forall id :: id in s.notes ==> s.notes[id].history <= TurnsTaken(s, ts, n).notes[id].history
  {
    if n > 0 {
      AnyMixStaysChained(s, ts, n - 1);
      OneTurn(TurnsTaken(s, ts, n - 1), ts[n - 1]);
    }
  }

  // ---- inbound messages ----

  ghost predicate UniqueIds(rows: seq<Inbound>)
  {
    forall i, j :: 0 <= i < j < |rows| ==> rows[i].messageId != rows[j].messageId
  }

  predicate Storable(e: Event) { e.MessageEvent? && e.msg.id != "" && e.msg.from != "" }

  lemma InboundAfterOne(t: Stored, e: Event)
    requires UniqueIds(t.inbound)
    ensures t.inbound <= Apply(t, e).inbound && UniqueIds(Apply(t, e).inbound)
    ensures Storable(e) ==> Present(Apply(t, e).inbound, e.msg.id)
    ensures Storable(e) && !Present(t.inbound, e.msg.id) ==> Apply(t, e).inbound == t.inbound + [Row(e.msg, e.value)]
    ensures !Storable(e) || Present(t.inbound, e.msg.id) ==> Apply(t, e).inbound == t.inbound
  {
    if Storable(e) && !Present(t.inbound, e.msg.id) {
      assert Apply(t, e).inbound[|t.inbound|].messageId == e.msg.id;
    }
  }

  lemma PresentStays(a: seq<Inbound>, b: seq<Inbound>, id: string)
    requires a <= b && Present(a, id)
    ensures Present(b, id)
  {
    var j :| 0 <= j < |a| && a[j].messageId == id;
    assert b[j].messageId == id;
  }

  /** Inbound rows are never rewritten, their ids stay unique, and every storable message is there from then on. */
  lemma {:induction false} InboundGrowsUniquely(s: Stored, es: seq<Event>, m: nat, n: nat)
    requires UniqueIds(s.inbound) && m <= n <= |es|
    ensures UniqueIds(ApplyTo(s, es, n).inbound) && ApplyTo(s, es, m).inbound <= ApplyTo(s, es, n).inbound
    ensures forall i :: m <= i < n && Storable(es[i]) ==> Present(ApplyTo(s, es, n).inbound, es[i].msg.id)
    decreases n
  {
    if m < n {
      var t, u := ApplyTo(s, es, n - 1), ApplyTo(s, es, n);
      InboundGrowsUniquely(s, es, m, n - 1);
      InboundAfterOne(t, es[n - 1]);
      forall i | m <= i < n && Storable(es[i]) ensures Present(u.inbound, es[i].msg.id) {
        if i < n - 1 { PresentStays(t.inbound, u.inbound, es[i].msg.id); }
      }
    } else if n > 0 {
      InboundGrowsUniquely(s, es, n - 1, n - 1);
      InboundAfterOne(ApplyTo(s, es, n - 1), es[n - 1]);
    }
  }

  /** The first message seen with an id is the one that is kept, through every later duplicate. */
  lemma FirstSeenWins(s: Stored, es: seq<Event>, i: nat, k: nat)
    requires UniqueIds(s.inbound) && i < |es| && Storable(es[i])
    requires !Present(s.inbound, es[i].msg.id)
    requires forall j :: 0 <= j < i && Storable(es[j]) ==> es[j].msg.id != es[i].msg.id
    requires k < |ApplyAll(s, es).inbound| && ApplyAll(s, es).inbound[k].messageId == es[i].msg.id
    ensures ApplyAll(s, es).inbound[k] == Row(es[i].msg, es[i].value)
  {
    var before, last := ApplyTo(s, es, i), ApplyAll(s, es);
    NotYetPresent(s, es, i, es[i].msg.id);
    InboundGrowsUniquely(s, es, 0, i);
    InboundAfterOne(before, es[i]);
    InboundGrowsUniquely(s, es, i + 1, |es|);
    assert last.inbound[|before.inbound|] == Row(es[i].msg, es[i].value);
    assert last.inbound[|before.inbound|].messageId == last.inbound[k].messageId;
  }

  /** Whatever has been stored since came from a message with id and sender. */
  lemma {:induction false} InboundComesFromMessages(s: Stored, es: seq<Event>, n: nat, k: nat)
    requires n <= |es| && UniqueIds(s.inbound) && |s.inbound| <= k < |ApplyTo(s, es, n).inbound|
    ensures exists i :: 0 <= i < n && Storable(es[i]) && ApplyTo(s, es, n).inbound[k] == Row(es[i].msg, es[i].value)
  {
    if n > 0 {
      var t := ApplyTo(s, es, n - 1);
      InboundGrowsUniquely(s, es, n - 1, n - 1);
      InboundAfterOne(t, es[n - 1]);
      if k < |t.inbound| { InboundComesFromMessages(s, es, n - 1, k); }
    }
  }

  /** Among the first n contacts, number i is the last with this id. */
  ghost predicate LastWithId(cs: seq<Contact>, n: nat, id: string, i: nat)
  {
    i < n <= |cs| && cs[i].waId == id && forall j :: i < j < n ==> cs[j].waId != id
  }

  lemma {:induction false} LastContactNames(cs: seq<Contact>, n: nat, id: string, i: nat)
    requires LastWithId(cs, n, id, i) && id != ""
    ensures id in ContactsTo(cs, n) && ContactsTo(cs, n)[id] == cs[i].name
  {
    if i < n - 1 { LastContactNames(cs, n - 1, id, i); }
  }

  lemma {:induction false} UnknownContact(cs: seq<Contact>, n: nat, id: string)
    requires n <= |cs| && forall i :: 0 <= i < n ==> cs[i].waId != id
    ensures id !in ContactsTo(cs, n)
  {
    if n > 0 { UnknownContact(cs, n - 1, id); }
  }

  /** A stored row holds what the message and its value say. */
  lemma RowLaws(m: Message, v: Value)
    ensures var r := Row(m, v);
      && r.messageId == m.id && r.from == m.from && r.kind == m.kind && r.body == m.body
      && r.phoneNumberId == v.phoneNumberId
  {
  }

  /** The sender is named as the last contact with the sender's id is, if there is one. */
  lemma SenderLaws(m: Message, v: Value, i: nat)
    requires m.from != ""
    ensures LastWithId(v.contacts, |v.contacts|, m.from, i) ==> Row(m, v).sender == v.contacts[i].name
    ensures (forall k :: 0 <= k < |v.contacts| ==> v.contacts[k].waId != m.from) ==> Row(m, v).sender == None
  {
    if LastWithId(v.contacts, |v.contacts|, m.from, i) {
      LastContactNames(v.contacts, |v.contacts|, m.from, i);
    } else if forall k :: 0 <= k < |v.contacts| ==> v.contacts[k].waId != m.from {
      UnknownContact(v.contacts, |v.contacts|, m.from);
    }
  }

  // ---- what a payload carries ----

  /** Another kind of account carries nothing; a change that is not about messages neither. */
  lemma ForeignPayloads(p: Payload, ch: Change)
    ensures p.object_ != "whatsapp_business_account" ==> Carried(p) == []
    ensures ch.field != "messages" ==> ChangeEvents(ch) == []
  {
  }

  /** A change about messages carries its statuses, in order, and then its messages, in order. */
  lemma ChangeCarries(ch: Change)
    requires ch.field == "messages"
    ensures var es := ChangeEvents(ch); var k := |ch.value.statuses|;
      && |es| == k + |ch.value.messages|
      && (forall i :: 0 <= i < k ==> es[i] == StatusEvent(ch.value.statuses[i]))
      && (forall i :: 0 <= i < |ch.value.messages| ==> es[k + i] == MessageEvent(ch.value.messages[i], ch.value))
  {
  }

  lemma {:induction false} EntryPrefix(a: seq<Change>, b: seq<Change>, n: nat)
    requires n <= |a|
    ensures EntryEvents(a + b, n) == EntryEvents(a, n)
  {
    if n > 0 { EntryPrefix(a, b, n - 1); }
  }

  /** One more change of an entry carries its events after those before it. */
  lemma EntryCarries(chs: seq<Change>, ch: Change)
    ensures EntryEvents(chs + [ch], |chs| + 1) == EntryEvents(chs, |chs|) + ChangeEvents(ch)
    ensures EntryEvents([], 0) == []
  {
    EntryPrefix(chs, [ch], |chs|);
  }

  lemma {:induction false} PayloadPrefix(a: seq<seq<Change>>, b: seq<seq<Change>>, n: nat)
    requires n <= |a|
    ensures PayloadEvents(a + b, n) == PayloadEvents(a, n)
  {
    if n > 0 { PayloadPrefix(a, b, n - 1); }
  }

  /** One more entry of a payload carries its events after those before it. */
  lemma PayloadCarries(entries: seq<seq<Change>>, entry: seq<Change>)
    ensures Carried(Payload("whatsapp_business_account", entries + [entry]))
         == Carried(Payload("whatsapp_business_account", entries)) + EntryEvents(entry, |entry|)
    ensures Carried(Payload("whatsapp_business_account", [])) == []
  {
    PayloadPrefix(entries, [entry], |entries|);
  }

  lemma {:induction false} NotYetPresent(s: Stored, es: seq<Event>, n: nat, id: string)
    requires n <= |es| && !Present(s.inbound, id)
    requires forall j :: 0 <= j < n && Storable(es[j]) ==> es[j].msg.id != id
    ensures !Present(ApplyTo(s, es, n).inbound, id)
  {
    if n > 0 { NotYetPresent(s, es, n - 1, id); }
  }

  lemma {:induction false} PresentMeansUnchanged(s: Stored, es: seq<Event>, n: nat)
    requires n <= |es| && forall i :: 0 <= i < n && Storable(es[i]) ==> Present(s.inbound, es[i].msg.id)
    ensures ApplyTo(s, es, n).inbound == s.inbound
  {
    if n > 0 { PresentMeansUnchanged(s, es, n - 1); }
  }

  /** Replaying any payloads, as often as Meta likes, changes no notification status and adds no inbound row. */
  lemma ReplayIsSafe(s: Stored, es: seq<Event>)
    requires UniqueIds(s.inbound)
    ensures var once := ApplyAll(s, es); var twice := ApplyAll(once, es);
      && twice.inbound == once.inbound
      && twice.notes.Keys == once.notes.Keys == s.notes.Keys
      && forall id :: id in s.notes ==> twice.notes[id].status == once.notes[id].status
  {
    var once, n := ApplyAll(s, es), |es|;
    InboundGrowsUniquely(s, es, 0, n);
    PresentMeansUnchanged(once, es, n);
    ApplyToKeepsShape(s, es, n);
    ApplyToKeepsShape(once, es, n);
    forall id | id in s.notes ensures ApplyAll(once, es).notes[id].status == once.notes[id].status {
      StatusFollowsItsCallbacks(s, es, n, id);
      StatusFollowsItsCallbacks(once, es, n, id);
      NamesForSame(s, once, es, n, id);
      ReplayKeepsStatus(s.notes[id].status, NamesFor(s, es, n, id));
    }
  }
}
