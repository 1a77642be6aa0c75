/** WhatsApp callbacks: delivery statuses applied to sent notifications, and inbound customer messages. */
module Webhook {
  import opened Basics
  import opened Notification

  // ---- payload ----

  /** A status name, compared without regard to case; `NoName` when absent or empty. */
  datatype Name = NameSent | NameDelivered | NameRead | NameFailed | OtherName(text: string) | NoName

  /** Absent texts are empty. */
  datatype StatusItem = StatusItem(id: string, name: Name)

  datatype Message = Message(id: string, from: string, kind: string, body: Option<string>)

  datatype Contact = Contact(waId: string, name: Option<string>)

  datatype Value = Value(phoneNumberId: Option<string>, statuses: seq<StatusItem>, contacts: seq<Contact>,
      messages: seq<Message>)

  datatype Change = Change(field: string, value: Value)

  datatype Payload = Payload(object_: string, entries: seq<seq<Change>>)

  // ---- stored rows ----

  /** An attempt row as the callbacks see it; rows are kept in the order in which they were started. */
  datatype AttemptRow = AttemptRow(messageId: string, notification: string, status: AttemptStatus, retryable: bool)

  datatype Inbound = Inbound(messageId: string, from: string, phoneNumberId: Option<string>, sender: Option<string>,
                             kind: string, body: Option<string>)

  datatype Stored = Stored(notes: map<string, Note>, attempts: seq<AttemptRow>, inbound: seq<Inbound>)

  // ---- one status callback ----

  /** The status after a callback, and whether a transition is recorded. */
  function Target(st: Status, name: Name): Option<Status>
  {
    if name == NameDelivered then (if st == Read then None else Some(Delivered))
    else if name == NameRead then Some(Read)
    else if name == NameFailed then Some(Failed)
    else if name == NameSent then (if st in {Processing, Queued, Created} then Some(Sent) else None)
    else None
  }

  function After(st: Status, name: Name): Status
  {
    match Target(st, name) case Some(t) => t case None => st
  }

  function AfterAll(st: Status, names: seq<Name>): Status
    decreases |names|
  {
    if names == [] then st else AfterAll(After(st, names[0]), names[1..])
  }

  predicate Known(name: Name) { name == NameDelivered || name == NameRead || name == NameFailed || name == NameSent }

  /** Position of the latest attempt with this provider message id, or |attempts|. */
  function Latest(attempts: seq<AttemptRow>, id: string): (i: nat)
    ensures i <= |attempts| && (i < |attempts| ==> attempts[i].messageId == id)
    ensures forall j :: 0 <= j < |attempts| && attempts[j].messageId == id ==> i < |attempts| && j <= i
  {
    if attempts == [] then 0
    else if attempts[|attempts| - 1].messageId == id then |attempts| - 1
    else
      var i := Latest(attempts[..|attempts| - 1], id);
      assert forall j :: 0 <= j < |attempts| - 1 ==> attempts[..|attempts| - 1][j] == attempts[j];
      if i == |attempts| - 1 then |attempts| else i
  }

  function AttemptAfter(a: AttemptRow, name: Name): AttemptRow
  {
    if name == NameDelivered || name == NameRead then a.(status := Success)
    else if name == NameFailed then a.(status := AttemptFailed, retryable := false)
    else a
  }

  /** The callback reaches a stored notification through its attempt. */
  predicate Addressed(s: Stored, item: StatusItem)
  {
    item.id != "" && item.name != NoName && Latest(s.attempts, item.id) < |s.attempts|
    && s.attempts[Latest(s.attempts, item.id)].notification in s.notes
  }

  function ApplyStatus(s: Stored, item: StatusItem): Stored
  {
    if !Addressed(s, item) then s
    else
      var i := Latest(s.attempts, item.id);
      var id := s.attempts[i].notification;
      var notes := match Target(s.notes[id].status, item.name)
        case Some(t) => s.notes[id := UpdateStatus(s.notes[id], t)]
        case None => s.notes;
      s.(notes := notes, attempts := s.attempts[i := AttemptAfter(s.attempts[i], item.name)])
  }

  // ---- one inbound message ----

  /**
   Names by id in the first n contacts: later ones with the same id replace earlier, those without an id are
   skipped.
   */
  function ContactsTo(cs: seq<Contact>, n: nat): map<string, Option<string>>
    requires n <= |cs|
  {
    if n == 0 then map[]
    else if cs[n - 1].waId != "" then ContactsTo(cs, n - 1)[cs[n - 1].waId := cs[n - 1].name]
    else ContactsTo(cs, n - 1)
  }

  function ContactMap(cs: seq<Contact>): map<string, Option<string>> { ContactsTo(cs, |cs|) }

  function SenderOf(contacts: map<string, Option<string>>, from: string): Option<string>
  {
    if from in contacts then contacts[from] else None
  }

  predicate Present(rows: seq<Inbound>, id: string)
  {
    exists i :: 0 <= i < |rows| && rows[i].messageId == id
  }

  function Row(m: Message, v: Value): Inbound
  {
    Inbound(m.id, m.from, v.phoneNumberId, SenderOf(ContactMap(v.contacts), m.from), m.kind, m.body)
  }

  function ApplyMessage(s: Stored, m: Message, v: Value): Stored
  {
    if m.id == "" || m.from == "" || Present(s.inbound, m.id) then s
    else s.(inbound := s.inbound + [Row(m, v)])
  }

  // ---- a whole payload, as the flat list of what it carries ----

  datatype Event = StatusEvent(item: StatusItem) | MessageEvent(msg: Message, value: Value)

  function StatusEvents(items: seq<StatusItem>): seq<Event>
  {
    seq(|items|, i requires 0 <= i < |items| => StatusEvent(items[i]))
  }

  function MessageEvents(ms: seq<Message>, v: Value): seq<Event>
  {
    seq(|ms|, i requires 0 <= i < |ms| => MessageEvent(ms[i], v))
  }

  /** Statuses first, then messages, of a change that is about messages. */
  function ChangeEvents(ch: Change): seq<Event>
  {
    if ch.field != "messages" then [] else StatusEvents(ch.value.statuses) + MessageEvents(ch.value.messages, ch.value)
  }

  /** What the first n changes of an entry carry. */
  function EntryEvents(chs: seq<Change>, n: nat): seq<Event>
    requires n <= |chs|
  {
    if n == 0 then [] else EntryEvents(chs, n - 1) + ChangeEvents(chs[n - 1])
  }

  /** What the first n entries carry. */
  function PayloadEvents(entries: seq<seq<Change>>, n: nat): seq<Event>
    requires n <= |entries|
  {
    if n == 0 then [] else PayloadEvents(entries, n - 1) + EntryEvents(entries[n - 1], |entries[n - 1]|)
  }

  function Carried(p: Payload): seq<Event>
  {
    if p.object_ != "whatsapp_business_account" then [] else PayloadEvents(p.entries, |p.entries|)
  }

  function Apply(s: Stored, e: Event): Stored
  {
    match e case StatusEvent(item) => ApplyStatus(s, item) case MessageEvent(m, v) => ApplyMessage(s, m, v)
  }

  /** The state after the first n events. */
  function ApplyTo(s: Stored, es: seq<Event>, n: nat): Stored
    requires n <= |es|
  {
    if n == 0 then s else Apply(ApplyTo(s, es, n - 1), es[n - 1])
  }

  function ApplyAll(s: Stored, es: seq<Event>): Stored { ApplyTo(s, es, |es|) }

  lemma {:induction false} ApplyPrefix(s: Stored, xs: seq<Event>, ys: seq<Event>, n: nat)
    requires n <= |xs|
    ensures ApplyTo(s, xs + ys, n) == ApplyTo(s, xs, n)
  {
    if n > 0 { ApplyPrefix(s, xs, ys, n - 1); }
  }

  lemma {:induction false} ApplyAppendTo(s: Stored, xs: seq<Event>, ys: seq<Event>, n: nat)
    requires n <= |ys|
    ensures ApplyTo(s, xs + ys, |xs| + n) == ApplyTo(ApplyAll(s, xs), ys, n)
  {
    if n == 0 { ApplyPrefix(s, xs, ys, |xs|); } else { ApplyAppendTo(s, xs, ys, n - 1); }
  }

  lemma ApplyAppend(s: Stored, xs: seq<Event>, ys: seq<Event>)
    ensures ApplyAll(s, xs + ys) == ApplyAll(ApplyAll(s, xs), ys)
  {
    ApplyAppendTo(s, xs, ys, |ys|);
  }

  /**
   The event counts as processed: a known status of a stored notification, or a message with id and sender, new or
   not.
   */
  predicate Counted(s: Stored, e: Event)
  {
    match e
    case StatusEvent(item) => Addressed(s, item) && Known(item.name)
    case MessageEvent(m, _) => m.id != "" && m.from != ""
  }

  datatype Tally = Tally(statuses: nat, messages: nat)

  function Plus(a: Tally, b: Tally): Tally { Tally(a.statuses + b.statuses, a.messages + b.messages) }

  function One(s: Stored, e: Event): Tally
  {
    if !Counted(s, e) then Tally(0, 0) else if e.StatusEvent? then Tally(1, 0) else Tally(0, 1)
  }

  /** What the first n events count. */
  function TallyTo(s: Stored, es: seq<Event>, n: nat): Tally
    requires n <= |es|
  {
    if n == 0 then Tally(0, 0) else Plus(TallyTo(s, es, n - 1), One(ApplyTo(s, es, n - 1), es[n - 1]))
  }

  function TallyOf(s: Stored, es: seq<Event>): Tally { TallyTo(s, es, |es|) }

  lemma {:induction false} TallyPrefix(s: Stored, xs: seq<Event>, ys: seq<Event>, n: nat)
    requires n <= |xs|
    ensures TallyTo(s, xs + ys, n) == TallyTo(s, xs, n)
  {
    if n > 0 {
      TallyPrefix(s, xs, ys, n - 1);
      ApplyPrefix(s, xs, ys, n - 1);
    }
  }

  lemma {:induction false} TallyAppendTo(s: Stored, xs: seq<Event>, ys: seq<Event>, n: nat)
    requires n <= |ys|
    ensures TallyTo(s, xs + ys, |xs| + n) == Plus(TallyOf(s, xs), TallyTo(ApplyAll(s, xs), ys, n))
  {
    if n == 0 {
      TallyPrefix(s, xs, ys, |xs|);
    } else {
      TallyAppendTo(s, xs, ys, n - 1);
      ApplyAppendTo(s, xs, ys, n - 1);
    }
  }

  lemma TallyAppend(s: Stored, xs: seq<Event>, ys: seq<Event>)
    ensures TallyOf(s, xs + ys) == Plus(TallyOf(s, xs), TallyOf(ApplyAll(s, xs), ys))
  {
    TallyAppendTo(s, xs, ys, |ys|);
  }

  /** The first n events of es lead from s to t and count m. */
  ghost predicate DoneTo(s: Stored, es: seq<Event>, n: nat, t: Stored, m: Tally)
    requires n <= |es|
  {
    t == ApplyTo(s, es, n) && m == TallyTo(s, es, n)
  }

  ghost predicate Done(s: Stored, es: seq<Event>, t: Stored, m: Tally) { DoneTo(s, es, |es|, t, m) }

  lemma DoneThen(s: Stored, xs: seq<Event>, t: Stored, m: Tally, ys: seq<Event>, u: Stored, n: Tally)
    requires Done(s, xs, t, m) && Done(t, ys, u, n)
    ensures Done(s, xs + ys, u, Plus(m, n))
  {
    ApplyAppend(s, xs, ys);
    TallyAppend(s, xs, ys);
  }

  // ---- the service ----

  class WebhookService {
    var db: Stored

    constructor (db: Stored)
      ensures this.db == db
    {
      this.db := db;
    }

    method ProcessStatus(item: StatusItem) returns (updated: bool)
      modifies this
      ensures db == ApplyStatus(old(db), item)
      ensures updated <==> Addressed(old(db), item) && Known(item.name)
    {
      if item.id == "" || item.name == NoName {
        return false;
      }
      var i := Latest(db.attempts, item.id);
      if i == |db.attempts| || db.attempts[i].notification !in db.notes {
        return false;
      }
      var attempt := db.attempts[i];
      var note := db.notes[attempt.notification];
      if item.name == NameDelivered {
        if note.status != Read {
          note := UpdateStatus(note, Delivered);
        }
        attempt := attempt.(status := Success);
        updated := true;
      } else if item.name == NameRead {
        note := UpdateStatus(note, Read);
        attempt := attempt.(status := Success);
        updated := true;
      } else if item.name == NameFailed {
        attempt := attempt.(status := AttemptFailed, retryable := false);
        note := UpdateStatus(note, Failed);
        updated := true;
      } else if item.name == NameSent {
        if note.status in {Processing, Queued, Created} {
          note := UpdateStatus(note, Sent);
        }
        updated := true;
      } else {
        updated := false;
      }
      db := db.(notes := db.notes[attempt.notification := note], attempts := db.attempts[i := attempt]);
    }

    method ProcessInbound(m: Message, v: Value, contacts: map<string, Option<string>>) returns (stored: bool)
      requires contacts == ContactMap(v.contacts)
      modifies this
      ensures db == ApplyMessage(old(db), m, v)
      ensures stored <==> m.id != "" && m.from != ""
    {
      if m.id == "" || m.from == "" {
        return false;
      }
      if !Present(db.inbound, m.id) {
        db := db.(inbound := db.inbound + [Row(m, v)]);
      }
      return true;
    }

    method ProcessStatuses(items: seq<StatusItem>) returns (n: Tally)
      modifies this
      ensures Done(old(db), StatusEvents(items), db, n)
    {
      n := Tally(0, 0);
      ghost var es := StatusEvents(items);
      var i := 0;
      while i < |items|
        invariant 0 <= i <= |items| && DoneTo(old(db), es, i, db, n)
      {
        var updated := ProcessStatus(items[i]);
        if updated { n := Plus(n, Tally(1, 0)); }
        i := i + 1;
      }
    }

    method MapContacts(cs: seq<Contact>) returns (contacts: map<string, Option<string>>)
      ensures contacts == ContactMap(cs)
    {
      contacts := map[];
      var i := 0;
      while i < |cs|
        invariant 0 <= i <= |cs| && contacts == ContactsTo(cs, i)
      {
        if cs[i].waId != "" {
          contacts := contacts[cs[i].waId := cs[i].name];
        }
        i := i + 1;
      }
    }

    method ProcessMessages(v: Value) returns (n: Tally)
      modifies this
      ensures Done(old(db), MessageEvents(v.messages, v), db, n)
    {
      n := Tally(0, 0);
      var contacts := MapContacts(v.contacts);
      ghost var es := MessageEvents(v.messages, v);
      var i := 0;
      while i < |v.messages|
        invariant 0 <= i <= |v.messages| && DoneTo(old(db), es, i, db, n)
      {
        var created := ProcessInbound(v.messages[i], v, contacts);
        if created { n := Plus(n, Tally(0, 1)); }
        i := i + 1;
      }
    }

    method ProcessChange(ch: Change) returns (n: Tally)
      modifies this
      ensures Done(old(db), ChangeEvents(ch), db, n)
    {
      n := Tally(0, 0);
      if ch.field == "messages" {
        var v := ch.value;
        var st := ProcessStatuses(v.statuses);
        ghost var between := db;
        var m := ProcessMessages(v);
        n := Plus(st, m);
        DoneThen(old(db), StatusEvents(v.statuses), between, st, MessageEvents(v.messages, v), db, m);
      }
    }

    method ProcessEntry(changes: seq<Change>) returns (n: Tally)
      modifies this
      ensures Done(old(db), EntryEvents(changes, |changes|), db, n)
    {
      n := Tally(0, 0);
      var i := 0;
      while i < |changes|
        invariant 0 <= i <= |changes| && Done(old(db), EntryEvents(changes, i), db, n)
      {
        ghost var before := db;
        var c := ProcessChange(changes[i]);
        DoneThen(old(db), EntryEvents(changes, i), before, n, ChangeEvents(changes[i]), db, c);
        n := Plus(n, c);
        i := i + 1;
      }
    }

    method ProcessEntries(entries: seq<seq<Change>>) returns (n: Tally)
      modifies this
      ensures Done(old(db), PayloadEvents(entries, |entries|), db, n)
    {
      n := Tally(0, 0);
      var i := 0;
      while i < |entries|
        invariant 0 <= i <= |entries| && Done(old(db), PayloadEvents(entries, i), db, n)
      {
        ghost var before := db;
        var m := ProcessEntry(entries[i]);
        DoneThen(old(db), PayloadEvents(entries, i), before, n, EntryEvents(entries[i], |entries[i]|), db, m);
        n := Plus(n, m);
        i := i + 1;
      }
    }

    /**
     The nested loops over entries, changes, statuses and messages apply exactly what the payload carries, in order.
     */
    method ProcessPayload(p: Payload) returns (n: Tally)
      modifies this
      ensures db == ApplyAll(old(db), Carried(p)) && n == TallyOf(old(db), Carried(p))
    {
      if p.object_ == "whatsapp_business_account" {
        n := ProcessEntries(p.entries);
      } else {
        n := Tally(0, 0);
      }
    }
  }
}
