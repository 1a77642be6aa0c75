/**
 A notification row with its append-only status history and its attempts, and the sending of one
 notification: the retry loop of the notification service.
 */
module Notification {
  import opened Basics
  import opened Backoff

  datatype Status = Created | Queued | Processing | Sent | Delivered | Read | Failed | Retrying | Cancelled

  /** One history entry; the first has no `from`. */
  datatype Transition = Transition(from: Option<Status>, to: Status)

  datatype Note = Note(status: Status, retryCount: nat, history: seq<Transition>)

  const NEW_NOTE := Note(Created, 0, [Transition(None, Created)])

  function UpdateStatus(n: Note, st: Status): Note
  {
    Note(st, n.retryCount, n.history + [Transition(Some(n.status), st)])
  }

  /** The history is a linked chain from nothing to the current status. */
  ghost predicate Chained(n: Note)
  {
    && n.history != [] && n.history[0] == Transition(None, Created)
    && (forall i :: 0 < i < |n.history| ==> n.history[i].from == Some(n.history[i - 1].to))
    && n.history[|n.history| - 1].to == n.status
  }

  lemma UpdateKeepsChain(n: Note, st: Status)
    requires Chained(n)
    ensures Chained(UpdateStatus(n, st)) && n.history <= UpdateStatus(n, st).history
  {
  }

  /** The sequence of statuses a note has been through. */
  function Trace(n: Note): seq<Status>
  {
    seq(|n.history|, i requires 0 <= i < |n.history| => n.history[i].to)
  }

  /** A chained history is determined by its trace: nothing in it is forged or missing. */
  lemma {:induction false} ChainFromTrace(n: Note, m: Note)
    requires Chained(n) && Chained(m) && Trace(n) == Trace(m)
    ensures n.history == m.history && n.status == m.status
  {
    assert |n.history| == |Trace(n)| == |Trace(m)| == |m.history|;
    forall i | 0 <= i < |n.history| ensures n.history[i] == m.history[i] {
      assert n.history[i].to == Trace(n)[i] == Trace(m)[i] == m.history[i].to;
      if i > 0 { assert n.history[i - 1].to == Trace(n)[i - 1] == Trace(m)[i - 1] == m.history[i - 1].to; }
    }
  }

  /** What a send does to its note: a transition, or one more retry counted. */
  datatype Update = ToStatus(st: Status) | CountRetry

  function Updated(n: Note, u: Update): Note
  {
    match u case ToStatus(st) => UpdateStatus(n, st) case CountRetry => n.(retryCount := n.retryCount + 1)
  }

  // ---- one delivery attempt ----

  datatype AttemptStatus = InProgress | Success | AttemptFailed

  datatype Attempt = Attempt(number: nat, status: AttemptStatus, messageId: Option<string>, retryable: bool)

  /** What the provider call produces; an exception counts as a retryable failure. */
  datatype Delivery = Accepted(messageId: string) | Refused(retryable: bool) | Raised

  function Retryable(d: Delivery): bool { d.Raised? || (d.Refused? && d.retryable) }

  /** Attempt n is the last one: it succeeded, must not be retried, or used up the retries. */
  predicate Ends(outcome: nat -> Delivery, retries: int, n: nat)
  {
    outcome(n).Accepted? || !Retryable(outcome(n)) || n > retries
  }

  /** Attempt row n as recorded after outcome d. */
  function Recorded(n: nat, d: Delivery): Attempt
  {
    match d
    case Accepted(id) => Attempt(n, Success, Some(id), true)
    case Refused(r) => Attempt(n, AttemptFailed, None, r)
    case Raised => Attempt(n, AttemptFailed, None, true)
  }

  datatype Settings = Settings(retries: int, delays: Delays)

  /** n is the number of attempts that the outcome stream leads to. */
  ghost predicate AttemptsMade(outcome: nat -> Delivery, retries: int, n: nat)
  {
    if retries < 0 then n == 0
    else 1 <= n <= retries + 1 && Ends(outcome, retries, n) && forall i :: 1 <= i < n ==> !Ends(outcome, retries, i)
  }

  /** The number of attempts is unique. */
  lemma AttemptsMadeUnique(outcome: nat -> Delivery, retries: int, m: nat, n: nat)
    requires AttemptsMade(outcome, retries, m) && AttemptsMade(outcome, retries, n)
    ensures m == n
  {
  }

  /** Which database writes of a send raise: some write before the call of attempt n, or some write after it. */
  datatype Writes = Writes(before: nat -> bool, after: nat -> bool)

  /** After the call of attempt i the loop gets as far as the call of the next. */
  predicate GoesOn(cfg: Settings, outcome: nat -> Delivery, w: Writes, i: nat)
  {
    !Ends(outcome, cfg.retries, i) && !w.after(i) && !w.before(i + 1)
  }

  /** A send makes n provider calls, and ends in an exception or not. */
  ghost predicate StopsAt(cfg: Settings, rendered: bool, outcome: nat -> Delivery, w: Writes, n: nat, raised: bool)
  {
    if w.before(1) then n == 0 && raised
    else if !rendered || cfg.retries < 0 then n == 0 && !raised
    else
      && 1 <= n <= cfg.retries + 1 && (forall i :: 1 <= i < n ==> GoesOn(cfg, outcome, w, i))
          && !GoesOn(cfg, outcome, w, n)
      && (raised <==> w.after(n) || (!Ends(outcome, cfg.retries, n) && w.before(n + 1)))
  }

  /** The outcomes and the writes determine the number of calls and whether the send raises. */
  lemma StopsOnce(cfg: Settings, rendered: bool, outcome: nat -> Delivery, w: Writes, n: nat, raised: bool, m: nat,
      raised': bool)
    requires StopsAt(cfg, rendered, outcome, w, n, raised) && StopsAt(cfg, rendered, outcome, w, m, raised')
    ensures n == m && raised == raised'
  {
  }

  class NotificationRecord {
    var note: Note
    var attempts: seq<Attempt>

    constructor ()
      ensures note == NEW_NOTE && attempts == [] && Chained(note)
    {
      note, attempts := NEW_NOTE, [];
    }

    method SetStatus(st: Status)
      requires Chained(note)
      modifies this`note
      ensures Chained(note) && note == Updated(old(note), ToStatus(st))
      ensures Trace(note) == Trace(old(note)) + [st]
    {
      note := UpdateStatus(note, st);
    }

    method IncrementRetry()
      requires Chained(note)
      modifies this`note
      ensures Chained(note) && note == Updated(old(note), CountRetry)
    {
      note := note.(retryCount := note.retryCount + 1);
    }

    method AddAttempt(number: nat)
      modifies this`attempts
      ensures attempts == old(attempts) + [Attempt(number, InProgress, None, true)]
    {
      attempts := attempts + [Attempt(number, InProgress, None, true)];
    }

    method RecordOutcome(number: nat, d: Delivery)
      requires attempts != [] && attempts[|attempts| - 1] == Attempt(number, InProgress, None, true)
      modifies this`attempts
      ensures attempts == old(attempts)[..|old(attempts)| - 1] + [Recorded(number, d)]
    {
      var last := attempts[|attempts| - 1];
      var done := match d
        case Accepted(id) => last.(status := Success, messageId := Some(id))
        case Refused(r) => last.(status := AttemptFailed, retryable := r)
        case Raised => last.(status := AttemptFailed, retryable := true);
      attempts := attempts[..|attempts| - 1] + [done];
    }
  }

  /** Statuses of a delivery with n attempts, before its last word. */
  function SendingTrace(n: nat): seq<Status>
  {
    [Created, Processing] + Repeat(Retrying, if n == 0 then 0 else n - 1)
  }

  lemma SendingTraceGrows(n: nat)
    requires n >= 1
    ensures SendingTrace(n + 1) == SendingTrace(n) + [Retrying]
  {
  }

  /** The outcome of a whole delivery, in terms of the outcome stream alone. */
  ghost predicate DeliveryOutcome(cfg: Settings, outcome: nat -> Delivery, n: nat, note: Note,
      attempts: seq<Attempt>, slept: int)
  {
    && AttemptsMade(outcome, cfg.retries, n)
    && |attempts| == n && (forall i :: 0 <= i < n ==> attempts[i] == Recorded(i + 1, outcome(i + 1)))
    && note.retryCount == (if n == 0 then 0 else n - 1)
    && slept == Total(cfg.delays, n)
    && Trace(note) == SendingTrace(n) + (if n == 0 then [] else if outcome(n).Accepted? then [Sent] else [Failed])
  }

  /** Inside the loop, about to make the given attempt. */
  ghost predicate AboutToTry(cfg: Settings, outcome: nat -> Delivery, attempt: nat, r: NotificationRecord, slept: int)
    reads r
  {
    && 1 <= attempt && (if cfg.retries < 0 then attempt == 1 else attempt <= cfg.retries + 1)
    && Chained(r.note) && |r.attempts| == attempt - 1 && r.note.retryCount == attempt - 1
    && (forall i :: 0 <= i < attempt - 1 ==> r.attempts[i] == Recorded(i + 1, outcome(i + 1)))
    && (forall i :: 1 <= i < attempt ==> !Ends(outcome, cfg.retries, i))
    && slept == Total(cfg.delays, attempt)
    && Trace(r.note) == SendingTrace(attempt) && r.note.status in {Processing, Retrying}
        && (attempt == 1 ==> r.note.status == Processing)
  }

  /** What is recorded of attempt n: the last attempt row holds its outcome. */
  ghost predicate JustRecorded(cfg: Settings, outcome: nat -> Delivery, n: nat, r: NotificationRecord, slept: int)
    reads r
  {
    && n >= 1 && Chained(r.note) && |r.attempts| == n && r.note.retryCount == n - 1
    && (forall i :: 0 <= i < n ==> r.attempts[i] == Recorded(i + 1, outcome(i + 1)))
    && (forall i :: 1 <= i < n ==> !Ends(outcome, cfg.retries, i))
    && slept == Total(cfg.delays, n)
    && Trace(r.note) == SendingTrace(n)
  }

  /** The provider is called and the outcome recorded on a new attempt row. */
  method CallAndRecord(cfg: Settings, outcome: nat -> Delivery, attempt: nat, r: NotificationRecord, ghost slept: int)
    requires cfg.retries >= 0 && AboutToTry(cfg, outcome, attempt, r, slept)
    modifies r`attempts
    ensures JustRecorded(cfg, outcome, attempt, r, slept)
  {
    r.AddAttempt(attempt);
    r.RecordOutcome(attempt, outcome(attempt));
  }

  /**
   One round of the loop: call the provider, record the outcome, and end or sleep before the next; a write may
   raise.
   */
  method TryOnce(cfg: Settings, outcome: nat -> Delivery, w: Writes, attempt: nat, r: NotificationRecord,
      ghost slept: int)
    returns (again: bool, delay: int, raised: bool)
    requires cfg.retries >= 0 && AboutToTry(cfg, outcome, attempt, r, slept)
    modifies r
    ensures raised <==> w.after(attempt)
    ensures !raised ==> (again <==> !Ends(outcome, cfg.retries, attempt))
    ensures !raised && again ==> attempt < cfg.retries + 1 && AboutToTry(cfg, outcome, attempt + 1, r, slept + delay)
    ensures !raised && !again ==> DeliveryOutcome(cfg, outcome, attempt, r.note, r.attempts, slept) && Chained(r.note)
    ensures !raised && !again ==> r.note.status == if outcome(attempt).Accepted? then Sent else Failed
  {
    again, delay, raised := false, 0, w.after(attempt);
    CallAndRecord(cfg, outcome, attempt, r, slept);
    if raised { return; }
    var result := outcome(attempt);
    if result.Accepted? {
      r.SetStatus(Sent);
    } else if Retryable(result) && attempt < cfg.retries + 1 {
      r.IncrementRetry();
      SendingTraceGrows(attempt);
      r.SetStatus(Retrying);
      again, delay := true, Before(cfg.delays, attempt + 1);
    } else {
      r.SetStatus(Failed);
    }
  }

  /**
   The retry loop, for every stream of provider outcomes and whichever database writes raise. Without an exception
   the attempts are numbered 1..n, all but the last are failed and retryable, and the status trace, the retry count
   and the sleeping follow from n.
   */
  method SendImpl(cfg: Settings, rendered: bool, outcome: nat -> Delivery, w: Writes)
    returns (r: NotificationRecord, n: nat, slept: int, raised: bool)
    ensures fresh(r)
    ensures StopsAt(cfg, rendered, outcome, w, n, raised)
    ensures !raised ==> Chained(r.note) && r.note.status in {Sent, Failed, Processing}
    ensures !raised && !rendered ==> r.attempts == [] && slept == 0 && Trace(r.note) == [Created, Processing, Failed]
    ensures !raised && rendered ==> DeliveryOutcome(cfg, outcome, n, r.note, r.attempts, slept)
    ensures !raised ==> (r.note.status == Sent <==> n > 0 && outcome(n).Accepted?)
  {
    r := new NotificationRecord();
    n, slept, raised := 0, 0, w.before(1);
    if raised { return; }
    assert Trace(r.note) == [Created];
    r.SetStatus(Processing);
    assert Trace(r.note) == SendingTrace(0) == SendingTrace(1);
    if !rendered {
      r.SetStatus(Failed);
      return;
    }
    while n < cfg.retries + 1
      modifies r
      invariant AboutToTry(cfg, outcome, n + 1, r, slept) && fresh(r) && !raised && !w.before(n + 1)
      invariant cfg.retries < 0 ==> n == 0
      invariant forall i :: 1 <= i < n + 1 ==> GoesOn(cfg, outcome, w, i)
      decreases cfg.retries - n
    {
      var again: bool, delay: int;
      n := n + 1;
      again, delay, raised := TryOnce(cfg, outcome, w, n, r, slept);
      if raised || !again { return; }
      slept := slept + delay;
      raised := w.before(n + 1);
      if raised { return; }
    }
  }

  /**
   Consequences of a delivery outcome for every stream. There are at most retries + 1 attempts, numbered from 1; all
   but the last are failed and retryable and carry no message id; the last carries the id that the provider gave, if
   it accepted. The statuses passed through and the sleeping are bounded as said.
   */
  lemma DeliveryLaws(cfg: Settings, outcome: nat -> Delivery, n: nat, note: Note, attempts: seq<Attempt>, slept: int)
    requires cfg.retries >= 0 && DeliveryOutcome(cfg, outcome, n, note, attempts, slept) && Chained(note)
    ensures 1 <= n <= cfg.retries + 1 && |attempts| == n && note.retryCount == n - 1
    ensures forall i :: 0 <= i < n ==> attempts[i].number == i + 1
    ensures forall i :: 0 <= i < n - 1 ==>
      attempts[i].status == AttemptFailed && attempts[i].retryable && attempts[i].messageId == None
    ensures attempts[n - 1].messageId == if outcome(n).Accepted? then Some(outcome(n).messageId) else None
    ensures attempts[n - 1].status == if outcome(n).Accepted? then Success else AttemptFailed
    ensures attempts[n - 1].retryable <==> outcome(n) != Refused(false)
    ensures note.status == if outcome(n).Accepted? then Sent else Failed
    ensures note.status == Failed ==> n == cfg.retries + 1 || outcome(n) == Refused(false)
    ensures slept <= cfg.delays.base * (Pow2(n) - 2) && slept <= (n - 1) * cfg.delays.cap
  {
    TotalBound(cfg.delays, n);
    var last := |note.history| - 1;
    assert Trace(note)[last] == note.status;
    forall i | 0 <= i < n - 1 ensures attempts[i].status == AttemptFailed && attempts[i].retryable
      && attempts[i].messageId == None {
      assert !Ends(outcome, cfg.retries, i + 1);
    }
  }

  /** The statuses in order: created, processing, a retry before each attempt but the first, and the result. */
  lemma TraceLaws(cfg: Settings, outcome: nat -> Delivery, n: nat, note: Note, attempts: seq<Attempt>, slept: int)
    requires cfg.retries >= 0 && DeliveryOutcome(cfg, outcome, n, note, attempts, slept)
    ensures |note.history| == n + 2 && note.history[0].to == Created && note.history[1].to == Processing
    ensures forall i :: 2 <= i < n + 1 ==> note.history[i].to == Retrying
    ensures note.history[n + 1].to == if outcome(n).Accepted? then Sent else Failed
  {
    var t := SendingTrace(n) + [if outcome(n).Accepted? then Sent else Failed];
    assert Trace(note) == t && |t| == n + 2;
    assert forall i :: 0 <= i < |note.history| ==> note.history[i].to == Trace(note)[i];
  }

  /** A send that makes no attempt, because no retries are allowed at all, stays PROCESSING. */
  lemma NoAttemptLaws(cfg: Settings, outcome: nat -> Delivery, n: nat, note: Note, attempts: seq<Attempt>, slept: int)
    requires cfg.retries < 0 && DeliveryOutcome(cfg, outcome, n, note, attempts, slept) && Chained(note)
    ensures n == 0 && attempts == [] && slept == 0 && note.status == Processing && note.retryCount == 0
  {
    assert Trace(note) == [Created, Processing];
    assert note.history[1].to == Trace(note)[1] == Processing;
  }

  /** How often the provider is called: on through passing failures, no further than retries + 1 or a failing write. */
  lemma CallLaws(cfg: Settings, rendered: bool, outcome: nat -> Delivery, w: Writes, n: nat, raised: bool)
    requires StopsAt(cfg, rendered, outcome, w, n, raised)
    ensures n == 0 <==> w.before(1) || !rendered || cfg.retries < 0
    ensures n <= Max(cfg.retries, 0) + 1
    ensures forall i :: 1 <= i < n ==> outcome(i) == Raised || outcome(i) == Refused(true)
    ensures forall i :: 1 <= i < n ==> !w.after(i) && !w.before(i + 1)
    ensures n > 0 && n <= cfg.retries && (outcome(n) == Raised || outcome(n) == Refused(true)) ==>
      raised && (w.after(n) || w.before(n + 1))
    ensures n > 0 && w.after(n) ==> raised
    ensures n > 0 && raised && !w.after(n) ==> w.before(n + 1) && n <= cfg.retries && !outcome(n).Accepted?
  {
    forall i | 1 <= i < n
        ensures (outcome(i) == Raised || outcome(i) == Refused(true)) && !w.after(i) && !w.before(i + 1) {
      assert GoesOn(cfg, outcome, w, i);
    }
  }
}
