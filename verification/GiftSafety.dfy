/**
 A gift's recipient gets one message on the phone. Once WhatsApp has accepted the gift message, no run of the
 recipient handler that begins afterwards asks for the SMS fallback while the claim lives, over every run of the
 delivery protocol with any sessions, rollbacks, crashes and redeliveries.
 */
module GiftSafety {
  import opened Basics
  import opened Delivery
  import opened ClaimSafety
  import V = SendService

  // ---- the recipient handler's program, as a position that the steps of its session move ----

  /** How far a session's run of the recipient handler has come with WhatsApp. */
  datatype Position =
    | NotAsked   // WhatsApp not tried yet, or no run in progress
    | Asked      // its WhatsApp send is in flight
    | Sent       // reported SENT: delivered by this run, or suppressed
    | NotSent    // reported otherwise, or raised

  /** Where step `a`, taken in state s, leaves session sid's run. */
  function Next(p: Position, s: State, sid: nat, a: Action, wa: string): Position
  {
    match a
    case Sending(x, op) => if x == sid then NextInSend(p, s, op, wa) else p
    case Receive(x, _) => if x == sid then NotAsked else p
    case Complete(x) => if x == sid then NotAsked else p
    case HandlerFails(x) => if x == sid then NotAsked else p
    case Crash(x) => if x == sid then NotAsked else p
    case _ => p
  }

  function NextInSend(p: Position, s: State, op: SendOp, wa: string): Position
  {
    match op
    case Ask(key) => if key != wa then p else if wa in s.claims then Sent else Asked
    case AskUnanswered(key) => if key != wa then p else Asked
    case AskAnswerLost(key) => if key != wa then p else Asked
    case Record => if p.Asked? then Sent else p
    case RecordRaises(_) => if p.Asked? then NotSent else p
    case Release(_) => if p.Asked? then NotSent else p
    case _ => p
  }

  /** Position after the given steps from s, for a run of the handler that begins after s. */
  function PositionAfter(c: Config, s: State, acts: seq<Action>, sid: nat, wa: string): Position
  {
    if acts == [] then NotAsked
    else
      var most, a := acts[..|acts| - 1], acts[|acts| - 1];
      match RunFrom(c, s, most)
      case None => NotAsked
      case Some(m) => Next(PositionAfter(c, s, most, sid, wa), m, sid, a, wa)
  }

  predicate AsksFor(a: Action, sid: nat, key: string)
  {
    a == Sending(sid, Ask(key)) || a == Sending(sid, AskUnanswered(key)) || a == Sending(sid, AskAnswerLost(key))
  }

  /** The program of session sid: WhatsApp first, and SMS only after WhatsApp was not sent. */
  ghost predicate Obeys(c: Config, s: State, acts: seq<Action>, sid: nat, wa: string, sms: string)
  {
    forall n :: 0 <= n < |acts| && AsksFor(acts[n], sid, sms) ==> PositionAfter(c, s, acts[..n], sid, wa).NotSent?
  }

  // ---- time and the log only grow ----

  lemma StepGrows(c: Config, s: State, a: Action, s': State)
    requires Step(c, s, a) == Some(s')
    ensures s.now <= s'.now && s.accepted <= s'.accepted
  {
    if a.Sending? { SendGrows(c, s, a.sid, a.op, s'); }
  }

  lemma SendGrows(c: Config, s: State, sid: nat, op: SendOp, s': State)
    requires SendStep(c, s, sid, op) == Some(s')
    ensures s.now == s'.now && s.accepted <= s'.accepted
  {
  }

  // ---- the claim keeps every later run silent ----

  /** While the claim of an accepted key lives, in any state that follows the acceptance, the key is claimed. */
  lemma StillClaimed(c: Config, s: State, k: nat)
    requires Timely(c) && FaultFree(c.faults) && Reachable(c, s)
    requires k < |s.accepted| && s.now < s.accepted[k].at + c.ttl
    ensures s.accepted[k].key in s.claims
  {
    var acts :| Run(c, acts) == Some(s);
    ClaimInvHolds(c, acts, s);
    assert AcceptedOk(c, s, s.accepted[k]);
  }

  /** One more step leaves a run of the handler where WhatsApp is not asked, or sent. */
  lemma SilentStep(c: Config, m: State, k: nat, a: Action, sid: nat, p: Position, wa: string)
    requires Timely(c) && FaultFree(c.faults) && Reachable(c, m) && Step(c, m, a).Some?
    requires k < |m.accepted| && m.accepted[k].key == wa && m.now < m.accepted[k].at + c.ttl
    requires p in {NotAsked, Sent}
    ensures Next(p, m, sid, a, wa) in {NotAsked, Sent}
  {
    StillClaimed(c, m, k);
  }

  lemma {:induction false} Silent(c: Config, s: State, k: nat, acts: seq<Action>, s': State, sid: nat, wa: string)
    requires Timely(c) && FaultFree(c.faults) && Reachable(c, s) && RunFrom(c, s, acts) == Some(s')
    requires k < |s.accepted| && s.accepted[k].key == wa && s'.now < s.accepted[k].at + c.ttl
    ensures PositionAfter(c, s, acts, sid, wa) in {NotAsked, Sent}
    ensures s.accepted <= s'.accepted && s.now <= s'.now
    decreases |acts|
  {
    if acts != [] {
      var most, a := acts[..|acts| - 1], acts[|acts| - 1];
      var m := RunFrom(c, s, most).value;
      StepGrows(c, m, a, s');
      Silent(c, s, k, most, m, sid, wa);
      ReachableOn(c, s, most, m);
      SilentStep(c, m, k, a, sid, PositionAfter(c, s, most, sid, wa), wa);
    }
  }

  lemma {:induction false} RunPrefix(c: Config, s: State, acts: seq<Action>, n: nat, s': State)
    requires RunFrom(c, s, acts) == Some(s') && n <= |acts|
    ensures RunFrom(c, s, acts[..n]).Some? && RunFrom(c, s, acts[..n]).value.now <= s'.now
    decreases |acts|
  {
    if n == |acts| {
      assert acts[..n] == acts;
    } else {
      var most, a := acts[..|acts| - 1], acts[|acts| - 1];
      assert most[..n] == acts[..n];
      RunPrefix(c, s, most, n, RunFrom(c, s, most).value);
      StepGrows(c, RunFrom(c, s, most).value, a, s');
    }
  }

  /**
   Once a key `wa` has been accepted, a session whose recipient handler begins afterwards never asks for the
   fallback `sms` while the claim lives, whatever all sessions do.
   */
  lemma NoFallbackAfterAcceptance(c: Config, s: State, k: nat, acts: seq<Action>, s': State, sid: nat, wa: string,
                                  sms: string)
    requires Timely(c) && FaultFree(c.faults) && Reachable(c, s) && RunFrom(c, s, acts) == Some(s')
    requires k < |s.accepted| && s.accepted[k].key == wa && s'.now < s.accepted[k].at + c.ttl
    requires Obeys(c, s, acts, sid, wa, sms)
    ensures forall n :: 0 <= n < |acts| ==> !AsksFor(acts[n], sid, sms)
  {
    forall n | 0 <= n < |acts| ensures !AsksFor(acts[n], sid, sms) {
      RunPrefix(c, s, acts, n, s');
      Silent(c, s, k, acts[..n], RunFrom(c, s, acts[..n]).value, sid, wa);
    }
  }

  /** No send for the key is in flight. */
  ghost predicate Idle(s: State, key: string) { forall t :: t in s.sends ==> s.sends[t].key != key }

  /** A step that asks for the key in no session starts no send for it, and nothing is accepted for it. */
  lemma IdleStep(c: Config, s: State, a: Action, s': State, key: string)
    requires Step(c, s, a) == Some(s') && Idle(s, key)
    requires a.Sending? ==> !AsksFor(a, a.sid, key)
    ensures Idle(s', key)
    ensures forall i :: |s.accepted| <= i < |s'.accepted| ==> s'.accepted[i].key != key
  {
    if a.Sending? { IdleSend(c, s, a.sid, a.op, s', key); }
  }

  lemma IdleSend(c: Config, s: State, sid: nat, op: SendOp, s': State, key: string)
    requires SendStep(c, s, sid, op) == Some(s') && Idle(s, key)
    requires op != Ask(key) && op != AskUnanswered(key) && op != AskAnswerLost(key)
    ensures Idle(s', key)
    ensures forall i :: |s.accepted| <= i < |s'.accepted| ==> s'.accepted[i].key != key
  {
  }

  lemma {:induction false} IdleRun(c: Config, s: State, acts: seq<Action>, s': State, key: string)
    requires RunFrom(c, s, acts) == Some(s') && Idle(s, key)
    requires forall n, sid :: 0 <= n < |acts| ==> !AsksFor(acts[n], sid, key)
    ensures Idle(s', key) && s.accepted <= s'.accepted
    ensures forall i :: |s.accepted| <= i < |s'.accepted| ==> s'.accepted[i].key != key
    decreases |acts|
  {
    if acts != [] {
      var most, a := acts[..|acts| - 1], acts[|acts| - 1];
      var m := RunFrom(c, s, most).value;
      assert forall n :: 0 <= n < |most| ==> most[n] == acts[n];
      IdleRun(c, s, most, m, key);
      if a.Sending? { assert !AsksFor(acts[|acts| - 1], a.sid, key); }
      IdleStep(c, m, a, s', key);
      StepGrows(c, m, a, s');
    }
  }

  /** When every session's run begins afterwards, the SMS provider accepts nothing, nor is it called. */
  lemma SmsStaysSilent(c: Config, s: State, k: nat, acts: seq<Action>, s': State, wa: string, sms: string)
    requires Timely(c) && FaultFree(c.faults) && Reachable(c, s) && RunFrom(c, s, acts) == Some(s')
    requires k < |s.accepted| && s.accepted[k].key == wa && s'.now < s.accepted[k].at + c.ttl
    requires Idle(s, sms) && forall sid :: Obeys(c, s, acts, sid, wa, sms)
    ensures Idle(s', sms)
    ensures forall i :: |s.accepted| <= i < |s'.accepted| ==> s'.accepted[i].key != sms
  {
    forall n, sid | 0 <= n < |acts| ensures !AsksFor(acts[n], sid, sms) {
      assert Obeys(c, s, acts, sid, wa, sms);
      NoFallbackAfterAcceptance(c, s, k, acts, s', sid, wa, sms);
    }
    IdleRun(c, s, acts, s', sms);
  }

  // ---- for gifts ----

  /**
   The gift: accepted on WhatsApp under event e, announced again under any other. No session that takes up the
   recipient afterwards asks for the SMS of the same voucher, under whatever event and address.
   */
  lemma GiftIsNotSentTwice(c: Config, s: State, k: nat, acts: seq<Action>, s': State, sid: nat,
                           e: string, e': string, voucher: string, phone: string, smsAddress: string)
    requires Timely(c) && FaultFree(c.faults) && Reachable(c, s) && RunFrom(c, s, acts) == Some(s')
    requires voucher != "" && k < |s.accepted| && s'.now < s.accepted[k].at + c.ttl
    requires s.accepted[k].key == V.DedupKey(V.WhatsAppRequest(e, voucher, phone))
    requires Obeys(c, s, acts, sid, V.DedupKey(V.WhatsAppRequest(e', voucher, phone)),
                   V.DedupKey(V.SmsRequest(e', voucher, smsAddress)))
    ensures forall n :: 0 <= n < |acts| ==> !AsksFor(acts[n], sid, V.DedupKey(V.SmsRequest(e', voucher, smsAddress)))
  {
    V.GiftKeyIgnoresEvent(e, e', voucher, phone);
    NoFallbackAfterAcceptance(c, s, k, acts, s', sid, V.DedupKey(V.WhatsAppRequest(e', voucher, phone)),
                              V.DedupKey(V.SmsRequest(e', voucher, smsAddress)));
  }

  /**
   The same for the handler as module SendService has it: in any reachable state after the acceptance, on the keys
   that are then claimed, it does not fall back.
   */
  lemma AcceptedGiftDoesNotFallBack(c: Config, s: State, k: nat, e: string, e': string, voucher: string,
                                    phone: string, wa: V.Leg, sms: V.Leg)
    requires Timely(c) && FaultFree(c.faults) && Reachable(c, s)
    requires voucher != "" && wa.ready && wa.world.asking.Answered? && k < |s.accepted|
        && s.now < s.accepted[k].at + c.ttl
    requires s.accepted[k].key == V.DedupKey(V.WhatsAppRequest(e, voucher, wa.address))
    ensures !V.FallsBack(s.claims.Keys, e', voucher, phone, wa, sms)
  {
    StillClaimed(c, s, k);
    V.RepublishedGiftIsSilent(s.claims.Keys, e, e', voucher, phone, wa, sms);
  }
}
