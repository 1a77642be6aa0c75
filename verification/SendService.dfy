/**
 `send` and its claim, one session at a time, and the voucher handler's fallback from WhatsApp to SMS.
 What other sessions may do in between is the subject of modules Delivery and ClaimSafety.
 */
module SendService {
  import opened Basics
  import opened Backoff
  import opened Notification

  datatype Channel = Sms | WhatsApp | Email

  function ChannelName(c: Channel): string
  {
    match c case Sms => "sms" case WhatsApp => "whatsapp" case Email => "email"
  }

  /** `template` and `bookingId` are empty when absent. */
  datatype Request = Request(eventId: string, channel: Channel, address: string, template: string, bookingId: string)

  // ---- dedup keys ----

  predicate ObjectScoped(template: string) { "voucher/" <= template || "gifts/" <= template }

  function Scope(r: Request): string
  {
    if r.bookingId != "" && ObjectScoped(r.template) then r.bookingId else r.eventId
  }

  function DedupKey(r: Request): string
  {
    "notif_sent:" + (r.template + ":" + (ChannelName(r.channel) + ":" + (r.address + ":" + Scope(r))))
  }

  /** Texts that agree after their first colon-free field agree on the field and on the rest. */
  lemma FieldUnique(f: string, g: string, s: string, t: string)
    requires ':' !in f && ':' !in g && f + ":" + s == g + ":" + t
    ensures f == g && s == t
  {
    var a, b := f + ":" + s, g + ":" + t;
    assert a[|f|] == ':' && b[|g|] == ':';
    assert forall i :: 0 <= i < |f| ==> a[i] == f[i] && f[i] != ':';
    assert forall i :: 0 <= i < |g| ==> b[i] == g[i] && g[i] != ':';
    assert a[..|f|] == f && b[..|g|] == g;
    assert a[|f| + 1..] == s && b[|g| + 1..] == t;
  }

  lemma ChannelNameUnique(c: Channel, d: Channel)
    ensures ':' !in ChannelName(c)
    ensures ChannelName(c) == ChannelName(d) ==> c == d
  {
    assert "sms"[0] == 's' && "whatsapp"[0] == 'w' && "email"[0] == 'e';
  }

  /** The address of q goes on after a colon where that of r ends, and the scope of r takes up the difference. */
  predicate Shifted(r: Request, q: Request)
  {
    r.address + ":" <= q.address && Scope(r) == q.address[|r.address| + 1..] + ":" + Scope(q)
  }

  lemma TailsCoincide(a: string, s: string, b: string, t: string)
    requires |a| < |b| && a + ":" + s == b + ":" + t
    ensures a + ":" <= b && s == b[|a| + 1..] + ":" + t
  {
    var u := a + ":" + s;
    assert u[..|a| + 1] == a + ":" && u[|a| + 1..] == s;
    assert u[..|a| + 1] == b[..|a| + 1] && u[|a| + 1..] == b[|a| + 1..] + ":" + t;
  }

  lemma ShiftedCoincide(r: Request, q: Request)
    requires Shifted(r, q)
    ensures r.address + ":" + Scope(r) == q.address + ":" + Scope(q)
  {
    assert q.address == r.address + ":" + q.address[|r.address| + 1..];
  }

  /** Address and scope together: equal texts, or one shifted against the other. */
  lemma TailsExactly(r: Request, q: Request)
    ensures r.address + ":" + Scope(r) == q.address + ":" + Scope(q) <==>
      (r.address == q.address && Scope(r) == Scope(q)) || Shifted(r, q) || Shifted(q, r)
  {
    if r.address + ":" + Scope(r) == q.address + ":" + Scope(q) {
      if |r.address| < |q.address| {
        TailsCoincide(r.address, Scope(r), q.address, Scope(q));
      } else if |q.address| < |r.address| {
        TailsCoincide(q.address, Scope(q), r.address, Scope(r));
      } else {
        var u, n := r.address + ":" + Scope(r), |r.address|;
        assert u[..n] == r.address && u[..n] == q.address && u[n + 1..] == Scope(r) && u[n + 1..] == Scope(q);
      }
    } else {
      if Shifted(r, q) { ShiftedCoincide(r, q); }
      if Shifted(q, r) { ShiftedCoincide(q, r); }
    }
  }

  /**
   When two keys of colon-free templates coincide: exactly for equal templates and channels, and equal or shifted
   addresses and scopes.
   */
  lemma KeysCoincideExactly(r: Request, q: Request)
    requires ':' !in r.template && ':' !in q.template
    ensures DedupKey(r) == DedupKey(q) <==>
      && r.template == q.template && r.channel == q.channel
      && ((r.address == q.address && Scope(r) == Scope(q)) || Shifted(r, q) || Shifted(q, r))
  {
    var p := "notif_sent:";
    var rt, qt := r.address + ":" + Scope(r), q.address + ":" + Scope(q);
    var r1, q1 := ChannelName(r.channel) + ":" + rt, ChannelName(q.channel) + ":" + qt;
    assert rt == r.address + (":" + Scope(r)) && qt == q.address + (":" + Scope(q));
    assert DedupKey(r) == p + (r.template + ":" + r1) && DedupKey(q) == p + (q.template + ":" + q1) by {
      KeyOf(r);
      KeyOf(q);
    }
    TailsExactly(r, q);
    if DedupKey(r) == DedupKey(q) {
      assert (p + (r.template + ":" + r1))[|p|..] == r.template + ":" + r1;
      assert (p + (q.template + ":" + q1))[|p|..] == q.template + ":" + q1;
      FieldUnique(r.template, q.template, r1, q1);
      ChannelNameUnique(r.channel, q.channel);
      ChannelNameUnique(q.channel, r.channel);
      FieldUnique(ChannelName(r.channel), ChannelName(q.channel), rt, qt);
    }
  }

  lemma KeyOf(r: Request)
    ensures DedupKey(r) == "notif_sent:"
        + (r.template + ":" + (ChannelName(r.channel) + ":" + (r.address + ":" + Scope(r))))
  {
  }

  /** So a key stands for one send as soon as both addresses, or both scopes, are free of colons. */
  lemma KeyIdentifiesSend(r: Request, q: Request)
    requires ':' !in r.template && ':' !in q.template
    requires (':' !in r.address && ':' !in q.address) || (':' !in Scope(r) && ':' !in Scope(q))
    ensures DedupKey(r) == DedupKey(q) <==>
      r.template == q.template && r.channel == q.channel && r.address == q.address && Scope(r) == Scope(q)
  {
    KeysCoincideExactly(r, q);
    ShiftedHasColons(r, q);
    ShiftedHasColons(q, r);
  }

  lemma ShiftedHasColons(r: Request, q: Request)
    ensures Shifted(r, q) ==> ':' in q.address && ':' in Scope(r)
  {
    if Shifted(r, q) {
      assert q.address[|r.address|] == (r.address + ":")[|r.address|] == ':';
      var rest := q.address[|r.address| + 1..];
      assert Scope(r)[|rest|] == ':';
    }
  }

  /** Two gift messages with one key: the colon is not escaped, and voucher ids and addresses are any texts. */
  lemma KeysCanCollide(e: string, e': string, address: string, x: string, voucher: string)
    requires voucher != ""
    ensures var r := WhatsAppRequest(e, x + ":" + voucher, address);
      var q := WhatsAppRequest(e', voucher, address + ":" + x);
      r.address != q.address && Scope(r) != Scope(q) && DedupKey(r) == DedupKey(q)
  {
    var r, q := WhatsAppRequest(e, x + ":" + voucher, address), WhatsAppRequest(e', voucher, address + ":" + x);
    assert |Scope(r)| == |x| + 1 + |voucher| > |Scope(q)| && |q.address| > |r.address|;
    assert q.address[|address| + 1..] == x;
    assert Shifted(r, q);
    TemplatesAreClean();
    KeysCoincideExactly(r, q);
  }

  /** Texts that agree before their last colon-free field agree on it and on what comes before. */
  lemma LastFieldUnique(a: string, b: string, s: string, t: string)
    requires ':' !in s && ':' !in t && a + ":" + s == b + ":" + t
    ensures a == b && s == t
  {
    var u, v := a + ":" + s, b + ":" + t;
    assert u[|a|] == ':' && v[|b|] == ':';
    assert forall i :: |a| < i < |u| ==> u[i] == s[i - |a| - 1] && u[i] != ':';
    assert forall i :: |b| < i < |v| ==> v[i] == t[i - |b| - 1] && v[i] != ':';
    assert u[..|a|] == a && v[..|b|] == b && u[|a| + 1..] == s && v[|b| + 1..] == t;
  }

  /** What a key says besides its scope. */
  function Prefix(r: Request): string
  {
    "notif_sent:" + (r.template + ":" + (ChannelName(r.channel) + ":" + r.address))
  }

  lemma KeyEndsInScope(r: Request)
    ensures DedupKey(r) == Prefix(r) + ":" + Scope(r)
  {
    var tail := ":" + Scope(r);
    assert r.address + ":" + Scope(r) == r.address + tail;
    assert ChannelName(r.channel) + ":" + (r.address + tail) == (ChannelName(r.channel) + ":" + r.address) + tail;
    assert r.template + ":" + ((ChannelName(r.channel) + ":" + r.address) + tail)
        == (r.template + ":" + (ChannelName(r.channel) + ":" + r.address)) + tail;
    assert Prefix(r) + ":" + Scope(r) == Prefix(r) + tail;
  }

  lemma ScopesUnique(r: Request, q: Request)
    requires ':' !in Scope(r) && ':' !in Scope(q) && DedupKey(r) == DedupKey(q)
    ensures Scope(r) == Scope(q)
  {
    KeyEndsInScope(r);
    KeyEndsInScope(q);
    LastFieldUnique(Prefix(r), Prefix(q), Scope(r), Scope(q));
  }

  /** Of a voucher or a gift, and not of a single event. */
  predicate OfObject(r: Request) { r.bookingId != "" && ("voucher/" <= r.template || "gifts/" <= r.template) }

  /** Messages of different events never suppress each other, unless they are about a voucher or a gift. */
  lemma EventsKeepApart(r: Request, q: Request)
    requires !OfObject(r) && !OfObject(q) && ':' !in r.eventId && ':' !in q.eventId && r.eventId != q.eventId
    ensures DedupKey(r) != DedupKey(q)
  {
    if DedupKey(r) == DedupKey(q) { ScopesUnique(r, q); }
  }

  /** The same message about a voucher or a gift has one key under every event. */
  lemma ObjectsShareAKey(r: Request, eventId: string)
    requires OfObject(r)
    ensures DedupKey(r.(eventId := eventId)) == DedupKey(r)
  {
  }

  /** Messages about different vouchers or gifts never suppress each other. */
  lemma ObjectsKeepApart(r: Request, q: Request)
    requires OfObject(r) && OfObject(q) && ':' !in r.bookingId && ':' !in q.bookingId && r.bookingId != q.bookingId
    ensures DedupKey(r) != DedupKey(q)
  {
    if DedupKey(r) == DedupKey(q) { ScopesUnique(r, q); }
  }

  // ---- claim store ----

  /** What becomes of asking for a claim: an answer, nothing, or the key taken with the answer lost on the way. */
  datatype Asking = Answered | NotReached | AnswerLost

  class ClaimStore {
    var keys: set<string>

    constructor ()
      ensures keys == {}
    {
      keys := {};
    }

    /** SET NX: true when the key was free; None for any exception, which does not say whether the key is taken. */
    method Claim(key: string, asking: Asking) returns (r: Option<bool>)
      modifies this
      ensures r == if asking.Answered? then Some(key !in old(keys)) else None
      ensures keys == if asking.NotReached? then old(keys) else old(keys) + {key}
    {
      if asking.NotReached? { return None; }
      r := if asking.Answered? then Some(key !in keys) else None;
      keys := keys + {key};
    }

    method Delete(key: string, up: bool)
      modifies this
      ensures keys == if up then old(keys) - {key} else old(keys)
    {
      if up { keys := keys - {key}; }
    }
  }

  /**
   Circumstances of one send: settings, claim store and release answers, rendering, provider outcomes, failing
   writes.
   */
  datatype World = World(cfg: Settings, emailOff: bool, asking: Asking, releaseUp: bool, rendered: bool,
                         outcome: nat -> Delivery, writes: Writes)

  /** The send returns SENT after a provider call: the last call was accepted and no write raised. */
  ghost predicate Delivers(w: World)
  {
    exists n :: n > 0 && StopsAt(w.cfg, w.rendered, w.outcome, w.writes, n, false) && w.outcome(n).Accepted?
  }

  /** The send gets as far as a provider call. */
  predicate Calls(w: World) { w.rendered && w.cfg.retries >= 0 && !w.writes.before(1) }

  /** A send that was not suppressed leaves the key claimed. */
  ghost predicate KeepsClaim(w: World)
  {
    w.asking.AnswerLost? || (w.asking.Answered? && (Delivers(w) || !w.releaseUp))
  }

  class NotificationService {
    const store: ClaimStore

    constructor (store: ClaimStore)
      ensures this.store == store
    {
      this.store := store;
    }

    /**
     Returns the status that the caller sees, None for an exception, and the number of provider calls. A key already
     claimed means no call and SENT. Otherwise a claim that was confirmed stays exactly when the message was delivered
     (or the release got no answer), and an exception releases it, even one raised after an acceptance; a claim that
     was taken without an answer stays in any case.
     */
    method Send(req: Request, w: World) returns (status: Option<Status>, calls: nat)
      modifies store
      ensures req.channel == Email && w.emailOff ==>
        status == Some(Cancelled) && calls == 0 && store.keys == old(store.keys)
      ensures !(req.channel == Email && w.emailOff) ==>
        if w.asking.Answered? && DedupKey(req) in old(store.keys) then
          status == Some(Sent) && calls == 0 && store.keys == old(store.keys)
        else
          && (status == Some(Sent) <==> Delivers(w)) && status != Some(Delivered)
          && StopsAt(w.cfg, w.rendered, w.outcome, w.writes, calls, status == None)
          && store.keys == (if KeepsClaim(w) then old(store.keys) + {DedupKey(req)} else old(store.keys))
    {
      if req.channel == Email && w.emailOff {
        return Some(Cancelled), 0;
      }
      var key := DedupKey(req);
      var claimed := store.Claim(key, w.asking);
      if claimed == Some(false) {
        return Some(Sent), 0;
      }
      var r, n, _, raised := SendImpl(w.cfg, w.rendered, w.outcome, w.writes);
      status, calls := if raised then None else Some(r.note.status), n;
      DeliversWhen(w, n, raised);
      if claimed == Some(true) && (raised || r.note.status !in {Sent, Delivered}) {
        store.Delete(key, w.releaseUp);
        assert old(store.keys) + {key} - {key} == old(store.keys);
      }
    }
  }

  lemma DeliversWhen(w: World, n: nat, raised: bool)
    requires StopsAt(w.cfg, w.rendered, w.outcome, w.writes, n, raised)
    ensures Delivers(w) <==> !raised && n > 0 && w.outcome(n).Accepted?
    ensures n > 0 <==> Calls(w)
  {
    if Delivers(w) {
      var m :| m > 0 && StopsAt(w.cfg, w.rendered, w.outcome, w.writes, m, false) && w.outcome(m).Accepted?;
      StopsOnce(w.cfg, w.rendered, w.outcome, w.writes, n, raised, m, false);
    }
  }

  /** Attempt i fails in passing: the provider raises, or refuses and may be asked again; and no write raises. */
  predicate PassesOn(w: World, i: nat)
  {
    (w.outcome(i) == Raised || w.outcome(i) == Refused(true)) && !w.writes.after(i) && !w.writes.before(i + 1)
  }

  /** Attempt n is accepted and recorded, after nothing but passing failures. */
  predicate AcceptedAt(w: World, n: nat)
  {
    w.outcome(n).Accepted? && !w.writes.after(n) && forall i :: 1 <= i < n ==> PassesOn(w, i)
  }

  /** When a send delivers: it renders, no write before the first call raises, and one of retries + 1 is accepted. */
  lemma DeliversExactly(w: World)
    ensures Delivers(w) <==>
      w.rendered && !w.writes.before(1) && exists n :: 1 <= n <= w.cfg.retries + 1 && AcceptedAt(w, n)
  {
    if Delivers(w) {
      var n :| n > 0 && StopsAt(w.cfg, w.rendered, w.outcome, w.writes, n, false) && w.outcome(n).Accepted?;
      forall i | 1 <= i < n ensures PassesOn(w, i) { assert GoesOn(w.cfg, w.outcome, w.writes, i); }
      assert AcceptedAt(w, n);
    } else if w.rendered && !w.writes.before(1) {
      forall n | 1 <= n <= w.cfg.retries + 1 ensures !AcceptedAt(w, n) {
        if AcceptedAt(w, n) { AcceptedDelivers(w, n); }
      }
    }
  }

  lemma AcceptedDelivers(w: World, n: nat)
    requires w.rendered && !w.writes.before(1) && 1 <= n <= w.cfg.retries + 1 && AcceptedAt(w, n)
    ensures Delivers(w)
  {
    forall i | 1 <= i < n ensures GoesOn(w.cfg, w.outcome, w.writes, i) { assert PassesOn(w, i); }
    assert StopsAt(w.cfg, w.rendered, w.outcome, w.writes, n, false);
  }

  /** A write that fails after the acceptance costs the delivery its claim, so that the message can go out again. */
  lemma LateFailureIsNoDelivery(w: World, n: nat)
    requires StopsAt(w.cfg, w.rendered, w.outcome, w.writes, n, true)
    ensures !Delivers(w)
  {
    DeliversWhen(w, n, true);
  }

  // ---- voucher recipient: WhatsApp, else SMS; then email ----

  /**
   A channel's part of the recipient handler: whether its message builds and its address resolves, and the world it
   meets.
   */
  datatype Leg = Leg(ready: bool, address: string, world: World)

  const WHATSAPP_TEMPLATE := "voucher/active_recipient_whatsapp"
  const SMS_TEMPLATE := "voucher/active_recipient_sms"
  const EMAIL_TEMPLATE := "voucher/active_recipient_email"

  function WhatsAppRequest(eventId: string, voucher: string, address: string): Request
  {
    Request(eventId, WhatsApp, address, WHATSAPP_TEMPLATE, voucher)
  }

  function SmsRequest(eventId: string, voucher: string, address: string): Request
  {
    Request(eventId, Sms, address, SMS_TEMPLATE, voucher)
  }

  function EmailRequest(eventId: string, voucher: string, address: string): Request
  {
    Request(eventId, Email, address, EMAIL_TEMPLATE, voucher)
  }

  function Digits(s: string): string
  {
    if s == "" then "" else (if '0' <= s[0] <= '9' then [s[0]] else []) + Digits(s[1..])
  }

  /** The markers that keep other handlers from welcoming the recipient again. */
  function Notified(phone: string): string { "voucher_recipient_notified:" + Digits(phone) }

  function Pending(phone: string): string { "voucher_recipient_pending:" + Digits(phone) }

  /** The markers live under other prefixes than the claims, and than each other. */
  lemma MarkersAreNotClaims(r: Request, phone: string)
    ensures Notified(phone) != DedupKey(r) && Pending(phone) != DedupKey(r) && Notified(phone) != Pending(phone)
  {
    assert Notified(phone)[0] == 'v' && Pending(phone)[0] == 'v' && DedupKey(r)[0] == 'n';
    assert Notified(phone)[18] == 'n' && Pending(phone)[18] == 'p';
  }

  /** For a gift, the claim depends on the voucher and the recipient, not on the event that announces it. */
  lemma GiftKeyIgnoresEvent(e: string, e': string, voucher: string, address: string)
    requires voucher != ""
    ensures DedupKey(WhatsAppRequest(e, voucher, address)) == DedupKey(WhatsAppRequest(e', voucher, address))
  {
  }

  /** So do the keys of its SMS and its email. */
  lemma FallbackKeysIgnoreEvent(e: string, e': string, voucher: string, address: string)
    requires voucher != ""
    ensures DedupKey(SmsRequest(e, voucher, address)) == DedupKey(SmsRequest(e', voucher, address))
    ensures DedupKey(EmailRequest(e, voucher, address)) == DedupKey(EmailRequest(e', voucher, address))
  {
    ObjectsShareAKey(SmsRequest(e, voucher, address), e');
    ObjectsShareAKey(EmailRequest(e, voucher, address), e');
  }

  /** The markers go by the digits of the phone alone, in order. */
  lemma {:induction false} DigitsInOrder(a: string, b: string)
    ensures Digits(a + b) == Digits(a) + Digits(b)
    ensures forall c: char :: Digits([c]) == if 48 <= c as int <= 57 then [c] else ""
  {
    if a == "" {
      assert a + b == b;
    } else {
      assert (a + b)[1..] == a[1..] + b;
      DigitsInOrder(a[1..], b);
    }
  }

  /** The send returns SENT: delivered now, or claimed before. */
  ghost predicate ReportsSent(keys: set<string>, r: Request, w: World)
  {
    (w.asking.Answered? && DedupKey(r) in keys) || Delivers(w)
  }

  lemma TemplatesSeparateKeys(r: Request, q: Request)
    requires ':' !in r.template && ':' !in q.template && r.template != q.template
    ensures DedupKey(r) != DedupKey(q)
  {
    var p := "notif_sent:";
    var r1, q1 := ChannelName(r.channel) + ":" + (r.address + ":" + Scope(r)),
        ChannelName(q.channel) + ":" + (q.address + ":" + Scope(q));
    assert DedupKey(r)[|p|..] == r.template + ":" + r1 && DedupKey(q)[|p|..] == q.template + ":" + q1;
    if DedupKey(r) == DedupKey(q) {
      FieldUnique(r.template, q.template, r1, q1);
    }
  }

  lemma ChannelsHaveTheirOwnKeys(e: string, voucher: string, wa: string, sms: string, mail: string)
    ensures DedupKey(WhatsAppRequest(e, voucher, wa)) != DedupKey(SmsRequest(e, voucher, sms))
    ensures DedupKey(WhatsAppRequest(e, voucher, wa)) != DedupKey(EmailRequest(e, voucher, mail))
    ensures DedupKey(SmsRequest(e, voucher, sms)) != DedupKey(EmailRequest(e, voucher, mail))
  {
    TemplatesAreClean();
    TemplatesSeparateKeys(WhatsAppRequest(e, voucher, wa), SmsRequest(e, voucher, sms));
    TemplatesSeparateKeys(WhatsAppRequest(e, voucher, wa), EmailRequest(e, voucher, mail));
    TemplatesSeparateKeys(SmsRequest(e, voucher, sms), EmailRequest(e, voucher, mail));
  }

  lemma TemplatesAreClean()
    ensures ':' !in WHATSAPP_TEMPLATE && ':' !in SMS_TEMPLATE && ':' !in EMAIL_TEMPLATE
    ensures WHATSAPP_TEMPLATE != SMS_TEMPLATE && WHATSAPP_TEMPLATE != EMAIL_TEMPLATE && SMS_TEMPLATE != EMAIL_TEMPLATE
  {
    assert |WHATSAPP_TEMPLATE| == 33 && |SMS_TEMPLATE| == 28 && |EMAIL_TEMPLATE| == 30;
  }

  /**
   When the recipient's SMS provider is to be called: WhatsApp reports nothing sent and the SMS is neither claimed
   nor unsendable.
   */
  ghost predicate FallsBack(keys: set<string>, eventId: string, voucher: string, phone: string, wa: Leg, sms: Leg)
  {
    && phone != ""
    && !(wa.ready && ReportsSent(keys, WhatsAppRequest(eventId, voucher, wa.address), wa.world))
    && sms.ready && Calls(sms.world)
    && !(sms.world.asking.Answered? && DedupKey(SmsRequest(eventId, voucher, sms.address)) in keys)
  }

  /** A recipient whom WhatsApp cannot reach does get the SMS, as long as it has not gone out before. */
  lemma UnreachedFallsBack(keys: set<string>, e: string, voucher: string, phone: string, wa: Leg, sms: Leg)
    requires phone != "" && sms.ready && sms.world.rendered && sms.world.cfg.retries >= 0 && !sms.world.writes.before(1)
    requires DedupKey(SmsRequest(e, voucher, sms.address)) !in keys
    requires !wa.ready || (DedupKey(WhatsAppRequest(e, voucher, wa.address)) !in keys
      && forall n :: 1 <= n <= wa.world.cfg.retries + 1 ==> !wa.world.outcome(n).Accepted?)
    ensures FallsBack(keys, e, voucher, phone, wa, sms)
  {
    DeliversExactly(wa.world);
  }

  /** And none who has got it on WhatsApp, who has no phone, or whose SMS has gone out before. */
  lemma ReachedDoesNotFallBack(keys: set<string>, e: string, voucher: string, phone: string, wa: Leg, sms: Leg)
    requires phone == "" || (wa.ready && wa.world.rendered && !wa.world.writes.before(1)
        && 0 <= wa.world.cfg.retries && wa.world.outcome(1).Accepted? && !wa.world.writes.after(1))
      || (sms.world.asking.Answered? && DedupKey(SmsRequest(e, voucher, sms.address)) in keys)
    ensures !FallsBack(keys, e, voucher, phone, wa, sms)
  {
    if wa.ready && wa.world.rendered && !wa.world.writes.before(1) && 0 <= wa.world.cfg.retries
      && wa.world.outcome(1).Accepted? && !wa.world.writes.after(1) {
      AcceptedDelivers(wa.world, 1);
    }
  }

  /** When the recipient's mail provider is to be called, whatever happened on the phone. */
  ghost predicate Mails(keys: set<string>, eventId: string, voucher: string, hasEmail: bool, mail: Leg)
  {
    && hasEmail && mail.ready && !mail.world.emailOff && Calls(mail.world)
    && !(mail.world.asking.Answered? && DedupKey(EmailRequest(eventId, voucher, mail.address)) in keys)
  }

  /** A recipient with an email address is written to, whatever happens on the phone, but only once. */
  lemma MailGoesOut(keys: set<string>, e: string, voucher: string, mail: Leg)
    requires mail.ready && mail.world.rendered && mail.world.cfg.retries >= 0 && !mail.world.writes.before(1)
    requires !mail.world.emailOff && mail.world.asking == Answered
    ensures Mails(keys, e, voucher, true, mail) <==> DedupKey(EmailRequest(e, voucher, mail.address)) !in keys
    ensures !Mails(keys, e, voucher, false, mail)
  {
  }

  /** The keys that telling the recipient on the phone may touch. */
  function PhoneKeys(eventId: string, voucher: string, phone: string, wa: Leg, sms: Leg): set<string>
  {
    {DedupKey(WhatsAppRequest(eventId, voucher, wa.address)), DedupKey(SmsRequest(eventId, voucher, sms.address)),
     Notified(phone), Pending(phone)}
  }

  lemma MailKeyIsForeign(eventId: string, voucher: string, phone: string, wa: Leg, sms: Leg, mail: Leg)
    ensures DedupKey(EmailRequest(eventId, voucher, mail.address)) !in PhoneKeys(eventId, voucher, phone, wa, sms)
  {
    ChannelsHaveTheirOwnKeys(eventId, voucher, wa.address, sms.address, mail.address);
    MarkersAreNotClaims(EmailRequest(eventId, voucher, mail.address), phone);
  }

  /**
   Tells a gift's recipient; a send that raises counts as not sent. The SMS provider is called exactly when WhatsApp
   neither delivers in this run nor was claimed before it, the mail provider independently of both; a delivered
   WhatsApp message leaves its claim behind; and no other key of the store changes.
   */
  method NotifyRecipient(service: NotificationService, eventId: string, voucher: string, phone: string, hasEmail: bool,
                         wa: Leg, sms: Leg, mail: Leg, markersUp: bool)
    returns (waCalls: nat, smsCalls: nat, mailCalls: nat)
    modifies service.store
    ensures smsCalls > 0 <==> FallsBack(old(service.store.keys), eventId, voucher, phone, wa, sms)
    ensures mailCalls > 0 <==> Mails(old(service.store.keys), eventId, voucher, hasEmail, mail)
    ensures waCalls > 0 <==> (
      && phone != "" && wa.ready && Calls(wa.world)
      && !(wa.world.asking.Answered?
           && DedupKey(WhatsAppRequest(eventId, voucher, wa.address)) in old(service.store.keys)))
    ensures var k := DedupKey(WhatsAppRequest(eventId, voucher, wa.address));
      var kept := phone != "" && wa.ready && !wa.world.asking.NotReached? && Delivers(wa.world);
      k in old(service.store.keys) || kept ==> k in service.store.keys
    ensures var mine := PhoneKeys(eventId, voucher, phone, wa, sms)
        + {DedupKey(EmailRequest(eventId, voucher, mail.address))};
      forall k :: k !in mine ==> (k in service.store.keys <==> k in old(service.store.keys))
    ensures Digits(phone) != "" && markersUp ==>
      Notified(phone) in service.store.keys && Pending(phone) !in service.store.keys
  {
    waCalls, smsCalls, mailCalls := 0, 0, 0;
    MailKeyIsForeign(eventId, voucher, phone, wa, sms, mail);
    if phone != "" {
      waCalls, smsCalls := NotifyPhone(service, eventId, voucher, phone, wa, sms, markersUp);
    }
    mailCalls := NotifyByMail(service, eventId, voucher, hasEmail, mail);
  }

  /** Email, if there is an address. */
  method NotifyByMail(service: NotificationService, eventId: string, voucher: string, hasEmail: bool, mail: Leg)
    returns (mailCalls: nat)
    modifies service.store
    ensures mailCalls > 0 <==> Mails(old(service.store.keys), eventId, voucher, hasEmail, mail)
    ensures forall k :: k != DedupKey(EmailRequest(eventId, voucher, mail.address)) ==>
      (k in service.store.keys <==> k in old(service.store.keys))
  {
    mailCalls := 0;
    if hasEmail && mail.ready {
      var _, n := service.Send(EmailRequest(eventId, voucher, mail.address), mail.world);
      mailCalls := n;
    }
  }

  /** WhatsApp, else SMS; then the markers. */
  method NotifyPhone(service: NotificationService, eventId: string, voucher: string, phone: string, wa: Leg,
      sms: Leg, markersUp: bool)
    returns (waCalls: nat, smsCalls: nat)
    requires phone != ""
    modifies service.store
    ensures smsCalls > 0 <==> FallsBack(old(service.store.keys), eventId, voucher, phone, wa, sms)
    ensures waCalls > 0 <==> (
      && phone != "" && wa.ready && Calls(wa.world)
      && !(wa.world.asking.Answered?
           && DedupKey(WhatsAppRequest(eventId, voucher, wa.address)) in old(service.store.keys)))
    ensures var k := DedupKey(WhatsAppRequest(eventId, voucher, wa.address));
      k in old(service.store.keys) || (wa.ready && !wa.world.asking.NotReached? && Delivers(wa.world)) ==>
        k in service.store.keys
    ensures forall k :: k !in PhoneKeys(eventId, voucher, phone, wa, sms) ==>
      (k in service.store.keys <==> k in old(service.store.keys))
    ensures Digits(phone) != "" && markersUp ==>
      Notified(phone) in service.store.keys && Pending(phone) !in service.store.keys
  {
    waCalls, smsCalls := 0, 0;
    ChannelsHaveTheirOwnKeys(eventId, voucher, wa.address, sms.address, "");
    var sent := false;
    if wa.ready {
      var status: Option<Status>;
      status, waCalls := service.Send(WhatsAppRequest(eventId, voucher, wa.address), wa.world);
      sent := status == Some(Sent) || status == Some(Delivered);
    }
    if !sent && sms.ready {
      var _, n := service.Send(SmsRequest(eventId, voucher, sms.address), sms.world);
      smsCalls := n;
    }
    MarkersAreNotClaims(WhatsAppRequest(eventId, voucher, wa.address), phone);
    if Digits(phone) != "" && markersUp {
      service.store.keys := service.store.keys + {Notified(phone)} - {Pending(phone)};
    }
  }

  /** The gift is announced again under a new event while its WhatsApp claim lives: nobody is messaged on the phone. */
  lemma RepublishedGiftIsSilent(keys: set<string>, e: string, e': string, voucher: string, phone: string, wa: Leg,
      sms: Leg)
    requires voucher != "" && wa.ready && wa.world.asking.Answered?
    requires DedupKey(WhatsAppRequest(e, voucher, wa.address)) in keys
    ensures !FallsBack(keys, e', voucher, phone, wa, sms)
  {
    GiftKeyIgnoresEvent(e, e', voucher, wa.address);
  }
}
