/**
 Outbound calls through the API gateway: a retry loop around a redirect loop that share one redirect
 budget. Redirects keep method and body, as section 15.4 of RFC 9110 allows and its sections 15.4.8 and
 15.4.9 require for 307 and 308.
 */
module Gateway {
  import opened Basics
  import opened Backoff

  datatype Url = Url(scheme: string, netloc: string, path: string, query: string)

  /** The configured base: scheme, host and an optional path prefix, without trailing slash. */
  datatype Base = Base(scheme: string, netloc: string, prefix: string)

  /** One exchange, as the client library reports it; `location` is already resolved against the request's URL. */
  datatype Outcome = TimedOut | Broken | Response(status: int, location: Option<Url>, json: Option<string>)

  datatype Call = Call(verb: string, path: string, params: Option<string>, body: Option<string>,
      headers: map<string, string>)

  /** A request on the wire. */
  datatype Sent = Sent(verb: string, url: Url, params: Option<string>, body: Option<string>,
      headers: map<string, string>)

  datatype Failure = Timeout | ClientError(status: int) | OtherError | NoAttempt

  const MAX_REDIRECTS := 3

  predicate RetryableStatus(st: int) { st in {429, 500, 502, 503, 504} }

  predicate RedirectStatus(st: int) { st in {301, 302, 307, 308} }

  predicate Redirects(o: Outcome) { o.Response? && RedirectStatus(o.status) && o.location.Some? }

  /** The attempt may be repeated. */
  predicate Transient(o: Outcome) { o.TimedOut? || (o.Response? && RetryableStatus(o.status)) }

  /** What the caller gets when o is the last exchange. */
  function Classify(o: Outcome): Result<string, Failure>
  {
    match o
    case TimedOut => Err(Timeout)
    case Broken => Err(OtherError)
    case Response(st, _, json) =>
      if !(200 <= st < 300) then Err(ClientError(st)) else if json.Some? then Ok(json.value) else Err(OtherError)
  }

  /** Index of the last exchange, from exchange i made in the given attempt with so many redirects used. */
  ghost function LastExchange(net: nat -> Outcome, i: nat, attempt: nat, redirects: nat, n: int): nat
    requires redirects <= MAX_REDIRECTS && attempt <= n
    decreases n - attempt, MAX_REDIRECTS - redirects
  {
    if Redirects(net(i)) && redirects < MAX_REDIRECTS then LastExchange(net, i + 1, attempt, redirects + 1, n)
    else if Transient(net(i)) && attempt < n then LastExchange(net, i + 1, attempt + 1, redirects, n)
    else i
  }

  /** At most one exchange per attempt left and per redirect left follows. */
  lemma {:induction false} ExchangesBounded(net: nat -> Outcome, i: nat, attempt: nat, redirects: nat, n: int)
    requires redirects <= MAX_REDIRECTS && attempt <= n
    ensures i <= LastExchange(net, i, attempt, redirects, n) <= i + (n - attempt) + (MAX_REDIRECTS - redirects)
    ensures forall j :: i <= j < LastExchange(net, i, attempt, redirects, n) ==> Redirects(net(j)) || Transient(net(j))
    decreases n - attempt, MAX_REDIRECTS - redirects
  {
    if Redirects(net(i)) && redirects < MAX_REDIRECTS {
      ExchangesBounded(net, i + 1, attempt, redirects + 1, n);
    } else if Transient(net(i)) && attempt < n {
      ExchangesBounded(net, i + 1, attempt + 1, redirects, n);
    }
  }

  // ---- the same run, counted ----

  /** The exchange failed in a way that another attempt may mend. */
  predicate Again(o: Outcome) { o.TimedOut? || (o.Response? && o.status in {429, 500, 502, 503, 504}) }

  /** The exchange sent the caller elsewhere. */
  predicate Elsewhere(o: Outcome) { o.Response? && o.status in {301, 302, 307, 308} && o.location.Some? }

  /** How many of the first k exchanges could be mended by another attempt. */
  function Agains(net: nat -> Outcome, k: nat): nat
  {
    if k == 0 then 0 else Agains(net, k - 1) + if Again(net(k - 1)) then 1 else 0
  }

  /** How many of the first k exchanges sent the caller elsewhere. */
  function Elsewheres(net: nat -> Outcome, k: nat): nat
  {
    if k == 0 then 0 else Elsewheres(net, k - 1) + if Elsewhere(net(k - 1)) then 1 else 0
  }

  /**
   A run of n attempts ends with exchange `last`: it goes on through at most n - 1 failures that another attempt may
   mend and at most 3 redirects, and it stops at such a failure, or at a redirect, only when they are used up.
   */
  predicate EndsAt(net: nat -> Outcome, n: int, last: nat)
  {
    && (forall i :: 0 <= i < last ==> Again(net(i)) || Elsewhere(net(i)))
    && Agains(net, last) <= n - 1 && Elsewheres(net, last) <= 3
    && (Again(net(last)) ==> Agains(net, last) == n - 1)
    && (Elsewhere(net(last)) ==> Elsewheres(net, last) == 3)
  }

  lemma {:induction false} CountsGrow(net: nat -> Outcome, k: nat, m: nat)
    requires k <= m
    ensures Agains(net, k) <= Agains(net, m) && Elsewheres(net, k) <= Elsewheres(net, m)
  {
    if k < m { CountsGrow(net, k, m - 1); }
  }

  /** There is at most one such exchange. */
  lemma EndsOnce(net: nat -> Outcome, n: int, a: nat, b: nat)
    requires EndsAt(net, n, a) && EndsAt(net, n, b)
    ensures a == b
  {
    EndsNoLater(net, n, a, b);
    EndsNoLater(net, n, b, a);
  }

  lemma EndsNoLater(net: nat -> Outcome, n: int, a: nat, b: nat)
    requires EndsAt(net, n, a) && EndsAt(net, n, b)
    ensures b <= a
  {
    assert a < b ==> Again(net(a)) || Elsewhere(net(a));
    if a < b { CountsGrow(net, a + 1, b); }
  }

  /** The run that LastExchange follows is that run. */
  lemma {:induction false} LastExchangeEnds(net: nat -> Outcome, i: nat, attempt: nat, redirects: nat, n: int)
    requires 1 <= attempt <= n && redirects <= MAX_REDIRECTS
    requires Agains(net, i) == attempt - 1 && Elsewheres(net, i) == redirects
    requires forall j :: 0 <= j < i ==> Again(net(j)) || Elsewhere(net(j))
    ensures EndsAt(net, n, LastExchange(net, i, attempt, redirects, n))
    decreases n - attempt, MAX_REDIRECTS - redirects
  {
    if Redirects(net(i)) && redirects < MAX_REDIRECTS {
      LastExchangeEnds(net, i + 1, attempt, redirects + 1, n);
    } else if Transient(net(i)) && attempt < n {
      LastExchangeEnds(net, i + 1, attempt + 1, redirects, n);
    }
  }

  function Clean(path: string): string { if path != "" && path[0] == '/' then path else "/" + path }

  function BuildUrl(b: Base, service: string, path: string): Url
  {
    Url(b.scheme, b.netloc, b.prefix + service + Clean(path), "")
  }

  /** The base after a redirect: only a change of scheme or host is adopted. */
  function Adopt(b: Base, old_: Url, new_: Url): Base
  {
    if old_.path == new_.path && (old_.scheme, old_.netloc) != (new_.scheme, new_.netloc)
    then Base(new_.scheme, new_.netloc, "") else b
  }

  /** The base after the first n requests of a run; request i + 1 follows a redirect when exchange i is one. */
  ghost function BaseAfter(b: Base, net: nat -> Outcome, log: seq<Sent>, n: nat): Base
    requires n <= |log|
  {
    if n <= 1 then b
    else if Redirects(net(n - 2)) then Adopt(BaseAfter(b, net, log, n - 1), log[n - 2].url, log[n - 1].url)
    else BaseAfter(b, net, log, n - 1)
  }

  /** Each request carries the caller's method, headers and body; a redirect goes to its target without parameters. */
  ghost predicate Faithful(net: nat -> Outcome, log: seq<Sent>, first: Url, call: Call)
  {
    && (forall i :: 0 <= i < |log| ==>
        log[i].verb == call.verb && log[i].body == call.body && log[i].headers == call.headers)
    && (log != [] ==> log[0].url == first && log[0].params == call.params)
    && forall i {:trigger net(i)} :: 0 <= i < |log| - 1 ==>
         if Redirects(net(i)) then log[i + 1].url == net(i).location.value && log[i + 1].params == None
         else log[i + 1].url == log[i].url && log[i + 1].params == call.params
  }

  lemma {:induction false} BaseAfterPrefix(b: Base, net: nat -> Outcome, log: seq<Sent>, more: Sent, n: nat)
    requires n <= |log|
    ensures BaseAfter(b, net, log + [more], n) == BaseAfter(b, net, log, n)
  {
    if n > 1 { BaseAfterPrefix(b, net, log, more, n - 1); }
  }

  /** The run so far: faithful requests, the base that the redirects taught, and the last exchange still to come. */
  ghost predicate Underway(net: nat -> Outcome, log: seq<Sent>, first: Url, call: Call, base0: Base, base: Base,
                           attempt: nat, redirects: nat, n: int, last: nat)
  {
    && log != [] && redirects <= MAX_REDIRECTS && attempt <= n
    && Faithful(net, log, first, call) && base == BaseAfter(base0, net, log, |log|)
    && LastExchange(net, |log| - 1, attempt, redirects, n) == last
    && Agains(net, |log| - 1) == attempt - 1 && Elsewheres(net, |log| - 1) == redirects
  }

  /** The request that follows a redirect. */
  function Redirected(call: Call, target: Url): Sent { Sent(call.verb, target, None, call.body, call.headers) }

  /** Following one redirect. */
  lemma RedirectStep(net: nat -> Outcome, log: seq<Sent>, first: Url, call: Call, base0: Base, base: Base,
                     attempt: nat, redirects: nat, n: int, last: nat)
    requires Underway(net, log, first, call, base0, base, attempt, redirects, n, last)
    requires Redirects(net(|log| - 1)) && redirects < MAX_REDIRECTS
    ensures var target := net(|log| - 1).location.value;
      Underway(net, log + [Redirected(call, target)], first, call, base0, Adopt(base, log[|log| - 1].url, target),
          attempt, redirects + 1, n, last)
  {
    var next := Redirected(call, net(|log| - 1).location.value);
    BaseAfterPrefix(base0, net, log, next, |log|);
    FaithfulNext(net, log, first, call);
  }

  lemma FaithfulNext(net: nat -> Outcome, log: seq<Sent>, first: Url, call: Call)
    requires log != [] && Faithful(net, log, first, call) && Redirects(net(|log| - 1))
    ensures Faithful(net, log + [Redirected(call, net(|log| - 1).location.value)], first, call)
  {
  }

  lemma PrefixThrough(a: seq<Sent>, b: seq<Sent>, c: seq<Sent>)
    requires a <= b && b <= c
    ensures a <= c
  {
  }

  class GatewayHttpClient {
    var base: Base
    const servicePath: string
    const maxRetries: int

    constructor (base: Base, servicePath: string, maxRetries: int)
      ensures this.base == base && this.servicePath == servicePath && this.maxRetries == maxRetries
    {
      this.base, this.servicePath, this.maxRetries := base, servicePath, maxRetries;
    }

    /** Follows redirects from the last exchange of `log`, as many as the budget still allows. */
    method FollowRedirects(call: Call, net: nat -> Outcome, log0: seq<Sent>, used: nat, ghost first: Url,
                           ghost base0: Base, ghost attempt: nat, ghost last: nat)
      returns (log: seq<Sent>, redirects: nat)
      requires Underway(net, log0, first, call, base0, base, attempt, used, maxRetries, last)
      modifies this`base
      ensures log0 <= log && used <= redirects
      ensures Underway(net, log, first, call, base0, base, attempt, redirects, maxRetries, last)
      ensures !(Redirects(net(|log| - 1)) && redirects < MAX_REDIRECTS)
    {
      log, redirects := log0, used;
      while Redirects(net(|log| - 1)) && redirects < MAX_REDIRECTS
        invariant log0 <= log && used <= redirects
        invariant Underway(net, log, first, call, base0, base, attempt, redirects, maxRetries, last)
        decreases MAX_REDIRECTS - redirects
      {
        ghost var before := log;
        log := FollowOne(call, net, log, redirects, first, base0, attempt, last);
        PrefixThrough(log0, before, log);
        redirects := redirects + 1;
      }
    }

    /** The request that follows one redirect. */
    method FollowOne(call: Call, net: nat -> Outcome, log0: seq<Sent>, ghost used: nat, ghost first: Url,
                     ghost base0: Base, ghost attempt: nat, ghost last: nat)
      returns (log: seq<Sent>)
      requires Underway(net, log0, first, call, base0, base, attempt, used, maxRetries, last)
      requires Redirects(net(|log0| - 1)) && used < MAX_REDIRECTS
      modifies this`base
      ensures log0 <= log && Underway(net, log, first, call, base0, base, attempt, used + 1, maxRetries, last)
    {
      RedirectStep(net, log0, first, call, base0, base, attempt, used, maxRetries, last);
      var url, target := log0[|log0| - 1].url, net(|log0| - 1).location.value;
      base := Adopt(base, url, target);
      log := log0 + [Redirected(call, target)];
    }

    /** Between two attempts: what has been sent, and what the rest of the run will be. */
    ghost predicate Between(call: Call, net: nat -> Outcome, log: seq<Sent>, url: Url, first: Url, base0: Base,
        attempt: nat, redirects: nat)
      reads this
    {
      && 1 <= attempt <= maxRetries && redirects <= MAX_REDIRECTS && Faithful(net, log, first, call)
      && base == BaseAfter(base0, net, log, |log|)
      && (if log == [] then url == first else url == log[|log| - 1].url && !Redirects(net(|log| - 1)))
      && Agains(net, |log|) == attempt - 1 && Elsewheres(net, |log|) == redirects
      && LastExchange(net, |log|, attempt, redirects, maxRetries) == LastExchange(net, 0, 1, 0, maxRetries)
    }

    /** One attempt: the request, then the redirects it meets. `again` when it is to be repeated. */
    method Attempt(call: Call, net: nat -> Outcome, log0: seq<Sent>, url0: Url, used: nat, ghost first: Url,
        ghost base0: Base, attempt: nat)
      returns (log: seq<Sent>, url: Url, redirects: nat, again: bool)
      requires Between(call, net, log0, url0, first, base0, attempt, used)
      modifies this`base
      ensures log != [] && Faithful(net, log, first, call) && base == BaseAfter(base0, net, log, |log|)
      ensures again <==> Transient(net(|log| - 1)) && attempt < maxRetries
      ensures again ==> Between(call, net, log, url, first, base0, attempt + 1, redirects)
      ensures !again ==> |log| - 1 == LastExchange(net, 0, 1, 0, maxRetries) && Agains(net, |log| - 1) == attempt - 1
    {
      var request := Sent(call.verb, url0, call.params, call.body, call.headers);
      BaseAfterPrefix(base0, net, log0, request, |log0|);
      log := log0 + [request];
      log, redirects :=
          FollowRedirects(call, net, log, used, first, base0, attempt, LastExchange(net, 0, 1, 0, maxRetries));
      url := log[|log| - 1].url;
      again := Transient(net(|log| - 1)) && attempt < maxRetries;
    }

    /** The attempts of a call, with the sleeps between them. */
    method Attempts(call: Call, net: nat -> Outcome, first: Url) returns (log: seq<Sent>, slept: int)
      requires maxRetries > 0 && Between(call, net, [], first, first, base, 1, 0)
      modifies this`base
      ensures |log| == LastExchange(net, 0, 1, 0, maxRetries) + 1
      ensures slept == Pow2(Agains(net, |log| - 1) + 1) - 2 && 0 <= slept <= Pow2(maxRetries) - 2
      ensures Faithful(net, log, first, call) && base == BaseAfter(old(base), net, log, |log|)
    {
      log, slept := [], 0;
      assert Pow2(1) == 2;
      var url, redirects, attempt := first, 0, 1;
      while true
        invariant Between(call, net, log, url, first, old(base), attempt, redirects)
        invariant slept == Pow2(attempt) - 2
        decreases maxRetries - attempt
      {
        var again: bool;
        log, url, redirects, again := Attempt(call, net, log, url, redirects, first, old(base), attempt);
        if !again {
          SleptWithin(attempt, maxRetries);
          return;
        }
        SleepsTwice(attempt);
        slept := slept + Pow2(attempt);
        attempt := attempt + 1;
      }
    }

    /**
     One call. It repeats timeouts and retryable statuses and follows redirects until they are used up, and makes no
     other exchange; the last one alone decides the outcome; before repeat k it sleeps 2^k; the client's base is what
     the redirects taught it.
     */
    method Request(call: Call, net: nat -> Outcome) returns (r: Result<string, Failure>, log: seq<Sent>, slept: int)
      modifies this`base
      ensures maxRetries <= 0 ==> r == Err(NoAttempt) && log == [] && slept == 0 && base == old(base)
      ensures maxRetries > 0 ==> |log| == LastExchange(net, 0, 1, 0, maxRetries) + 1 && r == Classify(net(|log| - 1))
      ensures maxRetries > 0 ==> EndsAt(net, maxRetries, |log| - 1)
      ensures maxRetries > 0 ==> slept == Pow2(Agains(net, |log| - 1) + 1) - 2
      ensures |log| <= Max(maxRetries, 0) + MAX_REDIRECTS
      ensures 0 <= slept <= Max(Pow2(Max(maxRetries, 0)) - 2, 0)
      ensures Faithful(net, log, BuildUrl(old(base), servicePath, call.path), call)
      ensures base == BaseAfter(old(base), net, log, |log|)
    {
      if maxRetries <= 0 {
        return Err(NoAttempt), [], 0;
      }
      RunBounded(net, maxRetries);
      log, slept := Attempts(call, net, BuildUrl(base, servicePath, call.path));
      r := Classify(net(|log| - 1));
    }
  }

  lemma {:induction false} Pow2Grows(m: nat, n: nat)
    requires m <= n
    ensures Pow2(m) <= Pow2(n)
  {
    if m < n {
      Pow2Grows(m, n - 1);
      Pow2Positive(n - 1);
    }
  }

  lemma RunBounded(net: nat -> Outcome, n: int)
    requires n > 0
    ensures LastExchange(net, 0, 1, 0, n) + 1 <= n + MAX_REDIRECTS
    ensures EndsAt(net, n, LastExchange(net, 0, 1, 0, n))
  {
    LastExchangeEnds(net, 0, 1, 0, n);
    ExchangesBounded(net, 0, 1, 0, n);
  }

  lemma SleepsTwice(attempt: nat)
    ensures Pow2(attempt) - 2 + Pow2(attempt) == Pow2(attempt + 1) - 2
  {
  }

  lemma SleptWithin(attempt: nat, n: int)
    requires 1 <= attempt <= n
    ensures 0 <= Pow2(attempt) - 2 <= Pow2(n) - 2
  {
    Pow2Grows(1, attempt);
    Pow2Grows(attempt, n);
  }

  /**
   Consequences of a finished call of n attempts: which result each last exchange gives, and that any status but a
   retryable one or a redirect ends the run at once.
   */
  lemma CallLaws(net: nat -> Outcome, n: int, last: nat)
    requires n > 0 && last == LastExchange(net, 0, 1, 0, n)
    ensures last < n + 3 && last == Agains(net, last) + Elsewheres(net, last)
    ensures forall v :: Classify(net(last)) == Ok(v) <==>
      net(last).Response? && 200 <= net(last).status <= 299 && net(last).json == Some(v)
    ensures Classify(net(last)) == Err(Timeout) <==> net(last).TimedOut?
    ensures forall st :: Classify(net(last)) == Err(ClientError(st)) <==>
      net(last).Response? && net(last).status == st && (st < 200 || st > 299)
    ensures Classify(net(last)) != Err(NoAttempt)
    ensures forall i :: 0 <= i < last && net(i).Response? ==>
      net(i).status in {429, 500, 502, 503, 504, 301, 302, 307, 308}
    ensures forall i :: 0 <= i < last ==> net(i) != Broken
  {
    LastExchangeEnds(net, 0, 1, 0, n);
    ExchangesBounded(net, 0, 1, 0, n);
    CountsAddUp(net, last);
  }

  lemma {:induction false} CountsAddUp(net: nat -> Outcome, k: nat)
    requires forall i :: 0 <= i < k ==> Again(net(i)) || Elsewhere(net(i))
    ensures Agains(net, k) + Elsewheres(net, k) == k
  {
    if k > 0 { CountsAddUp(net, k - 1); }
  }

  /** A leading slash makes no difference, and the address is base, service and path in this order. */
  lemma UrlOfPath(b: Base, service: string, path: string)
    requires path == "" || path[0] != '/'
    ensures BuildUrl(b, service, path) == BuildUrl(b, service, "/" + path)
    ensures BuildUrl(b, service, path) == Url(b.scheme, b.netloc, b.prefix + service + "/" + path, "")
  {
    assert b.prefix + service + ("/" + path) == b.prefix + service + "/" + path;
  }

  /** Only a redirect to the same path teaches the client anything, and then scheme and host. */
  lemma AdoptionLaws(b: Base, from: Url, to: Url)
    ensures from.path != to.path ==> Adopt(b, from, to) == b
    ensures from.scheme == to.scheme && from.netloc == to.netloc ==> Adopt(b, from, to) == b
    ensures from.path == to.path && (from.scheme != to.scheme || from.netloc != to.netloc) ==>
      Adopt(b, from, to).scheme == to.scheme && Adopt(b, from, to).netloc == to.netloc
  {
  }

  /**
   After a redirect that changes only scheme or host, the next call to the same path goes straight to the target
   exactly when the configured base had no path prefix; otherwise the prefix is lost.
   */
  lemma AdoptedBaseSkipsRedirect(b: Base, service: string, path: string, target: Url)
    requires target.path == BuildUrl(b, service, path).path && (target.scheme, target.netloc) != (b.scheme, b.netloc)
    ensures BuildUrl(Adopt(b, BuildUrl(b, service, path), target), service, path) == target.(query := "") <==>
        b.prefix == ""
  {
    var rest := service + Clean(path);
    assert b.prefix + service + Clean(path) == b.prefix + rest;
    assert "" + service + Clean(path) == rest;
    assert |b.prefix + rest| == |b.prefix| + |rest|;
  }
}
