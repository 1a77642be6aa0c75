/** The two normalisation stages that an incoming message passes before validation, and the producer's output. */
module EnvelopeModel {
  import opened Basics

  // ---- JSON values ----

  /** `JOther` stands for booleans, lists and non-integral numbers, with their text and truth value. */
  datatype Json = JNull | JStr(s: string) | JNum(n: int) | JObj(fields: map<string, Json>)
      | JOther(text: string, truthy: bool)

  type Object = map<string, Json>

  predicate Truthy(j: Json)
  {
    match j
    case JNull => false
    case JStr(s) => s != ""
    case JNum(n) => n != 0
    case JObj(f) => f != map[]
    case JOther(_, t) => t
  }

  /** obj.get(k) is present and true. */
  predicate Has(m: Object, k: string) { k in m && Truthy(m[k]) }

  function Digits(n: nat): string
  {
    (if n >= 10 then Digits(n / 10) else "") + [('0' as int + n % 10) as char]
  }

  /** The text of a value; the text of an object is not modelled and is empty here. */
  function Text(j: Json): string
  {
    match j
    case JStr(s) => s
    case JNum(n) => if n < 0 then "-" + Digits(-n) else Digits(n)
    case JOther(t, _) => t
    case JNull => "None"
    case JObj(_) => ""
  }

  /** str(obj.get(k) or ""). */
  function TextOf(m: Object, k: string): string { if Has(m, k) then Text(m[k]) else "" }

  function LowerChar(c: char): char { if 'A' <= c <= 'Z' then (c as int + 32) as char else c }

  function Lower(s: string): string { seq(|s|, i requires 0 <= i < |s| => LowerChar(s[i])) }

  function DotsToUnderscores(s: string): string
  {
    seq(|s|, i requires 0 <= i < |s| => if s[i] == '.' then '_' else s[i])
  }

  predicate Contains(hay: string, needle: string)
  {
    exists i :: 0 <= i <= |hay| && needle <= hay[i..]
  }

  /** Conversions by the validation library and the language, each to a canonical form. */
  datatype Codec = Codec(uuid: Json -> Option<string>, time: Json -> Option<string>, integer: Json -> Option<int>,
      loose: Json -> Option<int>)

  /** Canonical texts convert to themselves, integers to themselves. */
  ghost predicate Canonical(c: Codec)
  {
    && (forall j: Json, s: string :: c.uuid(j) == Some(s) ==> c.uuid(JStr(s)) == Some(s))
    && (forall j: Json, s: string :: c.time(j) == Some(s) ==> c.time(JStr(s)) == Some(s))
    && (forall n: int :: c.integer(JNum(n)) == Some(n))
  }

  // ---- stage 1: message processor ----

  const STAGE1_KEYS: set<string> :=
      {"event_id", "event_type", "version", "occurred_at", "source", "correlation_id", "causation_id"}

  function Fill(m: Object, k: string, j: Json): Object { if k in m then m else m[k := j] }

  function Filled(m: Object, id: string, now: string): Object
  {
    var stamped := Fill(Fill(m, "event_id", JStr(id)), "occurred_at", JStr(now));
    Fill(Fill(stamped, "version", JNum(1)), "source", JStr("aws_eventbridge_scheduler"))
  }

  /** Entries of m under keys outside `ks`. */
  function Outside(m: Object, ks: set<string>): Object { map k | k in m && k !in ks :: m[k] }

  function Stage1(m: Object, id: string, now: string): Object
  {
    var f := Filled(m, id, now);
    if "data" in f && f["data"].JObj? then f else f["data" := JObj(Outside(f, STAGE1_KEYS))]
  }

  // ---- stage 2: envelope pre-validation ----

  const ENVELOPE_KEYS: set<string> := STAGE1_KEYS + {"event_name", "schema_version", "data"}

  function DefaultSource(m: Object): string
  {
    var t := Lower(TextOf(m, "event_name") + " " + TextOf(m, "event_type"));
    if Contains(t, "booking") || Contains(t, "payment") then "ushbooknpay"
    else if Contains(t, "user") || Contains(t, "auth") || Contains(t, "password") then "ushauth"
    else "ushspa"
  }

  function WithSource(m: Object): Object { if Has(m, "source") then m else m["source" := JStr(DefaultSource(m))] }

  function WithVersion(c: Codec, m: Object): Object
  {
    if "version" !in m && "schema_version" in m then
      m["version" := JNum(match c.loose(m["schema_version"]) case Some(n) => n case None => 1)]
    else m
  }

  function WithType(m: Object): Object
  {
    if !Has(m, "event_type") && Has(m, "event_name")
    then m["event_type" := JStr(DotsToUnderscores(Lower(Text(m["event_name"]))))] else m
  }

  function DataOf(m: Object): Object { if "data" in m && m["data"].JObj? then m["data"].fields else map[] }

  /** The data with the root's other keys merged in, its own keys first. */
  function Merged(m: Object): Object { Outside(m, ENVELOPE_KEYS) + DataOf(m) }

  function WithData(m: Object): Object { m["data" := JObj(Merged(m))] }

  /** The message as stage 2 has it before it merges into the data. */
  function Completed(c: Codec, m: Object): Object { WithType(WithVersion(c, WithSource(m))) }

  function Stage2(c: Codec, m: Object): Object { WithData(Completed(c, m)) }

  function Normalise(c: Codec, m: Object, id: string, now: string): Object { Stage2(c, Stage1(m, id, now)) }

  // ---- the same stages as the code runs them ----

  method RunStage1(m: Object, id: string, now: string) returns (r: Object)
    ensures r == Stage1(m, id, now)
  {
    r := m;
    if "event_id" !in r { r := r["event_id" := JStr(id)]; }
    if "occurred_at" !in r { r := r["occurred_at" := JStr(now)]; }
    if "version" !in r { r := r["version" := JNum(1)]; }
    if "source" !in r { r := r["source" := JStr("aws_eventbridge_scheduler")]; }
    if "data" !in r || !r["data"].JObj? {
      var data := CopyMissing(r, STAGE1_KEYS, map[]);
      assert data == Outside(r, STAGE1_KEYS);
      r := r["data" := JObj(data)];
    }
  }

  /** Copies the entries of m outside `skip` that `into` does not have, one key at a time. */
  method CopyMissing(m: Object, skip: set<string>, into: Object) returns (r: Object)
    ensures r == Outside(m, skip) + into
  {
    r := into;
    var todo := m.Keys;
    while todo != {}
      invariant todo <= m.Keys
      invariant r == map k | k in into.Keys + m.Keys && (k in into || (k !in todo && k !in skip)) ::
        if k in into then into[k] else m[k]
      decreases todo
    {
      var k :| k in todo;
      if k !in skip && k !in r {
        r := r[k := m[k]];
      }
      todo := todo - {k};
    }
  }

  method RunStage2(c: Codec, m: Object) returns (r: Object)
    ensures r == Stage2(c, m)
  {
    r := m;
    if !Has(r, "source") {
      r := r["source" := JStr(DefaultSource(r))];
    }
    assert r == WithSource(m);
    if "version" !in r && "schema_version" in r {
      var n := c.loose(r["schema_version"]);
      r := r["version" := JNum(if n.Some? then n.value else 1)];
    }
    assert r == WithVersion(c, WithSource(m));
    if !Has(r, "event_type") && Has(r, "event_name") {
      r := r["event_type" := JStr(DotsToUnderscores(Lower(Text(r["event_name"]))))];
    }
    assert r == Completed(c, m);
    var raw := if "data" in r && r["data"].JObj? then r["data"].fields else map[];
    var data := CopyMissing(r, ENVELOPE_KEYS, raw);
    r := r["data" := JObj(data)];
  }

  // ---- validation ----

  datatype Envelope = Envelope(eventId: string, eventType: string, version: int, occurredAt: string, source: string,
                               correlationId: Option<string>, causationId: Option<string>, data: Object)

  predicate SafeChar(c: char)
  {
    'a' <= c <= 'z' || 'A' <= c <= 'Z' || '0' <= c <= '9' || c == '.' || c == '_' || c == '-'
  }

  predicate AllSafe(s: string) { forall i :: 0 <= i < |s| ==> SafeChar(s[i]) }

  /** The pattern ^[a-zA-Z0-9._\-]+$ as matched: its $ also stands before one final newline. */
  predicate TypeMatches(s: string)
  {
    (s != "" && AllSafe(s)) || (|s| > 1 && s[|s| - 1] == '\n' && AllSafe(s[..|s| - 1]))
  }

  function OptionalUuid(c: Codec, m: Object, k: string): Option<Option<string>>
  {
    if k !in m || m[k].JNull? then Some(None)
    else match c.uuid(m[k]) case Some(s) => Some(Some(s)) case None => None
  }

  function Validate(c: Codec, m: Object): Option<Envelope>
  {
    if !("event_id" in m && "event_type" in m && "occurred_at" in m && "source" in m) then None
    else if !(m["event_type"].JStr? && 1 <= |m["event_type"].s| <= 100 && TypeMatches(m["event_type"].s)) then None
    else if !(m["source"].JStr? && 1 <= |m["source"].s| <= 100) then None
    else
      var id, at := c.uuid(m["event_id"]), c.time(m["occurred_at"]);
      var version := if "version" in m then c.integer(m["version"]) else Some(1);
      var corr, caus := OptionalUuid(c, m, "correlation_id"), OptionalUuid(c, m, "causation_id");
      if id.None? || at.None? || version.None? || corr.None? || caus.None? || version.value < 1 then None
      else if "data" in m && !m["data"].JObj? then None
      else Some(Envelope(id.value, Lower(m["event_type"].s), version.value, at.value, m["source"].s,
                         corr.value, caus.value, DataOf(m)))
  }

  ghost predicate ValidEnvelope(c: Codec, e: Envelope)
  {
    && c.uuid(JStr(e.eventId)) == Some(e.eventId) && c.time(JStr(e.occurredAt)) == Some(e.occurredAt)
    && 1 <= |e.eventType| <= 100 && TypeMatches(e.eventType) && Lower(e.eventType) == e.eventType
    && e.version >= 1 && 1 <= |e.source| <= 100
    && (e.correlationId.Some? ==> c.uuid(JStr(e.correlationId.value)) == e.correlationId)
    && (e.causationId.Some? ==> c.uuid(JStr(e.causationId.value)) == e.causationId)
  }

  function Nullable(o: Option<string>): Json { match o case Some(s) => JStr(s) case None => JNull }

  /** The producer's dump of an envelope. */
  function Dump(e: Envelope): Object
  {
    map["event_id" := JStr(e.eventId), "event_type" := JStr(e.eventType), "version" := JNum(e.version),
        "occurred_at" := JStr(e.occurredAt), "source" := JStr(e.source),
        "correlation_id" := Nullable(e.correlationId), "causation_id" := Nullable(e.causationId),
        "data" := JObj(e.data)]
  }

  // ---- laws ----

  lemma LowerTwice(s: string)
    ensures Lower(Lower(s)) == Lower(s)
    ensures TypeMatches(s) ==> TypeMatches(Lower(s))
  {
    if |s| > 1 { assert Lower(s)[..|s| - 1] == Lower(s[..|s| - 1]); }
  }

  /** Whatever validation accepts is a valid envelope. */
  lemma ValidationIsSound(c: Codec, m: Object)
    requires Canonical(c) && Validate(c, m).Some?
    ensures ValidEnvelope(c, Validate(c, m).value)
  {
    LowerTwice(m["event_type"].s);
  }

  /** A message that already has all envelope fields passes both stages unchanged, apart from merging into its data. */
  lemma CompleteIsUnchanged(c: Codec, m: Object, id: string, now: string)
    requires {"event_id", "occurred_at", "version"} <= m.Keys && Has(m, "source") && Has(m, "event_type")
    requires "data" in m && m["data"].JObj? && m["data"].fields == Merged(m)
    ensures Normalise(c, m, id, now) == m
  {
    assert m["data" := JObj(Merged(m))] == m;
  }

  lemma DumpMerged(e: Envelope)
    ensures Merged(Dump(e)) == e.data
  {
    assert Dump(e).Keys <= ENVELOPE_KEYS;
    assert Outside(Dump(e), ENVELOPE_KEYS) == map[];
  }

  lemma DumpValidates(c: Codec, e: Envelope)
    requires Canonical(c) && ValidEnvelope(c, e)
    ensures Validate(c, Dump(e)) == Some(e)
  {
    var m := Dump(e);
    assert OptionalUuid(c, m, "correlation_id") == Some(e.correlationId);
    assert OptionalUuid(c, m, "causation_id") == Some(e.causationId);
  }

  /** Round trip: a valid envelope dumped by the producer comes back equal through both stages and validation. */
  lemma ProducerRoundTrip(c: Codec, e: Envelope, id: string, now: string)
    requires Canonical(c) && ValidEnvelope(c, e)
    ensures Validate(c, Normalise(c, Dump(e), id, now)) == Some(e)
  {
    DumpMerged(e);
    CompleteIsUnchanged(c, Dump(e), id, now);
    DumpValidates(c, e);
  }

  lemma Stage1Facts(m: Object, id: string, now: string)
    ensures var f := Stage1(m, id, now);
      && {"event_id", "occurred_at", "version", "source", "data"} <= f.Keys && f["data"].JObj?
      && f.Keys == m.Keys + {"event_id", "occurred_at", "version", "source", "data"}
      && (forall k :: k in m && k != "data" ==> f[k] == m[k])
      && f["version"] == (if "version" in m then m["version"] else JNum(1))
  {
  }

  lemma CompletedFacts(c: Codec, m: Object)
    ensures var t := Completed(c, m);
      && (forall k :: k !in {"source", "version", "event_type"} ==> (k in t <==> k in m) && (k in m ==> t[k] == m[k]))
      && ("version" in m ==> "version" in t && t["version"] == m["version"])
      && Has(t, "source") && (Has(m, "source") ==> t["source"] == m["source"])
      && (Has(m, "event_type") ==> "event_type" in t && t["event_type"] == m["event_type"])
  {
  }

  /** Stage 2's data in terms of its input, whatever source, version and type it fills in. */
  lemma Stage2Facts(c: Codec, m: Object)
    ensures "data" in Stage2(c, m) && Stage2(c, m)["data"] == JObj(Merged(m))
    ensures forall k :: k in m && k !in {"data", "source", "event_type"} ==>
        k in Stage2(c, m) && Stage2(c, m)[k] == m[k]
    ensures Has(Stage2(c, m), "source")
    ensures Has(m, "source") ==> Stage2(c, m)["source"] == m["source"]
    ensures Has(m, "event_type") ==> "event_type" in Stage2(c, m) && Stage2(c, m)["event_type"] == m["event_type"]
  {
    CompletedFacts(c, m);
    OutsideAgrees(Completed(c, m), m, ENVELOPE_KEYS);
  }

  lemma FilledOutside(m: Object, id: string, now: string)
    ensures Outside(Filled(m, id, now), STAGE1_KEYS) == Outside(m, STAGE1_KEYS)
  {
    var f := Filled(m, id, now);
    assert forall k :: k !in STAGE1_KEYS ==> (k in f <==> k in m) && (k in m ==> f[k] == m[k]);
  }

  lemma OutsideAgrees(a: Object, b: Object, ks: set<string>)
    requires forall k :: k !in ks ==> (k in a <==> k in b) && (k in a ==> a[k] == b[k])
    ensures Outside(a, ks) == Outside(b, ks)
  {
  }

  lemma Stage1Outside(m: Object, id: string, now: string)
    ensures Outside(Stage1(m, id, now), ENVELOPE_KEYS) == Outside(m, ENVELOPE_KEYS)
  {
    Stage1Facts(m, id, now);
    var f := Stage1(m, id, now);
    assert {"event_id", "occurred_at", "version", "source", "data"} <= ENVELOPE_KEYS;
    OutsideAgrees(f, m, ENVELOPE_KEYS);
  }

  lemma Stage1Data(m: Object, id: string, now: string)
    ensures DataOf(Stage1(m, id, now)) == if "data" in m && m["data"].JObj? then m["data"].fields
        else Outside(m, STAGE1_KEYS)
  {
    FilledOutside(m, id, now);
  }

  lemma FewerOutside(m: Object)
    ensures Outside(m, ENVELOPE_KEYS) + Outside(m, STAGE1_KEYS) == Outside(m, STAGE1_KEYS)
  {
    assert STAGE1_KEYS <= ENVELOPE_KEYS;
  }

  /**
   Conservation: exactly what ends up in the data. With an object for data, its own entries survive untouched and
   every root key outside the envelope is added; without one, all of the message outside the seven envelope fields
   is, the unusable `data` value included. No key is lost, none is overwritten, nothing else appears.
   */
  lemma DataIsConserved(c: Codec, m: Object, id: string, now: string)
    ensures var out := Normalise(c, m, id, now);
      "data" in out && out["data"] ==
        JObj(if "data" in m && m["data"].JObj? then Outside(m, ENVELOPE_KEYS) + m["data"].fields
            else Outside(m, STAGE1_KEYS))
  {
    Stage2Facts(c, Stage1(m, id, now));
    Stage1Outside(m, id, now);
    Stage1Data(m, id, now);
    FewerOutside(m);
  }

  /** Root entries are kept as they are, except for data and for a source or event type that counts as absent. */
  lemma RootIsKept(c: Codec, m: Object, id: string, now: string)
    ensures var out := Normalise(c, m, id, now);
      forall k :: k in m && k != "data" && (k in {"source", "event_type"} ==> Has(m, k)) ==> k in out && out[k] == m[k]
  {
    Stage1Facts(m, id, now);
    Stage2Facts(c, Stage1(m, id, now));
  }

  /** Normalising twice, even with other generated values, equals normalising once. */
  lemma NormaliseTwice(c: Codec, m: Object, id: string, now: string, id': string, now': string)
    ensures Normalise(c, Normalise(c, m, id, now), id', now') == Normalise(c, m, id, now)
  {
    var f, out := Stage1(m, id, now), Normalise(c, m, id, now);
    Stage1Facts(m, id, now);
    Stage2Facts(c, f);
    assert Filled(out, id', now') == out;
    assert Stage1(out, id', now') == out;
    Stage2Twice(c, f);
  }

  lemma SourceTwice(m: Object)
    ensures WithSource(WithSource(m)) == WithSource(m)
  {
  }

  lemma VersionTwice(c: Codec, m: Object)
    ensures WithVersion(c, WithVersion(c, m)) == WithVersion(c, m)
    ensures Has(m, "source") ==> WithSource(WithVersion(c, m)) == WithVersion(c, m)
  {
  }

  lemma TypeTwice(c: Codec, m: Object)
    ensures WithType(WithType(m)) == WithType(m)
    ensures Has(m, "source") ==> WithSource(WithType(m)) == WithType(m)
    ensures WithVersion(c, m) == m ==> WithVersion(c, WithType(m)) == WithType(m)
  {
  }

  lemma CompletedTwice(c: Codec, m: Object)
    ensures Completed(c, Completed(c, m)) == Completed(c, m)
  {
    var s, v := WithSource(m), WithVersion(c, WithSource(m));
    SourceTwice(m);
    VersionTwice(c, s);
    TypeTwice(c, v);
  }

  /** The data plays no part in filling in the other fields. */
  lemma DataIsApart(c: Codec, m: Object, x: Json)
    ensures Completed(c, m["data" := x]) == Completed(c, m)["data" := x]
  {
    var n := m["data" := x];
    assert WithSource(n) == WithSource(m)["data" := x];
    assert WithVersion(c, WithSource(n)) == WithVersion(c, WithSource(m))["data" := x];
  }

  lemma MergedTwice(m: Object)
    ensures Merged(WithData(m)) == Merged(m)
  {
    OutsideAgrees(WithData(m), m, ENVELOPE_KEYS);
  }

  lemma Stage2Twice(c: Codec, m: Object)
    ensures Stage2(c, Stage2(c, m)) == Stage2(c, m)
  {
    var t := Completed(c, m);
    DataIsApart(c, t, JObj(Merged(t)));
    CompletedTwice(c, m);
    MergedTwice(t);
  }

  lemma Stage2Version(c: Codec, m: Object)
    requires "version" !in m && "schema_version" in m
    ensures "version" in Stage2(c, m)
    ensures Stage2(c, m)["version"] == JNum(match c.loose(m["schema_version"]) case Some(n) => n case None => 1)
  {
    var s := WithSource(m);
    assert "version" !in s && "schema_version" in s && s["schema_version"] == m["schema_version"];
    var t := WithVersion(c, s);
    assert "version" in WithType(t) && WithType(t)["version"] == t["version"];
  }

  lemma PipelineVersion(c: Codec, m: Object, id: string, now: string)
    ensures "version" in Normalise(c, m, id, now)
    ensures Normalise(c, m, id, now)["version"] == if "version" in m then m["version"] else JNum(1)
  {
    Stage1Facts(m, id, now);
    Stage2Facts(c, Stage1(m, id, now));
  }

  /**
   Stage 2 maps schema_version to version, but behind stage 1 it never gets to: a message without a version comes
   out as version 1 whatever its schema_version says.
   */
  lemma SchemaVersionIsIgnored(c: Codec, m: Object, id: string, now: string)
    requires "version" !in m && "schema_version" in m
    ensures "version" in Normalise(c, m, id, now) && Normalise(c, m, id, now)["version"] == JNum(1)
    ensures "version" in Stage2(c, m)
    ensures Stage2(c, m)["version"] == JNum(1) <==>
        c.loose(m["schema_version"]) == None || c.loose(m["schema_version"]) == Some(1)
  {
    PipelineVersion(c, m, id, now);
    Stage2Version(c, m);
  }

  /** The pattern promises safe characters only; it keeps that promise exactly when no newline ends the text. */
  lemma AcceptedTypeIsSafe(s: string)
    requires TypeMatches(s)
    ensures AllSafe(s) <==> s[|s| - 1] != '\n'
  {
    if s[|s| - 1] == '\n' { assert !SafeChar(s[|s| - 1]); }
  }

  /** Such a text is accepted. */
  lemma NewlineSlipsThrough(c: Codec, e: Envelope)
    requires Canonical(c) && ValidEnvelope(c, e) && |e.eventType| < 100 && AllSafe(e.eventType)
    ensures ValidEnvelope(c, e.(eventType := e.eventType + "\n")) && !AllSafe(e.eventType + "\n")
  {
    var s := e.eventType + "\n";
    assert s[..|s| - 1] == e.eventType && s[|s| - 1] == '\n';
    assert Lower(s) == Lower(e.eventType) + "\n";
  }
}
