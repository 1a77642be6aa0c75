/** What normalisation and validation make of single fields, told by the message alone. */
module EnvelopeLaws {
  import opened Basics
  import opened EnvelopeModel

  /** Absent, or a value that counts as false. */
  predicate Lacks(m: Object, k: string)
  {
    k in m ==>
      match m[k]
      case JNull => true
      case JStr(s) => |s| == 0
      case JNum(n) => n == 0
      case JObj(fields) => |fields| == 0
      case JOther(_, truthy) => !truthy
  }

  lemma LacksIsNotHas(m: Object, k: string)
    ensures Lacks(m, k) <==> !Has(m, k)
  {
  }

  /** One character in lower case: only the 26 capitals change. */
  function Small(c: char): char { if 65 <= c as int <= 90 then (c as int + 32) as char else c }

  lemma LowerIsSmall(s: string)
    ensures |Lower(s)| == |s| && forall i :: 0 <= i < |s| ==> Lower(s)[i] == Small(s[i])
  {
  }

  // ---- fields that are filled in ----

  /** The four fields that the message processor fills in, when they are missing altogether. */
  lemma ProcessorDefaults(c: Codec, m: Object, id: string, now: string)
    ensures var out := Normalise(c, m, id, now);
      && "event_id" in out && out["event_id"] == (if "event_id" in m then m["event_id"] else JStr(id))
      && "occurred_at" in out && out["occurred_at"] == (if "occurred_at" in m then m["occurred_at"] else JStr(now))
      && "version" in out && out["version"] == (if "version" in m then m["version"] else JNum(1))
  {
    var f := Stage1(m, id, now);
    StampedFields(m, id, now);
    Stage2Facts(c, f);
  }

  lemma StampedFields(m: Object, id: string, now: string)
    ensures var f := Stage1(m, id, now);
      && "event_id" in f && f["event_id"] == (if "event_id" in m then m["event_id"] else JStr(id))
      && "occurred_at" in f && f["occurred_at"] == (if "occurred_at" in m then m["occurred_at"] else JStr(now))
      && "version" in f && f["version"] == (if "version" in m then m["version"] else JNum(1))
  {
    Stage1Facts(m, id, now);
    if "event_id" !in m { StampedId(m, id, now); }
    if "occurred_at" !in m { StampedTime(m, id, now); }
  }

  lemma StampedId(m: Object, id: string, now: string)
    requires "event_id" !in m
    ensures "event_id" in Stage1(m, id, now) && Stage1(m, id, now)["event_id"] == JStr(id)
  {
    assert "event_id" in Filled(m, id, now) && Filled(m, id, now)["event_id"] == JStr(id);
  }

  lemma StampedTime(m: Object, id: string, now: string)
    requires "occurred_at" !in m
    ensures "occurred_at" in Stage1(m, id, now) && Stage1(m, id, now)["occurred_at"] == JStr(now)
  {
    assert "occurred_at" in Filled(m, id, now) && Filled(m, id, now)["occurred_at"] == JStr(now);
  }

  lemma StampedSource(m: Object, id: string, now: string)
    ensures var f := Stage1(m, id, now);
      "source" in f && f["source"] == if "source" in m then m["source"] else JStr("aws_eventbridge_scheduler")
  {
    var f := Filled(m, id, now);
    assert "source" in f;
  }

  /** A message without a source comes from the scheduler. */
  lemma SchedulerIsTheSource(c: Codec, m: Object, id: string, now: string)
    requires "source" !in m
    ensures var out := Normalise(c, m, id, now); "source" in out && out["source"] == JStr("aws_eventbridge_scheduler")
  {
    StampedSource(m, id, now);
    Stage2Facts(c, Stage1(m, id, now));
  }

  ghost predicate Occurs(word: string, text: string)
  {
    exists before: string, after: string :: text == before + word + after
  }

  lemma OccursIsContained(word: string, text: string)
    ensures Contains(text, word) <==> Occurs(word, text)
  {
    if Contains(text, word) {
      var i :| 0 <= i <= |text| && word <= text[i..];
      assert text == text[..i] + word + text[i + |word|..];
    }
    if Occurs(word, text) {
      var before, after :| text == before + word + after;
      assert text[|before|..] == word + after;
    }
  }

  /** Where a message with a source that says nothing comes from: its name and type decide, in lower case. */
  lemma SourceByName(m: Object, name: string, eventType: string)
    requires "event_name" in m && m["event_name"] == JStr(name) && "event_type" in m
        && m["event_type"] == JStr(eventType)
    ensures var text := Lower(name + " " + eventType);
      DefaultSource(m) ==
        if Occurs("booking", text) || Occurs("payment", text) then "ushbooknpay"
        else if Occurs("user", text) || Occurs("auth", text) || Occurs("password", text) then "ushauth"
        else "ushspa"
  {
    var text := Lower(name + " " + eventType);
    assert TextOf(m, "event_name") == name && TextOf(m, "event_type") == eventType;
    OccursIsContained("booking", text);
    OccursIsContained("payment", text);
    OccursIsContained("user", text);
    OccursIsContained("auth", text);
    OccursIsContained("password", text);
  }

  lemma SourceFilledIn(c: Codec, m: Object)
    ensures "source" in Stage2(c, m)
    ensures Stage2(c, m)["source"] == if Lacks(m, "source") then JStr(DefaultSource(m)) else m["source"]
  {
    LacksIsNotHas(m, "source");
    Stage2Source(c, m);
  }

  lemma Stage2Source(c: Codec, m: Object)
    ensures "source" in Stage2(c, m) && "source" in WithSource(m) && Stage2(c, m)["source"] == WithSource(m)["source"]
  {
    var v := WithVersion(c, WithSource(m));
    assert "source" in v && v["source"] == WithSource(m)["source"];
    assert "source" in WithType(v) && WithType(v)["source"] == v["source"];
  }

  /** The event type that an event name stands for: in lower case, with dots turned into underscores. */
  function TypeOfName(name: string): string
  {
    seq(|name|, i requires 0 <= i < |name| => if name[i] == '.' then '_' else Small(name[i]))
  }

  /** A message without an event type gets the one that its event name stands for, and keeps lacking it without one. */
  lemma TypeFromName(c: Codec, m: Object, id: string, now: string)
    requires Lacks(m, "event_type")
    ensures var out := Normalise(c, m, id, now);
      && (forall name :: name != "" && "event_name" in m && m["event_name"] == JStr(name) ==>
            "event_type" in out && out["event_type"] == JStr(TypeOfName(name)))
      && (Lacks(m, "event_name") ==> Lacks(out, "event_type"))
  {
    var f := Stage1(m, id, now);
    Stage1Facts(m, id, now);
    LacksIsNotHas(m, "event_type");
    LacksIsNotHas(m, "event_name");
    StampedKeepsNames(m, id, now);
    Stage2Type(c, f);
    if "event_name" in m && m["event_name"].JStr? { NamesBecomeTypes(m["event_name"].s); }
    LacksIsNotHas(Normalise(c, m, id, now), "event_type");
  }

  lemma StampedKeepsNames(m: Object, id: string, now: string)
    ensures var f := Stage1(m, id, now); forall k :: k in {"event_type", "event_name"} ==>
      (k in f <==> k in m) && (k in m ==> f[k] == m[k])
  {
    Stage1Facts(m, id, now);
  }

  lemma Stage2Type(c: Codec, m: Object)
    ensures !Has(m, "event_type") && Has(m, "event_name") ==>
      "event_type" in Stage2(c, m)
          && Stage2(c, m)["event_type"] == JStr(DotsToUnderscores(Lower(Text(m["event_name"]))))
    ensures !Has(m, "event_type") && !Has(m, "event_name") ==> !Has(Stage2(c, m), "event_type")
  {
    var v := WithVersion(c, WithSource(m));
    assert forall k :: k in {"event_type", "event_name"} ==> (k in v <==> k in m) && (k in m ==> v[k] == m[k]);
    assert "event_type" in WithType(v) <==> "event_type" in Stage2(c, m);
  }

  lemma NamesBecomeTypes(name: string)
    ensures DotsToUnderscores(Lower(name)) == TypeOfName(name)
  {
    LowerIsSmall(name);
    assert forall i :: 0 <= i < |name| ==> (Small(name[i]) == '.' <==> name[i] == '.');
  }

  // ---- the data ----

  /** One of the seven fields that an envelope is validated by, besides its data. */
  predicate EnvelopeField(k: string)
  {
    k == "event_id" || k == "event_type" || k == "version" || k == "occurred_at" || k == "source"
    || k == "correlation_id" || k == "causation_id"
  }

  /** Exactly which keys the data ends up with, and whose values they have. */
  lemma DataKeys(c: Codec, m: Object, id: string, now: string, k: string)
    ensures var out := Normalise(c, m, id, now);
      && "data" in out && out["data"].JObj?
      && if "data" in m && m["data"].JObj? then
           var own := m["data"].fields;
           var added := k in m && !EnvelopeField(k) && k != "event_name" && k != "schema_version" && k != "data";
           && (k in out["data"].fields <==> k in own || added)
           && (k in own ==> out["data"].fields[k] == own[k])
           && (k !in own && added ==> out["data"].fields[k] == m[k])
         else
           && (k in out["data"].fields <==> k in m && !EnvelopeField(k))
           && (k in m && !EnvelopeField(k) ==> out["data"].fields[k] == m[k])
  {
    DataIsConserved(c, m, id, now);
    assert EnvelopeField(k) <==> k in STAGE1_KEYS;
    assert k in ENVELOPE_KEYS <==> EnvelopeField(k) || k == "event_name" || k == "schema_version" || k == "data";
  }

  // ---- validation ----

  /** A letter, a digit, a dot, an underscore or a hyphen. */
  predicate Allowed(c: char)
  {
    ('0' <= c && c <= '9') || ('A' <= c && c <= 'Z') || ('a' <= c && c <= 'z') || c in {'.', '_', '-'}
  }

  /** The first n characters are allowed, and after them the text ends, or ends in a newline. */
  predicate AllowedTo(s: string, n: nat)
  {
    1 <= n <= |s| && (forall i :: 0 <= i < n ==> Allowed(s[i])) && (n == |s| || (n == |s| - 1 && s[n] == '\n'))
  }

  /** The event types that the pattern accepts: allowed characters, at least one, and perhaps a final newline. */
  lemma TypesExactly(s: string)
    ensures TypeMatches(s) <==> exists n :: AllowedTo(s, n)
  {
    if TypeMatches(s) {
      if AllSafe(s) {
        assert AllowedTo(s, |s|);
      } else {
        var n := |s| - 1;
        forall i | 0 <= i < n ensures Allowed(s[i]) { assert s[..n][i] == s[i]; }
        assert AllowedTo(s, n);
      }
    }
    if n: nat :| AllowedTo(s, n) {
      if n == |s| { assert AllSafe(s); } else { assert AllSafe(s[..n]); }
    }
  }

  /** An optional id is missing or null, or converts. */
  predicate OptionalOk(c: Codec, m: Object, k: string) { k in m ==> m[k] == JNull || c.uuid(m[k]).Some? }

  /** What a message needs to be accepted. */
  predicate Acceptable(c: Codec, m: Object)
  {
    && "event_id" in m && c.uuid(m["event_id"]).Some? && "occurred_at" in m && c.time(m["occurred_at"]).Some?
    && "event_type" in m && m["event_type"].JStr? && 1 <= |m["event_type"].s| <= 100 && TypeMatches(m["event_type"].s)
    && "source" in m && m["source"].JStr? && 1 <= |m["source"].s| <= 100
    && ("version" in m ==> c.integer(m["version"]).Some? && c.integer(m["version"]).value > 0)
    && OptionalOk(c, m, "correlation_id") && OptionalOk(c, m, "causation_id")
    && ("data" in m ==> m["data"].JObj?)
  }

  /** Exactly the acceptable messages are accepted, and each field of the envelope is the message's, converted. */
  lemma ValidationExactly(c: Codec, m: Object)
    ensures Validate(c, m).Some? <==> Acceptable(c, m)
    ensures Acceptable(c, m) ==>
      var e := Validate(c, m).value;
      && Some(e.eventId) == c.uuid(m["event_id"]) && Some(e.occurredAt) == c.time(m["occurred_at"])
      && e.eventType == Lower(m["event_type"].s) && e.source == m["source"].s
      && e.version == (if "version" in m then c.integer(m["version"]).value else 1)
      && e.correlationId
          == (if "correlation_id" in m && m["correlation_id"] != JNull then c.uuid(m["correlation_id"]) else None)
      && e.causationId
          == (if "causation_id" in m && m["causation_id"] != JNull then c.uuid(m["causation_id"]) else None)
      && e.data == (if "data" in m then m["data"].fields else map[])
  {
  }
}
