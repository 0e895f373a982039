/**
Accepted OTLP records field by field: what each part of a record says about the
raw span, log record, metric point, resource or scope it was made from.
*/
module OtlpMeaning {
  import opened Common
  import opened Decimals
  import opened Json
  import opened Sanitizer
  import opened OtlpRecords
  import opened OtlpRecordLaws
  import opened OtlpIngest
  import opened OtlpLeaves

  // Scalars.

  /** The same hexadecimal digit, in lower case. */
  predicate SameDigit(raw: char, x: char) {
    || (('0' <= raw <= '9' || 'a' <= raw <= 'f') && x == raw)
    || ('A' <= raw <= 'F' && x as int == raw as int + 32)
  }

  /** n hexadecimal digits, not all zero, in lower case. */
  ghost predicate IsHex(raw: Json, x: Json, n: nat) {
    && raw.Str? && x.Str? && |raw.text| == |x.text| == n
    && (exists i :: 0 <= i < n && raw.text[i] != '0')
    && forall i :: 0 <= i < n ==> SameDigit(raw.text[i], x.text[i])
  }

  /** A 64-bit natural in decimal digits. */
  ghost predicate IsNatural(raw: Json, x: Json) {
    x.Int? && 0 <= x.value < 0x1_0000_0000_0000_0000 && raw == Str(NatText(x.value))
  }

  ghost predicate IsText(raw: Json, x: Json, most: nat) {
    raw.Str? && x == raw && |raw.text| <= most
  }

  ghost predicate IsChoice(raw: Json, x: Json, choices: map<int, string>, default: string) {
    match raw
    case Null => x == Str(default)
    case Int(n) => n in choices && x == Str(choices[n])
    case Str(s) => x == raw && s in choices.Values
    case _ => false
  }

  /** One of the four supported scalars. */
  ghost predicate IsScalar(raw: Json, x: Json, env: Env) {
    && raw.Obj?
    && if raw.fields.Keys == {"stringValue"} then IsText(raw.fields["stringValue"], x, env.limits.maxText)
       else if raw.fields.Keys == {"boolValue"} then raw.fields["boolValue"].Bool? && x == raw.fields["boolValue"]
       else if raw.fields.Keys == {"intValue"} then SpellsInt(raw.fields["intValue"], x)
       else raw.fields.Keys == {"doubleValue"} && SameNumber(raw.fields["doubleValue"], x, env)
  }

  lemma HexIdMeans(v: Json, n: nat)
    ensures HexId(v, n).Some? ==> IsHex(v, Str(HexId(v, n).value), n)
  {
  }

  lemma UnsignedMeans(v: Json)
    ensures Unsigned(v).Some? ==> IsNatural(v, Int(Unsigned(v).value))
  {
    hide Unsigned, NatText;
    if Unsigned(v).Some? {
      UnsignedReadsExactly(v, Unsigned(v).value);
    }
  }

  lemma EnumMeans(v: Json, choices: map<int, string>, default: int)
    requires default in choices
    ensures Enum(v, choices, default).Some? ==>
              IsChoice(v, Str(Enum(v, choices, default).value), choices, choices[default])
  {
  }

  lemma ScalarMeans(v: Json, env: Env)
    ensures AnyValue(v, env).Some? ==> IsScalar(v, AnyValue(v, env).value, env)
    ensures AnyValue(v, env).Some? ==> !AnyValue(v, env).value.Obj? && !AnyValue(v, env).value.Arr?
  {
    hide Signed, NatText, SpellsInt;
    if v.Obj? && "intValue" in v.fields {
      SignedSpells(v.fields["intValue"]);
    }
  }

  // Attributes, resources and scopes.

  ghost predicate IsAttribute(item: Json, key: string) {
    item.Obj? && item.fields.Keys == {"key", "value"} && item.fields["key"] == Str(key) && key != ""
  }

  ghost predicate IsValue(item: Json, x: Json, env: Env) {
    item.Obj? && "value" in item.fields && IsScalar(item.fields["value"], x, env)
  }

  ghost predicate Keyed(item: Json) {
    exists key :: IsAttribute(item, key)
  }

  /** One of the first n items has this key. */
  ghost predicate HasKey(items: seq<Json>, n: nat, key: string) {
    exists i :: 0 <= i < n <= |items| && IsAttribute(items[i], key)
  }

  /** Every item is a key and a scalar, keys do not repeat, and exactly the items without a sensitive key are kept. */
  ghost predicate IsAttributes(raw: Json, x: Fields, env: Env) {
    if raw.Null? then x == map[]
    else
      && raw.Arr? && |raw.items| <= env.limits.maxAttributes
      && (forall i :: 0 <= i < |raw.items| ==> Keyed(raw.items[i]))
      && (forall i, j, key :: 0 <= i < j < |raw.items| && IsAttribute(raw.items[i], key) ==>
            !IsAttribute(raw.items[j], key))
      && (forall key :: key in x <==>
            !env.sensitive(key) && HasKey(raw.items, |raw.items|, key))
      && (forall i, key :: 0 <= i < |raw.items| && IsAttribute(raw.items[i], key) && key in x ==>
            IsValue(raw.items[i], x[key], env))
  }

  /** The paths reported as stripped are exactly the sensitive keys. */
  ghost predicate Strips(raw: Json, stripped: set<string>, env: Env) {
    forall p :: p in stripped <==> raw.Arr? && HasKey(raw.items, |raw.items|, p) && env.sensitive(p)
  }

  /** The first n items make exactly these attributes. */
  ghost predicate Collects(items: seq<Json>, n: nat, parsed: Fields, env: Env)
    requires n <= |items|
  {
    && (forall i :: 0 <= i < n ==> Keyed(items[i]))
    && (forall i, j, key :: 0 <= i < j < n && IsAttribute(items[i], key) ==> !IsAttribute(items[j], key))
    && (forall key :: key in parsed <==> HasKey(items, n, key))
    && (forall i, key :: 0 <= i < n && IsAttribute(items[i], key) ==>
          key in parsed && IsValue(items[i], parsed[key], env) && !parsed[key].Obj? && !parsed[key].Arr?)
  }

  lemma AttributeMeans(item: Json, env: Env)
    requires Attribute(item, env).Some?
    ensures var (key, x) := Attribute(item, env).value;
            && IsAttribute(item, key) && IsValue(item, x, env) && !x.Obj? && !x.Arr?
            && forall other :: IsAttribute(item, other) ==> other == key
  {
    hide AnyValue, IsScalar;
    ScalarMeans(item.fields["value"], env);
  }

  lemma {:induction false} AttributesCollect(items: seq<Json>, n: nat, env: Env)
    requires n <= |items| && AttributeMap(items, n, env).Some?
    ensures Collects(items, n, AttributeMap(items, n, env).value, env)
  {
    hide Attribute, IsValue, IsAttribute;
    if n > 0 {
      AttributesCollect(items, n - 1, env);
      AttributeMeans(items[n - 1], env);
      NextCollects(items, n - 1, AttributeMap(items, n - 1, env).value, Attribute(items[n - 1], env).value.0,
                   Attribute(items[n - 1], env).value.1, env);
    }
  }

  lemma NextCollects(items: seq<Json>, n: nat, parsed: Fields, key: string, x: Json, env: Env)
    requires n < |items| && Collects(items, n, parsed, env) && key !in parsed
    requires IsAttribute(items[n], key) && IsValue(items[n], x, env) && !x.Obj? && !x.Arr?
    requires forall other :: IsAttribute(items[n], other) ==> other == key
    ensures Collects(items, n + 1, parsed[key := x], env)
  {
    hide IsValue, IsAttribute;
    var next, m := parsed[key := x], n + 1;
    forall k
      ensures k in next <==> HasKey(items, m, k)
    {
      NextKey(items, n, k);
    }
    forall i | 0 <= i < n
      ensures !IsAttribute(items[i], key)
    {
      assert IsAttribute(items[i], key) ==> HasKey(items, n, key);
    }
    assert forall i :: 0 <= i < m ==> Keyed(items[i]);
    assert forall i, j, k :: 0 <= i < j < m && IsAttribute(items[i], k) ==> !IsAttribute(items[j], k);
    assert forall k :: k in next <==> HasKey(items, m, k);
    forall i, k | 0 <= i < m && IsAttribute(items[i], k)
      ensures k in next && IsValue(items[i], next[k], env) && !next[k].Obj? && !next[k].Arr?
    {
      if i < n {
        assert k != key;
      }
    }
  }

  lemma NextKey(items: seq<Json>, n: nat, k: string)
    requires n < |items|
    ensures HasKey(items, n + 1, k) <==> HasKey(items, n, k) || IsAttribute(items[n], k)
  {
    hide IsAttribute;
  }

  lemma AttributesMean(v: Json, env: Env)
    requires Attributes(v, env).Some?
    ensures IsAttributes(v, Attributes(v, env).value.0, env)
    ensures Strips(v, Attributes(v, env).value.1, env)
  {
    hide AttributeMap, IsValue, IsAttribute, Clean, HasKey, Removed;
    if v.Arr? {
      AttributesCollect(v.items, |v.items|, env);
      var parsed := AttributeMap(v.items, |v.items|, env).value;
      CleanIsObject(parsed, env.sensitive);
      CleanScalars(v.items, parsed, env);
      StrippedScalars(v.items, parsed, env);
    }
  }

  lemma StrippedScalars(items: seq<Json>, parsed: Fields, env: Env)
    requires Collects(items, |items|, parsed, env)
    ensures forall p :: p in Removed(Obj(parsed), env.sensitive, "") <==> p in parsed && env.sensitive(p)
  {
    hide IsValue, IsAttribute;
    forall key | key in parsed
      ensures Removed(parsed[key], env.sensitive, key) == {}
    {
      assert HasKey(items, |items|, key);
      var i :| 0 <= i < |items| && IsAttribute(items[i], key);
    }
  }

  lemma CleanScalars(items: seq<Json>, parsed: Fields, env: Env)
    requires Collects(items, |items|, parsed, env)
    ensures var clean := Clean(Obj(parsed), env.sensitive).fields;
            forall key :: (key in clean <==> key in parsed && !env.sensitive(key))
                          && (key in clean ==> clean[key] == parsed[key])
  {
    hide IsValue, IsAttribute;
    forall key | key in parsed
      ensures Clean(parsed[key], env.sensitive) == parsed[key]
    {
      assert HasKey(items, |items|, key);
      var i :| 0 <= i < |items| && IsAttribute(items[i], key);
    }
  }

  /** What a resource object, or none, says. */
  ghost predicate IsResource(raw: Json, x: Fields, env: Env) {
    if raw.Null? then x == map[]
    else raw.Obj? && raw.fields.Keys <= {"attributes"} && IsAttributes(Get(raw.fields, "attributes"), x, env)
  }

  ghost predicate IsFilledText(raw: Json, x: Json, env: Env) {
    IsText(raw, x, env.limits.maxText) && x != Str("")
  }

  /** What a scope object, or none, says: attributes are listed only when some are left. */
  ghost predicate IsScope(raw: Json, x: Fields, env: Env) {
    if raw.Null? then x == map[]
    else
      && raw.Obj? && raw.fields.Keys <= {"name", "version", "attributes"}
      && x.Keys <= {"name", "version", "attributes"}
      && ("name" in x <==> "name" in raw.fields) && ("version" in x <==> "version" in raw.fields)
      && ("name" in x ==> IsFilledText(raw.fields["name"], x["name"], env))
      && ("version" in x ==> IsFilledText(raw.fields["version"], x["version"], env))
      && if "attributes" in x
         then x["attributes"].Obj? && x["attributes"].fields != map[]
              && IsAttributes(Get(raw.fields, "attributes"), x["attributes"].fields, env)
         else IsAttributes(Get(raw.fields, "attributes"), map[], env)
  }

  lemma ResourceMeans(raw: Json, env: Env)
    requires Resource(raw, env).Some?
    ensures IsResource(raw, Resource(raw, env).value.0, env)
    ensures Strips(if raw.Obj? then Get(raw.fields, "attributes") else Null, Resource(raw, env).value.1, env)
  {
    hide Attributes, IsAttributes;
    if !raw.Null? {
      AttributesMean(Get(raw.fields, "attributes"), env);
    }
  }

  lemma ScopeMeans(raw: Json, env: Env)
    requires ScopeOf(raw, env).Some?
    ensures IsScope(raw, ScopeOf(raw, env).value.0, env)
    ensures Strips(if raw.Obj? then Get(raw.fields, "attributes") else Null, ScopeOf(raw, env).value.1, env)
  {
    hide Attributes, IsAttributes;
    if !raw.Null? {
      AttributesMean(Get(raw.fields, "attributes"), env);
    }
  }

  // Spans.

  const SPAN_KEYS := {"trace_id", "span_id", "parent_span_id", "start_time_unix_nano", "end_time_unix_nano",
                      "duration_nano", "kind", "status"}

  function KindName(): map<int, string> {
    map[0 := "SPAN_KIND_UNSPECIFIED", 1 := "SPAN_KIND_INTERNAL", 2 := "SPAN_KIND_SERVER", 3 := "SPAN_KIND_CLIENT",
        4 := "SPAN_KIND_PRODUCER", 5 := "SPAN_KIND_CONSUMER"]
  }

  function StatusName(): map<int, string> {
    map[0 := "STATUS_CODE_UNSET", 1 := "STATUS_CODE_OK", 2 := "STATUS_CODE_ERROR"]
  }

  function TemporalityName(): map<int, string> {
    map[1 := "AGGREGATION_TEMPORALITY_DELTA", 2 := "AGGREGATION_TEMPORALITY_CUMULATIVE"]
  }

  /** No status at all reads as an empty one. */
  ghost predicate IsStatus(f: Fields, x: Json, env: Env) {
    var raw := if "status" in f then f["status"] else Obj(map[]);
    && raw.Obj? && raw.fields.Keys <= {"code", "message"}
    && x.Obj? && x.fields.Keys == {"code"} + (if "message" in raw.fields then {"message"} else {})
    && IsChoice(Get(raw.fields, "code"), x.fields["code"], StatusName(), "STATUS_CODE_UNSET")
    && ("message" in raw.fields ==> IsText(raw.fields["message"], x.fields["message"], env.limits.maxText))
  }

  ghost predicate IsParent(f: Fields, x: Json) {
    if "parentSpanId" !in f || f["parentSpanId"] == Str("") then x.Null? else IsHex(f["parentSpanId"], x, 16)
  }

  /** The identifiers, times, kind, status and trace state of a span, each in its own place. */
  ghost predicate IsSpanData(f: Fields, d: Fields, env: Env) {
    && {"traceId", "spanId", "name", "startTimeUnixNano", "endTimeUnixNano"} <= f.Keys
    && d.Keys == SPAN_KEYS + (if "traceState" in f then {"trace_state"} else {})
    && IsHex(f["traceId"], d["trace_id"], 32) && IsHex(f["spanId"], d["span_id"], 16)
    && IsParent(f, d["parent_span_id"])
    && IsNatural(f["startTimeUnixNano"], d["start_time_unix_nano"])
    && IsNatural(f["endTimeUnixNano"], d["end_time_unix_nano"])
    && d["start_time_unix_nano"].value <= d["end_time_unix_nano"].value
    && d["duration_nano"] == Int(d["end_time_unix_nano"].value - d["start_time_unix_nano"].value)
    && IsChoice(Get(f, "kind"), d["kind"], KindName(), "SPAN_KIND_UNSPECIFIED") && IsStatus(f, d["status"], env)
    && ("traceState" in f ==> IsText(f["traceState"], d["trace_state"], env.limits.maxText))
  }

  ghost predicate IsSpan(v: Json, r: Record, env: Env, resource: Fields, scope: Fields) {
    && v.Obj? && IsSpanData(v.fields, r.data, env)
    && r.signal == Traces && Int(r.time) == r.data["end_time_unix_nano"]
    && v.fields["name"] == Str(r.name) && 1 <= |r.name| <= env.limits.maxText
    && r.resource == resource && r.scope == scope && IsAttributes(Get(v.fields, "attributes"), r.attributes, env)
  }

  lemma StatusMeans(f: Fields, env: Env)
    requires Status(f, env.limits).Some?
    ensures IsStatus(f, Status(f, env.limits).value, env)
  {
    hide Enum, IsChoice;
    var raw := if "status" in f then f["status"] else Obj(map[]);
    EnumMeans(Get(raw.fields, "code"), STATUS_CODES, 0);
    assert STATUS_CODES == StatusName();
  }

  lemma ParentMeans(f: Fields)
    requires ParentId(f).Some?
    ensures IsParent(f, ParentId(f).value)
  {
    hide HexId, IsHex;
    if "parentSpanId" in f {
      HexIdMeans(f["parentSpanId"], 16);
    }
  }

  lemma SpanDataReads(trace: string, span: string, parent: Json, start: nat, end: nat, kind: string, status: Json,
                      state: Fields)
    requires state.Keys <= {"trace_state"}
    ensures var d := SpanData(trace, span, parent, start, end, kind, status) + state;
            && d.Keys == SPAN_KEYS + state.Keys
            && d["trace_id"] == Str(trace) && d["span_id"] == Str(span) && d["parent_span_id"] == parent
            && d["start_time_unix_nano"] == Int(start) && d["end_time_unix_nano"] == Int(end)
            && d["duration_nano"] == Int(end - start) && d["kind"] == Str(kind) && d["status"] == status
            && ("trace_state" in state ==> d["trace_state"] == state["trace_state"])
  {
  }

  lemma SpanScalars(f: Fields, env: Env)
    requires {"traceId", "spanId", "startTimeUnixNano", "endTimeUnixNano"} <= f.Keys
    ensures HexId(f["traceId"], 32).Some? ==> IsHex(f["traceId"], Str(HexId(f["traceId"], 32).value), 32)
    ensures HexId(f["spanId"], 16).Some? ==> IsHex(f["spanId"], Str(HexId(f["spanId"], 16).value), 16)
    ensures Unsigned(f["startTimeUnixNano"]).Some? ==>
              IsNatural(f["startTimeUnixNano"], Int(Unsigned(f["startTimeUnixNano"]).value))
    ensures Unsigned(f["endTimeUnixNano"]).Some? ==>
              IsNatural(f["endTimeUnixNano"], Int(Unsigned(f["endTimeUnixNano"]).value))
    ensures Enum(Get(f, "kind"), SPAN_KINDS, 0).Some? ==>
              IsChoice(Get(f, "kind"), Str(Enum(Get(f, "kind"), SPAN_KINDS, 0).value), KindName(),
                       "SPAN_KIND_UNSPECIFIED")
  {
    hide HexId, Unsigned, Enum, IsHex, IsNatural, IsChoice;
    HexIdMeans(f["traceId"], 32);
    HexIdMeans(f["spanId"], 16);
    UnsignedMeans(f["startTimeUnixNano"]);
    UnsignedMeans(f["endTimeUnixNano"]);
    EnumMeans(Get(f, "kind"), SPAN_KINDS, 0);
    assert SPAN_KINDS == KindName();
  }

  lemma SpanDataMeans(f: Fields, d: Fields, state: Fields, env: Env)
    requires {"traceId", "spanId", "name", "startTimeUnixNano", "endTimeUnixNano"} <= f.Keys
    requires HexId(f["traceId"], 32).Some? && HexId(f["spanId"], 16).Some? && ParentId(f).Some?
    requires Unsigned(f["startTimeUnixNano"]).Some? && Unsigned(f["endTimeUnixNano"]).Some?
    requires Unsigned(f["startTimeUnixNano"]).value <= Unsigned(f["endTimeUnixNano"]).value
    requires Enum(Get(f, "kind"), SPAN_KINDS, 0).Some? && Status(f, env.limits).Some?
    requires state.Keys == if "traceState" in f then {"trace_state"} else {}
    requires "traceState" in f ==> IsText(f["traceState"], state["trace_state"], env.limits.maxText)
    requires d == SpanData(HexId(f["traceId"], 32).value, HexId(f["spanId"], 16).value, ParentId(f).value,
                           Unsigned(f["startTimeUnixNano"]).value, Unsigned(f["endTimeUnixNano"]).value,
                           Enum(Get(f, "kind"), SPAN_KINDS, 0).value, Status(f, env.limits).value) + state
    ensures IsSpanData(f, d, env) && d["end_time_unix_nano"] == Int(Unsigned(f["endTimeUnixNano"]).value)
  {
    hide HexId, Unsigned, Enum, IsHex, IsNatural, IsChoice, Status, IsStatus, ParentId, IsParent, SpanData, IsText;
    SpanScalars(f, env);
    StatusMeans(f, env);
    ParentMeans(f);
    SpanDataReads(HexId(f["traceId"], 32).value, HexId(f["spanId"], 16).value, ParentId(f).value,
                  Unsigned(f["startTimeUnixNano"]).value, Unsigned(f["endTimeUnixNano"]).value,
                  Enum(Get(f, "kind"), SPAN_KINDS, 0).value, Status(f, env.limits).value, state);
  }

  /** The record of an accepted span is that span's, every field in its place, with its own resource and scope. */
  lemma AcceptedSpan(v: Json, env: Env, resource: Fields, scope: Fields) returns (r: Record)
    requires Span(v, env, resource, scope).Some?
    ensures Span(v, env, resource, scope).value.records == [r] && IsSpan(v, r, env, resource, scope)
    ensures Strips(Get(v.fields, "attributes"), Span(v, env, resource, scope).value.stripped, env)
  {
    hide HexId, Unsigned, Enum, Status, ParentId, Attributes, IsAttributes, SpanData, Strips, IsSpanData;
    r := Span(v, env, resource, scope).value.records[0];
    var f := v.fields;
    AttributesMean(Get(f, "attributes"), env);
    SpanDataMeans(f, r.data, if "traceState" in f then map["trace_state" := f["traceState"]] else map[], env);
  }

  // Log records.

  const LOG_KEYS := {"body", "observed_time_unix_nano", "severity_number", "severity_text", "flags", "trace_id",
                     "span_id"}

  /** Body, observation time and severity, each in its own place. */
  ghost predicate IsLogStart(f: Fields, d: Fields, env: Env) {
    && "body" in f && "body" in d && IsScalar(f["body"], d["body"], env)
    && ("observed_time_unix_nano" in d <==> "observedTimeUnixNano" in f)
    && ("observed_time_unix_nano" in d ==> IsNatural(f["observedTimeUnixNano"], d["observed_time_unix_nano"]))
    && ("severity_number" in d <==> "severityNumber" in f)
    && ("severity_number" in d ==>
          d["severity_number"] == f["severityNumber"] && d["severity_number"].Int?
          && 0 <= d["severity_number"].value <= 24)
  }

  /** Severity text, flags and identifiers, each in its own place. */
  ghost predicate IsLogRest(f: Fields, d: Fields, env: Env) {
    && ("severity_text" in d <==> "severityText" in f)
    && ("severity_text" in d ==> IsText(f["severityText"], d["severity_text"], env.limits.maxText))
    && ("flags" in d <==> "flags" in f) && ("flags" in d ==> d["flags"] == f["flags"] && d["flags"].Int?)
    && ("trace_id" in d <==> "traceId" in f) && ("trace_id" in d ==> IsHex(f["traceId"], d["trace_id"], 32))
    && ("span_id" in d <==> "spanId" in f) && ("span_id" in d ==> IsHex(f["spanId"], d["span_id"], 16))
  }

  ghost predicate IsLogData(f: Fields, d: Fields, env: Env) {
    && {"timeUnixNano", "body"} <= f.Keys && ("spanId" in f ==> "traceId" in f) && d.Keys <= LOG_KEYS
    && IsLogStart(f, d, env) && IsLogRest(f, d, env)
  }

  /** A log record is named after its severity text, if it has one. */
  ghost predicate IsLog(v: Json, r: Record, env: Env, resource: Fields, scope: Fields) {
    && v.Obj? && IsLogData(v.fields, r.data, env)
    && r.signal == Logs && IsNatural(v.fields["timeUnixNano"], Int(r.time))
    && (if "severityText" in v.fields && v.fields["severityText"] != Str("")
        then v.fields["severityText"] == Str(r.name) else r.name == "log")
    && r.resource == resource && r.scope == scope && IsAttributes(Get(v.fields, "attributes"), r.attributes, env)
  }

  lemma StartParts(f: Fields, env: Env)
    ensures ObservedTime(f).Some? ==>
              var m := ObservedTime(f).value;
              && m.Keys == (if "observedTimeUnixNano" in f then {"observed_time_unix_nano"} else {})
              && ("observedTimeUnixNano" in f ==> IsNatural(f["observedTimeUnixNano"], m["observed_time_unix_nano"]))
    ensures Severity(f).Some? ==>
              var m := Severity(f).value;
              && m.Keys == (if "severityNumber" in f then {"severity_number"} else {})
              && ("severityNumber" in f ==> m["severity_number"] == f["severityNumber"] && f["severityNumber"].Int?
                                            && 0 <= f["severityNumber"].value <= 24)
  {
    hide Unsigned, IsNatural;
    if "observedTimeUnixNano" in f {
      UnsignedMeans(f["observedTimeUnixNano"]);
    }
  }

  lemma RestParts(f: Fields, env: Env)
    ensures SeverityText(f, env.limits).Some? ==>
              var m := SeverityText(f, env.limits).value;
              && m.Keys == (if "severityText" in f then {"severity_text"} else {})
              && ("severityText" in f ==> IsText(f["severityText"], m["severity_text"], env.limits.maxText))
    ensures Flags(f).Some? ==>
              var m := Flags(f).value;
              m.Keys == (if "flags" in f then {"flags"} else {})
              && ("flags" in f ==> m["flags"] == f["flags"] && f["flags"].Int?)
  {
  }

  lemma CorrelationMeans(f: Fields)
    requires Correlation(f).Some?
    ensures "spanId" in f ==> "traceId" in f
    ensures var m := Correlation(f).value;
            && m.Keys == (if "traceId" in f then {"trace_id"} else {}) + (if "spanId" in f then {"span_id"} else {})
            && ("traceId" in f ==> IsHex(f["traceId"], m["trace_id"], 32))
            && ("spanId" in f ==> IsHex(f["spanId"], m["span_id"], 16))
  {
    hide HexId, IsHex;
    if "traceId" in f {
      HexIdMeans(f["traceId"], 32);
    }
    if "spanId" in f {
      HexIdMeans(f["spanId"], 16);
    }
  }

  /** Parts with keys of their own keep them in a sum. */
  lemma LogSum(body: Json, observed: Fields, severity: Fields)
    requires observed.Keys <= {"observed_time_unix_nano"} && severity.Keys <= {"severity_number"}
    ensures var d := map["body" := body] + observed + severity;
            && d.Keys == {"body"} + observed.Keys + severity.Keys
            && d["body"] == body && (forall k :: k in observed ==> d[k] == observed[k])
            && (forall k :: k in severity ==> d[k] == severity[k])
  {
  }

  lemma LogRest(first: Fields, text: Fields, flags: Fields, ids: Fields)
    requires first.Keys <= {"body", "observed_time_unix_nano", "severity_number"}
    requires text.Keys <= {"severity_text"} && flags.Keys <= {"flags"} && ids.Keys <= {"trace_id", "span_id"}
    ensures var d := first + text + flags + ids;
            && d.Keys == first.Keys + text.Keys + flags.Keys + ids.Keys
            && (forall k :: k in first ==> d[k] == first[k]) && (forall k :: k in text ==> d[k] == text[k])
            && (forall k :: k in flags ==> d[k] == flags[k]) && (forall k :: k in ids ==> d[k] == ids[k])
  {
  }

  lemma LogDataMeans(f: Fields, d: Fields, env: Env)
    requires {"timeUnixNano", "body"} <= f.Keys
    requires AnyValue(f["body"], env).Some? && ObservedTime(f).Some? && Severity(f).Some?
    requires SeverityText(f, env.limits).Some? && Flags(f).Some? && Correlation(f).Some?
    requires d == map["body" := AnyValue(f["body"], env).value] + ObservedTime(f).value + Severity(f).value
                  + SeverityText(f, env.limits).value + Flags(f).value + Correlation(f).value
    ensures IsLogData(f, d, env)
  {
    hide AnyValue, ObservedTime, Severity, SeverityText, Flags, Correlation, IsLogStart, IsLogRest;
    var first := map["body" := AnyValue(f["body"], env).value] + ObservedTime(f).value + Severity(f).value;
    LogStartMeans(f, first, env);
    LogRestMeans(f, first, d, env);
  }

  lemma LogStartMeans(f: Fields, first: Fields, env: Env)
    requires "body" in f && AnyValue(f["body"], env).Some? && ObservedTime(f).Some? && Severity(f).Some?
    requires first == map["body" := AnyValue(f["body"], env).value] + ObservedTime(f).value + Severity(f).value
    ensures IsLogStart(f, first, env)
    ensures first.Keys <= {"body", "observed_time_unix_nano", "severity_number"}
  {
    hide AnyValue, ObservedTime, Severity, SeverityText, Flags, IsScalar, IsNatural, IsText;
    ScalarMeans(f["body"], env);
    StartParts(f, env);
    LogSum(AnyValue(f["body"], env).value, ObservedTime(f).value, Severity(f).value);
  }

  lemma LogRestMeans(f: Fields, first: Fields, d: Fields, env: Env)
    requires IsLogStart(f, first, env) && first.Keys <= {"body", "observed_time_unix_nano", "severity_number"}
    requires SeverityText(f, env.limits).Some? && Flags(f).Some? && Correlation(f).Some?
    requires d == first + SeverityText(f, env.limits).value + Flags(f).value + Correlation(f).value
    ensures IsLogStart(f, d, env) && IsLogRest(f, d, env) && ("spanId" in f ==> "traceId" in f)
    ensures d.Keys <= LOG_KEYS
  {
    hide SeverityText, Flags, Correlation, IsLogStart, IsText, IsHex, IsLogRest;
    RestParts(f, env);
    CorrelationMeans(f);
    var text, flags, ids := SeverityText(f, env.limits).value, Flags(f).value, Correlation(f).value;
    LogRest(first, text, flags, ids);
    LogStartStays(f, first, d, env);
    RestStays(f, first, text, flags, ids, d, env);
  }

  lemma RestStays(f: Fields, first: Fields, text: Fields, flags: Fields, ids: Fields, d: Fields, env: Env)
    requires first.Keys <= {"body", "observed_time_unix_nano", "severity_number"}
    requires d.Keys == first.Keys + text.Keys + flags.Keys + ids.Keys
    requires (forall k :: k in text ==> d[k] == text[k]) && (forall k :: k in flags ==> d[k] == flags[k])
    requires forall k :: k in ids ==> d[k] == ids[k]
    requires text.Keys == (if "severityText" in f then {"severity_text"} else {})
    requires "severityText" in f ==> IsText(f["severityText"], text["severity_text"], env.limits.maxText)
    requires flags.Keys == (if "flags" in f then {"flags"} else {})
    requires "flags" in f ==> flags["flags"] == f["flags"] && f["flags"].Int?
    requires ids.Keys == (if "traceId" in f then {"trace_id"} else {}) + (if "spanId" in f then {"span_id"} else {})
    requires "traceId" in f ==> IsHex(f["traceId"], ids["trace_id"], 32)
    requires "spanId" in f ==> IsHex(f["spanId"], ids["span_id"], 16)
    ensures IsLogRest(f, d, env) && d.Keys <= LOG_KEYS
  {
    hide IsText, IsHex;
  }

  lemma LogStartStays(f: Fields, first: Fields, d: Fields, env: Env)
    requires IsLogStart(f, first, env) && first.Keys <= d.Keys && forall k :: k in first ==> d[k] == first[k]
    requires d.Keys <= first.Keys + {"severity_text", "flags", "trace_id", "span_id"}
    ensures IsLogStart(f, d, env)
  {
    hide IsScalar, IsNatural;
  }

  /** The record of an accepted log record is that one's, every field in its place. */
  lemma AcceptedLog(v: Json, env: Env, resource: Fields, scope: Fields) returns (r: Record)
    requires LogRecord(v, env, resource, scope).Some?
    ensures LogRecord(v, env, resource, scope).value.records == [r] && IsLog(v, r, env, resource, scope)
    ensures Strips(Get(v.fields, "attributes"), LogRecord(v, env, resource, scope).value.stripped, env)
  {
    hide AnyValue, ObservedTime, Severity, Flags, Correlation, IsLogData, IsNatural, Attributes, IsAttributes, Strips,
         Unsigned;
    r := LogRecord(v, env, resource, scope).value.records[0];
    UnsignedMeans(v.fields["timeUnixNano"]);
    AttributesMean(Get(v.fields, "attributes"), env);
    LogDataMeans(v.fields, r.data, env);
  }

  // Metric points.

  /** Value, encoding, start time and flags of a number point. */
  ghost predicate IsNumberData(f: Fields, d: Fields, time: nat, env: Env) {
    && "timeUnixNano" in f && IsNatural(f["timeUnixNano"], Int(time))
    && d.Keys == {"value", "value_encoding"} + OptionalKeySet(f)
    && IsOptional(f, d, time)
    && (("asInt" in f) != ("asDouble" in f))
    && (if "asInt" in f then d["value_encoding"] == Str("asInt") && SpellsInt(f["asInt"], d["value"])
        else d["value_encoding"] == Str("asDouble") && SameNumber(f["asDouble"], d["value"], env))
  }

  ghost function OptionalKeySet(f: Fields): set<string> {
    (if "startTimeUnixNano" in f then {"start_time_unix_nano"} else {}) + (if "flags" in f then {"flags"} else {})
  }

  ghost predicate IsOptional(f: Fields, d: Fields, time: nat) {
    && ("startTimeUnixNano" in f ==>
          "start_time_unix_nano" in d && StartsBy(f["startTimeUnixNano"], d["start_time_unix_nano"], time))
    && ("flags" in f ==> "flags" in d && d["flags"] == f["flags"] && f["flags"].Int?)
  }

  lemma OptionalMeans(f: Fields, time: nat)
    requires StartTime(f, time).Some? && Flags(f).Some?
    ensures var d := StartTime(f, time).value + Flags(f).value;
            d.Keys == OptionalKeySet(f) && IsOptional(f, d, time)
    ensures StartTime(f, time).value.Keys <= {"start_time_unix_nano"} && Flags(f).value.Keys <= {"flags"}
  {
    hide Unsigned, StartsBy;
    if "startTimeUnixNano" in f {
      StartReads(f, time);
    }
  }

  lemma NumberSum(value: Json, encoding: Json, start: Fields, flags: Fields)
    requires start.Keys <= {"start_time_unix_nano"} && flags.Keys <= {"flags"}
    ensures var d := map["value" := value, "value_encoding" := encoding] + start + flags;
            && d.Keys == {"value", "value_encoding"} + (start + flags).Keys
            && d["value"] == value && d["value_encoding"] == encoding
            && forall k :: k in start + flags ==> d[k] == (start + flags)[k]
  {
  }

  lemma AcceptedNumber(v: Json, env: Env)
    requires NumberPoint(v, env).Some?
    ensures var p := NumberPoint(v, env).value;
            && v.Obj? && IsNumberData(v.fields, p.data, p.time, env)
            && IsAttributes(Get(v.fields, "attributes"), p.attributes, env)
            && Strips(Get(v.fields, "attributes"), p.stripped, env)
  {
    hide Attributes, IsAttributes, Strips, Unsigned, Signed, IsNatural, SpellsInt, StartTime, Flags, IsOptional,
         OptionalKeySet;
    var f, p := v.fields, NumberPoint(v, env).value;
    UnsignedMeans(f["timeUnixNano"]);
    AttributesMean(Get(f, "attributes"), env);
    OptionalMeans(f, p.time);
    var start, flags := StartTime(f, p.time).value, Flags(f).value;
    NumberSum(p.data["value"], p.data["value_encoding"], start, flags);
    OptionalStays(f, start + flags, p.data, p.time);
    if "asInt" in f {
      SignedSpells(f["asInt"]);
    }
  }

  lemma OptionalStays(f: Fields, part: Fields, d: Fields, time: nat)
    requires IsOptional(f, part, time) && part.Keys == OptionalKeySet(f)
    requires forall k :: k in part ==> k in d && d[k] == part[k]
    ensures IsOptional(f, d, time)
  {
    hide StartsBy;
  }

  lemma {:induction false} CountsMean(items: seq<Json>)
    ensures Counts(items).Some? ==>
              && |Counts(items).value| == |items|
              && forall i :: 0 <= i < |items| ==> IsNatural(items[i], Int(Counts(items).value[i]))
  {
    hide Unsigned, IsNatural;
    if items != [] {
      CountsMean(items[1..]);
      UnsignedMeans(items[0]);
      assert forall i :: 1 <= i < |items| ==> items[i] == items[1..][i - 1];
    }
  }

  lemma {:induction false} NumbersMean(items: seq<Json>, env: Env)
    ensures Numbers(items, env).Some? ==>
              && |Numbers(items, env).value| == |items|
              && forall i :: 0 <= i < |items| ==> SameNumber(items[i], Real(Numbers(items, env).value[i]), env)
  {
    if items != [] {
      NumbersMean(items[1..], env);
      assert forall i :: 1 <= i < |items| ==> items[i] == items[1..][i - 1];
    }
  }

  ghost predicate AreNaturals(raw: Json, x: Json) {
    && raw.Arr? && x.Arr? && |raw.items| == |x.items|
    && forall i :: 0 <= i < |raw.items| ==> IsNatural(raw.items[i], x.items[i])
  }

  ghost predicate AreNumbers(raw: Json, x: Json, env: Env) {
    && raw.Arr? && x.Arr? && |raw.items| == |x.items|
    && forall i :: 0 <= i < |raw.items| ==> SameNumber(raw.items[i], x.items[i], env)
  }

  /** A number kept under its own name when it is there. */
  ghost predicate KeepsNumber(f: Fields, d: Fields, key: string, env: Env) {
    (key in d <==> key in f) && (key in f ==> SameNumber(f[key], d[key], env))
  }

  ghost predicate IsBuckets(f: Fields, d: Fields, env: Env) {
    && {"count", "bucketCounts", "explicitBounds"} <= f.Keys && {"count", "bucket_counts", "explicit_bounds"} <= d.Keys
    && IsNatural(f["count"], d["count"]) && AreNaturals(f["bucketCounts"], d["bucket_counts"])
    && AreNumbers(f["explicitBounds"], d["explicit_bounds"], env)
  }

  ghost predicate IsSummary(f: Fields, d: Fields, env: Env) {
    && KeepsNumber(f, d, "sum", env) && KeepsNumber(f, d, "min", env) && KeepsNumber(f, d, "max", env)
    && ("min" in d && "max" in d ==> d["min"].Real? && d["max"].Real? && d["min"].number <= d["max"].number)
  }

  ghost predicate IsHistogramData(f: Fields, d: Fields, time: nat, env: Env) {
    && "timeUnixNano" in f && IsNatural(f["timeUnixNano"], Int(time))
    && d.Keys <= {"count", "bucket_counts", "explicit_bounds", "sum", "min", "max"} + OptionalKeySet(f)
    && IsBuckets(f, d, env) && IsSummary(f, d, env) && IsOptional(f, d, time)
  }

  lemma BucketsMean(f: Fields, env: Env)
    requires {"count", "bucketCounts", "explicitBounds"} <= f.Keys && Buckets(f, env).Some?
    ensures var (counts, bounds, count) := Buckets(f, env).value;
            && IsNatural(f["count"], Int(count)) && AreNaturals(f["bucketCounts"], CountsJson(counts))
            && AreNumbers(f["explicitBounds"], BoundsJson(bounds), env)
  {
    hide Unsigned, IsNatural, SameNumber, Counts, Numbers, StepsUp, Total;
    UnsignedMeans(f["count"]);
    CountsMean(f["bucketCounts"].items);
    NumbersMean(f["explicitBounds"].items, env);
  }

  lemma NumberKept(f: Fields, key: string, env: Env)
    requires OptionalNumber(f, key, env).Some?
    ensures var m := OptionalNumber(f, key, env).value;
            m.Keys == (if key in f then {key} else {}) && (key in f ==> SameNumber(f[key], m[key], env))
            && (key in f ==> Number(f[key], env) == Some(m[key].number))
  {
  }

  /** Buckets and optional parts keep their values in the sum. */
  lemma HistogramSum(core: Fields, start: Fields, sum: Fields, min: Fields, max: Fields, flags: Fields)
    requires core.Keys == {"count", "bucket_counts", "explicit_bounds"}
    requires start.Keys <= {"start_time_unix_nano"} && sum.Keys <= {"sum"} && min.Keys <= {"min"}
    requires max.Keys <= {"max"} && flags.Keys <= {"flags"}
    ensures var d := core + start + sum + min + max + flags;
            && d.Keys == core.Keys + start.Keys + sum.Keys + min.Keys + max.Keys + flags.Keys
            && (forall k :: k in core ==> d[k] == core[k])
            && (forall k :: k in start + flags ==> d[k] == (start + flags)[k])
            && (forall k :: k in sum ==> d[k] == sum[k]) && (forall k :: k in min ==> d[k] == min[k])
            && (forall k :: k in max ==> d[k] == max[k])
  {
    HistogramStart(core, start, sum);
    var first := core + start + sum;
    Keeps(first, min);
    Keeps(first + min, max);
    Keeps(first + min + max, flags);
  }

  lemma SummaryNames(core: set<string>, start: set<string>, sum: set<string>, min: set<string>, max: set<string>,
                     flags: set<string>, d: set<string>)
    requires core == {"count", "bucket_counts", "explicit_bounds"} && d == core + start + sum + min + max + flags
    requires start <= {"start_time_unix_nano"} && sum <= {"sum"} && min <= {"min"}
    requires max <= {"max"} && flags <= {"flags"}
    ensures ("sum" in d <==> "sum" in sum) && ("min" in d <==> "min" in min) && ("max" in d <==> "max" in max)
    ensures d <= {"count", "bucket_counts", "explicit_bounds", "sum", "min", "max"} + (start + flags)
  {
  }

  lemma HistogramStart(core: Fields, start: Fields, sum: Fields)
    requires core.Keys == {"count", "bucket_counts", "explicit_bounds"}
    requires start.Keys <= {"start_time_unix_nano"} && sum.Keys <= {"sum"}
    ensures var d := core + start + sum;
            && d.Keys == core.Keys + start.Keys + sum.Keys && (forall k :: k in core ==> d[k] == core[k])
            && (forall k :: k in start ==> d[k] == start[k]) && forall k :: k in sum ==> d[k] == sum[k]
  {
    Keeps(core, start);
    Keeps(core + start, sum);
  }

  /** Adding a part with other keys changes nothing that is there. */
  lemma Keeps(a: Fields, b: Fields)
    requires a.Keys !! b.Keys
    ensures (a + b).Keys == a.Keys + b.Keys
    ensures (forall k :: k in a ==> (a + b)[k] == a[k]) && forall k :: k in b ==> (a + b)[k] == b[k]
  {
  }

  lemma HistogramDataMeans(f: Fields, d: Fields, time: nat, env: Env)
    requires {"timeUnixNano", "count", "bucketCounts", "explicitBounds"} <= f.Keys
    requires Buckets(f, env).Some? && StartTime(f, time).Some? && Flags(f).Some? && !MinExceedsMax(f, env)
    requires OptionalNumber(f, "sum", env).Some? && OptionalNumber(f, "min", env).Some?
    requires OptionalNumber(f, "max", env).Some? && IsNatural(f["timeUnixNano"], Int(time))
    requires var (counts, bounds, count) := Buckets(f, env).value;
             d == map["count" := Int(count), "bucket_counts" := CountsJson(counts),
                      "explicit_bounds" := BoundsJson(bounds)]
                  + StartTime(f, time).value + OptionalNumber(f, "sum", env).value + OptionalNumber(f, "min", env).value
                  + OptionalNumber(f, "max", env).value + Flags(f).value
    ensures IsHistogramData(f, d, time, env)
  {
    hide Buckets, StartTime, Flags, OptionalNumber, IsNatural, AreNaturals, AreNumbers, SameNumber, CountsJson,
         BoundsJson, IsOptional, OptionalKeySet, StartsBy, Number;
    var (counts, bounds, count) := Buckets(f, env).value;
    var core := map["count" := Int(count), "bucket_counts" := CountsJson(counts),
                    "explicit_bounds" := BoundsJson(bounds)];
    BucketsMean(f, env);
    OptionalMeans(f, time);
    NumberKept(f, "sum", env);
    NumberKept(f, "min", env);
    NumberKept(f, "max", env);
    HistogramPlaces(f, core, StartTime(f, time).value, OptionalNumber(f, "sum", env).value,
                    OptionalNumber(f, "min", env).value, OptionalNumber(f, "max", env).value, Flags(f).value, d, time,
                    env);
  }

  ghost predicate KeptAs(f: Fields, key: string, m: Fields, env: Env) {
    m.Keys == (if key in f then {key} else {}) && (key in f ==> SameNumber(f[key], m[key], env))
  }

  lemma HistogramPlaces(f: Fields, core: Fields, start: Fields, sum: Fields, min: Fields, max: Fields, flags: Fields,
                        d: Fields, time: nat, env: Env)
    requires {"timeUnixNano", "count", "bucketCounts", "explicitBounds"} <= f.Keys
    requires IsNatural(f["timeUnixNano"], Int(time)) && core.Keys == {"count", "bucket_counts", "explicit_bounds"}
    requires IsNatural(f["count"], core["count"]) && AreNaturals(f["bucketCounts"], core["bucket_counts"])
    requires AreNumbers(f["explicitBounds"], core["explicit_bounds"], env)
    requires start.Keys <= {"start_time_unix_nano"} && flags.Keys <= {"flags"}
    requires (start + flags).Keys == OptionalKeySet(f) && IsOptional(f, start + flags, time)
    requires KeptAs(f, "sum", sum, env) && KeptAs(f, "min", min, env) && KeptAs(f, "max", max, env)
    requires "min" in f && "max" in f ==> min["min"].Real? && max["max"].Real? && min["min"].number <= max["max"].number
    requires d == core + start + sum + min + max + flags
    ensures IsHistogramData(f, d, time, env)
  {
    hide IsNatural, IsBuckets, IsSummary, SameNumber, IsOptional, OptionalKeySet, AreNaturals, AreNumbers, KeptAs;
    KeptNames(f, sum, min, max, env);
    HistogramSum(core, start, sum, min, max, flags);
    OptionalStays(f, start + flags, d, time);
    SummaryNames(core.Keys, start.Keys, sum.Keys, min.Keys, max.Keys, flags.Keys, d.Keys);
    BucketPlaces(f, core, d, env);
    SummaryPlaces(f, sum, min, max, d, env);
  }

  lemma KeptNames(f: Fields, sum: Fields, min: Fields, max: Fields, env: Env)
    requires KeptAs(f, "sum", sum, env) && KeptAs(f, "min", min, env) && KeptAs(f, "max", max, env)
    ensures sum.Keys <= {"sum"} && min.Keys <= {"min"} && max.Keys <= {"max"}
  {
    hide SameNumber;
  }

  lemma BucketPlaces(f: Fields, core: Fields, d: Fields, env: Env)
    requires {"count", "bucketCounts", "explicitBounds"} <= f.Keys
    requires core.Keys == {"count", "bucket_counts", "explicit_bounds"} <= d.Keys
    requires forall k :: k in core ==> d[k] == core[k]
    requires IsNatural(f["count"], core["count"]) && AreNaturals(f["bucketCounts"], core["bucket_counts"])
    requires AreNumbers(f["explicitBounds"], core["explicit_bounds"], env)
    ensures IsBuckets(f, d, env)
  {
    hide IsNatural, AreNaturals, AreNumbers;
  }

  lemma SummaryPlaces(f: Fields, sum: Fields, min: Fields, max: Fields, d: Fields, env: Env)
    requires KeptAs(f, "sum", sum, env) && KeptAs(f, "min", min, env) && KeptAs(f, "max", max, env)
    requires ("sum" in d <==> "sum" in sum) && ("min" in d <==> "min" in min) && ("max" in d <==> "max" in max)
    requires sum.Keys <= d.Keys && min.Keys <= d.Keys && max.Keys <= d.Keys
    requires (forall k :: k in sum ==> d[k] == sum[k]) && (forall k :: k in min ==> d[k] == min[k])
    requires forall k :: k in max ==> d[k] == max[k]
    requires "min" in f && "max" in f ==> min["min"].Real? && max["max"].Real? && min["min"].number <= max["max"].number
    ensures IsSummary(f, d, env)
  {
    hide SameNumber;
  }

  lemma AcceptedBucketPoint(v: Json, env: Env)
    requires HistogramPoint(v, env).Some?
    ensures var p := HistogramPoint(v, env).value;
            && v.Obj? && IsHistogramData(v.fields, p.data, p.time, env)
            && IsAttributes(Get(v.fields, "attributes"), p.attributes, env)
            && Strips(Get(v.fields, "attributes"), p.stripped, env)
  {
    hide Attributes, IsAttributes, Strips, Unsigned, IsNatural, StartTime, Flags, Buckets, OptionalNumber,
         MinExceedsMax, IsHistogramData, CountsJson, BoundsJson;
    var f, p := v.fields, HistogramPoint(v, env).value;
    UnsignedMeans(f["timeUnixNano"]);
    AttributesMean(Get(f, "attributes"), env);
    HistogramDataMeans(f, p.data, p.time, env);
  }

  // Metrics.

  ghost predicate IsMetadata(v: Json, kind: string, x: Fields, env: Env)
    requires v.Obj?
  {
    && kind in v.fields && v.fields[kind].Obj?
    && x.Keys == (if "description" in v.fields then {"description"} else {})
                 + (if "unit" in v.fields then {"unit"} else {})
                 + (if kind == "gauge" then {} else {"aggregation_temporality"})
                 + (if kind == "sum" then {"is_monotonic"} else {})
    && ("description" in v.fields ==> IsText(v.fields["description"], x["description"], env.limits.maxText))
    && ("unit" in v.fields ==> IsText(v.fields["unit"], x["unit"], env.limits.maxText))
    && (kind != "gauge" ==>
          IsChoice(Get(v.fields[kind].fields, "aggregationTemporality"), x["aggregation_temporality"],
                   TemporalityName(), "AGGREGATION_TEMPORALITY_DELTA"))
    && (kind == "sum" ==> x["is_monotonic"].Bool? && Get(v.fields[kind].fields, "isMonotonic") == x["is_monotonic"])
  }

  /** Name, the one kind there is, metadata and points of a metric. */
  ghost predicate IsMetric(v: Json, m: Metric, env: Env) {
    && v.Obj? && "name" in v.fields && v.fields["name"] == Str(m.name) && 1 <= |m.name| <= env.limits.maxText
    && m.kind in {"gauge", "sum", "histogram"}
    && (forall k :: k in {"gauge", "sum", "histogram"} ==> (k in v.fields <==> k == m.kind))
    && IsMetadata(v, m.kind, m.metadata, env)
    && Get(v.fields[m.kind].fields, "dataPoints") == Arr(m.points)
  }

  lemma KindMeans(body: Fields, kind: string, env: Env)
    requires KindMetadata(body, kind).Some?
    ensures var x := KindMetadata(body, kind).value;
            && x.Keys == (if kind == "gauge" then {} else {"aggregation_temporality"})
                         + (if kind == "sum" then {"is_monotonic"} else {})
            && (kind != "gauge" ==>
                  IsChoice(Get(body, "aggregationTemporality"), x["aggregation_temporality"], TemporalityName(),
                           "AGGREGATION_TEMPORALITY_DELTA"))
            && (kind == "sum" ==> x["is_monotonic"].Bool? && Get(body, "isMonotonic") == x["is_monotonic"])
  {
    hide Enum, IsChoice;
    EnumMeans(Get(body, "aggregationTemporality"), TEMPORALITIES, 1);
    assert TEMPORALITIES == TemporalityName();
  }

  lemma {:induction false} OneKind(present: set<string>, k: string)
    requires |present| == 1 && k in present
    ensures present == {k}
  {
    assert |present - {k}| == 0;
  }

  lemma TheKind(f: Fields)
    requires |KINDS * f.Keys| == 1
    ensures KindOf(f) in {"gauge", "sum", "histogram"}
    ensures forall k :: k in {"gauge", "sum", "histogram"} ==> (k in f <==> k == KindOf(f))
  {
    var present := KINDS * f.Keys;
    assert present != {};
    var k :| k in present;
    OneKind(present, k);
    assert forall j :: j in KINDS && j in f ==> j in present;
  }

  lemma MetricMeans(v: Json, env: Env)
    requires MetricHeader(v, env.limits).Some?
    ensures IsMetric(v, MetricHeader(v, env.limits).value, env)
  {
    hide KindMetadata, KindOf, IsMetadata, OptionalText, IsMetadata;
    TheKind(v.fields);
    MetadataMeans(v, KindOf(v.fields), MetricHeader(v, env.limits).value.metadata, env);
  }

  lemma MetadataMeans(v: Json, kind: string, x: Fields, env: Env)
    requires v.Obj? && kind in v.fields && v.fields[kind].Obj?
    requires OptionalText(v.fields, "description", env.limits).Some? && OptionalText(v.fields, "unit", env.limits).Some?
    requires KindMetadata(v.fields[kind].fields, kind).Some?
    requires x == OptionalText(v.fields, "description", env.limits).value
                  + OptionalText(v.fields, "unit", env.limits).value + KindMetadata(v.fields[kind].fields, kind).value
    ensures IsMetadata(v, kind, x, env)
  {
    hide KindMetadata, IsChoice, TemporalityName;
    KindMeans(v.fields[kind].fields, kind, env);
  }

  /** One metric record: the metric's name, kind and metadata with the point's own data. */
  ghost predicate IsMetricRecord(item: Json, point: Json, r: Record, env: Env, resource: Fields, scope: Fields) {
    exists m, p :: IsMetric(item, m, env) && IsPointRecord(m, point, p, r, env, resource, scope)
  }

  ghost predicate IsPointRecord(m: Metric, point: Json, p: Fields, r: Record, env: Env, resource: Fields,
                                scope: Fields) {
    && point.Obj? && r.signal == Metrics && r.name == m.name && r.resource == resource && r.scope == scope
    && IsAttributes(Get(point.fields, "attributes"), r.attributes, env)
    && r.data == map["metric_type" := Str(m.kind)] + m.metadata + p
    && if m.kind == "histogram" then IsHistogramData(point.fields, p, r.time, env)
       else IsNumberData(point.fields, p, r.time, env)
  }

  lemma AcceptedPoint(m: Metric, v: Json, env: Env, resource: Fields, scope: Fields) returns (r: Record, p: Fields)
    requires PointRecord(m, v, env, resource, scope).Some?
    ensures PointRecord(m, v, env, resource, scope).value.records == [r]
    ensures IsPointRecord(m, v, p, r, env, resource, scope)
    ensures Strips(Get(v.fields, "attributes"), PointRecord(m, v, env, resource, scope).value.stripped, env)
  {
    hide HistogramPoint, NumberPoint, IsHistogramData, IsNumberData, IsAttributes, Strips;
    r := PointRecord(m, v, env, resource, scope).value.records[0];
    if m.kind == "histogram" {
      p := HistogramPoint(v, env).value.data;
      AcceptedBucketPoint(v, env);
    } else {
      p := NumberPoint(v, env).value.data;
      AcceptedNumber(v, env);
    }
  }

  // Whole requests.

  /** A record says what its leaf says, under what the leaf's own resource and scope say. */
  ghost predicate IsRecordOf(s: Signal, leaf: Leaf, r: Record, env: Env) {
    && leaf.resource.Obj? && leaf.group.Obj?
    && IsResource(Get(leaf.resource.fields, "resource"), r.resource, env)
    && IsScope(Get(leaf.group.fields, "scope"), r.scope, env)
    && match s
       case Traces => IsSpan(leaf.item, r, env, r.resource, r.scope)
       case Logs => IsLog(leaf.item, r, env, r.resource, r.scope)
       case Metrics => IsMetricRecord(leaf.item, leaf.point, r, env, r.resource, r.scope)
  }

  lemma HeadersMean(s: Signal, leaf: Leaf, env: Env)
    requires ResourceHeader(s, leaf.resource, env).Some? && GroupHeader(s, leaf.group, env).Some?
    ensures leaf.resource.Obj? && leaf.group.Obj?
    ensures IsResource(Get(leaf.resource.fields, "resource"), ResourceHeader(s, leaf.resource, env).value.0, env)
    ensures IsScope(Get(leaf.group.fields, "scope"), GroupHeader(s, leaf.group, env).value.0, env)
  {
    hide Resource, ScopeOf, IsResource, IsScope;
    ResourceMeans(Get(leaf.resource.fields, "resource"), env);
    ScopeMeans(Get(leaf.group.fields, "scope"), env);
  }

  lemma RecordMeans(s: Signal, leaf: Leaf, r: Record, env: Env)
    requires MadeFrom(r, leaf, s, env)
    ensures IsRecordOf(s, leaf, r, env)
  {
    hide ResourceHeader, GroupHeader, Span, LogRecord, PointRecord, MetricHeader, IsResource, IsScope, IsSpan, IsLog,
         IsMetric, IsPointRecord;
    HeadersMean(s, leaf, env);
    var resource, scope := ResourceHeader(s, leaf.resource, env).value.0, GroupHeader(s, leaf.group, env).value.0;
    match s
    case Traces =>
      var span := AcceptedSpan(leaf.item, env, resource, scope);
      SpanPlaces(leaf.item, span, env, resource, scope);
    case Logs =>
      var log := AcceptedLog(leaf.item, env, resource, scope);
      LogPlaces(leaf.item, log, env, resource, scope);
    case Metrics =>
      var m := MetricHeader(leaf.item, env.limits).value;
      MetricMeans(leaf.item, env);
      var record, p := AcceptedPoint(m, leaf.point, env, resource, scope);
      PointPlaces(m, leaf.point, p, record, env, resource, scope);
  }

  lemma SpanPlaces(v: Json, r: Record, env: Env, resource: Fields, scope: Fields)
    requires IsSpan(v, r, env, resource, scope)
    ensures r.resource == resource && r.scope == scope
  {
  }

  lemma LogPlaces(v: Json, r: Record, env: Env, resource: Fields, scope: Fields)
    requires IsLog(v, r, env, resource, scope)
    ensures r.resource == resource && r.scope == scope
  {
  }

  lemma PointPlaces(m: Metric, v: Json, p: Fields, r: Record, env: Env, resource: Fields, scope: Fields)
    requires IsPointRecord(m, v, p, r, env, resource, scope)
    ensures r.resource == resource && r.scope == scope
  {
  }

  /** The n-th record of an accepted ingest says what the n-th leaf of the request says, in every field. */
  lemma IngestMeans(root: Json, key: string, payload: string, env: Env)
    requires IngestOf(Some(root), key, payload, env).Some?
    ensures var r, s := IngestOf(Some(root), key, payload, env).value, SignalOf(root).value;
            && r.key == key && r.payload == payload && r.signal == s && |r.records| == |Leaves(s, root)|
            && forall n :: 0 <= n < |r.records| ==> IsRecordOf(s, Leaves(s, root)[n], r.records[n], env)
  {
    hide Flatten, MadeFrom, Leaves, SignalOf, IsRecordOf;
    FlattenedLeafByLeaf(root, env);
    AcceptedIsComplete(root, key, payload, env);
    var r, s := IngestOf(Some(root), key, payload, env).value, SignalOf(root).value;
    forall n | 0 <= n < |r.records|
      ensures IsRecordOf(s, Leaves(s, root)[n], r.records[n], env)
    {
      RecordMeans(s, Leaves(s, root)[n], r.records[n], env);
    }
  }
}
