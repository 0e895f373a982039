/**
Normalization of single OTLP records: spans, metric points and log records of
the bounded JSON subset.  None stands for a payload validation error.
*/
module OtlpRecords {
  import opened Common
  import opened Decimals
  import opened Json
  import opened Sanitizer

  datatype Limits = Limits(
    maxResources: nat, maxScopes: nat, maxRecords: nat, maxAttributes: nat, maxBuckets: nat, maxText: nat)

  type Fields = map<string, Json>

  datatype Signal = Traces | Metrics | Logs

  datatype Record = Record(
    signal: Signal, name: string, time: nat, resource: Fields, scope: Fields, attributes: Fields, data: Fields)

  /** Records, and the attribute paths stripped while making them. */
  datatype Batch = Batch(records: seq<Record>, stripped: set<string>)

  /** Limits, the test on sensitive keys, and the conversion of integers to floats. */
  datatype Env = Env(limits: Limits, sensitive: string -> bool, float: int -> Option<JsonNumber>)

  // Scalars.

  predicate HasFields(v: Json, allowed: set<string>, required: set<string>) {
    v.Obj? && v.fields.Keys <= allowed && required <= v.fields.Keys
  }

  /** A missing field and a null field read the same. */
  function Get(f: Fields, key: string): Json {
    if key in f then f[key] else Null
  }

  function Text(v: Json, required: bool, l: Limits): Option<string> {
    if v.Str? && (required ==> v.text != "") && |v.text| <= l.maxText then Some(v.text) else None
  }

  function OptionalText(f: Fields, key: string, l: Limits): Option<Fields> {
    if key !in f then Some(map[])
    else
      var t := Text(f[key], false, l);
      if t.None? then None else Some(map[key := Str(t.value)])
  }

  predicate IsDecimal(s: string) {
    1 <= |s| <= 40 && AllDigits(s) && (|s| > 1 ==> s[0] != '0')
  }

  const UINT64_MAX: nat := 0xFFFF_FFFF_FFFF_FFFF
  const INT64_MAX: nat := 0x7FFF_FFFF_FFFF_FFFF

  function Unsigned(v: Json): Option<nat> {
    if v.Str? && IsDecimal(v.text) && NatOf(v.text) <= UINT64_MAX then Some(NatOf(v.text)) else None
  }

  function Negative(n: int): int { -n }

  function Signed(v: Json): Option<int> {
    if !v.Str? || v.text == "" then None
    else if v.text[0] == '-' then
      if IsDecimal(v.text[1..]) && NatOf(v.text[1..]) <= INT64_MAX + 1 then Some(Negative(NatOf(v.text[1..]))) else None
    else if IsDecimal(v.text) && NatOf(v.text) <= INT64_MAX then Some(NatOf(v.text)) else None
  }

  /** A JSON number as a float; an integer is rounded, or refused when no float is large enough. */
  function Number(v: Json, env: Env): Option<JsonNumber> {
    match v
    case Int(n) => env.float(n)
    case Real(x) => Some(x)
    case _ => None
  }

  predicate IsHexDigit(c: char) {
    '0' <= c <= '9' || 'a' <= c <= 'f' || 'A' <= c <= 'F'
  }

  function LowerChar(c: char): char {
    if 'A' <= c <= 'F' then "abcdef"[c as int - 'A' as int] else c
  }

  /** A non-zero identifier of exactly n hexadecimal digits, in lower case. */
  function HexId(v: Json, n: nat): Option<string> {
    if && v.Str? && |v.text| == n
       && (forall i :: 0 <= i < n ==> IsHexDigit(v.text[i])) && (exists i :: 0 <= i < n && v.text[i] != '0')
    then Some(seq(n, i requires 0 <= i < n => LowerChar(v.text[i]))) else None
  }

  function Enum(v: Json, choices: map<int, string>, default: int): Option<string>
    requires default in choices
  {
    match v
    case Null => Some(choices[default])
    case Int(n) => if n in choices then Some(choices[n]) else None
    case Str(s) => if s in choices.Values then Some(s) else None
    case _ => None
  }

  const SPAN_KINDS := map[
    0 := "SPAN_KIND_UNSPECIFIED", 1 := "SPAN_KIND_INTERNAL", 2 := "SPAN_KIND_SERVER", 3 := "SPAN_KIND_CLIENT",
    4 := "SPAN_KIND_PRODUCER", 5 := "SPAN_KIND_CONSUMER"]
  const STATUS_CODES := map[0 := "STATUS_CODE_UNSET", 1 := "STATUS_CODE_OK", 2 := "STATUS_CODE_ERROR"]
  const TEMPORALITIES := map[1 := "AGGREGATION_TEMPORALITY_DELTA", 2 := "AGGREGATION_TEMPORALITY_CUMULATIVE"]

  /** Exactly one supported scalar. */
  function AnyValue(v: Json, env: Env): Option<Json> {
    if !v.Obj? then None
    else if v.fields.Keys == {"stringValue"} then
      var t := Text(v.fields["stringValue"], false, env.limits);
      if t.None? then None else Some(Str(t.value))
    else if v.fields.Keys == {"boolValue"} then
      if v.fields["boolValue"].Bool? then Some(v.fields["boolValue"]) else None
    else if v.fields.Keys == {"intValue"} then
      var n := Signed(v.fields["intValue"]);
      if n.None? then None else Some(Int(n.value))
    else if v.fields.Keys == {"doubleValue"} then
      var x := Number(v.fields["doubleValue"], env);
      if x.None? then None else Some(Real(x.value))
    else None
  }

  // Attributes.

  function Attribute(item: Json, env: Env): Option<(string, Json)> {
    if !HasFields(item, {"key", "value"}, {"key", "value"}) then None
    else
      var key, value := Text(item.fields["key"], true, env.limits), AnyValue(item.fields["value"], env);
      if key.None? || value.None? then None else Some((key.value, value.value))
  }

  /** The attributes of the first n items; a repeated key is an error. */
  function AttributeMap(items: seq<Json>, n: nat, env: Env): Option<Fields>
    requires n <= |items|
  {
    if n == 0 then Some(map[])
    else
      var before := AttributeMap(items, n - 1, env);
      if before.None? then None
      else
        var next := Attribute(items[n - 1], env);
        if next.None? || next.value.0 in before.value then None
        else Some(before.value[next.value.0 := next.value.1])
  }

  /** Parsed attributes without credentials, and the paths that were stripped. */
  function Attributes(v: Json, env: Env): Option<(Fields, set<string>)> {
    if v.Null? then Some((map[], {}))
    else if !v.Arr? || |v.items| > env.limits.maxAttributes then None
    else
      var parsed := AttributeMap(v.items, |v.items|, env);
      if parsed.None? then None
      else
        var (clean, removed) := StripSensitiveAttributes(parsed.value, env.sensitive);
        Some((clean.fields, removed))
  }

  method ParseAttributes(v: Json, env: Env) returns (r: Option<(Fields, set<string>)>)
    ensures r == Attributes(v, env)
  {
    if v.Null? {
      return Some((map[], {}));
    }
    if !v.Arr? || |v.items| > env.limits.maxAttributes {
      return None;
    }
    var parsed: Fields := map[];
    for i := 0 to |v.items|
      invariant AttributeMap(v.items, i, env) == Some(parsed)
    {
      var item := Attribute(v.items[i], env);
      if item.None? || item.value.0 in parsed {
        AttributeErrorPersists(v.items, i + 1, |v.items|, env);
        return None;
      }
      parsed := parsed[item.value.0 := item.value.1];
    }
    var clean, removed := Strip(Obj(parsed), env.sensitive, "");
    return Some((clean.fields, removed));
  }

  lemma {:induction false} AttributeErrorPersists(items: seq<Json>, m: nat, n: nat, env: Env)
    requires m <= n <= |items| && AttributeMap(items, m, env).None?
    ensures AttributeMap(items, n, env).None?
    decreases n - m
  {
    if m < n {
      AttributeErrorPersists(items, m, n - 1, env);
    }
  }

  function Resource(v: Json, env: Env): Option<(Fields, set<string>)> {
    if v.Null? then Some((map[], {}))
    else if !HasFields(v, {"attributes"}, {}) then None
    else Attributes(Get(v.fields, "attributes"), env)
  }

  function RequiredText(f: Fields, key: string, l: Limits): Option<Fields> {
    if key !in f then Some(map[])
    else
      var t := Text(f[key], true, l);
      if t.None? then None else Some(map[key := Str(t.value)])
  }

  function ScopeOf(v: Json, env: Env): Option<(Fields, set<string>)> {
    if v.Null? then Some((map[], {}))
    else if !HasFields(v, {"name", "version", "attributes"}, {}) then None
    else
      var name, version := RequiredText(v.fields, "name", env.limits), RequiredText(v.fields, "version", env.limits);
      var attributes := Attributes(Get(v.fields, "attributes"), env);
      if name.None? || version.None? || attributes.None? then None
      else
        var extra: Fields :=
          if attributes.value.0 == map[] then map[] else map["attributes" := Obj(attributes.value.0)];
        Some((name.value + version.value + extra, attributes.value.1))
  }

  // Spans.

  /** Parent identifiers may be absent or empty. */
  function ParentId(f: Fields): Option<Json> {
    if "parentSpanId" !in f || f["parentSpanId"] == Str("") then Some(Null)
    else
      var id := HexId(f["parentSpanId"], 16);
      if id.None? then None else Some(Str(id.value))
  }

  function Status(f: Fields, l: Limits): Option<Json> {
    var v := if "status" in f then f["status"] else Obj(map[]);
    if !HasFields(v, {"code", "message"}, {}) then None
    else
      var code, message := Enum(Get(v.fields, "code"), STATUS_CODES, 0), OptionalText(v.fields, "message", l);
      if code.None? || message.None? then None else Some(Obj(map["code" := Str(code.value)] + message.value))
  }

  const SPAN_FIELDS := {"traceId", "spanId", "parentSpanId", "traceState", "name", "kind", "startTimeUnixNano",
                        "endTimeUnixNano", "attributes", "status"}
  const SPAN_REQUIRED := {"traceId", "spanId", "name", "startTimeUnixNano", "endTimeUnixNano"}

  function Span(v: Json, env: Env, resource: Fields, scope: Fields): Option<Batch> {
    if !HasFields(v, SPAN_FIELDS, SPAN_REQUIRED) then None
    else
      var f := v.fields;
      var trace, span, parent := HexId(f["traceId"], 32), HexId(f["spanId"], 16), ParentId(f);
      var start, end := Unsigned(f["startTimeUnixNano"]), Unsigned(f["endTimeUnixNano"]);
      var status, kind := Status(f, env.limits), Enum(Get(f, "kind"), SPAN_KINDS, 0);
      var state := if "traceState" in f then Text(f["traceState"], false, env.limits) else Some("");
      var name, attributes := Text(f["name"], true, env.limits), Attributes(Get(f, "attributes"), env);
      if trace.None? || span.None? || parent.None? || start.None? || end.None? || status.None? || kind.None?
         || state.None? || name.None? || attributes.None? || end.value < start.value then None
      else
        var traceState: Fields := if "traceState" in f then map["trace_state" := Str(state.value)] else map[];
        var data := SpanData(trace.value, span.value, parent.value, start.value, end.value, kind.value, status.value);
        Some(Batch([Record(Traces, name.value, end.value, resource, scope, attributes.value.0, data + traceState)],
                   attributes.value.1))
  }

  function SpanData(trace: string, span: string, parent: Json, start: nat, end: nat, kind: string, status: Json)
    : Fields
  {
    map["trace_id" := Str(trace), "span_id" := Str(span), "parent_span_id" := parent,
        "start_time_unix_nano" := Int(start), "end_time_unix_nano" := Int(end), "duration_nano" := Int(end - start),
        "kind" := Str(kind), "status" := status]
  }

  // Metric points.

  function Flags(f: Fields): Option<Fields> {
    if "flags" !in f then Some(map[]) else if f["flags"].Int? then Some(map["flags" := f["flags"]]) else None
  }

  /** A start time must not exceed the time of the point. */
  function StartTime(f: Fields, time: nat): Option<Fields> {
    if "startTimeUnixNano" !in f then Some(map[])
    else
      var start := Unsigned(f["startTimeUnixNano"]);
      if start.None? || start.value > time then None else Some(map["start_time_unix_nano" := Int(start.value)])
  }

  /** Attributes, time and data of one normalized point. */
  datatype Point = Point(attributes: Fields, stripped: set<string>, time: nat, data: Fields)

  const NUMBER_FIELDS := {"attributes", "startTimeUnixNano", "timeUnixNano", "asDouble", "asInt", "flags"}

  function NumberPoint(v: Json, env: Env): Option<Point> {
    if !HasFields(v, NUMBER_FIELDS, {"timeUnixNano"}) then None
    else if ("asDouble" in v.fields) == ("asInt" in v.fields) then None
    else
      var f := v.fields;
      var value :=
        if "asDouble" in f then (var x := Number(f["asDouble"], env); if x.None? then None else Some(Real(x.value)))
        else (var n := Signed(f["asInt"]); if n.None? then None else Some(Int(n.value)));
      var encoding := if "asDouble" in f then "asDouble" else "asInt";
      var attributes, time, flags := Attributes(Get(f, "attributes"), env), Unsigned(f["timeUnixNano"]), Flags(f);
      if value.None? || attributes.None? || time.None? || flags.None? then None
      else
        var start := StartTime(f, time.value);
        if start.None? then None
        else Some(Point(attributes.value.0, attributes.value.1, time.value,
                        map["value" := value.value, "value_encoding" := Str(encoding)] + start.value + flags.value))
  }

  function Counts(items: seq<Json>): Option<seq<nat>> {
    if items == [] then Some([])
    else
      var first, rest := Unsigned(items[0]), Counts(items[1..]);
      if first.None? || rest.None? then None else Some([first.value] + rest.value)
  }

  function Numbers(items: seq<Json>, env: Env): Option<seq<JsonNumber>> {
    if items == [] then Some([])
    else
      var first, rest := Number(items[0], env), Numbers(items[1..], env);
      if first.None? || rest.None? then None else Some([first.value] + rest.value)
  }

  function Total(counts: seq<nat>): nat {
    if counts == [] then 0 else counts[0] + Total(counts[1..])
  }

  /** Every bound is greater than the one before it. */
  predicate StepsUp(bounds: seq<JsonNumber>) {
    forall i :: 0 <= i < |bounds| - 1 ==> bounds[i] < bounds[i + 1]
  }

  /** Bucket counts, bounds and count of a histogram point. */
  function Buckets(f: Fields, env: Env): Option<(seq<nat>, seq<JsonNumber>, nat)>
    requires {"count", "bucketCounts", "explicitBounds"} <= f.Keys
  {
    var c, b := f["bucketCounts"], f["explicitBounds"];
    if !c.Arr? || |c.items| > env.limits.maxBuckets || !b.Arr? || |b.items| > env.limits.maxBuckets then None
    else
      var counts, bounds, count := Counts(c.items), Numbers(b.items, env), Unsigned(f["count"]);
      if counts.None? || bounds.None? || count.None? then None
      else if |counts.value| != |bounds.value| + 1 || !StepsUp(bounds.value) then None
      else if Total(counts.value) != count.value then None
      else Some((counts.value, bounds.value, count.value))
  }

  function OptionalNumber(f: Fields, key: string, env: Env): Option<Fields> {
    if key !in f then Some(map[])
    else
      var x := Number(f[key], env);
      if x.None? then None else Some(map[key := Real(x.value)])
  }

  predicate MinExceedsMax(f: Fields, env: Env) {
    && "min" in f && "max" in f && Number(f["min"], env).Some? && Number(f["max"], env).Some?
    && Number(f["min"], env).value > Number(f["max"], env).value
  }

  function CountsJson(counts: seq<nat>): Json {
    Arr(seq(|counts|, i requires 0 <= i < |counts| => Int(counts[i])))
  }

  function BoundsJson(bounds: seq<JsonNumber>): Json {
    Arr(seq(|bounds|, i requires 0 <= i < |bounds| => Real(bounds[i])))
  }

  const HISTOGRAM_FIELDS := {"attributes", "startTimeUnixNano", "timeUnixNano", "count", "sum", "bucketCounts",
                             "explicitBounds", "min", "max", "flags"}

  function HistogramPoint(v: Json, env: Env): Option<Point> {
    if !HasFields(v, HISTOGRAM_FIELDS, {"timeUnixNano", "count", "bucketCounts", "explicitBounds"}) then None
    else
      var f := v.fields;
      var buckets := Buckets(f, env);
      var attributes, time, flags := Attributes(Get(f, "attributes"), env), Unsigned(f["timeUnixNano"]), Flags(f);
      var sum, min, max := OptionalNumber(f, "sum", env), OptionalNumber(f, "min", env), OptionalNumber(f, "max", env);
      if buckets.None? || attributes.None? || time.None? || flags.None? || sum.None? || min.None? || max.None?
         || MinExceedsMax(f, env) then None
      else
        var start := StartTime(f, time.value);
        if start.None? then None
        else
          var (counts, bounds, count) := buckets.value;
          Some(Point(attributes.value.0, attributes.value.1, time.value,
                     map["count" := Int(count), "bucket_counts" := CountsJson(counts),
                         "explicit_bounds" := BoundsJson(bounds)]
                     + start.value + sum.value + min.value + max.value + flags.value))
  }

  // Log records.

  function Severity(f: Fields): Option<Fields> {
    if "severityNumber" !in f then Some(map[])
    else if f["severityNumber"].Int? && 0 <= f["severityNumber"].value <= 24
      then Some(map["severity_number" := f["severityNumber"]])
    else None
  }

  function SeverityText(f: Fields, l: Limits): Option<Fields> {
    if "severityText" !in f then Some(map[])
    else
      var t := Text(f["severityText"], false, l);
      if t.None? then None else Some(map["severity_text" := Str(t.value)])
  }

  function ObservedTime(f: Fields): Option<Fields> {
    if "observedTimeUnixNano" !in f then Some(map[])
    else
      var t := Unsigned(f["observedTimeUnixNano"]);
      if t.None? then None else Some(map["observed_time_unix_nano" := Int(t.value)])
  }

  /** A span identifier needs a trace identifier. */
  function Correlation(f: Fields): Option<Fields> {
    if "traceId" !in f then (if "spanId" in f then None else Some(map[]))
    else
      var trace := HexId(f["traceId"], 32);
      if trace.None? then None
      else if "spanId" !in f then Some(map["trace_id" := Str(trace.value)])
      else
        var span := HexId(f["spanId"], 16);
        if span.None? then None else Some(map["trace_id" := Str(trace.value), "span_id" := Str(span.value)])
  }

  const LOG_FIELDS := {"timeUnixNano", "observedTimeUnixNano", "severityNumber", "severityText", "body", "attributes",
                       "flags", "traceId", "spanId"}

  function LogRecord(v: Json, env: Env, resource: Fields, scope: Fields): Option<Batch> {
    if !HasFields(v, LOG_FIELDS, {"timeUnixNano", "body"}) then None
    else
      var f := v.fields;
      var time, body, observed := Unsigned(f["timeUnixNano"]), AnyValue(f["body"], env), ObservedTime(f);
      var severity, text, flags := Severity(f), SeverityText(f, env.limits), Flags(f);
      var correlation, attributes := Correlation(f), Attributes(Get(f, "attributes"), env);
      if time.None? || body.None? || observed.None? || severity.None? || text.None? || flags.None? || correlation.None?
         || attributes.None? then None
      else
        var severityLabel := Get(text.value, "severity_text");
        var name := if severityLabel.Str? && severityLabel.text != "" then severityLabel.text else "log";
        Some(Batch([Record(Logs, name, time.value, resource, scope, attributes.value.0,
          map["body" := body.value] + observed.value + severity.value + text.value + flags.value + correlation.value)],
          attributes.value.1))
  }
}
