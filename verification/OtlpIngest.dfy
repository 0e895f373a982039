/**
Bounded OTLP ingest: nested loops over resources, scopes and records that fill
the ingestor's reusable buffers, all or nothing.
*/
module OtlpIngest {
  import opened Common
  import opened Json
  import opened OtlpRecords
  import ReplayGuard

  // Collecting parts.

  /** All parts in order, if every part is there. */
  function Collect(parts: seq<Option<Batch>>): Option<Batch> {
    if parts == [] then Some(Batch([], {}))
    else
      var before, last := Collect(parts[..|parts| - 1]), parts[|parts| - 1];
      if before.None? || last.None? then None
      else Some(Batch(before.value.records + last.value.records, before.value.stripped + last.value.stripped))
  }

  /** Present, and no longer than the room left. */
  predicate Fits(b: Option<Batch>, room: nat) {
    b.Some? && |b.value.records| <= room
  }

  /** A prefix that does not fit spoils the whole. */
  lemma {:induction false} PrefixFits(parts: seq<Option<Batch>>, n: nat, room: nat)
    requires n <= |parts| && Fits(Collect(parts), room)
    ensures Fits(Collect(parts[..n]), room)
    decreases |parts|
  {
    if n < |parts| {
      var front := parts[..|parts| - 1];
      PrefixFits(front, n, room);
      assert front[..n] == parts[..n];
    } else {
      assert parts[..n] == parts;
    }
  }

  lemma OverflowPersists(parts: seq<Option<Batch>>, n: nat, room: nat)
    requires n <= |parts| && !Fits(Collect(parts[..n]), room)
    ensures !Fits(Collect(parts), room)
  {
    if Fits(Collect(parts), room) {
      PrefixFits(parts, n, room);
    }
  }

  lemma CollectEnds(parts: seq<Option<Batch>>)
    ensures Collect(parts[..0]) == Some(Batch([], {}))
    ensures parts[..|parts|] == parts
  {
  }

  lemma CollectNext(parts: seq<Option<Batch>>, n: nat)
    requires n < |parts| && Collect(parts[..n]).Some?
    ensures Collect(parts[..n + 1]) ==
              if parts[n].None? then None
              else Some(Batch(Collect(parts[..n]).value.records + parts[n].value.records,
                              Collect(parts[..n]).value.stripped + parts[n].value.stripped))
  {
    assert parts[..n + 1][..n] == parts[..n] && parts[..n + 1][n] == parts[n];
  }

  function Prepended(stripped: set<string>, b: Option<Batch>): Option<Batch> {
    if b.None? then None else Some(Batch(b.value.records, stripped + b.value.stripped))
  }

  // The flattening an accepted request stands for.

  function Top(s: Signal): string {
    match s case Traces => "resourceSpans" case Metrics => "resourceMetrics" case Logs => "resourceLogs"
  }

  function Groups(s: Signal): string {
    match s case Traces => "scopeSpans" case Metrics => "scopeMetrics" case Logs => "scopeLogs"
  }

  function Items(s: Signal): string {
    match s case Traces => "spans" case Metrics => "metrics" case Logs => "logRecords"
  }

  predicate SchemaUrlOk(f: Fields, l: Limits) {
    "schemaUrl" in f ==> Text(f["schemaUrl"], true, l).Some?
  }

  predicate IsList(v: Json, most: nat) {
    v.Arr? && |v.items| <= most
  }

  datatype Metric = Metric(name: string, kind: string, metadata: Fields, points: seq<Json>)

  const KINDS := {"gauge", "sum", "histogram"}

  function KindOf(f: Fields): string {
    if "gauge" in f then "gauge" else if "sum" in f then "sum" else "histogram"
  }

  /** Everything of a metric except its points: name, its one kind, metadata and temporality. */
  function MetricHeader(v: Json, l: Limits): Option<Metric> {
    if !HasFields(v, {"name", "description", "unit"} + KINDS, {"name"}) || |KINDS * v.fields.Keys| != 1 then None
    else
      var f, kind := v.fields, KindOf(v.fields);
      var name := Text(f["name"], true, l);
      var description, unit := OptionalText(f, "description", l), OptionalText(f, "unit", l);
      if name.None? || description.None? || unit.None? || kind !in f then None
      else
        var required :=
          if kind == "gauge" then {"dataPoints"}
          else if kind == "sum" then {"dataPoints", "aggregationTemporality", "isMonotonic"}
          else {"dataPoints", "aggregationTemporality"};
        var body := f[kind];
        if !HasFields(body, required, required) || !IsList(body.fields["dataPoints"], l.maxRecords) then None
        else
          var extra := KindMetadata(body.fields, kind);
          if extra.None? then None
          else Some(Metric(name.value, kind, description.value + unit.value + extra.value,
                           body.fields["dataPoints"].items))
  }

  function KindMetadata(body: Fields, kind: string): Option<Fields> {
    if kind == "gauge" then Some(map[])
    else
      var temporality := Enum(Get(body, "aggregationTemporality"), TEMPORALITIES, 1);
      if temporality.None? then None
      else if kind != "sum" then Some(map["aggregation_temporality" := Str(temporality.value)])
      else if !Get(body, "isMonotonic").Bool? then None
      else Some(map["aggregation_temporality" := Str(temporality.value), "is_monotonic" := Get(body, "isMonotonic")])
  }

  function PointRecord(m: Metric, v: Json, env: Env, resource: Fields, scope: Fields): Option<Batch> {
    var point := if m.kind == "histogram" then HistogramPoint(v, env) else NumberPoint(v, env);
    if point.None? then None
    else Some(Batch([Record(Metrics, m.name, point.value.time, resource, scope, point.value.attributes,
                            map["metric_type" := Str(m.kind)] + m.metadata + point.value.data)], point.value.stripped))
  }

  function PointRecords(m: Metric, env: Env, resource: Fields, scope: Fields): seq<Option<Batch>> {
    seq(|m.points|, i requires 0 <= i < |m.points| => PointRecord(m, m.points[i], env, resource, scope))
  }

  /** One span or log record, or all points of one metric. */
  function ItemBatch(s: Signal, v: Json, env: Env, resource: Fields, scope: Fields): Option<Batch> {
    match s
    case Traces => Span(v, env, resource, scope)
    case Logs => LogRecord(v, env, resource, scope)
    case Metrics =>
      var m := MetricHeader(v, env.limits);
      if m.None? then None else Collect(PointRecords(m.value, env, resource, scope))
  }

  function ItemBatches(s: Signal, items: seq<Json>, env: Env, resource: Fields, scope: Fields): seq<Option<Batch>> {
    seq(|items|, i requires 0 <= i < |items| => ItemBatch(s, items[i], env, resource, scope))
  }

  /** The scope and items of a scope group. */
  function GroupHeader(s: Signal, v: Json, env: Env): Option<(Fields, set<string>, seq<Json>)> {
    if !HasFields(v, {"scope", Items(s), "schemaUrl"}, {Items(s)}) || !SchemaUrlOk(v.fields, env.limits) then None
    else
      var scope := ScopeOf(Get(v.fields, "scope"), env);
      if scope.None? || !IsList(v.fields[Items(s)], env.limits.maxRecords) then None
      else Some((scope.value.0, scope.value.1, v.fields[Items(s)].items))
  }

  function GroupBatch(s: Signal, v: Json, env: Env, resource: Fields): Option<Batch> {
    var header := GroupHeader(s, v, env);
    if header.None? then None
    else Prepended(header.value.1, Collect(ItemBatches(s, header.value.2, env, resource, header.value.0)))
  }

  function GroupBatches(s: Signal, groups: seq<Json>, env: Env, resource: Fields): seq<Option<Batch>> {
    seq(|groups|, i requires 0 <= i < |groups| => GroupBatch(s, groups[i], env, resource))
  }

  /** The attributes and scope groups of a resource. */
  function ResourceHeader(s: Signal, v: Json, env: Env): Option<(Fields, set<string>, seq<Json>)> {
    if !HasFields(v, {"resource", Groups(s), "schemaUrl"}, {Groups(s)}) || !SchemaUrlOk(v.fields, env.limits) then None
    else
      var resource := Resource(Get(v.fields, "resource"), env);
      if resource.None? || !IsList(v.fields[Groups(s)], env.limits.maxScopes) then None
      else Some((resource.value.0, resource.value.1, v.fields[Groups(s)].items))
  }

  function ResourceBatch(s: Signal, v: Json, env: Env): Option<Batch> {
    var header := ResourceHeader(s, v, env);
    if header.None? then None
    else Prepended(header.value.1, Collect(GroupBatches(s, header.value.2, env, header.value.0)))
  }

  function ResourceBatches(s: Signal, resources: seq<Json>, env: Env): seq<Option<Batch>> {
    seq(|resources|, i requires 0 <= i < |resources| => ResourceBatch(s, resources[i], env))
  }

  function SignalOf(root: Json): Option<Signal> {
    if !root.Obj? then None
    else if root.fields.Keys == {"resourceSpans"} then Some(Traces)
    else if root.fields.Keys == {"resourceMetrics"} then Some(Metrics)
    else if root.fields.Keys == {"resourceLogs"} then Some(Logs)
    else None
  }

  /** The in-order flattening of a whole request. */
  function Flatten(root: Json, env: Env): Option<Batch> {
    var s := SignalOf(root);
    if s.None? || Top(s.value) !in root.fields || !IsList(root.fields[Top(s.value)], env.limits.maxResources) then None
    else Collect(ResourceBatches(s.value, root.fields[Top(s.value)].items, env))
  }

  datatype Ingested = Ingested(signal: Signal, records: seq<Record>, stripped: set<string>, key: string,
                               payload: string)

  /** What an ingest call must return: every record of the request, or nothing. */
  function IngestOf(root: Option<Json>, key: string, payload: string, env: Env): Option<Ingested> {
    if root.None? then None
    else
      var flat := Flatten(root.value, env);
      if !Fits(flat, env.limits.maxRecords) || flat.value.records == [] || !ReplayGuard.IsToken(key) then None
      else Some(Ingested(SignalOf(root.value).value, flat.value.records, flat.value.stripped, key, payload))
  }

  // The ingestor.

  class OtlpJsonIngestor {
    const env: Env
    var records: seq<Record>
    var stripped: set<string>

    constructor (env: Env)
      ensures this.env == env && records == [] && stripped == {}
    {
      this.env, records, stripped := env, [], {};
    }

    /** The buffers grew by exactly this part, or the part does not fit. */
    twostate predicate Added(part: Option<Batch>, ok: bool)
      reads this
    {
      && (ok <==> |old(records)| <= env.limits.maxRecords && Fits(part, env.limits.maxRecords - |old(records)|))
      && (ok ==> records == old(records) + part.value.records && stripped == old(stripped) + part.value.stripped)
    }

    predicate Bounded()
      reads this
    {
      |records| <= env.limits.maxRecords
    }

    method Append(b: Batch) returns (ok: bool)
      requires Bounded() && |b.records| == 1
      modifies this
      ensures Added(Some(b), ok) && (ok ==> Bounded())
    {
      if |records| >= env.limits.maxRecords {
        return false;
      }
      records, stripped := records + b.records, stripped + b.stripped;
      return true;
    }

    method ParseMetric(v: Json, resource: Fields, scope: Fields) returns (ok: bool)
      requires Bounded()
      modifies this
      ensures Added(ItemBatch(Metrics, v, env, resource, scope), ok) && (ok ==> Bounded())
    {
      hide MetricHeader, PointRecord, Collect;
      var m := MetricHeader(v, env.limits);
      if m.None? {
        return false;
      }
      ghost var parts := PointRecords(m.value, env, resource, scope);
      CollectEnds(parts);
      ghost var room := env.limits.maxRecords - |records|;
      ghost var records0, stripped0 := records, stripped;
      for i := 0 to |m.value.points|
        invariant Fits(Collect(parts[..i]), room) && Bounded()
        invariant records == records0 + Collect(parts[..i]).value.records
        invariant stripped == stripped0 + Collect(parts[..i]).value.stripped
      {
        CollectNext(parts, i);
        var point := PointRecord(m.value, m.value.points[i], env, resource, scope);
        var added := false;
        if point.Some? {
          PointIsSingle(m.value, m.value.points[i], env, resource, scope);
          added := Append(point.value);
        }
        if !added {
          OverflowPersists(parts, i + 1, room);
          return false;
        }
      }
      return true;
    }

    method ParseItem(s: Signal, v: Json, resource: Fields, scope: Fields) returns (ok: bool)
      requires Bounded()
      modifies this
      ensures Added(ItemBatch(s, v, env, resource, scope), ok) && (ok ==> Bounded())
    {
      hide Span, LogRecord;
      if s.Metrics? {
        ok := ParseMetric(v, resource, scope);
        return;
      }
      var item := if s.Traces? then Span(v, env, resource, scope) else LogRecord(v, env, resource, scope);
      if item.None? {
        return false;
      }
      RecordIsSingle(v, env, resource, scope);
      ok := Append(item.value);
    }

    method ParseGroup(s: Signal, v: Json, resource: Fields) returns (ok: bool)
      requires Bounded()
      modifies this
      ensures Added(GroupBatch(s, v, env, resource), ok) && (ok ==> Bounded())
    {
      hide GroupHeader, ItemBatch, Collect;
      var header := GroupHeader(s, v, env);
      if header.None? {
        return false;
      }
      var (scope, paths, items) := header.value;
      stripped := stripped + paths;
      ghost var parts := ItemBatches(s, items, env, resource, scope);
      CollectEnds(parts);
      ghost var room := env.limits.maxRecords - |records|;
      ghost var records0, stripped0 := records, stripped;
      for i := 0 to |items|
        invariant Fits(Collect(parts[..i]), room) && Bounded()
        invariant records == records0 + Collect(parts[..i]).value.records
        invariant stripped == stripped0 + Collect(parts[..i]).value.stripped
      {
        CollectNext(parts, i);
        var added := ParseItem(s, items[i], resource, scope);
        if !added {
          OverflowPersists(parts, i + 1, room);
          return false;
        }
      }
      return true;
    }

    method ParseResource(s: Signal, v: Json) returns (ok: bool)
      requires Bounded()
      modifies this
      ensures Added(ResourceBatch(s, v, env), ok) && (ok ==> Bounded())
    {
      hide ResourceHeader, GroupBatch, Collect;
      var header := ResourceHeader(s, v, env);
      if header.None? {
        return false;
      }
      var (resource, paths, groups) := header.value;
      stripped := stripped + paths;
      ghost var parts := GroupBatches(s, groups, env, resource);
      CollectEnds(parts);
      ghost var room := env.limits.maxRecords - |records|;
      ghost var records0, stripped0 := records, stripped;
      for i := 0 to |groups|
        invariant Fits(Collect(parts[..i]), room) && Bounded()
        invariant records == records0 + Collect(parts[..i]).value.records
        invariant stripped == stripped0 + Collect(parts[..i]).value.stripped
      {
        CollectNext(parts, i);
        var added := ParseGroup(s, groups[i], resource);
        if !added {
          OverflowPersists(parts, i + 1, room);
          return false;
        }
      }
      return true;
    }

    /**
    One request, decoded or not.  The result depends on the arguments alone, so a
    reused ingestor answers as a fresh one, even after a rejected call.
    */
    method Ingest(root: Option<Json>, key: string, payload: string) returns (r: Option<Ingested>)
      modifies this
      ensures r == IngestOf(root, key, payload, env)
    {
      hide ResourceBatch, ReplayGuard.IsToken, Collect;
      if root.None? || SignalOf(root.value).None? {
        return None;
      }
      var s := SignalOf(root.value).value;
      records, stripped := [], {};
      if !IsList(root.value.fields[Top(s)], env.limits.maxResources) {
        return None;
      }
      var resources := root.value.fields[Top(s)].items;
      ghost var parts := ResourceBatches(s, resources, env);
      CollectEnds(parts);
      for i := 0 to |resources|
        invariant Fits(Collect(parts[..i]), env.limits.maxRecords) && Bounded()
        invariant records == Collect(parts[..i]).value.records && stripped == Collect(parts[..i]).value.stripped
      {
        CollectNext(parts, i);
        var added := ParseResource(s, resources[i]);
        if !added {
          OverflowPersists(parts, i + 1, env.limits.maxRecords);
          return None;
        }
      }
      if records == [] || !ReplayGuard.IsToken(key) {
        return None;
      }
      return Some(Ingested(s, records, stripped, key, payload));
    }
  }

  lemma PointIsSingle(m: Metric, v: Json, env: Env, resource: Fields, scope: Fields)
    requires PointRecord(m, v, env, resource, scope).Some?
    ensures |PointRecord(m, v, env, resource, scope).value.records| == 1
  {
    hide HistogramPoint, NumberPoint;
  }

  lemma RecordIsSingle(v: Json, env: Env, resource: Fields, scope: Fields)
    ensures Span(v, env, resource, scope).Some? ==> |Span(v, env, resource, scope).value.records| == 1
    ensures LogRecord(v, env, resource, scope).Some? ==> |LogRecord(v, env, resource, scope).value.records| == 1
  {
    hide Attributes, HexId, Unsigned, Status, AnyValue, Correlation, Flags, Severity, SeverityText, ObservedTime,
         Enum, ParentId, Text;
  }

  // What flattening means.

  /** Records in order, part by part. */
  function Joined(parts: seq<Option<Batch>>): seq<Record>
    requires forall i :: 0 <= i < |parts| ==> parts[i].Some?
  {
    if parts == [] then [] else Joined(parts[..|parts| - 1]) + parts[|parts| - 1].value.records
  }

  /** Collecting succeeds exactly when every part is there, and then is their concatenation. */
  lemma {:induction false} CollectIsConcatenation(parts: seq<Option<Batch>>)
    ensures Collect(parts).Some? <==> forall i :: 0 <= i < |parts| ==> parts[i].Some?
    ensures Collect(parts).Some? ==> Collect(parts).value.records == Joined(parts)
    ensures Collect(parts).Some? ==>
              forall p :: p in Collect(parts).value.stripped
                <==> exists i :: 0 <= i < |parts| && p in parts[i].value.stripped
  {
    if parts != [] {
      var front := parts[..|parts| - 1];
      CollectIsConcatenation(front);
      assert forall i :: 0 <= i < |parts| - 1 ==> front[i] == parts[i];
      if Collect(parts).Some? {
        forall p
          ensures p in Collect(parts).value.stripped <==> exists i :: 0 <= i < |parts| && p in parts[i].value.stripped
        {
          if p in Collect(front).value.stripped {
            var i :| 0 <= i < |front| && p in front[i].value.stripped;
            assert p in parts[i].value.stripped;
          }
        }
      }
    }
  }
}
