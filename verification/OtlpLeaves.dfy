/**
An accepted ingest, leaf by leaf: the spans, log records and metric data points
of a request, read off its raw structure, against the records it returns.
*/
module OtlpLeaves {
  import opened Common
  import opened Json
  import opened OtlpRecords
  import opened OtlpIngest
  import ReplayGuard

  /** One span, log record or data point with everything above it. */
  datatype Leaf = Leaf(resource: Json, group: Json, item: Json, point: Json)

  /** The elements of an array field, none when there is no such field. */
  function Elements(v: Json, field: string): seq<Json> {
    if v.Obj? && field in v.fields && v.fields[field].Arr? then v.fields[field].items else []
  }

  function Flat(lists: seq<seq<Leaf>>): seq<Leaf> {
    if lists == [] then [] else Flat(lists[..|lists| - 1]) + lists[|lists| - 1]
  }

  function MetricBody(metric: Json): Json {
    if metric.Obj? then Get(metric.fields, KindOf(metric.fields)) else Null
  }

  function ItemLeaves(s: Signal, r: Json, g: Json, item: Json): seq<Leaf> {
    if s.Metrics? then
      var points := Elements(MetricBody(item), "dataPoints");
      Flat(seq(|points|, i requires 0 <= i < |points| => [Leaf(r, g, item, points[i])]))
    else [Leaf(r, g, item, item)]
  }

  function GroupLeaves(s: Signal, r: Json, g: Json): seq<Leaf> {
    var items := Elements(g, Items(s));
    Flat(seq(|items|, i requires 0 <= i < |items| => ItemLeaves(s, r, g, items[i])))
  }

  function ResourceLeaves(s: Signal, r: Json): seq<Leaf> {
    var groups := Elements(r, Groups(s));
    Flat(seq(|groups|, i requires 0 <= i < |groups| => GroupLeaves(s, r, groups[i])))
  }

  /** All leaves of a request, in order. */
  function Leaves(s: Signal, root: Json): seq<Leaf> {
    var resources := Elements(root, Top(s));
    Flat(seq(|resources|, i requires 0 <= i < |resources| => ResourceLeaves(s, resources[i])))
  }

  /** The one record a leaf stands for, with the attributes of its own resource and scope. */
  function LeafBatch(s: Signal, leaf: Leaf, env: Env): Option<Batch> {
    var resource, scope := ResourceHeader(s, leaf.resource, env), GroupHeader(s, leaf.group, env);
    if resource.None? || scope.None? then None
    else match s
      case Traces => Span(leaf.item, env, resource.value.0, scope.value.0)
      case Logs => LogRecord(leaf.item, env, resource.value.0, scope.value.0)
      case Metrics =>
        var metric := MetricHeader(leaf.item, env.limits);
        if metric.None? then None else PointRecord(metric.value, leaf.point, env, resource.value.0, scope.value.0)
  }

  /** As many records as leaves, the n-th made from the n-th. */
  ghost predicate Made(records: seq<Record>, leaves: seq<Leaf>, s: Signal, env: Env) {
    && |records| == |leaves|
    && forall n :: 0 <= n < |leaves| ==> MadeFrom(records[n], leaves[n], s, env)
  }

  ghost predicate MadeFrom(record: Record, leaf: Leaf, s: Signal, env: Env) {
    LeafBatch(s, leaf, env).Some? && LeafBatch(s, leaf, env).value.records == [record]
  }

  ghost predicate PartMade(part: Option<Batch>, leaves: seq<Leaf>, s: Signal, env: Env) {
    part.Some? ==> Made(part.value.records, leaves, s, env)
  }

  lemma {:induction false} CollectMade(parts: seq<Option<Batch>>, lists: seq<seq<Leaf>>, s: Signal, env: Env)
    requires |parts| == |lists| && forall i :: 0 <= i < |parts| ==> PartMade(parts[i], lists[i], s, env)
    ensures PartMade(Collect(parts), Flat(lists), s, env)
  {
    hide MadeFrom;
    if parts != [] {
      var n := |parts| - 1;
      CollectMade(parts[..n], lists[..n], s, env);
      assert PartMade(parts[n], lists[n], s, env);
    }
  }

  lemma MetricPoints(item: Json, l: Limits)
    requires MetricHeader(item, l).Some?
    ensures MetricHeader(item, l).value.points == Elements(MetricBody(item), "dataPoints")
  {
    hide KindMetadata, OptionalText, Text;
  }

  lemma ItemMade(s: Signal, r: Json, g: Json, item: Json, env: Env)
    requires ResourceHeader(s, r, env).Some? && GroupHeader(s, g, env).Some?
    ensures PartMade(ItemBatch(s, item, env, ResourceHeader(s, r, env).value.0, GroupHeader(s, g, env).value.0),
                     ItemLeaves(s, r, g, item), s, env)
  {
    hide Span, LogRecord, PointRecord, MetricHeader, ResourceHeader, GroupHeader, Collect, Flat, MetricBody, Elements;
    var resource, scope := ResourceHeader(s, r, env).value.0, GroupHeader(s, g, env).value.0;
    if s.Metrics? {
      var m := MetricHeader(item, env.limits);
      if m.Some? {
        MetricPoints(item, env.limits);
        var points := m.value.points;
        var lists := seq(|points|, i requires 0 <= i < |points| => [Leaf(r, g, item, points[i])]);
        forall i | 0 <= i < |points|
          ensures PartMade(PointRecords(m.value, env, resource, scope)[i], lists[i], s, env)
        {
          if PointRecord(m.value, points[i], env, resource, scope).Some? {
            PointIsSingle(m.value, points[i], env, resource, scope);
          }
        }
        CollectMade(PointRecords(m.value, env, resource, scope), lists, s, env);
      }
    } else {
      RecordIsSingle(item, env, resource, scope);
    }
  }

  lemma GroupMade(s: Signal, r: Json, g: Json, env: Env)
    requires ResourceHeader(s, r, env).Some?
    ensures PartMade(GroupBatch(s, g, env, ResourceHeader(s, r, env).value.0), GroupLeaves(s, r, g), s, env)
  {
    hide ResourceHeader, ItemBatch, ItemLeaves, Collect, Flat, MadeFrom;
    if GroupHeader(s, g, env).Some? {
      var resource := ResourceHeader(s, r, env).value.0;
      var (scope, _, items) := GroupHeader(s, g, env).value;
      GroupItems(s, g, env);
      forall i | 0 <= i < |items|
        ensures PartMade(ItemBatches(s, items, env, resource, scope)[i], ItemLeaves(s, r, g, items[i]), s, env)
      {
        ItemMade(s, r, g, items[i], env);
      }
      CollectMade(ItemBatches(s, items, env, resource, scope),
                  seq(|items|, i requires 0 <= i < |items| => ItemLeaves(s, r, g, items[i])), s, env);
    }
  }

  lemma GroupItems(s: Signal, g: Json, env: Env)
    requires GroupHeader(s, g, env).Some?
    ensures GroupHeader(s, g, env).value.2 == Elements(g, Items(s))
  {
    hide ScopeOf;
  }

  lemma ResourceMade(s: Signal, r: Json, env: Env)
    ensures PartMade(ResourceBatch(s, r, env), ResourceLeaves(s, r), s, env)
  {
    hide GroupBatch, GroupLeaves, Collect, Flat, MadeFrom;
    if ResourceHeader(s, r, env).Some? {
      var (resource, _, groups) := ResourceHeader(s, r, env).value;
      ResourceGroups(s, r, env);
      forall i | 0 <= i < |groups|
        ensures PartMade(GroupBatches(s, groups, env, resource)[i], GroupLeaves(s, r, groups[i]), s, env)
      {
        GroupMade(s, r, groups[i], env);
      }
      CollectMade(GroupBatches(s, groups, env, resource),
                  seq(|groups|, i requires 0 <= i < |groups| => GroupLeaves(s, r, groups[i])), s, env);
    }
  }

  lemma ResourceGroups(s: Signal, r: Json, env: Env)
    requires ResourceHeader(s, r, env).Some?
    ensures ResourceHeader(s, r, env).value.2 == Elements(r, Groups(s))
  {
    hide Resource;
  }

  /** A flattened request has one record per leaf, in the order of the leaves. */
  lemma FlattenedLeafByLeaf(root: Json, env: Env)
    requires Flatten(root, env).Some?
    ensures SignalOf(root).Some?
    ensures Made(Flatten(root, env).value.records, Leaves(SignalOf(root).value, root), SignalOf(root).value, env)
  {
    hide ResourceBatch, ResourceLeaves, Collect, Flat, MadeFrom;
    var s := SignalOf(root).value;
    var resources := root.fields[Top(s)].items;
    assert resources == Elements(root, Top(s));
    forall i | 0 <= i < |resources|
      ensures PartMade(ResourceBatches(s, resources, env)[i], ResourceLeaves(s, resources[i]), s, env)
    {
      ResourceMade(s, resources[i], env);
    }
    CollectMade(ResourceBatches(s, resources, env),
                seq(|resources|, i requires 0 <= i < |resources| => ResourceLeaves(s, resources[i])), s, env);
  }

  // Acceptance, leaf by leaf.

  ghost predicate MetricOk(r: Json, g: Json, item: Json, env: Env) {
    var points := Elements(MetricBody(item), "dataPoints");
    && MetricHeader(item, env.limits).Some?
    && forall i :: 0 <= i < |points| ==> LeafBatch(Metrics, Leaf(r, g, item, points[i]), env).Some?
  }

  ghost predicate ItemOk(s: Signal, r: Json, g: Json, item: Json, env: Env) {
    if s.Metrics? then MetricOk(r, g, item, env) else LeafBatch(s, Leaf(r, g, item, item), env).Some?
  }

  ghost predicate GroupOk(s: Signal, r: Json, g: Json, env: Env) {
    var items := Elements(g, Items(s));
    GroupHeader(s, g, env).Some? && forall i :: 0 <= i < |items| ==> ItemOk(s, r, g, items[i], env)
  }

  ghost predicate ResourceOk(s: Signal, r: Json, env: Env) {
    var groups := Elements(r, Groups(s));
    ResourceHeader(s, r, env).Some? && forall i :: 0 <= i < |groups| ==> GroupOk(s, r, groups[i], env)
  }

  lemma PointsFlatten(m: Metric, r: Json, g: Json, item: Json, env: Env)
    requires ResourceHeader(Metrics, r, env).Some? && GroupHeader(Metrics, g, env).Some?
    requires MetricHeader(item, env.limits) == Some(m)
    ensures var resource, scope := ResourceHeader(Metrics, r, env).value.0, GroupHeader(Metrics, g, env).value.0;
            Collect(PointRecords(m, env, resource, scope)).Some? <==> MetricOk(r, g, item, env)
  {
    hide PointRecord, MetricHeader, ResourceHeader, GroupHeader, Collect, MetricBody, Elements, LeafBatch;
    var resource, scope := ResourceHeader(Metrics, r, env).value.0, GroupHeader(Metrics, g, env).value.0;
    MetricPoints(item, env.limits);
    var parts := PointRecords(m, env, resource, scope);
    CollectIsConcatenation(parts);
    forall i | 0 <= i < |m.points|
      ensures LeafBatch(Metrics, Leaf(r, g, item, m.points[i]), env) == parts[i]
    {
      PointLeaf(m, r, g, item, m.points[i], env);
    }
  }

  lemma PointLeaf(m: Metric, r: Json, g: Json, item: Json, point: Json, env: Env)
    requires ResourceHeader(Metrics, r, env).Some? && GroupHeader(Metrics, g, env).Some?
    requires MetricHeader(item, env.limits) == Some(m)
    ensures LeafBatch(Metrics, Leaf(r, g, item, point), env)
         == PointRecord(m, point, env, ResourceHeader(Metrics, r, env).value.0, GroupHeader(Metrics, g, env).value.0)
  {
    hide PointRecord, MetricHeader, ResourceHeader, GroupHeader;
  }

  lemma MetricFlattens(r: Json, g: Json, item: Json, env: Env)
    requires ResourceHeader(Metrics, r, env).Some? && GroupHeader(Metrics, g, env).Some?
    ensures var resource, scope := ResourceHeader(Metrics, r, env).value.0, GroupHeader(Metrics, g, env).value.0;
            ItemBatch(Metrics, item, env, resource, scope).Some? <==> MetricOk(r, g, item, env)
  {
    hide PointRecords, MetricHeader, ResourceHeader, GroupHeader, Collect, LeafBatch, Elements;
    if MetricHeader(item, env.limits).Some? {
      PointsFlatten(MetricHeader(item, env.limits).value, r, g, item, env);
    }
  }

  lemma PlainFlattens(s: Signal, r: Json, g: Json, item: Json, env: Env)
    requires !s.Metrics? && ResourceHeader(s, r, env).Some? && GroupHeader(s, g, env).Some?
    ensures ItemBatch(s, item, env, ResourceHeader(s, r, env).value.0, GroupHeader(s, g, env).value.0)
         == LeafBatch(s, Leaf(r, g, item, item), env)
  {
    hide Span, LogRecord, ResourceHeader, GroupHeader;
  }

  lemma ItemFlattens(s: Signal, r: Json, g: Json, item: Json, env: Env)
    requires ResourceHeader(s, r, env).Some? && GroupHeader(s, g, env).Some?
    ensures ItemBatch(s, item, env, ResourceHeader(s, r, env).value.0, GroupHeader(s, g, env).value.0).Some?
            <==> ItemOk(s, r, g, item, env)
  {
    hide ItemBatch, MetricOk, LeafBatch, ResourceHeader, GroupHeader;
    if s.Metrics? {
      MetricFlattens(r, g, item, env);
    } else {
      PlainFlattens(s, r, g, item, env);
    }
  }

  lemma GroupFlattens(s: Signal, r: Json, g: Json, env: Env)
    requires ResourceHeader(s, r, env).Some?
    ensures GroupBatch(s, g, env, ResourceHeader(s, r, env).value.0).Some? <==> GroupOk(s, r, g, env)
  {
    hide ResourceHeader, ItemBatch, ItemOk, Collect;
    if GroupHeader(s, g, env).Some? {
      var resource := ResourceHeader(s, r, env).value.0;
      var (scope, _, items) := GroupHeader(s, g, env).value;
      GroupItems(s, g, env);
      var parts := ItemBatches(s, items, env, resource, scope);
      CollectIsConcatenation(parts);
      forall i | 0 <= i < |items|
        ensures parts[i].Some? <==> ItemOk(s, r, g, items[i], env)
      {
        ItemFlattens(s, r, g, items[i], env);
      }
    }
  }

  lemma ResourceFlattens(s: Signal, r: Json, env: Env)
    ensures ResourceBatch(s, r, env).Some? <==> ResourceOk(s, r, env)
  {
    hide GroupBatch, GroupOk, Collect;
    if ResourceHeader(s, r, env).Some? {
      var (resource, _, groups) := ResourceHeader(s, r, env).value;
      ResourceGroups(s, r, env);
      var parts := GroupBatches(s, groups, env, resource);
      CollectIsConcatenation(parts);
      forall i | 0 <= i < |groups|
        ensures parts[i].Some? <==> GroupOk(s, r, groups[i], env)
      {
        GroupFlattens(s, r, groups[i], env);
      }
    }
  }

  ghost predicate RequestOk(root: Json, env: Env) {
    && SignalOf(root).Some?
    && var s := SignalOf(root).value;
       && Top(s) in root.fields && IsList(root.fields[Top(s)], env.limits.maxResources)
       && forall i :: 0 <= i < |Elements(root, Top(s))| ==> ResourceOk(s, Elements(root, Top(s))[i], env)
  }

  lemma RequestFlattens(root: Json, env: Env)
    ensures Flatten(root, env).Some? <==> RequestOk(root, env)
  {
    hide ResourceBatch, ResourceOk, Collect;
    if SignalOf(root).Some? && Top(SignalOf(root).value) in root.fields && root.fields[Top(SignalOf(root).value)].Arr? {
      var s := SignalOf(root).value;
      var resources := root.fields[Top(s)].items;
      var parts := ResourceBatches(s, resources, env);
      CollectIsConcatenation(parts);
      assert Elements(root, Top(s)) == resources;
      forall i | 0 <= i < |resources|
        ensures parts[i].Some? <==> ResourceOk(s, resources[i], env)
      {
        ResourceFlattens(s, resources[i], env);
      }
      assert (forall i :: 0 <= i < |parts| ==> parts[i].Some?)
        <==> (forall i :: 0 <= i < |resources| ==> ResourceOk(s, resources[i], env));
    }
  }

  /**
  A request is accepted exactly when every resource, scope group, metric and
  leaf in it is well-formed, it has between one and max_records leaves, and the
  idempotency key is a token: one bad leaf anywhere rejects the whole.
  */
  lemma AcceptedExactly(root: Json, key: string, payload: string, env: Env)
    ensures IngestOf(Some(root), key, payload, env).Some? <==>
              && RequestOk(root, env) && ReplayGuard.IsToken(key)
              && 1 <= |Leaves(SignalOf(root).value, root)| <= env.limits.maxRecords
  {
    hide Flatten, ReplayGuard.IsToken, MadeFrom, Leaves, SignalOf, ResourceOk;
    RequestFlattens(root, env);
    if Flatten(root, env).Some? {
      FlattenedLeafByLeaf(root, env);
    }
  }

  /**
  An accepted ingest returns exactly one record for each span, log record or
  data point of the request, the n-th made from the n-th with the attributes of
  its own resource and scope.
  */
  lemma AcceptedIsComplete(root: Json, key: string, payload: string, env: Env)
    requires IngestOf(Some(root), key, payload, env).Some?
    ensures var r, s := IngestOf(Some(root), key, payload, env).value, SignalOf(root).value;
            && r.signal == s && 1 <= |r.records| <= env.limits.maxRecords
            && Flatten(root, env) == Some(Batch(r.records, r.stripped))
            && |r.records| == |Leaves(s, root)|
            && forall n :: 0 <= n < |r.records| ==> MadeFrom(r.records[n], Leaves(s, root)[n], s, env)
  {
    hide Flatten, ReplayGuard.IsToken, MadeFrom, Leaves, SignalOf;
    FlattenedLeafByLeaf(root, env);
  }
}
