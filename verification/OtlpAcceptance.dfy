/**
Which OTLP requests are accepted, written out field by field from the raw JSON:
the converse of what accepted records say.
*/
module OtlpAcceptance {
  import opened Common
  import opened Decimals
  import opened Json
  import opened OtlpRecords
  import opened OtlpRecordLaws
  import opened OtlpIngest
  import opened OtlpLeaves
  import opened OtlpMeaning
  import ReplayGuard

  // Scalars.

  /** n, below 2^64, in decimal digits. */
  ghost predicate Spells(raw: Json, n: nat) {
    n < 0x1_0000_0000_0000_0000 && raw == Str(NatText(n))
  }

  ghost predicate SpellsNatural(raw: Json) {
    exists n: nat :: Spells(raw, n)
  }

  ghost predicate SpellsSigned(raw: Json) {
    exists n: int :: -0x8000_0000_0000_0000 <= n < 0x8000_0000_0000_0000 && SpellsInt(raw, Int(n))
  }

  ghost predicate HexLetter(c: char) {
    '0' <= c <= '9' || 'a' <= c <= 'f' || 'A' <= c <= 'F'
  }

  ghost predicate SpellsHex(raw: Json, n: nat) {
    && raw.Str? && |raw.text| == n && (forall i :: 0 <= i < n ==> HexLetter(raw.text[i]))
    && exists i :: 0 <= i < n && raw.text[i] != '0'
  }

  /** A JSON number that some float holds. */
  ghost predicate IsFloat(raw: Json, env: Env) {
    raw.Real? || (raw.Int? && env.float(raw.value).Some?)
  }

  ghost function FloatOf(raw: Json, env: Env): real
    requires IsFloat(raw, env)
  {
    if raw.Real? then raw.number else env.float(raw.value).value
  }

  ghost predicate ShortText(raw: Json, env: Env) {
    raw.Str? && |raw.text| <= env.limits.maxText
  }

  ghost predicate FilledText(raw: Json, env: Env) {
    ShortText(raw, env) && raw.text != ""
  }

  ghost predicate Choice(raw: Json, choices: map<int, string>) {
    raw.Null? || (raw.Int? && raw.value in choices) || (raw.Str? && raw.text in choices.Values)
  }

  ghost predicate ScalarOk(raw: Json, env: Env) {
    && raw.Obj?
    && (|| (raw.fields.Keys == {"stringValue"} && ShortText(raw.fields["stringValue"], env))
        || (raw.fields.Keys == {"boolValue"} && raw.fields["boolValue"].Bool?)
        || (raw.fields.Keys == {"intValue"} && SpellsSigned(raw.fields["intValue"]))
        || (raw.fields.Keys == {"doubleValue"} && IsFloat(raw.fields["doubleValue"], env)))
  }

  lemma UnsignedExactly(v: Json)
    ensures Unsigned(v).Some? <==> SpellsNatural(v)
    ensures forall n: nat :: Spells(v, n) <==> Unsigned(v) == Some(n)
  {
    hide Unsigned, NatText;
    forall n: nat
      ensures Spells(v, n) <==> Unsigned(v) == Some(n)
    {
      UnsignedReadsExactly(v, n);
    }
    if Unsigned(v).Some? {
      assert Spells(v, Unsigned(v).value);
    }
  }

  lemma SignedExactly(v: Json)
    ensures Signed(v).Some? <==> SpellsSigned(v)
  {
    hide Signed, NatText;
    if Signed(v).Some? {
      var n := Signed(v).value;
      SignedReadsExactly(v, n);
      assert SpellsInt(v, Int(n));
    }
    if SpellsSigned(v) {
      var n: int :| -0x8000_0000_0000_0000 <= n < 0x8000_0000_0000_0000 && SpellsInt(v, Int(n));
      SignedReadsExactly(v, n);
    }
  }

  lemma HexExactly(v: Json, n: nat)
    ensures HexId(v, n).Some? <==> SpellsHex(v, n)
  {
    if v.Str? && |v.text| == n {
      assert forall i :: 0 <= i < n ==> (IsHexDigit(v.text[i]) <==> HexLetter(v.text[i]));
    }
  }

  lemma ScalarExactly(v: Json, env: Env)
    ensures AnyValue(v, env).Some? <==> ScalarOk(v, env)
  {
    hide Signed, SpellsSigned;
    if v.Obj? && "intValue" in v.fields {
      SignedExactly(v.fields["intValue"]);
    }
  }

  lemma NumberExactly(v: Json, env: Env)
    ensures Number(v, env).Some? <==> IsFloat(v, env)
    ensures IsFloat(v, env) ==> Number(v, env).value == FloatOf(v, env)
  {
  }

  // Attributes, resources and scopes.

  ghost predicate AttributeOk(item: Json, env: Env) {
    && item.Obj? && item.fields.Keys == {"key", "value"}
    && FilledText(item.fields["key"], env) && ScalarOk(item.fields["value"], env)
  }

  ghost predicate SameKey(a: Json, b: Json) {
    a.Obj? && b.Obj? && Get(a.fields, "key") == Get(b.fields, "key")
  }

  /** The first n items are well-formed and have different keys. */
  ghost predicate ItemsOk(items: seq<Json>, n: nat, env: Env)
    requires n <= |items|
  {
    && (forall i :: 0 <= i < n ==> AttributeOk(items[i], env))
    && forall i, j :: 0 <= i < j < n ==> !SameKey(items[i], items[j])
  }

  ghost predicate AttributesOk(raw: Json, env: Env) {
    raw.Null? || (raw.Arr? && |raw.items| <= env.limits.maxAttributes && ItemsOk(raw.items, |raw.items|, env))
  }

  lemma AttributeExactly(item: Json, env: Env)
    ensures Attribute(item, env).Some? <==> AttributeOk(item, env)
    ensures Attribute(item, env).Some? ==> item.Obj? && Get(item.fields, "key") == Str(Attribute(item, env).value.0)
  {
    hide AnyValue, ScalarOk;
    if item.Obj? && "value" in item.fields {
      ScalarExactly(item.fields["value"], env);
    }
    if AttributeOk(item, env) {
      assert {"key", "value"} <= item.fields.Keys;
    }
  }

  /** A key is in the map so far exactly when an item so far has it. */
  ghost predicate HoldsKeys(items: seq<Json>, n: nat, m: Fields)
    requires n <= |items|
  {
    && (forall i :: 0 <= i < n ==> items[i].Obj? && Get(items[i].fields, "key").Str?)
    && (forall i :: 0 <= i < n ==> Get(items[i].fields, "key").text in m)
    && forall k :: k in m ==> exists i :: 0 <= i < n && Get(items[i].fields, "key") == Str(k)
  }

  lemma {:induction false} ItemsExactly(items: seq<Json>, n: nat, env: Env)
    requires n <= |items|
    ensures AttributeMap(items, n, env).Some? <==> ItemsOk(items, n, env)
    ensures AttributeMap(items, n, env).Some? ==> HoldsKeys(items, n, AttributeMap(items, n, env).value)
  {
    hide Attribute, AttributeOk;
    if n > 0 {
      ItemsExactly(items, n - 1, env);
      AttributeExactly(items[n - 1], env);
      var before := AttributeMap(items, n - 1, env);
      if before.Some? && Attribute(items[n - 1], env).Some? {
        NextItemOk(items, n, before.value, Attribute(items[n - 1], env).value.0, env);
        NextHolds(items, n, before.value, Attribute(items[n - 1], env).value.0, Attribute(items[n - 1], env).value.1);
      }
      assert ItemsOk(items, n, env) ==> ItemsOk(items, n - 1, env);
    }
  }

  lemma NextItemOk(items: seq<Json>, n: nat, m: Fields, key: string, env: Env)
    requires 1 <= n <= |items| && ItemsOk(items, n - 1, env) && AttributeOk(items[n - 1], env)
    requires HoldsKeys(items, n - 1, m) && items[n - 1].Obj? && Get(items[n - 1].fields, "key") == Str(key)
    ensures key !in m <==> ItemsOk(items, n, env)
  {
    hide AttributeOk;
    if key in m {
      var i :| 0 <= i < n - 1 && Get(items[i].fields, "key") == Str(key);
      assert SameKey(items[i], items[n - 1]);
    } else {
      forall i, j | 0 <= i < j < n
        ensures !SameKey(items[i], items[j])
      {
        assert j == n - 1 ==> Get(items[i].fields, "key").text in m;
      }
    }
  }

  lemma NextHolds(items: seq<Json>, n: nat, m: Fields, key: string, x: Json)
    requires 1 <= n <= |items| && HoldsKeys(items, n - 1, m)
    requires items[n - 1].Obj? && Get(items[n - 1].fields, "key") == Str(key)
    ensures HoldsKeys(items, n, m[key := x])
  {
    forall k | k in m[key := x]
      ensures exists i :: 0 <= i < n && Get(items[i].fields, "key") == Str(k)
    {
      if k == key {
        assert Get(items[n - 1].fields, "key") == Str(k);
      } else {
        var i :| 0 <= i < n - 1 && Get(items[i].fields, "key") == Str(k);
      }
    }
  }

  lemma AttributesExactly(v: Json, env: Env)
    ensures Attributes(v, env).Some? <==> AttributesOk(v, env)
  {
    hide AttributeMap, ItemsOk;
    if v.Arr? {
      ItemsExactly(v.items, |v.items|, env);
    }
  }

  ghost predicate ResourceFieldsOk(raw: Json, env: Env) {
    raw.Null? || (raw.Obj? && raw.fields.Keys <= {"attributes"} && AttributesOk(Get(raw.fields, "attributes"), env))
  }

  ghost predicate ScopeFieldsOk(raw: Json, env: Env) {
    || raw.Null?
    || (&& raw.Obj? && raw.fields.Keys <= {"name", "version", "attributes"}
        && ("name" in raw.fields ==> FilledText(raw.fields["name"], env))
        && ("version" in raw.fields ==> FilledText(raw.fields["version"], env))
        && AttributesOk(Get(raw.fields, "attributes"), env))
  }

  lemma ResourceExactly(v: Json, env: Env)
    ensures Resource(v, env).Some? <==> ResourceFieldsOk(v, env)
  {
    hide Attributes, AttributesOk;
    if v.Obj? {
      AttributesExactly(Get(v.fields, "attributes"), env);
    }
  }

  lemma ScopeExactly(v: Json, env: Env)
    ensures ScopeOf(v, env).Some? <==> ScopeFieldsOk(v, env)
  {
    hide Attributes, AttributesOk;
    if v.Obj? {
      AttributesExactly(Get(v.fields, "attributes"), env);
    }
  }

  // Spans.

  ghost predicate StatusOk(raw: Json, env: Env) {
    && raw.Obj? && raw.fields.Keys <= {"code", "message"}
    && Choice(Get(raw.fields, "code"), StatusName())
    && ("message" in raw.fields ==> ShortText(raw.fields["message"], env))
  }

  /** Two 64-bit times, the first no later than the second. */
  ghost predicate SpansTime(first: Json, last: Json) {
    exists m: nat, n: nat :: Spells(first, m) && Spells(last, n) && m <= n
  }

  ghost predicate SpanOk(v: Json, env: Env) {
    && v.Obj?
    && {"traceId", "spanId", "name", "startTimeUnixNano", "endTimeUnixNano"} <= v.fields.Keys
    && v.fields.Keys <= {"traceId", "spanId", "parentSpanId", "traceState", "name", "kind", "startTimeUnixNano",
                         "endTimeUnixNano", "attributes", "status"}
    && SpellsHex(v.fields["traceId"], 32) && SpellsHex(v.fields["spanId"], 16)
    && ("parentSpanId" in v.fields ==>
          v.fields["parentSpanId"] == Str("") || SpellsHex(v.fields["parentSpanId"], 16))
    && ("traceState" in v.fields ==> ShortText(v.fields["traceState"], env))
    && FilledText(v.fields["name"], env) && Choice(Get(v.fields, "kind"), KindName())
    && SpansTime(v.fields["startTimeUnixNano"], v.fields["endTimeUnixNano"])
    && AttributesOk(Get(v.fields, "attributes"), env)
    && ("status" in v.fields ==> StatusOk(v.fields["status"], env))
  }

  lemma EnumExactly(v: Json, choices: map<int, string>, default: int)
    requires default in choices
    ensures Enum(v, choices, default).Some? <==> Choice(v, choices)
  {
  }

  lemma StatusExactly(f: Fields, env: Env)
    ensures Status(f, env.limits).Some? <==> ("status" in f ==> StatusOk(f["status"], env))
  {
    hide Enum, Choice;
    var v := if "status" in f then f["status"] else Obj(map[]);
    if v.Obj? {
      EnumExactly(Get(v.fields, "code"), STATUS_CODES, 0);
      assert STATUS_CODES == StatusName();
    }
    assert Choice(Null, StatusName()) by { ChoiceOfNull(StatusName()); }
  }

  lemma ChoiceOfNull(choices: map<int, string>)
    ensures Choice(Null, choices)
  {
  }

  lemma ParentExactly(f: Fields)
    ensures ParentId(f).Some? <==>
              ("parentSpanId" in f ==> f["parentSpanId"] == Str("") || SpellsHex(f["parentSpanId"], 16))
  {
    hide HexId, SpellsHex;
    if "parentSpanId" in f {
      HexExactly(f["parentSpanId"], 16);
    }
  }

  lemma TimesExactly(first: Json, last: Json)
    ensures SpansTime(first, last) <==>
              Unsigned(first).Some? && Unsigned(last).Some? && Unsigned(first).value <= Unsigned(last).value
  {
    hide Unsigned, Spells;
    UnsignedExactly(first);
    UnsignedExactly(last);
    if Unsigned(first).Some? && Unsigned(last).Some? {
      assert Spells(first, Unsigned(first).value) && Spells(last, Unsigned(last).value);
    }
  }

  lemma SpanExactly(v: Json, env: Env, resource: Fields, scope: Fields)
    ensures Span(v, env, resource, scope).Some? <==> SpanOk(v, env)
  {
    hide HexId, Unsigned, Enum, Status, ParentId, Attributes, SpellsHex, SpansTime, Choice, StatusOk, AttributesOk,
         SpanData, SPAN_KINDS, KindName;
    if HasFields(v, SPAN_FIELDS, SPAN_REQUIRED) {
      var f := v.fields;
      HexExactly(f["traceId"], 32);
      HexExactly(f["spanId"], 16);
      ParentExactly(f);
      TimesExactly(f["startTimeUnixNano"], f["endTimeUnixNano"]);
      StatusExactly(f, env);
      KindsExactly(Get(f, "kind"));
      AttributesExactly(Get(f, "attributes"), env);
    }
  }

  lemma KindsExactly(v: Json)
    ensures Enum(v, SPAN_KINDS, 0).Some? <==> Choice(v, KindName())
  {
    assert SPAN_KINDS == KindName();
    EnumExactly(v, SPAN_KINDS, 0);
  }

  // Log records.

  ghost predicate LogOk(v: Json, env: Env) {
    && v.Obj?
    && {"timeUnixNano", "body"} <= v.fields.Keys
    && v.fields.Keys <= {"timeUnixNano", "observedTimeUnixNano", "severityNumber", "severityText", "body", "attributes",
                         "flags", "traceId", "spanId"}
    && SpellsNatural(v.fields["timeUnixNano"]) && ScalarOk(v.fields["body"], env)
    && ("observedTimeUnixNano" in v.fields ==> SpellsNatural(v.fields["observedTimeUnixNano"]))
    && ("severityNumber" in v.fields ==>
          v.fields["severityNumber"].Int? && 0 <= v.fields["severityNumber"].value <= 24)
    && ("severityText" in v.fields ==> ShortText(v.fields["severityText"], env))
    && ("flags" in v.fields ==> v.fields["flags"].Int?)
    && ("traceId" in v.fields ==> SpellsHex(v.fields["traceId"], 32))
    && ("spanId" in v.fields ==> "traceId" in v.fields && SpellsHex(v.fields["spanId"], 16))
    && AttributesOk(Get(v.fields, "attributes"), env)
  }

  lemma ObservedExactly(f: Fields)
    ensures ObservedTime(f).Some? <==> ("observedTimeUnixNano" in f ==> SpellsNatural(f["observedTimeUnixNano"]))
  {
    hide Unsigned, SpellsNatural;
    if "observedTimeUnixNano" in f {
      UnsignedExactly(f["observedTimeUnixNano"]);
    }
  }

  lemma CorrelationExactly(f: Fields)
    ensures Correlation(f).Some? <==>
              && ("traceId" in f ==> SpellsHex(f["traceId"], 32))
              && ("spanId" in f ==> "traceId" in f && SpellsHex(f["spanId"], 16))
  {
    hide HexId, SpellsHex;
    if "traceId" in f {
      HexExactly(f["traceId"], 32);
    }
    if "spanId" in f {
      HexExactly(f["spanId"], 16);
    }
  }

  lemma LogExactly(v: Json, env: Env, resource: Fields, scope: Fields)
    ensures LogRecord(v, env, resource, scope).Some? <==> LogOk(v, env)
  {
    hide Unsigned, AnyValue, ObservedTime, Correlation, Attributes, SpellsNatural, ScalarOk, SpellsHex, AttributesOk;
    if HasFields(v, LOG_FIELDS, {"timeUnixNano", "body"}) {
      var f := v.fields;
      UnsignedExactly(f["timeUnixNano"]);
      ScalarExactly(f["body"], env);
      ObservedExactly(f);
      CorrelationExactly(f);
      AttributesExactly(Get(f, "attributes"), env);
    }
  }

  // Metric points.

  /** A time, and no start time after it. */
  ghost predicate PointTimesOk(f: Fields) {
    && "timeUnixNano" in f && SpellsNatural(f["timeUnixNano"])
    && ("startTimeUnixNano" in f ==> SpansTime(f["startTimeUnixNano"], f["timeUnixNano"]))
  }

  ghost predicate NumberPointOk(v: Json, env: Env) {
    && v.Obj?
    && v.fields.Keys <= {"attributes", "startTimeUnixNano", "timeUnixNano", "asDouble", "asInt", "flags"}
    && PointTimesOk(v.fields)
    && (("asDouble" in v.fields) != ("asInt" in v.fields))
    && ("asDouble" in v.fields ==> IsFloat(v.fields["asDouble"], env))
    && ("asInt" in v.fields ==> SpellsSigned(v.fields["asInt"]))
    && ("flags" in v.fields ==> v.fields["flags"].Int?)
    && AttributesOk(Get(v.fields, "attributes"), env)
  }

  lemma StartExactly(f: Fields)
    ensures PointTimesOk(f) <==>
              && "timeUnixNano" in f && Unsigned(f["timeUnixNano"]).Some?
              && StartTime(f, Unsigned(f["timeUnixNano"]).value).Some?
  {
    hide Unsigned, SpellsNatural, SpansTime;
    if "timeUnixNano" in f {
      UnsignedExactly(f["timeUnixNano"]);
      if "startTimeUnixNano" in f {
        TimesExactly(f["startTimeUnixNano"], f["timeUnixNano"]);
      }
    }
  }

  lemma NumberPointExactly(v: Json, env: Env)
    ensures NumberPoint(v, env).Some? <==> NumberPointOk(v, env)
  {
    hide Unsigned, Signed, StartTime, Attributes, SpellsSigned, AttributesOk, PointTimesOk;
    if v.Obj? {
      var f := v.fields;
      StartExactly(f);
      AttributesExactly(Get(f, "attributes"), env);
      if "asInt" in f {
        SignedExactly(f["asInt"]);
      }
    }
  }

  ghost function Sum(counts: seq<nat>): nat {
    if counts == [] then 0 else Sum(counts[..|counts| - 1]) + counts[|counts| - 1]
  }

  lemma {:induction false} SumFront(first: nat, rest: seq<nat>)
    ensures Sum([first] + rest) == first + Sum(rest)
  {
    var all := [first] + rest;
    if rest == [] {
      assert all[..0] == [] && all == [first];
    } else {
      SumFront(first, rest[..|rest| - 1]);
      assert all[..|all| - 1] == [first] + rest[..|rest| - 1];
    }
  }

  lemma {:induction false} TotalIsSum(counts: seq<nat>)
    ensures Total(counts) == Sum(counts)
  {
    if counts != [] {
      TotalIsSum(counts[1..]);
      SumFront(counts[0], counts[1..]);
      assert counts == [counts[0]] + counts[1..];
    }
  }

  /** These are the counts that the strings spell. */
  ghost predicate SpellsAll(items: seq<Json>, counts: seq<nat>) {
    |counts| == |items| && forall i :: 0 <= i < |items| ==> Spells(items[i], counts[i])
  }

  ghost predicate BoundsOk(items: seq<Json>, env: Env) {
    && (forall i :: 0 <= i < |items| ==> IsFloat(items[i], env))
    && forall i, j :: 0 <= i < j < |items| ==> FloatOf(items[i], env) < FloatOf(items[j], env)
  }

  /** Counts one more than bounds, and their sum as the count. */
  ghost predicate BucketsOk(c: Json, b: Json, count: Json, env: Env) {
    && c.Arr? && b.Arr? && |c.items| == |b.items| + 1 <= env.limits.maxBuckets && BoundsOk(b.items, env)
    && exists counts: seq<nat> :: SpellsAll(c.items, counts) && Spells(count, Sum(counts))
  }

  ghost predicate HistogramOk(v: Json, env: Env) {
    && v.Obj?
    && {"timeUnixNano", "count", "bucketCounts", "explicitBounds"} <= v.fields.Keys
    && v.fields.Keys <= {"attributes", "startTimeUnixNano", "timeUnixNano", "count", "sum", "bucketCounts",
                         "explicitBounds", "min", "max", "flags"}
    && PointTimesOk(v.fields)
    && BucketsOk(v.fields["bucketCounts"], v.fields["explicitBounds"], v.fields["count"], env)
    && ("sum" in v.fields ==> IsFloat(v.fields["sum"], env))
    && ("min" in v.fields ==> IsFloat(v.fields["min"], env))
    && ("max" in v.fields ==> IsFloat(v.fields["max"], env))
    && ("min" in v.fields && "max" in v.fields ==> FloatOf(v.fields["min"], env) <= FloatOf(v.fields["max"], env))
    && ("flags" in v.fields ==> v.fields["flags"].Int?)
    && AttributesOk(Get(v.fields, "attributes"), env)
  }

  lemma {:induction false} CountsExactly(items: seq<Json>)
    ensures Counts(items).Some? <==> exists counts: seq<nat> :: SpellsAll(items, counts)
    ensures forall counts: seq<nat> :: SpellsAll(items, counts) <==> Counts(items) == Some(counts)
  {
    hide Unsigned, Spells;
    if items == [] {
      assert SpellsAll(items, []);
    } else {
      CountsExactly(items[1..]);
      UnsignedExactly(items[0]);
      forall counts: seq<nat>
        ensures SpellsAll(items, counts) <==> Counts(items) == Some(counts)
      {
        if |counts| == |items| {
          assert counts == [counts[0]] + counts[1..];
          assert forall i :: 1 <= i < |items| ==> items[i] == items[1..][i - 1] && counts[i] == counts[1..][i - 1];
          assert SpellsAll(items, counts) <==> Spells(items[0], counts[0]) && SpellsAll(items[1..], counts[1..]);
        }
      }
      if Counts(items).Some? {
        assert SpellsAll(items, Counts(items).value);
      }
    }
  }

  lemma {:induction false} NumbersExactly(items: seq<Json>, env: Env)
    ensures Numbers(items, env).Some? <==> forall i :: 0 <= i < |items| ==> IsFloat(items[i], env)
    ensures Numbers(items, env).Some? ==>
              && |Numbers(items, env).value| == |items|
              && forall i :: 0 <= i < |items| ==> Numbers(items, env).value[i] == FloatOf(items[i], env)
  {
    if items != [] {
      NumbersExactly(items[1..], env);
      NumberExactly(items[0], env);
      assert forall i :: 1 <= i < |items| ==> items[i] == items[1..][i - 1];
    }
  }

  lemma BoundsExactly(items: seq<Json>, env: Env)
    ensures Numbers(items, env).Some? && StepsUp(Numbers(items, env).value) <==> BoundsOk(items, env)
    ensures Numbers(items, env).Some? ==> |Numbers(items, env).value| == |items|
  {
    hide IsFloat, FloatOf;
    NumbersExactly(items, env);
    if Numbers(items, env).Some? && StepsUp(Numbers(items, env).value) {
      var bounds := Numbers(items, env).value;
      forall i, j | 0 <= i < j < |items|
        ensures FloatOf(items[i], env) < FloatOf(items[j], env)
      {
        StepsUpMeansSorted(bounds, i, j);
      }
    }
  }

  lemma BucketsExactly(f: Fields, env: Env)
    requires {"count", "bucketCounts", "explicitBounds"} <= f.Keys
    ensures Buckets(f, env).Some? <==> BucketsOk(f["bucketCounts"], f["explicitBounds"], f["count"], env)
  {
    hide Unsigned, Spells, Counts, Numbers, StepsUp, BoundsOk, Total, Sum, SpellsAll;
    var c, b := f["bucketCounts"], f["explicitBounds"];
    UnsignedExactly(f["count"]);
    if c.Arr? && b.Arr? {
      CountsExactly(c.items);
      CountsLength(c.items);
      BoundsExactly(b.items, env);
      if Counts(c.items).Some? {
        TotalIsSum(Counts(c.items).value);
      }
    }
  }

  lemma OptionalExactly(f: Fields, key: string, env: Env)
    ensures OptionalNumber(f, key, env).Some? <==> (key in f ==> IsFloat(f[key], env))
  {
  }

  lemma OrderExactly(f: Fields, env: Env)
    requires ("min" in f ==> IsFloat(f["min"], env)) && ("max" in f ==> IsFloat(f["max"], env))
    ensures !MinExceedsMax(f, env) <==>
              ("min" in f && "max" in f ==> FloatOf(f["min"], env) <= FloatOf(f["max"], env))
  {
  }

  lemma HistogramExactly(v: Json, env: Env)
    ensures HistogramPoint(v, env).Some? <==> HistogramOk(v, env)
  {
    hide Unsigned, StartTime, Attributes, AttributesOk, PointTimesOk, Buckets, BucketsOk, OptionalNumber, MinExceedsMax,
         IsFloat, FloatOf, CountsJson, BoundsJson;
    if HasFields(v, HISTOGRAM_FIELDS, {"timeUnixNano", "count", "bucketCounts", "explicitBounds"}) {
      var f := v.fields;
      StartExactly(f);
      BucketsExactly(f, env);
      AttributesExactly(Get(f, "attributes"), env);
      OptionalExactly(f, "sum", env);
      OptionalExactly(f, "min", env);
      OptionalExactly(f, "max", env);
      if ("min" in f ==> IsFloat(f["min"], env)) && ("max" in f ==> IsFloat(f["max"], env)) {
        OrderExactly(f, env);
      }
    }
  }

  // Metrics.

  /** The body of a metric of this kind. */
  ghost predicate KindOk(kind: string, body: Json, env: Env) {
    && body.Obj? && "dataPoints" in body.fields && body.fields["dataPoints"].Arr?
    && |body.fields["dataPoints"].items| <= env.limits.maxRecords
    && body.fields.Keys == {"dataPoints"} + (if kind == "gauge" then {} else {"aggregationTemporality"})
                           + (if kind == "sum" then {"isMonotonic"} else {})
    && (kind != "gauge" ==> Choice(body.fields["aggregationTemporality"], TemporalityName()))
    && (kind == "sum" ==> body.fields["isMonotonic"].Bool?)
  }

  ghost predicate MetricFieldsOk(v: Json, env: Env) {
    && v.Obj? && "name" in v.fields && FilledText(v.fields["name"], env)
    && v.fields.Keys <= {"name", "description", "unit", "gauge", "sum", "histogram"}
    && ("description" in v.fields ==> ShortText(v.fields["description"], env))
    && ("unit" in v.fields ==> ShortText(v.fields["unit"], env))
    && exists kind :: OnlyKind(v.fields, kind) && KindOk(kind, v.fields[kind], env)
  }

  ghost predicate OnlyKind(f: Fields, kind: string) {
    && kind in f && kind in {"gauge", "sum", "histogram"}
    && forall other :: other in {"gauge", "sum", "histogram"} && other in f ==> other == kind
  }

  lemma OneKindOnly(f: Fields)
    ensures |KINDS * f.Keys| == 1 <==> OnlyKind(f, KindOf(f))
    ensures forall kind :: OnlyKind(f, kind) ==> kind == KindOf(f)
  {
    if |KINDS * f.Keys| == 1 {
      TheKind(f);
    }
    if OnlyKind(f, KindOf(f)) {
      assert KINDS * f.Keys == {KindOf(f)};
    }
  }

  lemma KindExactly(body: Json, kind: string, required: set<string>, env: Env)
    requires kind in {"gauge", "sum", "histogram"}
    requires required == if kind == "gauge" then {"dataPoints"}
                         else if kind == "sum" then {"dataPoints", "aggregationTemporality", "isMonotonic"}
                         else {"dataPoints", "aggregationTemporality"}
    ensures KindOk(kind, body, env) <==>
              && HasFields(body, required, required) && IsList(body.fields["dataPoints"], env.limits.maxRecords)
              && KindMetadata(body.fields, kind).Some?
  {
    hide Enum, Choice, TEMPORALITIES, TemporalityName;
    if HasFields(body, required, required) {
      assert body.fields.Keys == required;
      TemporalityExactly(Get(body.fields, "aggregationTemporality"));
    }
  }

  lemma TemporalityExactly(v: Json)
    ensures Enum(v, TEMPORALITIES, 1).Some? <==> Choice(v, TemporalityName())
  {
    assert TEMPORALITIES == TemporalityName();
    EnumExactly(v, TEMPORALITIES, 1);
  }

  lemma MetricExactly(v: Json, env: Env)
    ensures MetricHeader(v, env.limits).Some? <==> MetricFieldsOk(v, env)
  {
    hide KindMetadata, KindOk, KindOf, OnlyKind, IsList;
    if v.Obj? {
      var f, kind := v.fields, KindOf(v.fields);
      OneKindOnly(f);
      if OnlyKind(f, kind) {
        OnlyKindIn(f, kind);
        var required :=
          if kind == "gauge" then {"dataPoints"}
          else if kind == "sum" then {"dataPoints", "aggregationTemporality", "isMonotonic"}
          else {"dataPoints", "aggregationTemporality"};
        KindExactly(f[kind], kind, required, env);
      }
    }
  }

  lemma OnlyKindIn(f: Fields, kind: string)
    requires OnlyKind(f, kind)
    ensures kind in f && kind in {"gauge", "sum", "histogram"}
  {
  }

  // Groups and requests.

  ghost predicate ListOf(f: Fields, name: string, most: nat) {
    name in f && f[name].Arr? && |f[name].items| <= most
  }

  ghost predicate UrlOk(f: Fields, env: Env) {
    "schemaUrl" in f ==> FilledText(f["schemaUrl"], env)
  }

  ghost predicate GroupFieldsOk(items: string, v: Json, env: Env) {
    && v.Obj? && v.fields.Keys <= {"scope", items, "schemaUrl"} && ListOf(v.fields, items, env.limits.maxRecords)
    && UrlOk(v.fields, env) && ScopeFieldsOk(Get(v.fields, "scope"), env)
  }

  ghost predicate ResourceGroupOk(groups: string, v: Json, env: Env) {
    && v.Obj? && v.fields.Keys <= {"resource", groups, "schemaUrl"} && ListOf(v.fields, groups, env.limits.maxScopes)
    && UrlOk(v.fields, env) && ResourceFieldsOk(Get(v.fields, "resource"), env)
  }

  lemma GroupExactly(s: Signal, v: Json, env: Env)
    ensures GroupHeader(s, v, env).Some? <==> GroupFieldsOk(Items(s), v, env)
  {
    hide ScopeOf, ScopeFieldsOk, Items;
    if v.Obj? {
      ScopeExactly(Get(v.fields, "scope"), env);
    }
  }

  lemma ResourceGroupExactly(s: Signal, v: Json, env: Env)
    ensures ResourceHeader(s, v, env).Some? <==> ResourceGroupOk(Groups(s), v, env)
  {
    hide Resource, ResourceFieldsOk, Groups;
    if v.Obj? {
      ResourceExactly(Get(v.fields, "resource"), env);
    }
  }

  /** The array field of an object, element by element. */
  ghost predicate Each(v: Json, name: string, ok: Json -> bool) {
    v.Obj? && name in v.fields && v.fields[name].Arr?
    && forall i :: 0 <= i < |v.fields[name].items| ==> ok(v.fields[name].items[i])
  }

  ghost predicate MetricItemOk(v: Json, env: Env) {
    && MetricFieldsOk(v, env)
    && (v.Obj? && "gauge" in v.fields ==> Each(v.fields["gauge"], "dataPoints", p => NumberPointOk(p, env)))
    && (v.Obj? && "sum" in v.fields ==> Each(v.fields["sum"], "dataPoints", p => NumberPointOk(p, env)))
    && (v.Obj? && "histogram" in v.fields ==> Each(v.fields["histogram"], "dataPoints", p => HistogramOk(p, env)))
  }

  ghost predicate LeafItemOk(s: Signal, v: Json, env: Env) {
    match s
    case Traces => SpanOk(v, env)
    case Logs => LogOk(v, env)
    case Metrics => MetricItemOk(v, env)
  }

  ghost predicate ScopeGroupOk(s: Signal, items: string, v: Json, env: Env) {
    GroupFieldsOk(items, v, env) && Each(v, items, item => LeafItemOk(s, item, env))
  }

  ghost predicate RequestOf(s: Signal, top: string, groups: string, items: string, root: Json, env: Env) {
    && root.Obj? && root.fields.Keys == {top} && ListOf(root.fields, top, env.limits.maxResources)
    && Each(root, top, r => ResourceGroupOk(groups, r, env)
                            && Each(r, groups, g => ScopeGroupOk(s, items, g, env)))
  }

  /** A well-formed export request of one of the three signals. */
  ghost predicate WellFormed(root: Json, env: Env) {
    || RequestOf(Traces, "resourceSpans", "scopeSpans", "spans", root, env)
    || RequestOf(Metrics, "resourceMetrics", "scopeMetrics", "metrics", root, env)
    || RequestOf(Logs, "resourceLogs", "scopeLogs", "logRecords", root, env)
  }

  // The recursive conditions agree with these.

  ghost predicate PointsOk(m: Metric, env: Env) {
    forall i :: 0 <= i < |m.points| ==>
      if m.kind == "histogram" then HistogramOk(m.points[i], env) else NumberPointOk(m.points[i], env)
  }

  lemma PointExactly(m: Metric, r: Json, g: Json, item: Json, point: Json, env: Env)
    requires ResourceHeader(Metrics, r, env).Some? && GroupHeader(Metrics, g, env).Some?
    requires MetricHeader(item, env.limits) == Some(m)
    ensures LeafBatch(Metrics, Leaf(r, g, item, point), env).Some? <==>
              if m.kind == "histogram" then HistogramOk(point, env) else NumberPointOk(point, env)
  {
    hide MetricHeader, ResourceHeader, GroupHeader, HistogramPoint, NumberPoint, HistogramOk, NumberPointOk, LeafBatch;
    PointLeaf(m, r, g, item, point, env);
    HistogramExactly(point, env);
    NumberPointExactly(point, env);
  }

  lemma HeaderPoints(item: Json, env: Env)
    requires MetricHeader(item, env.limits).Some?
    ensures var m := MetricHeader(item, env.limits).value;
            && item.Obj? && OnlyKind(item.fields, m.kind)
            && m.points == Elements(item.fields[m.kind], "dataPoints")
            && item.fields[m.kind].Obj? && "dataPoints" in item.fields[m.kind].fields
            && item.fields[m.kind].fields["dataPoints"].Arr?
  {
    hide KindMetadata, OptionalText, Text;
    TheKind(item.fields);
  }

  lemma MetricPointsExactly(item: Json, env: Env)
    requires MetricHeader(item, env.limits).Some?
    ensures MetricItemOk(item, env) <==> PointsOk(MetricHeader(item, env.limits).value, env)
  {
    hide MetricHeader, HistogramOk, NumberPointOk, MetricFieldsOk;
    MetricExactly(item, env);
    HeaderPoints(item, env);
    var m := MetricHeader(item, env.limits).value;
    assert m.kind == "gauge" || m.kind == "sum" || m.kind == "histogram";
  }

  lemma MetricOkExactly(r: Json, g: Json, item: Json, env: Env)
    requires ResourceHeader(Metrics, r, env).Some? && GroupHeader(Metrics, g, env).Some?
    ensures MetricOk(r, g, item, env) <==> MetricItemOk(item, env)
  {
    hide MetricHeader, ResourceHeader, GroupHeader, HistogramOk, NumberPointOk, MetricItemOk, LeafBatch, MetricBody,
         Elements;
    MetricExactly(item, env);
    if MetricHeader(item, env.limits).Some? {
      var m := MetricHeader(item, env.limits).value;
      MetricPoints(item, env.limits);
      MetricPointsExactly(item, env);
      forall i | 0 <= i < |m.points|
        ensures LeafBatch(Metrics, Leaf(r, g, item, m.points[i]), env).Some? <==>
                  if m.kind == "histogram" then HistogramOk(m.points[i], env) else NumberPointOk(m.points[i], env)
      {
        PointExactly(m, r, g, item, m.points[i], env);
      }
    } else {
      assert !MetricItemOk(item, env) by { NoMetric(item, env); }
    }
  }

  lemma NoMetric(item: Json, env: Env)
    requires !MetricFieldsOk(item, env)
    ensures !MetricItemOk(item, env)
  {
    hide MetricFieldsOk;
  }

  lemma ItemExactly(s: Signal, r: Json, g: Json, item: Json, env: Env)
    requires ResourceHeader(s, r, env).Some? && GroupHeader(s, g, env).Some?
    ensures ItemOk(s, r, g, item, env) <==> LeafItemOk(s, item, env)
  {
    hide ResourceHeader, GroupHeader, Span, LogRecord, SpanOk, LogOk, MetricOk, MetricItemOk;
    match s
    case Metrics => MetricOkExactly(r, g, item, env);
    case Traces => SpanExactly(item, env, ResourceHeader(s, r, env).value.0, GroupHeader(s, g, env).value.0);
    case Logs => LogExactly(item, env, ResourceHeader(s, r, env).value.0, GroupHeader(s, g, env).value.0);
  }

  lemma ScopeGroupExactly(s: Signal, r: Json, g: Json, env: Env)
    requires ResourceHeader(s, r, env).Some?
    ensures GroupOk(s, r, g, env) <==> ScopeGroupOk(s, Items(s), g, env)
  {
    hide ResourceHeader, GroupHeader, ItemOk, LeafItemOk, ScopeFieldsOk, UrlOk, Items;
    GroupExactly(s, g, env);
    if GroupHeader(s, g, env).Some? {
      var items := Elements(g, Items(s));
      forall i | 0 <= i < |items|
        ensures ItemOk(s, r, g, items[i], env) <==> LeafItemOk(s, items[i], env)
      {
        ItemExactly(s, r, g, items[i], env);
      }
    }
  }

  lemma ResourceOkExactly(s: Signal, r: Json, env: Env)
    ensures ResourceOk(s, r, env) <==>
              ResourceGroupOk(Groups(s), r, env) && Each(r, Groups(s), g => ScopeGroupOk(s, Items(s), g, env))
  {
    hide ResourceHeader, GroupOk, ScopeGroupOk, ResourceFieldsOk, UrlOk, Groups, Items;
    ResourceGroupExactly(s, r, env);
    if ResourceHeader(s, r, env).Some? {
      var groups := Elements(r, Groups(s));
      forall i | 0 <= i < |groups|
        ensures GroupOk(s, r, groups[i], env) <==> ScopeGroupOk(s, Items(s), groups[i], env)
      {
        ScopeGroupExactly(s, r, groups[i], env);
      }
    }
  }

  lemma SignalExactly(s: Signal, root: Json, env: Env)
    requires SignalOf(root) == Some(s)
    ensures RequestOk(root, env) <==> RequestOf(s, Top(s), Groups(s), Items(s), root, env)
  {
    hide ResourceOk, ScopeGroupOk, ResourceGroupOk, Groups, Items;
    assert root.fields.Keys == {Top(s)};
    var resources := Elements(root, Top(s));
    forall i | 0 <= i < |resources|
      ensures ResourceOk(s, resources[i], env) <==>
                && ResourceGroupOk(Groups(s), resources[i], env)
                && Each(resources[i], Groups(s), g => ScopeGroupOk(s, Items(s), g, env))
    {
      ResourceOkExactly(s, resources[i], env);
    }
  }

  /** The names of the three signals are different, so a request is of one of them at most. */
  lemma OneSignal(root: Json, env: Env)
    ensures WellFormed(root, env) <==>
              SignalOf(root).Some?
              && var s := SignalOf(root).value; RequestOf(s, Top(s), Groups(s), Items(s), root, env)
  {
    hide ResourceGroupOk, ScopeGroupOk, Each, ListOf;
    if root.Obj? {
      assert "resourceSpans" in {"resourceSpans"} && "resourceMetrics" in {"resourceMetrics"};
    }
  }

  /** A request is accepted exactly when it is well-formed, holds 1 to max_records leaves and has a token as key. */
  lemma IngestAcceptsExactly(root: Json, key: string, payload: string, env: Env)
    ensures IngestOf(Some(root), key, payload, env).Some? <==>
              && WellFormed(root, env) && SignalOf(root).Some? && ReplayGuard.IsToken(key)
              && 1 <= |Leaves(SignalOf(root).value, root)| <= env.limits.maxRecords
  {
    hide IngestOf, RequestOk, WellFormed, RequestOf, Leaves, SignalOf, ReplayGuard.IsToken;
    AcceptedExactly(root, key, payload, env);
    OneSignal(root, env);
    if SignalOf(root).Some? {
      SignalExactly(SignalOf(root).value, root, env);
    } else {
      NoSignal(root, env);
    }
  }

  lemma NoSignal(root: Json, env: Env)
    requires SignalOf(root).None?
    ensures !RequestOk(root, env)
  {
    hide SignalOf;
  }
}
