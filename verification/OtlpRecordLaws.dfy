/**
What acceptance of an OTLP scalar, span, metric point or attribute list means.
*/
module OtlpRecordLaws {
  import opened Common
  import opened Decimals
  import opened Json
  import opened Sanitizer
  import opened OtlpRecords

  // Integers and identifiers.

  lemma {:induction false} TextLength(n: nat, k: nat)
    requires 1 <= k && n < Pow10(k)
    ensures |NatText(n)| <= k
  {
    if n >= 10 {
      TextLength(n / 10, k - 1);
    }
  }

  lemma Uint64HasTwentyDigits(n: nat)
    requires n <= UINT64_MAX
    ensures IsDecimal(NatText(n)) && NatOf(NatText(n)) == n
  {
    assert Pow10(10) == 10_000_000_000;
    PowersMultiply(10, 10);
    TextLength(n, 20);
    NatTextReads(n);
    NoLeadingZero(n);
  }

  lemma {:induction false} PowersMultiply(a: nat, b: nat)
    ensures Pow10(a + b) == Pow10(a) * Pow10(b)
  {
    if a > 0 {
      PowersMultiply(a - 1, b);
    }
  }

  lemma DecimalReadsExactly(s: string, n: nat)
    requires n <= UINT64_MAX
    ensures IsDecimal(s) && NatOf(s) == n <==> s == NatText(n)
  {
    Uint64HasTwentyDigits(n);
    if IsDecimal(s) {
      TextOfReading(s);
    }
  }

  /** Every 64-bit natural has exactly one accepted spelling, and nothing else is accepted. */
  lemma UnsignedReadsExactly(v: Json, n: nat)
    ensures Unsigned(v) == Some(n) <==> n <= UINT64_MAX && v == Str(NatText(n))
  {
    hide IsDecimal, NatOf, NatText;
    if v.Str? && n <= UINT64_MAX {
      DecimalReadsExactly(v.text, n);
    }
  }

  /** The same for 64-bit integers, except that zero may also be spelled with a minus sign. */
  lemma SignedReadsExactly(v: Json, n: int)
    ensures Signed(v) == Some(n) <==>
              && n <= INT64_MAX && -n <= INT64_MAX + 1
              && ((n >= 0 && v == Str(NatText(n))) || (n <= 0 && v == Str("-" + NatText(-n))))
  {
    hide IsDecimal, NatOf, NatText;
    if n >= 0 {
      StartsWithDigit(n);
    }
    if v.Str? && v.text != "" {
      if 0 <= n <= INT64_MAX {
        DecimalReadsExactly(v.text, n);
      }
      if 0 <= -n <= INT64_MAX + 1 {
        DecimalReadsExactly(v.text[1..], -n);
        assert v.text[0] == '-' ==> v.text == "-" + v.text[1..];
        assert ("-" + NatText(-n))[1..] == NatText(-n);
      }
    }
  }

  lemma StartsWithDigit(n: nat)
    ensures NatText(n) != "" && NatText(n)[0] != '-'
  {
    NatTextReads(n);
  }

  /** Accepted identifiers are non-zero lower-case digits of the right length, and normalizing again changes nothing. */
  lemma HexIdIsCanonical(v: Json, n: nat)
    requires HexId(v, n).Some?
    ensures var id := HexId(v, n).value;
            && IsLowerHexText(id, n) && (exists i :: 0 <= i < n && id[i] != '0')
            && HexId(Str(id), n) == Some(id)
            && forall i :: 0 <= i < n ==> id[i] == LowerChar(v.text[i])
  {
    var id := HexId(v, n).value;
    var i :| 0 <= i < n && v.text[i] != '0';
    assert id[i] != '0';
    assert seq(n, i requires 0 <= i < n => LowerChar(id[i])) == id;
  }

  // Records.

  /** A metric point never starts after its own time, and carries exactly the one value it was sent. */
  lemma AcceptedNumberPoint(v: Json, env: Env)
    requires NumberPoint(v, env).Some?
    ensures var p := NumberPoint(v, env).value;
            && v.Obj? && "timeUnixNano" in v.fields && v.fields["timeUnixNano"] == Str(NatText(p.time))
            && ("startTimeUnixNano" in v.fields <==> "start_time_unix_nano" in p.data)
            && ("startTimeUnixNano" in v.fields ==>
                  StartsBy(v.fields["startTimeUnixNano"], p.data["start_time_unix_nano"], p.time))
            && "value" in p.data
            && (("asInt" in v.fields && "asDouble" !in v.fields && SpellsInt(v.fields["asInt"], p.data["value"]))
                || ("asDouble" in v.fields && "asInt" !in v.fields
                    && SameNumber(v.fields["asDouble"], p.data["value"], env)))
  {
    hide Attributes, Unsigned, Signed, NatText, SpellsInt, StartsBy;
    var f, p := v.fields, NumberPoint(v, env).value;
    OptionalKeys(f, p.time, env);
    UnsignedReadsExactly(f["timeUnixNano"], p.time);
    if "startTimeUnixNano" in f {
      StartReads(f, p.time);
    }
    if "asInt" in f {
      SignedSpells(f["asInt"]);
    }
  }

  predicate StartsBy(v: Json, start: Json, time: nat) {
    start.Int? && 0 <= start.value <= time && v == Str(NatText(start.value))
  }

  lemma StartReads(f: Fields, time: nat)
    requires "startTimeUnixNano" in f && StartTime(f, time).Some?
    ensures "start_time_unix_nano" in StartTime(f, time).value
    ensures StartsBy(f["startTimeUnixNano"], StartTime(f, time).value["start_time_unix_nano"], time)
  {
    hide Unsigned, NatText;
    UnsignedReadsExactly(f["startTimeUnixNano"], Unsigned(f["startTimeUnixNano"]).value);
  }

  predicate SpellsInt(v: Json, n: Json) {
    n.Int? && ((n.value >= 0 && v == Str(NatText(n.value))) || (n.value <= 0 && v == Str("-" + NatText(-n.value))))
  }

  /** The float itself, or the float an integer is rounded to. */
  predicate SameNumber(v: Json, x: Json, env: Env) {
    x.Real? && (v == x || (v.Int? && env.float(v.value) == Some(x.number)))
  }

  lemma SignedSpells(v: Json)
    ensures Signed(v).Some? ==> SpellsInt(v, Int(Signed(v).value))
  {
    hide Signed, NatText;
    if Signed(v).Some? {
      SignedReadsExactly(v, Signed(v).value);
    }
  }

  lemma {:induction false} StepsUpMeansSorted(bounds: seq<JsonNumber>, i: nat, j: nat)
    requires StepsUp(bounds) && i < j < |bounds|
    ensures bounds[i] < bounds[j]
    decreases j
  {
    if i < j - 1 {
      StepsUpMeansSorted(bounds, i, j - 1);
    }
  }

  /** An accepted histogram has pairwise increasing bounds, one more bucket, and buckets that sum to its count. */
  lemma AcceptedHistogram(v: Json, env: Env) returns (counts: seq<nat>, bounds: seq<JsonNumber>)
    requires HistogramPoint(v, env).Some?
    ensures var d := HistogramPoint(v, env).value.data;
            && {"count", "bucket_counts", "explicit_bounds"} <= d.Keys
            && d["bucket_counts"] == CountsJson(counts) && d["explicit_bounds"] == BoundsJson(bounds)
            && d["count"] == Int(Total(counts))
    ensures |counts| == |bounds| + 1 <= env.limits.maxBuckets
    ensures forall i, j :: 0 <= i < j < |bounds| ==> bounds[i] < bounds[j]
  {
    hide Attributes, Unsigned, Flags, CountsJson, BoundsJson, StartTime, OptionalNumber, MinExceedsMax, Buckets, Total;
    var f := v.fields;
    OptionalKeys(f, Unsigned(f["timeUnixNano"]).value, env);
    counts, bounds := Buckets(f, env).value.0, Buckets(f, env).value.1;
    AcceptedBuckets(f, env);
  }

  lemma AcceptedBuckets(f: Fields, env: Env)
    requires {"count", "bucketCounts", "explicitBounds"} <= f.Keys && Buckets(f, env).Some?
    ensures var (counts, bounds, count) := Buckets(f, env).value;
            && |counts| == |bounds| + 1 <= env.limits.maxBuckets && Total(counts) == count
            && forall i, j :: 0 <= i < j < |bounds| ==> bounds[i] < bounds[j]
  {
    hide Unsigned, Total;
    var bounds := Buckets(f, env).value.1;
    forall i, j | 0 <= i < j < |bounds|
      ensures bounds[i] < bounds[j]
    {
      StepsUpMeansSorted(bounds, i, j);
    }
    CountsLength(f["bucketCounts"].items);
  }

  lemma OptionalKeys(f: Fields, time: nat, env: Env)
    ensures StartTime(f, time).Some? ==> StartTime(f, time).value.Keys <= {"start_time_unix_nano"}
    ensures Flags(f).Some? ==> Flags(f).value.Keys <= {"flags"}
    ensures forall key :: OptionalNumber(f, key, env).Some? ==> OptionalNumber(f, key, env).value.Keys <= {key}
  {
    hide Unsigned, Number;
  }

  lemma {:induction false} CountsLength(items: seq<Json>)
    ensures Counts(items).Some? ==> |Counts(items).value| == |items|
  {
    if items != [] {
      CountsLength(items[1..]);
    }
  }

  /** No accepted attribute map holds a credential, and it reports nothing stripped only if it kept everything. */
  lemma AcceptedAttributes(v: Json, env: Env)
    requires Attributes(v, env).Some?
    ensures NoSensitiveKeys(Obj(Attributes(v, env).value.0), env.sensitive)
    ensures v.Arr? ==>
              var parsed := AttributeMap(v.items, |v.items|, env);
              parsed.Some? && (Attributes(v, env).value.1 == {} <==> Attributes(v, env).value.0 == parsed.value)
  {
    hide Clean, Removed, AttributeMap;
    if v.Arr? {
      var parsed := AttributeMap(v.items, |v.items|, env).value;
      StrippingIsComplete(parsed, env.sensitive);
      CleanIsObject(parsed, env.sensitive);
    }
  }

  lemma CleanIsObject(fields: Fields, sensitive: string -> bool)
    ensures Clean(Obj(fields), sensitive).Obj?
  {
  }
}
