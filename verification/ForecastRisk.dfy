/**
Threshold-risk windows: the report derived from a governed forecast.  The
probability theory that justifies it is in RiskBounds.
*/
module ForecastRisk {
  import opened Common
  import opened Decimals
  import opened ForecastLoom
  import opened Stats

  datatype Rule = Rule(threshold: real, direction: string, alertLevel: real)

  datatype Row = Row(step: nat, lower: real, upper: real, medianCrosses: bool)

  datatype Report = Report(
    rows: seq<Row>,
    earliestPossible: Option<nat>,
    earliestSupported: Option<nat>,
    firstMedianCrossing: Option<nat>,
    anyLower: real,
    anyUpper: real)

  function ValidateRule(rule: Rule): Option<string> {
    if rule.direction != "above" && rule.direction != "below" then Some("risk direction must be above or below")
    else if !(0.0 < rule.alertLevel <= 1.0) then Some("alert_level must be in (0, 1]")
    else None
  }

  /** The strict event of a rule at one value. */
  predicate Breaches(above: bool, threshold: real, x: real) {
    if above then x > threshold else x < threshold
  }

  // One step.

  /** The greatest level whose value lies on the given side of the threshold, or 0. */
  function MaxLevel(qs: seq<Quantile>, vs: seq<real>, above: bool, threshold: real, side: bool): real
    requires |qs| == |vs|
  {
    if qs == [] then 0.0
    else
      var n := |qs| - 1;
      var rest := MaxLevel(qs[..n], vs[..n], above, threshold, side);
      if Breaches(above, threshold, vs[n]) == side && qs[n].level > rest then qs[n].level else rest
  }

  /** The least level whose value lies on the given side of the threshold, or 1. */
  function MinLevel(qs: seq<Quantile>, vs: seq<real>, above: bool, threshold: real, side: bool): real
    requires |qs| == |vs|
  {
    if qs == [] then 1.0
    else
      var n := |qs| - 1;
      var rest := MinLevel(qs[..n], vs[..n], above, threshold, side);
      if Breaches(above, threshold, vs[n]) == side && qs[n].level < rest then qs[n].level else rest
  }

  function Lower(qs: seq<Quantile>, vs: seq<real>, above: bool, threshold: real): real
    requires |qs| == |vs|
  {
    if above then 1.0 - MinLevel(qs, vs, above, threshold, true) else MaxLevel(qs, vs, above, threshold, true)
  }

  function Upper(qs: seq<Quantile>, vs: seq<real>, above: bool, threshold: real): real
    requires |qs| == |vs|
  {
    if above then 1.0 - MaxLevel(qs, vs, above, threshold, false) else MinLevel(qs, vs, above, threshold, false)
  }

  predicate HasKeys(p: Point, qs: seq<Quantile>) {
    forall i :: 0 <= i < |qs| ==> qs[i].key in p.quantiles
  }

  function PointValues(p: Point, qs: seq<Quantile>): seq<real>
    requires HasKeys(p, qs)
  {
    seq(|qs|, i requires 0 <= i < |qs| => p.quantiles[qs[i].key])
  }

  function RowFor(p: Point, step: nat, qs: seq<Quantile>, rule: Rule): Row
    requires HasKeys(p, qs) && MEDIAN_KEY in p.quantiles
  {
    var vs, above := PointValues(p, qs), rule.direction == "above";
    Row(step, Lower(qs, vs, above, rule.threshold), Upper(qs, vs, above, rule.threshold),
        Breaches(above, rule.threshold, p.quantiles[MEDIAN_KEY]))
  }

  // The whole window.

  datatype RowKey = LowerKey | UpperKey | MedianKey

  predicate Fires(row: Row, key: RowKey, level: real) {
    match key
    case LowerKey => row.lower >= level
    case UpperKey => row.upper >= level
    case MedianKey => row.medianCrosses
  }

  /** The step of the first row that fires, if any. */
  function First(rows: seq<Row>, key: RowKey, level: real): Option<nat> {
    if rows == [] then None
    else if Fires(rows[0], key, level) then Some(rows[0].step)
    else First(rows[1..], key, level)
  }

  function MaxLower(rows: seq<Row>): real
    requires rows != []
  {
    var last := rows[|rows| - 1].lower;
    if |rows| == 1 then last
    else
      var rest := MaxLower(rows[..|rows| - 1]);
      if last > rest then last else rest
  }

  function SumUpper(rows: seq<Row>): real {
    if rows == [] then 0.0 else SumUpper(rows[..|rows| - 1]) + rows[|rows| - 1].upper
  }

  function Capped(x: real): real {
    if x < 1.0 then x else 1.0
  }

  function ReportOf(rows: seq<Row>, rule: Rule): Report
    requires rows != []
  {
    Report(rows, First(rows, UpperKey, rule.alertLevel), First(rows, LowerKey, rule.alertLevel),
           First(rows, MedianKey, rule.alertLevel), MaxLower(rows), Capped(SumUpper(rows)))
  }

  function StepRows(points: seq<Point>, qs: seq<Quantile>, rule: Rule): seq<Row>
    requires forall t :: 0 <= t < |points| ==> HasKeys(points[t], qs) && MEDIAN_KEY in points[t].quantiles
  {
    seq(|points|, t requires 0 <= t < |points| => RowFor(points[t], t + 1, qs, rule))
  }

  lemma OkPointsHaveKeys(f: Forecast, digest: seq<Point> -> string)
    requires ForecastOk(f, digest) && Faithful(f.receipt.quantiles)
    ensures forall t :: 0 <= t < |f.points| ==>
              HasKeys(f.points[t], f.receipt.quantiles) && MEDIAN_KEY in f.points[t].quantiles
  {
    var qs := f.receipt.quantiles;
    var m :| 0 <= m < |qs| && qs[m].level == 0.5;
    forall t | 0 <= t < |f.points|
      ensures HasKeys(f.points[t], qs) && MEDIAN_KEY in f.points[t].quantiles
    {
      assert PointOk(f.points[t], t + 1, qs);
      assert qs[m].key == MEDIAN_KEY;
    }
  }

  /** The window of a forecast that passes every check. */
  ghost function RiskReport(f: Forecast, rule: Rule, digest: seq<Point> -> string): Report
    requires ForecastOk(f, digest) && Faithful(f.receipt.quantiles)
  {
    OkPointsHaveKeys(f, digest);
    ReportOf(StepRows(f.points, f.receipt.quantiles, rule), rule)
  }

  /** Derivation succeeds exactly on valid rules and complete, digest-bound, non-crossing forecasts. */
  method DeriveRiskWindow(f: Forecast, rule: Rule, digest: seq<Point> -> string) returns (r: Result<Report>)
    requires Faithful(f.receipt.quantiles)
    ensures r.Ok? <==>
              && (rule.direction == "above" || rule.direction == "below") && 0.0 < rule.alertLevel <= 1.0
              && ForecastOk(f, digest)
    ensures r.Ok? ==> r.value == RiskReport(f, rule, digest)
    ensures r.Ok? ==> ReportMeans(f, rule, r.value)
  {
    hide Faithful, PointOk, RowFor, HasKeys, ReportMeans;
    var invalid := ValidateRule(rule);
    if invalid.Some? {
      return Err(invalid.value);
    }
    var receipt := f.receipt;
    if receipt.contract != CONTRACT_VERSION {
      return Err("unsupported forecast contract for risk derivation");
    }
    var qs := receipt.quantiles;
    QuantilesAccepted(qs);
    if ValidateQuantiles(qs).Err? {
      return Err("risk derivation requires ordered finite forecast quantiles");
    }
    if !(1 <= receipt.horizon <= 1024) || |f.points| != receipt.horizon {
      return Err("risk derivation requires a complete bounded forecast horizon");
    }
    if digest(f.points) != receipt.outputSha256 {
      return Err("forecast output digest mismatch");
    }
    var rows := DeriveRows(f.points, qs, rule);
    if rows.Err? {
      return Err(rows.error);
    }
    ReportHasMeaning(f, rule, digest);
    return Ok(ReportOf(rows.value, rule));
  }

  method DeriveRows(points: seq<Point>, qs: seq<Quantile>, rule: Rule) returns (r: Result<seq<Row>>)
    requires QuantilesOk(qs) && Faithful(qs)
    ensures r.Ok? <==> forall t :: 0 <= t < |points| ==> PointOk(points[t], t + 1, qs)
    ensures r.Ok? ==> forall t :: 0 <= t < |points| ==> HasKeys(points[t], qs) && MEDIAN_KEY in points[t].quantiles
    ensures r.Ok? ==> r.value == StepRows(points, qs, rule)
  {
    hide RowFor, Faithful, QuantilesOk, PointOk;
    var rows: seq<Row> := [];
    for t := 0 to |points|
      invariant |rows| == t
      invariant forall u :: 0 <= u < t ==> PointOk(points[u], u + 1, qs)
      invariant forall u :: 0 <= u < t ==> HasKeys(points[u], qs) && MEDIAN_KEY in points[u].quantiles
      invariant forall u :: 0 <= u < t ==> rows[u] == RowFor(points[u], u + 1, qs, rule)
    {
      var point := points[t];
      PointChecks(point, t + 1, qs);
      if point.step != t + 1 || point.quantiles.Keys != KeySet(qs) {
        return Err("forecast step or quantile keys do not match the receipt");
      }
      var values := PointValues(point, qs);
      if !Sorted(values) {
        return Err("risk derivation rejects non-finite or crossing quantiles");
      }
      rows := rows + [RowFor(point, t + 1, qs, rule)];
    }
    assert rows == StepRows(points, qs, rule);
    return Ok(rows);
  }

  lemma PointChecks(p: Point, step: int, qs: seq<Quantile>)
    requires QuantilesOk(qs) && Faithful(qs)
    ensures p.quantiles.Keys == KeySet(qs) ==> HasKeys(p, qs) && MEDIAN_KEY in p.quantiles
    ensures PointOk(p, step, qs) <==>
              p.step == step && p.quantiles.Keys == KeySet(qs) && HasKeys(p, qs) && Sorted(PointValues(p, qs))
  {
    KeySetHas(qs);
    if HasKeys(p, qs) {
      var values := PointValues(p, qs);
      assert forall i :: 0 <= i < |qs| ==> values[i] == p.quantiles[qs[i].key];
    }
  }

  lemma KeySetHas(qs: seq<Quantile>)
    requires Faithful(qs) && QuantilesOk(qs)
    ensures forall i :: 0 <= i < |qs| ==> qs[i].key in KeySet(qs)
    ensures MEDIAN_KEY in KeySet(qs)
  {
    assert forall i :: 0 <= i < |qs| ==> qs[i] in qs;
    var m :| 0 <= m < |qs| && qs[m].level == 0.5;
    assert qs[m].key == MEDIAN_KEY;
  }

  /** Whatever a provider returns, a forecast that passes the governed run passes every derivation check. */
  lemma GovernedForecastsDerive(request: Request, provider: Provider, rule: Rule, digest: seq<Point> -> string)
    requires Faithful(request.quantiles) && ValidateRule(rule).None?
    requires RunForecast(request, provider, digest).Ok?
    ensures ForecastOk(RunForecast(request, provider, digest).value, digest)
    ensures RiskReport(RunForecast(request, provider, digest).value, rule, digest).rows != []
  {
    RunYieldsOkForecast(request, provider, digest);
  }

  // The levels on either side of the threshold.

  /** The first k values are on one side of the threshold and the others on the other side. */
  ghost predicate SplitsAt(vs: seq<real>, above: bool, threshold: real, k: nat) {
    && k <= |vs|
    && (forall i :: 0 <= i < k ==> Breaches(above, threshold, vs[i]) == !above)
    && (forall i :: k <= i < |vs| ==> Breaches(above, threshold, vs[i]) == above)
  }

  lemma {:induction false} SortedSplits(vs: seq<real>, above: bool, threshold: real) returns (k: nat)
    requires Sorted(vs)
    ensures SplitsAt(vs, above, threshold, k)
  {
    k := |vs|;
    if vs != [] {
      var n := |vs| - 1;
      if Breaches(above, threshold, vs[n]) == above {
        k := SortedSplits(vs[..n], above, threshold);
        assert forall i :: 0 <= i < n ==> vs[i] == vs[..n][i];
      } else {
        assert forall i :: 0 <= i < n ==> vs[i] <= vs[n];
      }
    }
  }

  /** Cumulative probability at the k-th cut: 0, the k-th quantile level, or 1. */
  function Level(qs: seq<Quantile>, k: nat): real
    requires k <= |qs| + 1
  {
    if k == 0 then 0.0 else if k <= |qs| then qs[k - 1].level else 1.0
  }

  lemma {:induction false} MaxOnLowSide(qs: seq<Quantile>, vs: seq<real>, above: bool, threshold: real, k: nat)
    requires |qs| == |vs| && StrictlyIncreasing(qs) && LevelsOk(qs) && SplitsAt(vs, above, threshold, k)
    ensures MaxLevel(qs, vs, above, threshold, !above) == Level(qs, k)
  {
    if qs != [] {
      var n := |qs| - 1;
      assert vs[..n] + [vs[n]] == vs;
      MaxOnLowSide(qs[..n], vs[..n], above, threshold, if k <= n then k else n);
    }
  }

  lemma {:induction false} MinOnHighSide(qs: seq<Quantile>, vs: seq<real>, above: bool, threshold: real, k: nat)
    requires |qs| == |vs| && StrictlyIncreasing(qs) && LevelsOk(qs) && SplitsAt(vs, above, threshold, k)
    ensures MinLevel(qs, vs, above, threshold, above) == Level(qs, k + 1)
  {
    if qs != [] {
      var n := |qs| - 1;
      assert vs[..n] + [vs[n]] == vs;
      MinOnHighSide(qs[..n], vs[..n], above, threshold, if k <= n then k else n);
    }
  }

  /** Both ends of a bracket are consecutive quantile levels around the threshold. */
  lemma BracketLevels(qs: seq<Quantile>, vs: seq<real>, above: bool, threshold: real) returns (k: nat)
    requires |qs| == |vs| && StrictlyIncreasing(qs) && LevelsOk(qs) && Sorted(vs)
    ensures SplitsAt(vs, above, threshold, k)
    ensures Lower(qs, vs, above, threshold) == if above then 1.0 - Level(qs, k + 1) else Level(qs, k)
    ensures Upper(qs, vs, above, threshold) == if above then 1.0 - Level(qs, k) else Level(qs, k + 1)
    ensures 0.0 <= Lower(qs, vs, above, threshold) < Upper(qs, vs, above, threshold) <= 1.0
  {
    k := SortedSplits(vs, above, threshold);
    MaxOnLowSide(qs, vs, above, threshold, k);
    MinOnHighSide(qs, vs, above, threshold, k);
  }

  /**
  The bracket of one step, written out: with k values on the near side of the
  threshold, its ends are the levels before and after that cut, or 0 and 1.
  */
  ghost predicate BracketOf(row: Row, point: Point, qs: seq<Quantile>, rule: Rule) {
    && (forall i :: 0 <= i < |qs| ==> qs[i].key in point.quantiles)
    && exists k :: CutAt(row, point, qs, rule, k)
  }

  ghost predicate CutAt(row: Row, point: Point, qs: seq<Quantile>, rule: Rule, k: int)
    requires forall i :: 0 <= i < |qs| ==> qs[i].key in point.quantiles
  {
    var before := if k > 0 && k <= |qs| then qs[k - 1].level else 0.0;
    var after := if 0 <= k < |qs| then qs[k].level else 1.0;
    && 0 <= k <= |qs|
    && if rule.direction == "above" then
         && (forall i :: 0 <= i < k ==> point.quantiles[qs[i].key] <= rule.threshold)
         && (forall i :: k <= i < |qs| ==> point.quantiles[qs[i].key] > rule.threshold)
         && row.lower == 1.0 - after && row.upper == 1.0 - before
       else
         && (forall i :: 0 <= i < k ==> point.quantiles[qs[i].key] < rule.threshold)
         && (forall i :: k <= i < |qs| ==> point.quantiles[qs[i].key] >= rule.threshold)
         && row.lower == before && row.upper == after
  }

  /** The number of the first step whose flag is set, counted from 1; none when no flag is. */
  ghost predicate Earliest(step: Option<nat>, flags: seq<bool>) {
    match step
    case None => forall t :: 0 <= t < |flags| ==> !flags[t]
    case Some(k) => 1 <= k <= |flags| && flags[k - 1] && forall t :: 0 <= t < k - 1 ==> !flags[t]
  }

  ghost predicate MedianPast(point: Point, rule: Rule) {
    && "q50" in point.quantiles
    && if rule.direction == "above" then point.quantiles["q50"] > rule.threshold
       else point.quantiles["q50"] < rule.threshold
  }

  ghost function UpperReaches(rows: seq<Row>, level: real): seq<bool> {
    seq(|rows|, t requires 0 <= t < |rows| => rows[t].upper >= level)
  }

  ghost function LowerReaches(rows: seq<Row>, level: real): seq<bool> {
    seq(|rows|, t requires 0 <= t < |rows| => rows[t].lower >= level)
  }

  ghost function MediansPast(points: seq<Point>, rule: Rule): seq<bool> {
    seq(|points|, t requires 0 <= t < |points| => MedianPast(points[t], rule))
  }

  ghost function Uppers(rows: seq<Row>): seq<real> {
    seq(|rows|, t requires 0 <= t < |rows| => rows[t].upper)
  }

  /** Everything a report says about its forecast, written out. */
  ghost predicate ReportMeans(f: Forecast, rule: Rule, r: Report) {
    && |r.rows| == |f.points| > 0
    && (forall t :: 0 <= t < |r.rows| ==> RowMeans(r.rows[t], f.points[t], t + 1, f.receipt.quantiles, rule))
    && Earliest(r.earliestPossible, UpperReaches(r.rows, rule.alertLevel))
    && Earliest(r.earliestSupported, LowerReaches(r.rows, rule.alertLevel))
    && Earliest(r.firstMedianCrossing, MediansPast(f.points, rule))
    && (exists t :: 0 <= t < |r.rows| && r.anyLower == r.rows[t].lower)
    && (forall t :: 0 <= t < |r.rows| ==> r.rows[t].lower <= r.anyLower)
    && var total := Sum(Uppers(r.rows));
       r.anyUpper == if total < 1.0 then total else 1.0
  }

  ghost predicate RowMeans(row: Row, point: Point, step: nat, qs: seq<Quantile>, rule: Rule) {
    row.step == step && BracketOf(row, point, qs, rule) && (row.medianCrosses <==> MedianPast(point, rule))
  }

  lemma RowHasMeaning(point: Point, step: nat, qs: seq<Quantile>, rule: Rule)
    requires QuantilesOk(qs) && Faithful(qs) && PointOk(point, step, qs)
    requires HasKeys(point, qs) && MEDIAN_KEY in point.quantiles
    ensures RowMeans(RowFor(point, step, qs, rule), point, step, qs, rule)
  {
    hide Lower, Upper, CutAt, Faithful, QuantilesOk;
    var k := RowCut(point, step, qs, rule);
    assert CutAt(RowFor(point, step, qs, rule), point, qs, rule, k);
  }

  lemma RowCut(point: Point, step: nat, qs: seq<Quantile>, rule: Rule) returns (k: nat)
    requires QuantilesOk(qs) && PointOk(point, step, qs)
    requires HasKeys(point, qs) && MEDIAN_KEY in point.quantiles
    ensures CutAt(RowFor(point, step, qs, rule), point, qs, rule, k)
  {
    hide Lower, Upper;
    var vs := PointValues(point, qs);
    assert forall i :: 0 <= i < |qs| ==> vs[i] == point.quantiles[qs[i].key];
    k := BracketLevels(qs, vs, rule.direction == "above", rule.threshold);
  }

  lemma {:induction false} MaxLowerMeans(rows: seq<Row>)
    requires rows != []
    ensures exists t :: 0 <= t < |rows| && MaxLower(rows) == rows[t].lower
    ensures forall t :: 0 <= t < |rows| ==> rows[t].lower <= MaxLower(rows)
  {
    var n := |rows| - 1;
    if n == 0 {
      assert MaxLower(rows) == rows[0].lower;
    } else {
      var front := rows[..n];
      MaxLowerMeans(front);
      assert rows[n].lower == rows[|rows| - 1].lower;
      var t :| 0 <= t < |front| && MaxLower(front) == front[t].lower;
      assert front[t] == rows[t];
      assert forall u :: 0 <= u < |front| ==> rows[u] == front[u];
    }
  }

  lemma {:induction false} SumUpperMeans(rows: seq<Row>)
    ensures SumUpper(rows) == Sum(Uppers(rows))
  {
    if rows != [] {
      var n := |rows| - 1;
      SumUpperMeans(rows[..n]);
      assert Uppers(rows) == Uppers(rows[..n]) + [rows[n].upper];
      SumAppend(Uppers(rows[..n]), rows[n].upper);
    }
  }

  lemma FirstIsEarliest(rows: seq<Row>, key: RowKey, level: real, flags: seq<bool>)
    requires |flags| == |rows| && forall t :: 0 <= t < |rows| ==> rows[t].step == t + 1
    requires forall t :: 0 <= t < |rows| ==> flags[t] == Fires(rows[t], key, level)
    ensures Earliest(First(rows, key, level), flags)
  {
    FirstIsLeast(rows, key, level, 1);
  }

  lemma ReportHasMeaning(f: Forecast, rule: Rule, digest: seq<Point> -> string)
    requires ForecastOk(f, digest) && Faithful(f.receipt.quantiles)
    ensures ReportMeans(f, rule, RiskReport(f, rule, digest))
  {
    hide RowFor, RowMeans, PointOk, Faithful, QuantilesOk, HasKeys, First, MaxLower, SumUpper, Earliest, MedianPast;
    OkPointsHaveKeys(f, digest);
    var r := RiskReport(f, rule, digest);
    forall t | 0 <= t < |r.rows|
      ensures RowMeans(r.rows[t], f.points[t], t + 1, f.receipt.quantiles, rule)
      ensures r.rows[t].step == t + 1 && (r.rows[t].medianCrosses <==> MedianPast(f.points[t], rule))
    {
      RowHasMeaning(f.points[t], t + 1, f.receipt.quantiles, rule);
      RowParts(r.rows[t], f.points[t], t + 1, f.receipt.quantiles, rule);
    }
    FirstIsEarliest(r.rows, UpperKey, rule.alertLevel, UpperReaches(r.rows, rule.alertLevel));
    FirstIsEarliest(r.rows, LowerKey, rule.alertLevel, LowerReaches(r.rows, rule.alertLevel));
    FirstIsEarliest(r.rows, MedianKey, rule.alertLevel, MediansPast(f.points, rule));
    MaxLowerMeans(r.rows);
    SumUpperMeans(r.rows);
  }

  lemma RowParts(row: Row, point: Point, step: nat, qs: seq<Quantile>, rule: Rule)
    requires RowMeans(row, point, step, qs, rule)
    ensures row.step == step && (row.medianCrosses <==> MedianPast(point, rule))
  {
  }

  // Alerts.

  lemma {:induction false} FirstIsLeast(rows: seq<Row>, key: RowKey, level: real, from: nat)
    requires forall t :: 0 <= t < |rows| ==> rows[t].step == from + t
    ensures First(rows, key, level).None? <==> forall t :: 0 <= t < |rows| ==> !Fires(rows[t], key, level)
    ensures First(rows, key, level).Some? ==>
              var s := First(rows, key, level).value;
              && from <= s < from + |rows| && Fires(rows[s - from], key, level)
              && forall t :: 0 <= t < s - from ==> !Fires(rows[t], key, level)
  {
    if rows != [] && !Fires(rows[0], key, level) {
      FirstIsLeast(rows[1..], key, level, from + 1);
      assert forall t :: 1 <= t < |rows| ==> rows[t] == rows[1..][t - 1];
    }
  }

  /** No later than, where None is after every step. */
  predicate NoLater(a: Option<nat>, b: Option<nat>) {
    b.Some? ==> a.Some? && a.value <= b.value
  }

  /** If everything that fires b also fires a, then a alerts no later than b. */
  lemma {:induction false} FirstIsMonotone(rows: seq<Row>, a: RowKey, alevel: real, b: RowKey, blevel: real)
    requires forall t, u :: 0 <= t < u < |rows| ==> rows[t].step < rows[u].step
    requires forall t :: 0 <= t < |rows| && Fires(rows[t], b, blevel) ==> Fires(rows[t], a, alevel)
    ensures NoLater(First(rows, a, alevel), First(rows, b, blevel))
  {
    if rows != [] {
      FirstIsMonotone(rows[1..], a, alevel, b, blevel);
      if Fires(rows[0], a, alevel) && First(rows, b, blevel).Some? {
        FirstStep(rows, b, blevel);
      }
    }
  }

  lemma {:induction false} FirstStep(rows: seq<Row>, key: RowKey, level: real)
    requires First(rows, key, level).Some?
    ensures exists t :: 0 <= t < |rows| && rows[t].step == First(rows, key, level).value
  {
    if !Fires(rows[0], key, level) {
      FirstStep(rows[1..], key, level);
      var t :| 0 <= t < |rows[1..]| && rows[1..][t].step == First(rows, key, level).value;
      assert rows[t + 1].step == First(rows, key, level).value;
    }
  }

  /** The median value is a sample of its own bracket. */
  lemma BracketAndMedian(qs: seq<Quantile>, vs: seq<real>, above: bool, threshold: real, m: nat)
    requires |qs| == |vs| && StrictlyIncreasing(qs) && LevelsOk(qs) && Sorted(vs)
    requires m < |qs| && qs[m].level == 0.5
    ensures 0.0 <= Lower(qs, vs, above, threshold) < Upper(qs, vs, above, threshold) <= 1.0
    ensures Breaches(above, threshold, vs[m]) <==> Lower(qs, vs, above, threshold) >= 0.5
  {
    hide Lower, Upper;
    var k := BracketLevels(qs, vs, above, threshold);
    assert Breaches(above, threshold, vs[m]) == (if above then m >= k else m < k);
    LevelOrder(qs, k, m);
  }

  lemma PointBracket(point: Point, step: nat, qs: seq<Quantile>, rule: Rule)
    requires QuantilesOk(qs) && Faithful(qs) && PointOk(point, step, qs)
    requires HasKeys(point, qs) && MEDIAN_KEY in point.quantiles
    ensures var row := RowFor(point, step, qs, rule);
            && row.step == step
            && 0.0 <= row.lower < row.upper <= 1.0
            && (row.medianCrosses <==> row.lower >= 0.5)
  {
    hide Lower, Upper, Breaches;
    var vs := PointValues(point, qs);
    assert forall i :: 0 <= i < |qs| ==> vs[i] == point.quantiles[qs[i].key];
    var m :| 0 <= m < |qs| && qs[m].level == 0.5;
    assert qs[m].key == MEDIAN_KEY && vs[m] == point.quantiles[MEDIAN_KEY];
    BracketAndMedian(qs, vs, rule.direction == "above", rule.threshold, m);
  }

  /** One row of a report: its bracket, and the median as a sample of it. */
  lemma RowFacts(f: Forecast, rule: Rule, digest: seq<Point> -> string, t: nat)
    requires ForecastOk(f, digest) && Faithful(f.receipt.quantiles) && t < |f.points|
    ensures var row := RiskReport(f, rule, digest).rows[t];
            && row.step == t + 1
            && 0.0 <= row.lower < row.upper <= 1.0
            && (row.medianCrosses <==> row.lower >= 0.5)
  {
    hide RowFor, PointOk, Faithful, QuantilesOk, HasKeys;
    OkPointsHaveKeys(f, digest);
    PointBracket(f.points[t], t + 1, f.receipt.quantiles, rule);
  }

  lemma LevelOrder(qs: seq<Quantile>, k: nat, m: nat)
    requires StrictlyIncreasing(qs) && LevelsOk(qs) && k <= |qs| && m < |qs|
    ensures Level(qs, k) >= qs[m].level <==> m < k
    ensures Level(qs, k + 1) <= qs[m].level <==> m >= k
  {
  }

  /** The earliest possible alert never comes after the earliest supported one. */
  lemma PossibleNoLaterThanSupported(f: Forecast, rule: Rule, digest: seq<Point> -> string)
    requires ForecastOk(f, digest) && Faithful(f.receipt.quantiles)
    ensures var r := RiskReport(f, rule, digest); NoLater(r.earliestPossible, r.earliestSupported)
  {
    var rows := RiskReport(f, rule, digest).rows;
    forall t | 0 <= t < |rows|
      ensures rows[t].step == t + 1
      ensures Fires(rows[t], LowerKey, rule.alertLevel) ==> Fires(rows[t], UpperKey, rule.alertLevel)
    {
      RowFacts(f, rule, digest, t);
    }
    FirstIsMonotone(rows, UpperKey, rule.alertLevel, LowerKey, rule.alertLevel);
  }

  /** At alert level one half, support is exactly the median crossing, in both directions. */
  lemma SupportedAtHalfIsMedianCrossing(f: Forecast, rule: Rule, digest: seq<Point> -> string)
    requires ForecastOk(f, digest) && Faithful(f.receipt.quantiles) && rule.alertLevel == 0.5
    ensures var r := RiskReport(f, rule, digest); r.earliestSupported == r.firstMedianCrossing
  {
    var rows := RiskReport(f, rule, digest).rows;
    forall t | 0 <= t < |rows|
      ensures rows[t].step == t + 1 && (Fires(rows[t], LowerKey, 0.5) <==> Fires(rows[t], MedianKey, 0.5))
    {
      RowFacts(f, rule, digest, t);
    }
    FirstIsMonotone(rows, LowerKey, 0.5, MedianKey, 0.5);
    FirstIsMonotone(rows, MedianKey, 0.5, LowerKey, 0.5);
  }

  /** Raising the alert level never makes either alert earlier. */
  lemma RaisingTheLevelDelays(f: Forecast, rule: Rule, level: real, digest: seq<Point> -> string)
    requires ForecastOk(f, digest) && Faithful(f.receipt.quantiles) && rule.alertLevel <= level
    ensures var r := RiskReport(f, rule, digest);
            var s := RiskReport(f, rule.(alertLevel := level), digest);
            NoLater(r.earliestPossible, s.earliestPossible) && NoLater(r.earliestSupported, s.earliestSupported)
  {
    hide Faithful, PointOk, HasKeys, Lower, Upper;
    var raised := rule.(alertLevel := level);
    OkPointsHaveKeys(f, digest);
    var rows := StepRows(f.points, f.receipt.quantiles, rule);
    assert rows == StepRows(f.points, f.receipt.quantiles, raised);
    FirstIsMonotone(rows, UpperKey, rule.alertLevel, UpperKey, level);
    FirstIsMonotone(rows, LowerKey, rule.alertLevel, LowerKey, level);
  }
}
