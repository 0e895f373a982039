/**
What a governed forecast and its receipt say, and what the robust-drift provider
returns, written out from the request alone.
*/
module ForecastMeaning {
  import opened Common
  import opened Decimals
  import opened Stats
  import opened ForecastLoom

  // The governed run.

  /** The part of the context that is used: the last 8192 values. */
  function Recent(values: seq<Option<real>>): seq<Option<real>> {
    if |values| > 8192 then values[|values| - 8192..] else values
  }

  /** A provider's answer: one row per step, with every level and no crossing. */
  ghost predicate Answers(raw: seq<map<real, real>>, horizon: int, qs: seq<Quantile>) {
    && |raw| == horizon
    && (forall t, i :: 0 <= t < |raw| && 0 <= i < |qs| ==> qs[i].level in raw[t])
    && (forall t, i, j :: 0 <= t < |raw| && 0 <= i < j < |qs| ==> raw[t][qs[i].level] <= raw[t][qs[j].level])
  }

  ghost predicate Serves(request: Request, provider: Provider, values: seq<real>) {
    && request.horizon >= 1
    && Observed(Recent(request.values)) != [] && FillsGaps(Recent(request.values), values)
    && Answers(provider.forecast(values, request.horizon, request.quantiles), request.horizon, request.quantiles)
  }

  ghost predicate WellPosed(request: Request) {
    && (exists i :: 0 <= i < |request.signalId| && request.signalId[i] !in " \t\n\r")
    && 1 <= request.horizon <= 1024 && 1 <= |request.quantiles| <= 99
    && (forall i :: 0 <= i < |request.quantiles| ==> 0.0 < request.quantiles[i].level < 1.0)
    && (forall i, j :: 0 <= i < j < |request.quantiles| ==> request.quantiles[i].level < request.quantiles[j].level)
    && (exists i :: 0 <= i < |request.quantiles| && request.quantiles[i].level == 0.5)
  }

  ghost predicate ReceiptMeans(r: Receipt, request: Request, provider: Provider, values: seq<real>, output: string) {
    && r.contract == "szl.lyte.forecast-loom/v1" && r.signalId == request.signalId && r.provider == provider.name
    && r.contextPoints == |values| && r.imputedPoints == |Gaps(Recent(request.values))|
    && r.horizon == request.horizon && r.quantiles == request.quantiles && r.outputSha256 == output
    && r.originalContextPoints == |request.values|
    && r.truncatedPoints == (if |request.values| > 8192 then |request.values| - 8192 else 0)
  }

  /** The t-th point holds the t-th row under the printed keys. */
  ghost predicate PointMeans(p: Point, t: nat, row: map<real, real>, qs: seq<Quantile>) {
    && p.step == t + 1
    && forall i :: 0 <= i < |qs| ==>
         qs[i].key in p.quantiles && qs[i].level in row && p.quantiles[qs[i].key] == row[qs[i].level]
  }

  ghost predicate ForecastMeans(request: Request, provider: Provider, values: seq<real>, f: Forecast,
                                digest: seq<Point> -> string)
    requires request.horizon >= 1
  {
    var raw := provider.forecast(values, request.horizon, request.quantiles);
    && |f.points| == |raw| == request.horizon
    && (forall t :: 0 <= t < |raw| ==> PointMeans(f.points[t], t, raw[t], request.quantiles))
    && ReceiptMeans(f.receipt, request, provider, values, digest(f.points))
  }

  lemma {:induction false} RowsMean(rows: seq<map<real, real>>, qs: seq<Quantile>, n: nat)
    requires n <= |rows|
    ensures CheckRows(rows, qs, n).Ok? <==> forall t :: 0 <= t < n ==> CheckRow(rows[t], qs).Ok?
    ensures CheckRows(rows, qs, n).Ok? ==>
              && |CheckRows(rows, qs, n).value| == n
              && forall t :: 0 <= t < n ==>
                   CheckRows(rows, qs, n).value[t] == Point(t + 1, CheckRow(rows[t], qs).value)
  {
    hide CheckRow;
    if n > 0 {
      RowsMean(rows, qs, n - 1);
    }
  }

  lemma RowAnswers(row: map<real, real>, qs: seq<Quantile>)
    ensures CheckRow(row, qs).Ok? <==>
              && (forall i :: 0 <= i < |qs| ==> qs[i].level in row)
              && (forall i, j :: 0 <= i < j < |qs| ==> row[qs[i].level] <= row[qs[j].level])
  {
    hide Normalized;
    if RowHas(row, qs) {
      assert forall i :: 0 <= i < |qs| ==> RowValues(row, qs)[i] == row[qs[i].level];
    }
  }

  lemma RowPoint(row: map<real, real>, qs: seq<Quantile>, t: nat)
    requires CheckRow(row, qs).Ok? && StrictlyIncreasing(qs) && Faithful(qs)
    ensures PointMeans(Point(t + 1, CheckRow(row, qs).value), t, row, qs)
  {
    hide Normalized, Faithful;
    forall i | 0 <= i < |qs|
      ensures qs[i].key in Normalized(row, qs) && Normalized(row, qs)[qs[i].key] == row[qs[i].level]
    {
      NormalizedKeepsRow(row, qs, i);
    }
  }

  lemma RowsAnswer(raw: seq<map<real, real>>, horizon: int, qs: seq<Quantile>)
    ensures Answers(raw, horizon, qs) <==> |raw| == horizon && CheckRows(raw, qs, |raw|).Ok?
  {
    hide CheckRow, CheckRows;
    RowsMean(raw, qs, |raw|);
    forall t | 0 <= t < |raw|
      ensures CheckRow(raw[t], qs).Ok? <==>
                && (forall i :: 0 <= i < |qs| ==> qs[i].level in raw[t])
                && (forall i, j :: 0 <= i < j < |qs| ==> raw[t][qs[i].level] <= raw[t][qs[j].level])
    {
      RowAnswers(raw[t], qs);
    }
  }

  lemma FilledOnce(window: seq<Option<real>>, a: seq<real>, b: seq<real>)
    requires Observed(window) != [] && FillsGaps(window, a) && FillsGaps(window, b)
    ensures a == b
  {
    hide Observed, Median;
    forall i: nat | i < |window|
      ensures a[i] == b[i]
    {
      if window[i].None? {
        LastOrNone(window, i);
      }
    }
  }

  lemma {:induction false} LastOrNone(window: seq<Option<real>>, i: nat)
    requires i < |window| && window[i].None?
    ensures (exists j: nat :: LastBefore(window, i, j)) || forall k :: 0 <= k <= i ==> window[k].None?
  {
    var j: int := i - 1;
    while j >= 0 && window[j].None?
      invariant -1 <= j < i && forall k :: j < k <= i ==> window[k].None?
    {
      j := j - 1;
    }
    if j >= 0 {
      assert LastBefore(window, i, j);
    }
  }

  lemma Context(request: Request, provider: Provider, digest: seq<Point> -> string)
    ensures Imputed(request.values).Ok? <==> Observed(Recent(request.values)) != []
    ensures Imputed(request.values).Ok? ==>
              var (values, imputed) := Imputed(request.values).value;
              && FillsGaps(Recent(request.values), values) && imputed == |Gaps(Recent(request.values))|
              && |values| == (if |request.values| > 8192 then 8192 else |request.values|)
  {
    hide Observed, Fill, FillsGaps, Missing;
    ImputedShape(request.values);
    ImputedMeans(request.values);
  }

  /** A run succeeds exactly when the request is well posed, something was observed, and the provider serves it. */
  lemma RunSucceedsExactly(request: Request, provider: Provider, digest: seq<Point> -> string)
    ensures RunForecast(request, provider, digest).Ok? <==>
              WellPosed(request) && exists values :: Serves(request, provider, values)
  {
    hide Imputed, Observed, FillsGaps, CheckRows, Recent;
    QuantilesAccepted(request.quantiles);
    Context(request, provider, digest);
    if WellPosed(request) {
      if Imputed(request.values).Ok? {
        var values := Imputed(request.values).value.0;
        var raw := provider.forecast(values, request.horizon, request.quantiles);
        RowsAnswer(raw, request.horizon, request.quantiles);
        assert Serves(request, provider, values) <==> Answers(raw, request.horizon, request.quantiles);
        forall other | Serves(request, provider, other)
          ensures other == values
        {
          FilledOnce(Recent(request.values), values, other);
        }
      }
    }
  }

  /** And then points, keys, figures and digest of the result are those of the provider's rows and the request. */
  lemma RunMeans(request: Request, provider: Provider, digest: seq<Point> -> string) returns (values: seq<real>)
    requires Faithful(request.quantiles) && RunForecast(request, provider, digest).Ok?
    ensures Serves(request, provider, values)
    ensures ForecastMeans(request, provider, values, RunForecast(request, provider, digest).value, digest)
  {
    hide Imputed, Observed, FillsGaps, CheckRow, CheckRows, Recent, Faithful, Gaps;
    QuantilesAccepted(request.quantiles);
    Context(request, provider, digest);
    values := Imputed(request.values).value.0;
    var raw := provider.forecast(values, request.horizon, request.quantiles);
    RowsAnswer(raw, request.horizon, request.quantiles);
    RowsMean(raw, request.quantiles, |raw|);
    var f := RunForecast(request, provider, digest).value;
    forall t | 0 <= t < |raw|
      ensures PointMeans(f.points[t], t, raw[t], request.quantiles)
    {
      RowPoint(raw[t], request.quantiles, t);
    }
  }

  // The drift provider.

  function Tail(s: seq<real>, n: nat): seq<real> {
    if |s| > n then s[|s| - n..] else s
  }

  function Steps(w: seq<real>): (steps: seq<real>)
    requires |w| >= 2
    ensures steps != []
  {
    seq(|w| - 1, i requires 0 <= i < |w| - 1 => w[i + 1] - w[i])
  }

  function Distances(w: seq<real>, center: real): seq<real> {
    seq(|w|, i requires 0 <= i < |w| => Distance(w[i], center))
  }

  /** The median step between neighbours among the last 64 values. */
  ghost predicate IsSlope(values: seq<real>, slope: real) {
    var w := Tail(values, 64);
    if |values| < 2 then slope == 0.0
    else slope == Median(Steps(w))
  }

  /** The median distance from the median among the last 256 values, in units of a normal deviate. */
  ghost predicate IsScale(values: seq<real>, scale: real)
    requires values != []
  {
    var w := Tail(values, 256);
    var spread := 1.4826 * Median(Distances(w, Median(w)));
    scale == if spread > 0.000000001 then spread else 0.000000001
  }

  function Distance(x: real, y: real): real {
    if x < y then y - x else x - y
  }

  lemma {:induction false} DifferencesMean(s: seq<real>)
    ensures |s| >= 2 ==> |Differences(s)| == |s| - 1
    ensures |s| >= 2 ==> forall i :: 0 <= i < |s| - 1 ==> Differences(s)[i] == s[i + 1] - s[i]
  {
    if |s| >= 2 {
      DifferencesMean(s[1..]);
      assert forall i :: 1 <= i < |s| ==> s[i] == s[1..][i - 1];
    }
  }

  lemma {:induction false} DeviationsMean(s: seq<real>, center: real)
    ensures |Deviations(s, center)| == |s|
    ensures forall i :: 0 <= i < |s| ==> Deviations(s, center)[i] == Distance(s[i], center)
  {
    if s != [] {
      DeviationsMean(s[1..], center);
      assert forall i :: 1 <= i < |s| ==> s[i] == s[1..][i - 1];
    }
  }

  lemma SameSteps(w: seq<real>)
    requires |w| >= 2
    ensures Differences(w) == Steps(w)
  {
    hide Differences;
    DifferencesMean(w);
  }

  lemma SameDistances(w: seq<real>, center: real)
    ensures Deviations(w, center) == Distances(w, center)
  {
    hide Deviations;
    DeviationsMean(w, center);
  }

  lemma SlopeMeans(values: seq<real>)
    ensures IsSlope(values, Slope(values))
  {
    hide Median, Differences, Steps;
    if |values| >= 2 {
      SameSteps(Tail(values, 64));
    }
  }

  lemma ScaleMeans(values: seq<real>)
    requires values != []
    ensures IsScale(values, Scale(LastOf(values, 256)))
  {
    hide Median, Distances;
    var w := Tail(values, 256);
    SameDistances(w, Median(w));
  }

  lemma {:induction false} DriftRowMeans(median: real, spread: real, qs: seq<Quantile>, lib: MathLib, i: nat)
    requires LevelsOk(qs) && StrictlyIncreasing(qs) && i < |qs|
    ensures var q := qs[i].level; var row := DriftRow(median, spread, qs, lib);
            q in row && row[q] == median + lib.log(q / (1.0 - q)) / 1.7 * spread
  {
    if i < |qs| - 1 {
      DriftRowMeans(median, spread, qs[..|qs| - 1], lib, i);
    }
  }

  lemma {:induction false} DriftRowsMean(anchor: real, slope: real, scale: real, horizon: nat, qs: seq<Quantile>,
                                         lib: MathLib)
    requires LevelsOk(qs)
    ensures |DriftRows(anchor, slope, scale, horizon, qs, lib)| == horizon
    ensures forall t: nat :: t < horizon ==>
              DriftRows(anchor, slope, scale, horizon, qs, lib)[t]
              == DriftRow(StepMedian(anchor, slope, t + 1), StepSpread(scale, t + 1, lib), qs, lib)
  {
    hide DriftRow;
    if horizon > 0 {
      DriftRowsMean(anchor, slope, scale, horizon - 1, qs, lib);
      var before := DriftRows(anchor, slope, scale, horizon - 1, qs, lib);
      var all := DriftRows(anchor, slope, scale, horizon, qs, lib);
      var median, spread := StepMedian(anchor, slope, horizon), StepSpread(scale, horizon, lib);
      assert all == before + [DriftRow(median, spread, qs, lib)];
      forall t: nat | t < horizon
        ensures all[t] == DriftRow(StepMedian(anchor, slope, t + 1), StepSpread(scale, t + 1, lib), qs, lib)
      {
        if t < horizon - 1 {
          assert all[t] == before[t];
        } else {
          assert t + 1 == horizon;
        }
      }
    }
  }

  /** Each value is the last one, moved along the slope, plus the logistic score of its level times the spread. */
  lemma DriftMeans(values: seq<real>, horizon: nat, qs: seq<Quantile>, lib: MathLib) returns (slope: real, scale: real)
    requires values != [] && LevelsOk(qs) && StrictlyIncreasing(qs)
    ensures IsSlope(values, slope) && IsScale(values, scale)
    ensures |DriftForecast(values, horizon, qs, lib)| == horizon
    ensures forall t: nat, i: nat :: t < horizon && i < |qs| ==>
              var q := qs[i].level; var row := DriftForecast(values, horizon, qs, lib)[t];
              && q in row
              && row[q] == values[|values| - 1] + slope * (t + 1) as real
                           + lib.log(q / (1.0 - q)) / 1.7 * (scale * lib.sqrt((t + 1) as real))
  {
    hide Median, Slope, Scale, DriftRow, DriftRows, IsSlope, IsScale;
    SlopeMeans(values);
    ScaleMeans(values);
    slope, scale := Slope(values), Scale(LastOf(values, 256));
    DriftRowsMean(values[|values| - 1], slope, scale, horizon, qs, lib);
    forall t: nat, i: nat | t < horizon && i < |qs|
      ensures var q := qs[i].level; var row := DriftForecast(values, horizon, qs, lib)[t];
              && q in row
              && row[q] == values[|values| - 1] + slope * (t + 1) as real
                           + lib.log(q / (1.0 - q)) / 1.7 * (scale * lib.sqrt((t + 1) as real))
    {
      DriftRowMeans(StepMedian(values[|values| - 1], slope, t + 1), StepSpread(scale, t + 1, lib), qs, lib, i);
    }
  }
}
