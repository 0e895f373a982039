/**
Scale-free scoring: changing the unit and the zero of a series changes no
baseline figure of its evaluation.
*/
module ForecastInvariance {
  import opened Common
  import opened Decimals
  import opened Stats
  import opened ForecastLoom
  import opened ForecastEvaluation

  function MapOne(f: real -> real, v: Option<real>): Option<real> {
    match v
    case None => None
    case Some(x) => Some(f(x))
  }

  /** The series with f applied to every observation; missing values stay missing. */
  function MapValues(f: real -> real, values: seq<Option<real>>): seq<Option<real>> {
    seq(|values|, i requires 0 <= i < |values| => MapOne(f, values[i]))
  }

  function Remeasured(f: real -> real, s: Series): Series {
    s.(values := MapValues(f, s.values))
  }

  lemma MapLength(f: real -> real, values: seq<Option<real>>)
    ensures |MapValues(f, values)| == |values|
  {
  }

  lemma MapValuesAt(f: real -> real, values: seq<Option<real>>, i: nat)
    requires i < |values|
    ensures |MapValues(f, values)| == |values| && MapValues(f, values)[i] == MapOne(f, values[i])
  {
  }

  lemma MapValuesTail(f: real -> real, values: seq<Option<real>>)
    requires values != []
    ensures MapValues(f, values)[1..] == MapValues(f, values[1..])
    ensures MapValues(f, values)[0] == MapOne(f, values[0])
  {
  }

  lemma MapValuesSlice(f: real -> real, values: seq<Option<real>>, lo: nat, hi: nat)
    requires lo <= hi <= |values|
    ensures MapValues(f, values)[lo..hi] == MapValues(f, values[lo..hi])
  {
  }

  lemma {:induction false} MapObserved(f: real -> real, values: seq<Option<real>>)
    ensures Observed(MapValues(f, values)) == Map(f, Observed(values))
  {
    if values != [] {
      MapValuesTail(f, values);
      MapObserved(f, values[1..]);
      if values[0].Some? {
        assert ([values[0].value] + Observed(values[1..]))[1..] == Observed(values[1..]);
      } else {
        assert [] + Observed(values[1..]) == Observed(values[1..]);
        assert [] + Observed(MapValues(f, values[1..])) == Observed(MapValues(f, values[1..]));
      }
    }
  }

  lemma {:induction false} MapFill(f: real -> real, values: seq<Option<real>>, last: Option<real>, fallback: real)
    ensures Fill(MapValues(f, values), MapOne(f, last), f(fallback)) == Map(f, Fill(values, last, fallback))
  {
    if values != [] {
      MapValuesTail(f, values);
      var next := if values[0].Some? then values[0] else last;
      MapFill(f, values[1..], next, fallback);
      var filled := Fill(values, last, fallback);
      assert filled[1..] == Fill(values[1..], next, fallback);
      assert filled[0] == (if values[0].Some? then values[0].value else if last.Some? then last.value else fallback);
    }
  }

  /** Imputation commutes with the change of unit. */
  lemma MapImputed(f: real -> real, c: real, values: seq<Option<real>>)
    requires Rescales(f, c)
    ensures Imputed(MapValues(f, values)).Ok? <==> Imputed(values).Ok?
    ensures Imputed(values).Ok? ==> Imputed(MapValues(f, values)).value.0 == Map(f, Imputed(values).value.0)
  {
    hide Median;
    var window := Window(values);
    if |values| > MAX_CONTEXT {
      MapValuesSlice(f, values, |values| - MAX_CONTEXT, |values|);
    }
    assert Window(MapValues(f, values)) == MapValues(f, window);
    MapObserved(f, window);
    MapAt(f, Observed(window));
    if values != [] && Observed(window) != [] {
      MedianRescales(f, c, Observed(window));
      MapFill(f, window, None, Median(Observed(window)));
    }
  }

  // The drift baseline.

  lemma {:induction false} MapDifferences(f: real -> real, c: real, g: real -> real, s: seq<real>)
    requires Rescales(f, c) && forall x :: g(x) == c * x
    ensures Differences(Map(f, s)) == Map(g, Differences(s))
  {
    if |s| >= 2 {
      var a, b := s[0], s[1];
      MapDifferences(f, c, g, s[1..]);
      assert Map(f, s)[1..] == Map(f, s[1..]) && Map(f, s)[1] == f(b);
      assert f(b) - f(a) == c * (b - a) == g(b - a);
      assert ([b - a] + Differences(s[1..]))[1..] == Differences(s[1..]);
    } else {
      MapAt(f, s);
    }
  }

  lemma {:induction false} MapSuffix(f: real -> real, s: seq<real>, k: nat)
    requires k <= |s|
    ensures |Map(f, s)| == |s| && Map(f, s)[k..] == Map(f, s[k..])
  {
    MapAt(f, s);
    MapAt(f, s[k..]);
  }

  lemma WindowOfMap(f: real -> real, s: seq<real>, n: nat)
    ensures LastOf(Map(f, s), n) == Map(f, LastOf(s, n))
  {
    MapAt(f, s);
    if |s| > n {
      MapSuffix(f, s, |s| - n);
    }
  }

  lemma SlopeScales(f: real -> real, c: real, values: seq<real>)
    requires Rescales(f, c)
    ensures Slope(Map(f, values)) == c * Slope(values)
  {
    hide Median, LastOf;
    MapAt(f, values);
    if |values| >= 2 {
      var g := (x: real) => c * x;
      ScalingRescales(c, g);
      var window := LastOf(values, 64);
      WindowOfMap(f, values, 64);
      MapDifferences(f, c, g, window);
      if Differences(window) != [] {
        MedianRescales(g, c, Differences(window));
      }
    }
  }

  lemma ScalingRescales(c: real, g: real -> real)
    requires c > 0.0 && forall x :: g(x) == c * x
    ensures Rescales(g, c)
  {
    forall x, y
      ensures g(x) - g(y) == c * (x - y)
    {
    }
  }

  lemma StandardQuantiles()
    ensures MedianIs(QUANTILES, 1) && QuantilesOk(QUANTILES)
  {
    hide Faithful, Named;
    QuantilesAreNamed();
    NamedAreFaithful([Decimal(1, 1), Decimal(5, 1), Decimal(9, 1)], QUANTILES);
    assert QUANTILES[1] == Quantile(0.5, MEDIAN_KEY);
  }

  lemma MedianLogit(lib: MathLib)
    requires MathLaws(lib)
    ensures Logit(0.5, lib) == 0.0
  {
  }

  /** Quantiles whose m-th one is the median. */
  ghost predicate MedianIs(qs: seq<Quantile>, m: nat) {
    && StrictlyIncreasing(qs) && LevelsOk(qs) && Faithful(qs)
    && m < |qs| && qs[m] == Quantile(0.5, MEDIAN_KEY)
  }

  lemma {:induction false} DriftMedianAt(anchor: real, slope: real, scale: real, horizon: nat, qs: seq<Quantile>,
                                         m: nat, lib: MathLib, t: nat)
    requires MathLaws(lib) && MedianIs(qs, m) && t < horizon
    requires |DriftRows(anchor, slope, scale, horizon, qs, lib)| == horizon
    requires CheckRows(DriftRows(anchor, slope, scale, horizon, qs, lib), qs, horizon).Ok?
    ensures var points := CheckRows(DriftRows(anchor, slope, scale, horizon, qs, lib), qs, horizon).value;
            && |points| == horizon && MEDIAN_KEY in points[t].quantiles
            && points[t].quantiles[MEDIAN_KEY] == StepMedian(anchor, slope, t + 1)
  {
    hide StepMedian, StepSpread, DriftRow, CheckRow, MathLaws;
    var rows := DriftRows(anchor, slope, scale, horizon, qs, lib);
    CheckedPointsOk(rows, qs, horizon);
    var before := DriftRows(anchor, slope, scale, horizon - 1, qs, lib);
    var median, spread := StepMedian(anchor, slope, horizon), StepSpread(scale, horizon, lib);
    var row := DriftRow(median, spread, qs, lib);
    assert rows == before + [row];
    if t == horizon - 1 {
      DriftRowMedian(median, spread, qs, m, lib);
    } else {
      RowsPrefix(before, [row], qs, horizon - 1);
      DriftMedianAt(anchor, slope, scale, horizon - 1, qs, m, lib, t);
      CheckedPointsOk(before, qs, horizon - 1);
    }
  }

  lemma DriftRowMedian(median: real, spread: real, qs: seq<Quantile>, m: nat, lib: MathLib)
    requires MathLaws(lib) && MedianIs(qs, m) && CheckRow(DriftRow(median, spread, qs, lib), qs).Ok?
    ensures var row := CheckRow(DriftRow(median, spread, qs, lib), qs).value;
            MEDIAN_KEY in row && row[MEDIAN_KEY] == median
  {
    hide Faithful, StrictlyIncreasing, Sorted, Logit, MathLaws;
    var row := DriftRow(median, spread, qs, lib);
    DriftRowValues(median, spread, qs, lib);
    NormalizedKeepsRow(row, qs, m);
    MedianLogit(lib);
  }

  /** The drift baseline's median path is the anchor plus the median slope times the step. */
  lemma DriftMedians(request: Request, lib: MathLib, digest: seq<Point> -> string)
    requires MathLaws(lib) && request.quantiles == QUANTILES && RunForecast(request, RobustDrift(lib), digest).Ok?
    ensures Imputed(request.values).Ok? && Imputed(request.values).value.0 != []
    ensures HasMedians(RunForecast(request, RobustDrift(lib), digest).value)
    ensures var values := Imputed(request.values).value.0;
            var medians := Medians(RunForecast(request, RobustDrift(lib), digest).value);
            |medians| == request.horizon && forall t :: 0 <= t < |medians| ==>
              medians[t] == StepMedian(values[|values| - 1], Slope(values), t + 1)
  {
    hide Median, Slope, Scale, DriftRow, StepMedian, StepSpread, CheckRow, Faithful, StrictlyIncreasing;
    RunsHaveMedians(request, RobustDrift(lib), digest);
    ImputedShape(request.values);
    QuantilesAccepted(request.quantiles);
    StandardQuantiles();
    var values := Imputed(request.values).value.0;
    var horizon := request.horizon;
    var anchor, slope, scale := values[|values| - 1], Slope(values), Scale(LastOf(values, 256));
    var rows := DriftRows(anchor, slope, scale, horizon, QUANTILES, lib);
    assert RobustDrift(lib).forecast(values, horizon, QUANTILES) == rows;
    forall t | 0 <= t < horizon
      ensures Medians(RunForecast(request, RobustDrift(lib), digest).value)[t] == StepMedian(anchor, slope, t + 1)
    {
      DriftMedianAt(anchor, slope, scale, horizon, QUANTILES, 1, lib, t);
    }
  }

  lemma StepMedianScales(f: real -> real, c: real, anchor: real, slope: real, slope': real, step: nat)
    requires Rescales(f, c) && slope' == c * slope
    ensures StepMedian(f(anchor), slope', step) == f(StepMedian(anchor, slope, step))
  {
    var move := slope * step as real;
    assert f(anchor + move) - f(anchor) == c * ((anchor + move) - anchor);
    assert c * (slope * step as real) == (c * slope) * step as real;
  }

  ghost predicate MappedTo(f: real -> real, s: seq<real>, t: seq<real>) {
    |s| == |t| && forall i :: 0 <= i < |s| ==> t[i] == f(s[i])
  }

  /** The drift baseline of the remeasured context is the remeasured drift baseline. */
  lemma DriftRescales(f: real -> real, c: real, r: Request, r': Request, lib: MathLib, digest: seq<Point> -> string)
    requires MathLaws(lib) && Rescales(f, c) && r.quantiles == QUANTILES && r' == r.(values := MapValues(f, r.values))
    requires RunForecast(r, RobustDrift(lib), digest).Ok? && RunForecast(r', RobustDrift(lib), digest).Ok?
    ensures var d := RunForecast(r, RobustDrift(lib), digest).value;
            var d' := RunForecast(r', RobustDrift(lib), digest).value;
            HasMedians(d) && HasMedians(d') && MappedTo(f, Medians(d), Medians(d'))
  {
    hide RunForecast, Slope, Imputed, MapValues, StepMedian, Rescales, HasMedians, Medians;
    DriftMedians(r, lib, digest);
    DriftMedians(r', lib, digest);
    MapImputed(f, c, r.values);
    var values := Imputed(r.values).value.0;
    MapAt(f, values);
    SlopeScales(f, c, values);
    var d, d' := RunForecast(r, RobustDrift(lib), digest).value, RunForecast(r', RobustDrift(lib), digest).value;
    var slope, slope' := Slope(values), Slope(Map(f, values));
    forall t | 0 <= t < r.horizon
      ensures Medians(d')[t] == f(Medians(d)[t])
    {
      StepMedianScales(f, c, values[|values| - 1], slope, slope', t + 1);
    }
  }

  // Errors and the training scale.

  lemma DistanceScales(f: real -> real, c: real, x: real, y: real)
    requires Rescales(f, c)
    ensures Abs(f(x) - f(y)) == c * Abs(x - y)
  {
    assert f(x) - f(y) == c * (x - y);
    AbsScales(c, x - y);
  }

  lemma {:induction false} DifferencesScale(f: real -> real, c: real, train: seq<Option<real>>, season: nat, n: nat)
    requires Rescales(f, c) && 1 <= season <= n <= |train|
    ensures Scaled(c, SeasonalDifferences(train, season, n), SeasonalDifferences(MapValues(f, train), season, n))
    decreases n
  {
    hide Rescales, Abs, MapValues;
    MapLength(f, train);
    if n > season {
      DifferencesScale(f, c, train, season, n - 1);
      MapValuesAt(f, train, n - 1);
      MapValuesAt(f, train, n - 1 - season);
      if train[n - 1].Some? && train[n - 1 - season].Some? {
        DistanceScales(f, c, train[n - 1].value, train[n - 1 - season].value);
      }
    }
  }

  /** The training scale is available for both units or for neither, and scales with the unit. */
  lemma TrainingScaleScales(f: real -> real, c: real, train: seq<Option<real>>, season: nat)
    requires Rescales(f, c) && 1 <= season <= |train|
    ensures var a, b := TrainingScale(train, season), TrainingScale(MapValues(f, train), season);
            (a.Some? <==> b.Some?) && (a.Some? ==> b.value == c * a.value)
  {
    DifferencesScale(f, c, train, season, |train|);
    var d, d' := SeasonalDifferences(train, season, |train|), SeasonalDifferences(MapValues(f, train), season, |train|);
    if d != [] {
      MeanScales(c, d, d');
      PositiveFactor(c, Mean(d));
    }
  }

  lemma RatioUnchanged(c: real, x: real, y: real, x': real, y': real)
    requires c > 0.0 && y > 0.0 && y' > 0.0 && x' == c * x && y' == c * y
    ensures x' / y' == x / y
  {
    var r := x / y;
    assert r * y == x;
    assert r * (c * y) == c * (r * y);
    assert r * y' == x';
  }

  lemma PositiveUnit(f: real -> real, c: real)
    requires Rescales(f, c)
    ensures c > 0.0
  {
  }

  /** A prediction that moves with the unit keeps its scaled error. */
  lemma MaseUnchanged(f: real -> real, c: real, truth: seq<real>, truth': seq<real>, pred: Option<seq<real>>,
                      pred': Option<seq<real>>, scale: Option<real>, scale': Option<real>)
    requires Rescales(f, c) && |truth| >= 1 && MappedTo(f, truth, truth')
    requires pred.Some? <==> pred'.Some?
    requires pred.Some? ==> |pred.value| == |truth| && MappedTo(f, pred.value, pred'.value)
    requires scale.Some? <==> scale'.Some?
    requires scale.Some? ==> scale.value > 0.0 && scale'.value == c * scale.value > 0.0
    ensures Mase(truth', pred', scale') == Mase(truth, pred, scale)
  {
    hide Rescales, Mean;
    if pred.Some? && scale.Some? {
      var e, e' := Errors(truth, pred.value), Errors(truth', pred'.value);
      forall i | 0 <= i < |e|
        ensures e'[i] == c * e[i]
      {
        DistanceScales(f, c, truth[i], pred.value[i]);
      }
      assert c > 0.0 by { PositiveUnit(f, c); }
      MeanScales(c, e, e');
      RatioUnchanged(c, Mean(e), scale.value, Mean(e'), scale'.value);
    }
  }

  ghost predicate SameBaselines(a: Scores, b: Scores) {
    a.drift == b.drift && a.last == b.last && a.seasonal == b.seasonal
  }

  lemma SeasonalRescales(f: real -> real, train: seq<Option<real>>, season: nat, horizon: nat)
    requires 1 <= season <= |train|
    ensures var a, b := Seasonal(train, season, horizon), Seasonal(MapValues(f, train), season, horizon);
            (a.Some? <==> b.Some?) && (a.Some? ==> |a.value| == horizon && MappedTo(f, a.value, b.value))
  {
    MapValuesSlice(f, train, |train| - season, |train|);
    var tail := train[|train| - season..];
    assert MapValues(f, train)[|train| - season..] == MapValues(f, tail);
    assert forall i :: 0 <= i < season ==> MapValues(f, tail)[i] == MapOne(f, tail[i]);
  }

  /** Scores of one fold whose predictions all move with the unit. */
  lemma ScoresUnchanged(f: real -> real, c: real, train: seq<Option<real>>, truth: seq<real>, truth': seq<real>,
                        season: nat, candidate: seq<real>, candidate': seq<real>, drift: seq<real>, drift': seq<real>)
    requires Rescales(f, c) && 1 <= season <= |train| && |truth| >= 1
    requires Observed(train) != [] && Observed(MapValues(f, train)) != []
    requires MappedTo(f, truth, truth') && |candidate| == |truth| == |candidate'|
    requires |drift| == |truth| && MappedTo(f, drift, drift')
    ensures var a, b := ScoreFold(train, truth, season, candidate, drift),
                        ScoreFold(MapValues(f, train), truth', season, candidate', drift');
            SameBaselines(a, b) && (a.candidate.Some? <==> b.candidate.Some?)
            && (MappedTo(f, candidate, candidate') ==> a == b)
  {
    hide TrainingScale, Seasonal, Mase, Rescales, MapValues, MappedTo, Observed, Repeated, Varies, Map;
    MapLength(f, train);
    MappedLength(f, truth, truth');
    var scale, scale' := TrainingScale(train, season), TrainingScale(MapValues(f, train), season);
    TrainingScaleScales(f, c, train, season);
    MapObserved(f, train);
    var observed := Observed(train);
    MapAt(f, observed);
    var x := observed[|observed| - 1];
    SeasonalRescales(f, train, season, |truth|);
    RepeatedRescales(f, x, |truth|);
    ScaleVaries(train, season);
    ScaleVaries(MapValues(f, train), season);
    MaseUnchanged(f, c, truth, truth', Some(drift), Some(drift'), scale, scale');
    MaseUnchanged(f, c, truth, truth', Some(Repeated(x, |truth|)), Some(Repeated(f(x), |truth|)), scale, scale');
    MaseUnchanged(f, c, truth, truth', Seasonal(train, season, |truth|), Seasonal(MapValues(f, train), season, |truth|),
                  scale, scale');
    MaseExists(truth, Some(candidate), scale);
    MaseExists(truth', Some(candidate'), scale');
    if MappedTo(f, candidate, candidate') {
      MaseUnchanged(f, c, truth, truth', Some(candidate), Some(candidate'), scale, scale');
    }
  }

  lemma MappedLength(f: real -> real, s: seq<real>, t: seq<real>)
    requires MappedTo(f, s, t)
    ensures |s| == |t|
  {
  }

  lemma RepeatedRescales(f: real -> real, x: real, n: nat)
    ensures MappedTo(f, Repeated(x, n), Repeated(f(x), n)) && |Repeated(x, n)| == |Repeated(f(x), n)| == n
  {
  }

  // Folds, series and the qualification.

  lemma RemeasuredFold(f: real -> real, s: Series, c: Config, fold: nat)
    requires Valid(s, c) && fold < c.folds
    ensures Valid(Remeasured(f, s), c)
    ensures Train(Remeasured(f, s), c, fold) == MapValues(f, Train(s, c, fold))
    ensures Truth(Remeasured(f, s), c, fold) == MapValues(f, Truth(s, c, fold))
  {
    OriginInRange(s, c, fold);
  }

  /** The candidate's median path moves with the unit in this fold. */
  ghost predicate CandidateRescales(f: real -> real, s: Series, c: Config, e: Engine, fold: nat)
    requires Valid(s, c) && Valid(Remeasured(f, s), c) && fold < c.folds
  {
    FoldRuns(s, c, e, fold).Ok? && FoldRuns(Remeasured(f, s), c, e, fold).Ok? ==>
      var a, b := FoldRuns(s, c, e, fold).value.0, FoldRuns(Remeasured(f, s), c, e, fold).value.0;
      HasMedians(a) && HasMedians(b) && MappedTo(f, Medians(a), Medians(b))
  }

  /** One fold: no baseline figure depends on the unit of the series. */
  lemma FoldUnchanged(f: real -> real, k: real, s: Series, c: Config, e: Engine, fold: nat)
    requires MathLaws(e.lib) && Rescales(f, k) && Valid(s, c) && Valid(Remeasured(f, s), c) && fold < c.folds
    requires EvaluateFold(s, c, e, fold).Ok? && EvaluateFold(Remeasured(f, s), c, e, fold).Ok?
    ensures var a, b := EvaluateFold(s, c, e, fold).value.mase, EvaluateFold(Remeasured(f, s), c, e, fold).value.mase;
            SameBaselines(a, b) && (a.candidate.Some? <==> b.candidate.Some?)
            && (CandidateRescales(f, s, c, e, fold) ==> a == b)
  {
    hide RunForecast, ScoreFold, TrainingScale, Rescales, Train, Truth, MapValues, ValidateConfig, ValidateSeries,
         Medians, HasMedians, Observed;
    var s' := Remeasured(f, s);
    RemeasuredFold(f, s, c, fold);
    FoldRunsFit(s, c, e, fold);
    FoldRunsFit(s', c, e, fold);
    DriftRescales(f, k, FoldRequest(s, c, fold), FoldRequest(s', c, fold), e.lib, e.digest);
    MapObserved(f, Truth(s, c, fold));
    MapAt(f, Observed(Truth(s, c, fold)));
    var (candidate, drift) := FoldRuns(s, c, e, fold).value;
    var (candidate', drift') := FoldRuns(s', c, e, fold).value;
    MediansLength(candidate);
    MediansLength(candidate');
    MediansLength(drift);
    ScoresUnchanged(f, k, Train(s, c, fold), Observed(Truth(s, c, fold)), Observed(Truth(s', c, fold)), s.season,
                    Medians(candidate), Medians(candidate'), Medians(drift), Medians(drift'));
  }

  lemma MediansLength(f: Forecast)
    requires HasMedians(f)
    ensures |Medians(f)| == |f.points|
  {
  }

  lemma CompleteUnchanged(f: real -> real, values: seq<Option<real>>)
    ensures Complete(MapValues(f, values)) <==> Complete(values)
  {
    assert forall i :: 0 <= i < |values| ==> MapValues(f, values)[i] == MapOne(f, values[i]);
  }

  /** Only the candidate can make a fold unevaluable in another unit. */
  lemma FoldStaysEvaluable(f: real -> real, k: real, s: Series, c: Config, e: Engine, fold: nat)
    requires MathLaws(e.lib) && Rescales(f, k) && Valid(s, c) && Valid(Remeasured(f, s), c) && fold < c.folds
    requires EvaluateFold(s, c, e, fold).Ok?
    ensures EvaluateFold(Remeasured(f, s), c, e, fold).Ok?
        <==> RunForecast(FoldRequest(Remeasured(f, s), c, fold), e.provider, e.digest).Ok?
  {
    hide RunForecast, ScoreFold, TrainingScale, Train, Truth, MapValues, ValidateConfig, ValidateSeries, Observed,
         Complete;
    var r, r' := FoldRequest(s, c, fold), FoldRequest(Remeasured(f, s), c, fold);
    RemeasuredFold(f, s, c, fold);
    CompleteUnchanged(f, Truth(s, c, fold));
    DriftServesEveryValidRequest(r, e.lib, e.digest);
    DriftServesEveryValidRequest(r', e.lib, e.digest);
    ImputedShape(r.values);
    ImputedShape(r'.values);
    MapImputed(f, k, r.values);
  }

  /** Only the candidate can make a series unevaluable in another unit, in the fold whose request it refuses. */
  lemma SeriesStaysEvaluable(f: real -> real, k: real, s: Series, c: Config, e: Engine)
    requires MathLaws(e.lib) && Rescales(f, k) && ValidateConfig(c).None? && EvaluateOne(s, c, e).Ok?
    ensures Valid(s, c) && Valid(Remeasured(f, s), c)
    ensures EvaluateOne(Remeasured(f, s), c, e).Ok? <==>
              forall fold :: 0 <= fold < c.folds ==>
                RunForecast(FoldRequest(Remeasured(f, s), c, fold), e.provider, e.digest).Ok?
  {
    hide EvaluateFold, Rescales, MathLaws, ValidateConfig, RunForecast, FoldRequest, RecordOf;
    FoldsPositive(c);
    var s' := Remeasured(f, s);
    FoldsOk(s, c, e, c.folds);
    FoldsOk(s', c, e, c.folds);
    forall fold | 0 <= fold < c.folds
      ensures EvaluateFold(s', c, e, fold).Ok? <==> RunForecast(FoldRequest(s', c, fold), e.provider, e.digest).Ok?
    {
      FoldStaysEvaluable(f, k, s, c, e, fold);
    }
  }

  /**
  Mean scaled errors of the three baselines, whether they exist, and whether
  the series can be scored, do not depend on the unit; nor do the candidate's
  error and the verdict when its predictions move with the unit.
  */
  lemma SeriesUnchanged(f: real -> real, k: real, s: Series, c: Config, e: Engine)
    requires MathLaws(e.lib) && Rescales(f, k) && ValidateConfig(c).None?
    requires EvaluateOne(s, c, e).Ok? && EvaluateOne(Remeasured(f, s), c, e).Ok?
    ensures var a, b := EvaluateOne(s, c, e).value, EvaluateOne(Remeasured(f, s), c, e).value;
            SameBaselines(a.meanMase, b.meanMase) && a.scorable == b.scorable
    ensures var a, b := EvaluateOne(s, c, e).value, EvaluateOne(Remeasured(f, s), c, e).value;
            (forall fold :: 0 <= fold < c.folds ==> CandidateRescales(f, s, c, e, fold)) ==>
              a.meanMase == b.meanMase && a.improves == b.improves
  {
    hide EvaluateFold, Rescales, MathLaws, ValidateConfig, ValidateSeries, CandidateRescales, MeanScore;
    var s' := Remeasured(f, s);
    FoldsPositive(c);
    var a, b := EvaluateFolds(s, c, e, c.folds).value, EvaluateFolds(s', c, e, c.folds).value;
    FoldsAt(s, c, e, c.folds);
    FoldsAt(s', c, e, c.folds);
    forall fold | 0 <= fold < c.folds
      ensures SameBaselines(a[fold].mase, b[fold].mase)
      ensures a[fold].mase.candidate.Some? <==> b[fold].mase.candidate.Some?
      ensures CandidateRescales(f, s, c, e, fold) ==> a[fold].mase == b[fold].mase
    {
      FoldUnchanged(f, k, s, c, e, fold);
    }
    SameMean(a, b, Drift);
    SameMean(a, b, LastValue);
    SameMean(a, b, SeasonalNaive);
    SamePresence(a, b, Candidate);
    if forall fold :: 0 <= fold < c.folds ==> CandidateRescales(f, s, c, e, fold) {
      SameMean(a, b, Candidate);
    }
  }

  /** In particular nothing changes when every observation x is recorded as c*x + d with c > 0. */
  lemma UnitsAreIrrelevant(k: real, d: real, s: Series, c: Config, e: Engine)
    requires MathLaws(e.lib) && k > 0.0 && ValidateConfig(c).None?
    requires EvaluateOne(s, c, e).Ok? && EvaluateOne(Remeasured(Affine(k, d), s), c, e).Ok?
    ensures var a, b := EvaluateOne(s, c, e).value, EvaluateOne(Remeasured(Affine(k, d), s), c, e).value;
            && a.meanMase.drift == b.meanMase.drift && a.meanMase.last == b.meanMase.last
            && a.meanMase.seasonal == b.meanMase.seasonal && a.scorable == b.scorable
  {
    hide EvaluateOne, MathLaws, ValidateConfig, Affine;
    AffineRescales(k, d);
    SeriesUnchanged(Affine(k, d), k, s, c, e);
  }

  lemma {:induction false} FiguresExist(folds: seq<Fold>, p: Predictor)
    ensures Figures(folds, p).Some? <==> forall k :: 0 <= k < |folds| ==> Score(folds[k].mase, p).Some?
    ensures Figures(folds, p).Some? ==> |Figures(folds, p).value| == |folds|
  {
    if folds != [] {
      FiguresExist(folds[..|folds| - 1], p);
    }
  }

  lemma SamePresence(a: seq<Fold>, b: seq<Fold>, p: Predictor)
    requires |a| == |b| && forall k :: 0 <= k < |a| ==> (Score(a[k].mase, p).Some? <==> Score(b[k].mase, p).Some?)
    ensures MeanScore(a, p).Some? <==> MeanScore(b, p).Some?
  {
    hide Score;
    FiguresExist(a, p);
    FiguresExist(b, p);
  }

  lemma SameMean(a: seq<Fold>, b: seq<Fold>, p: Predictor)
    requires |a| == |b| && forall fold :: 0 <= fold < |a| ==> Score(a[fold].mase, p) == Score(b[fold].mase, p)
    ensures MeanScore(a, p) == MeanScore(b, p)
  {
    SameFigures(a, p, b, p);
  }
}
