/**
Walk-forward evaluation: folds, baselines, scale-free errors and qualification.
*/
module ForecastEvaluation {
  import opened Common
  import opened Decimals
  import opened Stats
  import opened ForecastLoom

  datatype Series = Series(signalId: string, values: seq<Option<real>>, season: int)

  datatype Config = Config(horizon: int, folds: int, minContext: int, contextLimit: int)

  /** One figure per predictor; None where the training scale or the predictor is unavailable. */
  datatype Scores = Scores(candidate: Option<real>, drift: Option<real>, last: Option<real>, seasonal: Option<real>)

  datatype Fold = Fold(origin: int, trainingPoints: nat, scale: Option<real>, mase: Scores)

  datatype SeriesRecord = SeriesRecord(signalId: string, folds: seq<Fold>, meanMase: Scores, scorable: bool,
                                       improves: bool)

  datatype Report = Report(records: seq<SeriesRecord>, complete: bool, qualified: bool)

  /** The providers, library functions and digest one evaluation runs with. */
  datatype Engine = Engine(provider: Provider, lib: MathLib, digest: seq<Point> -> string)

  const QUANTILES := [Quantile(0.1, "q10"), Quantile(0.5, MEDIAN_KEY), Quantile(0.9, "q90")]

  /** The three evaluation quantiles carry the keys the printer gives 0.1, 0.5 and 0.9. */
  lemma QuantilesAreNamed()
    ensures QUANTILES == [Named(Decimal(1, 1)), Named(Decimal(5, 1)), Named(Decimal(9, 1))]
  {
    TenthKey(1);
    TenthKey(5);
    TenthKey(9);
  }

  function ValidateConfig(c: Config): Option<string> {
    if !(1 <= c.horizon <= 1024) then Some("horizon")
    else if !(2 <= c.folds <= 32) then Some("folds")
    else if !(2 <= c.minContext <= MAX_CONTEXT) then Some("min_context")
    else if !(2 <= c.contextLimit <= MAX_CONTEXT) then Some("context_limit")
    else if c.minContext > c.contextLimit then Some("min_context cannot exceed context_limit")
    else None
  }

  function ValidateSeries(s: Series, c: Config): Option<string> {
    if !(1 <= s.season < c.minContext) then Some("season_length must be positive and below min_context")
    else if |s.values| > MAX_CONTEXT + c.folds * c.horizon
      then Some("evaluation series exceeds bounded context plus holdouts")
    else if |s.values| < c.minContext + c.folds * c.horizon
      then Some("insufficient history for non-overlapping walk-forward folds")
    else None
  }

  predicate Valid(s: Series, c: Config) {
    ValidateConfig(c).None? && ValidateSeries(s, c).None?
  }

  // Folds.

  function Origin(n: nat, c: Config, fold: nat): int {
    n - (c.folds - fold) * c.horizon
  }

  lemma OriginInRange(s: Series, c: Config, fold: nat)
    requires Valid(s, c) && fold < c.folds
    ensures c.minContext <= Origin(|s.values|, c, fold)
    ensures Origin(|s.values|, c, fold + 1) == Origin(|s.values|, c, fold) + c.horizon <= |s.values|
  {
    MultipleOrder(c.folds - fold, c.folds, c.horizon);
    MultipleOrder(0, c.folds - fold - 1, c.horizon);
    ProductStep(c.folds - fold, c.horizon);
  }

  lemma MultipleOrder(a: int, b: int, h: int)
    requires a <= b && h >= 0
    ensures a * h <= b * h
  {
  }

  lemma ProductStep(a: int, h: int)
    ensures a * h == (a - 1) * h + h
  {
  }

  function TrainOf(values: seq<Option<real>>, origin: nat, limit: nat): seq<Option<real>>
    requires origin <= |values|
  {
    values[if origin > limit then origin - limit else 0..origin]
  }

  function Train(s: Series, c: Config, fold: nat): seq<Option<real>>
    requires Valid(s, c) && fold < c.folds
  {
    OriginInRange(s, c, fold);
    TrainOf(s.values, Origin(|s.values|, c, fold), c.contextLimit)
  }

  function Truth(s: Series, c: Config, fold: nat): seq<Option<real>>
    requires Valid(s, c) && fold < c.folds
  {
    OriginInRange(s, c, fold);
    s.values[Origin(|s.values|, c, fold)..Origin(|s.values|, c, fold + 1)]
  }

  function FoldRequest(s: Series, c: Config, fold: nat): Request
    requires Valid(s, c) && fold < c.folds
  {
    Request(s.signalId, Train(s, c, fold), c.horizon, QUANTILES)
  }

  // Predictors and their errors.

  predicate HasMedians(f: Forecast) {
    forall i :: 0 <= i < |f.points| ==> MEDIAN_KEY in f.points[i].quantiles
  }

  function Medians(f: Forecast): seq<real>
    requires HasMedians(f)
  {
    seq(|f.points|, i requires 0 <= i < |f.points| => f.points[i].quantiles[MEDIAN_KEY])
  }

  function Repeated(x: real, n: nat): seq<real> {
    seq(n, i => x)
  }

  /** The last season repeated, unless one of its observations is missing. */
  function Seasonal(train: seq<Option<real>>, season: nat, horizon: nat): Option<seq<real>>
    requires 1 <= season <= |train|
  {
    var tail := train[|train| - season..];
    if forall i :: 0 <= i < season ==> tail[i].Some?
    then Some(seq(horizon, i requires 0 <= i < horizon => tail[i % season].value))
    else None
  }

  function Errors(truth: seq<real>, pred: seq<real>): seq<real>
    requires |truth| == |pred|
  {
    seq(|truth|, i requires 0 <= i < |truth| => Abs(truth[i] - pred[i]))
  }

  /** Observed seasonal differences of the training slice. */
  function SeasonalDifferences(train: seq<Option<real>>, season: nat, n: nat): seq<real>
    requires 1 <= season <= n <= |train|
    decreases n
  {
    if n == season then []
    else
      var before := SeasonalDifferences(train, season, n - 1);
      if train[n - 1].Some? && train[n - 1 - season].Some?
      then before + [Abs(train[n - 1].value - train[n - 1 - season].value)]
      else before
  }

  function TrainingScale(train: seq<Option<real>>, season: nat): Option<real>
    requires 1 <= season <= |train|
  {
    var differences := SeasonalDifferences(train, season, |train|);
    if differences == [] then None
    else if Mean(differences) > 0.0 then Some(Mean(differences)) else None
  }

  /** Mean absolute error over the training scale. */
  function Mase(truth: seq<real>, pred: Option<seq<real>>, scale: Option<real>): Option<real>
    requires |truth| >= 1 && (pred.Some? ==> |pred.value| == |truth|)
    requires scale.Some? ==> scale.value > 0.0
  {
    if pred.None? || scale.None? then None else Some(Mean(Errors(truth, pred.value)) / scale.value)
  }

  /** The fold's figures once both forecasts are in. */
  function ScoreFold(train: seq<Option<real>>, truth: seq<real>, season: nat, candidate: seq<real>,
                     drift: seq<real>): Scores
    requires 1 <= season <= |train| && |truth| >= 1 && Observed(train) != []
    requires |candidate| == |truth| && |drift| == |truth|
  {
    var scale := TrainingScale(train, season);
    var observed := Observed(train);
    Scores(Mase(truth, Some(candidate), scale),
           Mase(truth, Some(drift), scale),
           Mase(truth, Some(Repeated(observed[|observed| - 1], |truth|)), scale),
           Mase(truth, Seasonal(train, season, |truth|), scale))
  }

  /** A governed run over the three evaluation quantiles reports a median for every step. */
  lemma RunsHaveMedians(request: Request, provider: Provider, digest: seq<Point> -> string)
    requires request.quantiles == QUANTILES && RunForecast(request, provider, digest).Ok?
    ensures var f := RunForecast(request, provider, digest).value;
            HasMedians(f) && |f.points| == request.horizon
  {
    hide RunForecast;
    RunYieldsOkForecast(request, provider, digest);
    var f := RunForecast(request, provider, digest).value;
    RunKeepsRequest(request, provider, digest);
    forall i | 0 <= i < |f.points|
      ensures MEDIAN_KEY in f.points[i].quantiles
    {
      assert PointOk(f.points[i], i + 1, QUANTILES);
      assert QUANTILES[1].key in f.points[i].quantiles;
    }
  }

  lemma RunKeepsRequest(request: Request, provider: Provider, digest: seq<Point> -> string)
    requires RunForecast(request, provider, digest).Ok?
    ensures var r := RunForecast(request, provider, digest).value.receipt;
            r.quantiles == request.quantiles && r.horizon == request.horizon
  {
    QuantilesAccepted(request.quantiles);
  }

  lemma RunNeedsObservations(request: Request, provider: Provider, digest: seq<Point> -> string)
    requires RunForecast(request, provider, digest).Ok?
    ensures Observed(Window(request.values)) != []
  {
    ImputedShape(request.values);
  }

  lemma {:induction false} ObservedAll(values: seq<Option<real>>)
    requires forall i :: 0 <= i < |values| ==> values[i].Some?
    ensures |Observed(values)| == |values|
    ensures forall i :: 0 <= i < |values| ==> Observed(values)[i] == values[i].value
  {
    if values != [] {
      ObservedAll(values[1..]);
      assert forall i :: 1 <= i < |values| ==> values[i] == values[1..][i - 1];
    }
  }

  predicate Complete(values: seq<Option<real>>) {
    forall i :: 0 <= i < |values| ==> values[i].Some?
  }

  /** The two forecasts of a fold: the candidate's first, then the drift baseline's. */
  function FoldRuns(s: Series, c: Config, e: Engine, fold: nat): Result<(Forecast, Forecast)>
    requires Valid(s, c) && fold < c.folds
  {
    if !Complete(Truth(s, c, fold)) then Err("missing holdout observations cannot be imputed for scoring")
    else
      var request := FoldRequest(s, c, fold);
      var candidate := RunForecast(request, e.provider, e.digest);
      if candidate.Err? then Err(candidate.error)
      else
        var drift := RunForecast(request, RobustDrift(e.lib), e.digest);
        if drift.Err? then Err(drift.error) else Ok((candidate.value, drift.value))
  }

  lemma FoldRunsFit(s: Series, c: Config, e: Engine, fold: nat)
    requires Valid(s, c) && fold < c.folds && FoldRuns(s, c, e, fold).Ok?
    ensures var (candidate, drift) := FoldRuns(s, c, e, fold).value;
            && HasMedians(candidate) && |candidate.points| == c.horizon
            && HasMedians(drift) && |drift.points| == c.horizon
    ensures |Observed(Truth(s, c, fold))| == c.horizon && Observed(Train(s, c, fold)) != []
    ensures 1 <= s.season <= |Train(s, c, fold)| && 1 <= c.horizon
  {
    hide RunForecast, Origin;
    var request := FoldRequest(s, c, fold);
    RunsHaveMedians(request, e.provider, e.digest);
    RunsHaveMedians(request, RobustDrift(e.lib), e.digest);
    RunNeedsObservations(request, e.provider, e.digest);
    SlicesFit(s, c, fold);
    ObservedAll(Truth(s, c, fold));
  }

  /** Every training slice ends at its origin with between min_context and context_limit points. */
  lemma SlicesFit(s: Series, c: Config, fold: nat)
    requires Valid(s, c) && fold < c.folds
    ensures c.minContext <= |Train(s, c, fold)| <= c.contextLimit
    ensures |Train(s, c, fold)| <= Origin(|s.values|, c, fold) <= |s.values|
    ensures var origin := Origin(|s.values|, c, fold);
            Train(s, c, fold) == s.values[origin - |Train(s, c, fold)|..origin]
    ensures |Truth(s, c, fold)| == c.horizon
    ensures Window(Train(s, c, fold)) == Train(s, c, fold)
  {
    hide Origin;
    OriginInRange(s, c, fold);
  }

  function EvaluateFold(s: Series, c: Config, e: Engine, fold: nat): Result<Fold>
    requires Valid(s, c) && fold < c.folds
  {
    var runs := FoldRuns(s, c, e, fold);
    if runs.Err? then Err(runs.error)
    else
      FoldRunsFit(s, c, e, fold);
      var train, truth := Train(s, c, fold), Observed(Truth(s, c, fold));
      Ok(Fold(Origin(|s.values|, c, fold), |train|, TrainingScale(train, s.season),
              ScoreFold(train, truth, s.season, Medians(runs.value.0), Medians(runs.value.1))))
  }

  function EvaluateFolds(s: Series, c: Config, e: Engine, n: nat): Result<seq<Fold>>
    requires Valid(s, c) && n <= c.folds
  {
    if n == 0 then Ok([])
    else
      var before := EvaluateFolds(s, c, e, n - 1);
      if before.Err? then before
      else
        var fold := EvaluateFold(s, c, e, n - 1);
        if fold.Err? then Err(fold.error) else Ok(before.value + [fold.value])
  }

  // Series records and qualification.

  datatype Predictor = Candidate | Drift | LastValue | SeasonalNaive

  function Score(s: Scores, p: Predictor): Option<real> {
    match p
    case Candidate => s.candidate
    case Drift => s.drift
    case LastValue => s.last
    case SeasonalNaive => s.seasonal
  }

  /** The scores of one predictor over all folds, if every fold has one. */
  function Figures(folds: seq<Fold>, p: Predictor): Option<seq<real>> {
    if folds == [] then Some([])
    else
      var before, score := Figures(folds[..|folds| - 1], p), Score(folds[|folds| - 1].mase, p);
      if before.Some? && score.Some? then Some(before.value + [score.value]) else None
  }

  /** Complete-case mean over the folds. */
  function MeanScore(folds: seq<Fold>, p: Predictor): Option<real> {
    var figures := Figures(folds, p);
    if figures.Some? && figures.value != [] then Some(Mean(figures.value)) else None
  }

  function MeanScores(folds: seq<Fold>): Scores {
    Scores(MeanScore(folds, Candidate), MeanScore(folds, Drift), MeanScore(folds, LastValue),
           MeanScore(folds, SeasonalNaive))
  }

  function Min(x: real, y: real): real {
    if x < y then x else y
  }

  function RecordOf(signalId: string, folds: seq<Fold>): SeriesRecord {
    var m := MeanScores(folds);
    var scorable := m.candidate.Some? && m.drift.Some? && m.last.Some? && m.seasonal.Some?;
    SeriesRecord(signalId, folds, m, scorable,
                 scorable && m.candidate.value < Min(m.drift.value, Min(m.last.value, m.seasonal.value)))
  }

  function EvaluateOne(s: Series, c: Config, e: Engine): Result<SeriesRecord>
    requires ValidateConfig(c).None?
  {
    var invalid := ValidateSeries(s, c);
    if invalid.Some? then Err(invalid.value)
    else
      var folds := EvaluateFolds(s, c, e, c.folds);
      if folds.Err? then Err(folds.error) else Ok(RecordOf(s.signalId, folds.value))
  }

  function EvaluateAll(series: seq<Series>, c: Config, e: Engine, n: nat): Result<seq<SeriesRecord>>
    requires ValidateConfig(c).None? && n <= |series|
  {
    if n == 0 then Ok([])
    else
      var before := EvaluateAll(series, c, e, n - 1);
      if before.Err? then before
      else
        var record := EvaluateOne(series[n - 1], c, e);
        if record.Err? then Err(record.error) else Ok(before.value + [record.value])
  }

  predicate NamesOk(series: seq<Series>) {
    && (forall i :: 0 <= i < |series| ==> !IsBlank(series[i].signalId))
    && (forall i, j :: 0 <= i < j < |series| ==> series[i].signalId != series[j].signalId)
  }

  function Evaluation(series: seq<Series>, c: Config, e: Engine): Result<Report> {
    var invalid := ValidateConfig(c);
    if invalid.Some? then Err(invalid.value)
    else if series == [] || |series| > 256 then Err("between 1 and 256 evaluation series are required")
    else if !NamesOk(series) then Err("evaluation signal identifiers must be nonempty and unique")
    else
      var records := EvaluateAll(series, c, e, |series|);
      if records.Err? then Err(records.error) else Ok(ReportOf(records.value))
  }

  function ReportOf(records: seq<SeriesRecord>): Report {
    var complete := forall i :: 0 <= i < |records| ==> records[i].scorable;
    Report(records, complete, complete && forall i :: 0 <= i < |records| ==> records[i].improves)
  }

  // What one fold reports.

  /** Two observations of the slice, one season apart, differ. */
  ghost predicate Varies(train: seq<Option<real>>, season: nat) {
    exists i :: VariesAt(train, season, i)
  }

  predicate VariesAt(train: seq<Option<real>>, season: nat, i: int) {
    season <= i < |train| && train[i].Some? && train[i - season].Some? && train[i].value != train[i - season].value
  }

  /**
  The slice sizes of a fold, and which of its scores exist: all but the seasonal
  one exactly when the training slice varies over a season, and that one
  exactly when also no value of the last season is missing.
  */
  ghost predicate FoldSound(s: Series, c: Config, fold: nat, f: Fold)
    requires Valid(s, c) && fold < c.folds
  {
    var train := Train(s, c, fold);
    && f.origin + (c.folds - fold) * c.horizon == |s.values|
    && c.minContext <= f.trainingPoints <= c.contextLimit && f.trainingPoints == |train| <= f.origin
    && (f.scale.Some? <==> Varies(train, s.season)) && (f.scale.Some? ==> f.scale.value > 0.0)
    && (f.mase.candidate.Some? <==> f.scale.Some?)
    && (f.mase.drift.Some? <==> f.scale.Some?)
    && (f.mase.last.Some? <==> f.scale.Some?)
    && (f.mase.seasonal.Some? <==> f.scale.Some? && Complete(train[|train| - s.season..]))
    && (forall p: Predictor :: Score(f.mase, p).Some? ==> Score(f.mase, p).value >= 0.0)
  }

  lemma {:induction false} DifferencesVary(train: seq<Option<real>>, season: nat, n: nat)
    requires 1 <= season <= n <= |train|
    ensures var total := Sum(SeasonalDifferences(train, season, n));
            total >= 0.0 && (total > 0.0 <==> exists i :: i < n && VariesAt(train, season, i))
  {
    if n > season {
      DifferencesVary(train, season, n - 1);
      var before := SeasonalDifferences(train, season, n - 1);
      if train[n - 1].Some? && train[n - 1 - season].Some? {
        SumAppend(before, Abs(train[n - 1].value - train[n - 1 - season].value));
      }
      assert (exists i :: i < n && VariesAt(train, season, i))
        <==> (exists i :: i < n - 1 && VariesAt(train, season, i)) || VariesAt(train, season, n - 1);
    }
  }

  lemma ScaleVaries(train: seq<Option<real>>, season: nat)
    requires 1 <= season <= |train|
    ensures TrainingScale(train, season).Some? <==> Varies(train, season)
    ensures TrainingScale(train, season).Some? ==> TrainingScale(train, season).value > 0.0
  {
    hide SeasonalDifferences;
    DifferencesVary(train, season, |train|);
    var differences := SeasonalDifferences(train, season, |train|);
    assert Varies(train, season) <==> exists i :: i < |train| && VariesAt(train, season, i);
    if differences != [] {
      PositiveQuotient(Sum(differences), |differences| as real);
    }
  }

  lemma PositiveQuotient(x: real, n: real)
    requires n > 0.0
    ensures x / n > 0.0 <==> x > 0.0
    ensures x >= 0.0 ==> x / n >= 0.0
  {
  }

  lemma {:induction false} SumNonNegative(s: seq<real>)
    requires forall i :: 0 <= i < |s| ==> s[i] >= 0.0
    ensures Sum(s) >= 0.0
  {
    if s != [] {
      SumNonNegative(s[1..]);
    }
  }

  lemma MaseExists(truth: seq<real>, pred: Option<seq<real>>, scale: Option<real>)
    requires |truth| >= 1 && (pred.Some? ==> |pred.value| == |truth|)
    requires scale.Some? ==> scale.value > 0.0
    ensures Mase(truth, pred, scale).Some? <==> pred.Some? && scale.Some?
    ensures Mase(truth, pred, scale).Some? ==> Mase(truth, pred, scale).value >= 0.0
  {
    if pred.Some? && scale.Some? {
      var errors := Errors(truth, pred.value);
      SumNonNegative(errors);
      PositiveQuotient(Sum(errors), |errors| as real);
      PositiveQuotient(Mean(errors), scale.value);
    }
  }

  lemma ScoresExist(train: seq<Option<real>>, truth: seq<real>, season: nat, candidate: seq<real>, drift: seq<real>)
    requires 1 <= season <= |train| && |truth| >= 1 && Observed(train) != []
    requires |candidate| == |truth| && |drift| == |truth|
    ensures var m, varies := ScoreFold(train, truth, season, candidate, drift), Varies(train, season);
            && (m.candidate.Some? <==> varies) && (m.drift.Some? <==> varies) && (m.last.Some? <==> varies)
            && (m.seasonal.Some? <==> varies && Complete(train[|train| - season..]))
            && forall p: Predictor :: Score(m, p).Some? ==> Score(m, p).value >= 0.0
  {
    hide Mase, TrainingScale, Varies, Observed;
    var scale, observed := TrainingScale(train, season), Observed(train);
    ScaleVaries(train, season);
    MaseExists(truth, Some(candidate), scale);
    MaseExists(truth, Some(drift), scale);
    MaseExists(truth, Some(Repeated(observed[|observed| - 1], |truth|)), scale);
    MaseExists(truth, Seasonal(train, season, |truth|), scale);
  }

  lemma FoldIsSound(s: Series, c: Config, e: Engine, fold: nat)
    requires Valid(s, c) && fold < c.folds
    ensures EvaluateFold(s, c, e, fold).Ok? ==> FoldSound(s, c, fold, EvaluateFold(s, c, e, fold).value)
  {
    hide RunForecast, ScoreFold, TrainingScale, ValidateConfig, ValidateSeries, Varies, Train, Truth, Observed,
         Complete;
    if FoldRuns(s, c, e, fold).Ok? {
      FoldRunsFit(s, c, e, fold);
      SlicesFit(s, c, fold);
      OriginInRange(s, c, fold);
      var train, truth := Train(s, c, fold), Observed(Truth(s, c, fold));
      var (candidate, drift) := FoldRuns(s, c, e, fold).value;
      ScaleVaries(train, s.season);
      ScoresExist(train, truth, s.season, Medians(candidate), Medians(drift));
    }
  }

  /** A fold fails only through its holdout or the candidate: the drift baseline serves whatever the candidate can. */
  lemma FoldSucceeds(s: Series, c: Config, e: Engine, fold: nat)
    requires Valid(s, c) && fold < c.folds
    ensures MathLaws(e.lib) ==>
              (EvaluateFold(s, c, e, fold).Ok?
               <==> Complete(Truth(s, c, fold)) && RunForecast(FoldRequest(s, c, fold), e.provider, e.digest).Ok?)
  {
    hide RunForecast, ScoreFold, TrainingScale, ValidateConfig, ValidateSeries, Train, Truth, Observed, MathLaws;
    var request := FoldRequest(s, c, fold);
    if MathLaws(e.lib) {
      DriftServesEveryValidRequest(request, e.lib, e.digest);
      ServedRequestsAreOk(request, e.provider, e.digest);
    }
  }

  lemma ServedRequestsAreOk(request: Request, provider: Provider, digest: seq<Point> -> string)
    ensures RunForecast(request, provider, digest).Ok? ==> RequestOk(request)
  {
    hide Observed, Window;
    QuantilesAccepted(request.quantiles);
    ImputedShape(request.values);
  }

  // What a fold, a series and a report say, written out.

  ghost predicate AllPresent(values: seq<Option<real>>) {
    forall k :: 0 <= k < |values| ==> values[k].Some?
  }

  ghost function Present(values: seq<Option<real>>): seq<real>
    requires AllPresent(values)
  {
    seq(|values|, k requires 0 <= k < |values| => values[k].value)
  }

  /** A complete-case mean: the sum of the scores over their number, if every score is there. */
  ghost predicate IsMean(mean: Option<real>, scores: seq<Option<real>>) {
    && scores != [] && (mean.Some? <==> AllPresent(scores))
    && (mean.Some? ==> mean.value == Sum(Present(scores)) / |scores| as real)
  }

  ghost function CandidateScores(folds: seq<Fold>): seq<Option<real>> {
    seq(|folds|, k requires 0 <= k < |folds| => folds[k].mase.candidate)
  }

  ghost function DriftScores(folds: seq<Fold>): seq<Option<real>> {
    seq(|folds|, k requires 0 <= k < |folds| => folds[k].mase.drift)
  }

  ghost function LastScores(folds: seq<Fold>): seq<Option<real>> {
    seq(|folds|, k requires 0 <= k < |folds| => folds[k].mase.last)
  }

  ghost function SeasonalScores(folds: seq<Fold>): seq<Option<real>> {
    seq(|folds|, k requires 0 <= k < |folds| => folds[k].mase.seasonal)
  }

  /** All four means exist. */
  ghost predicate HasAll(m: Scores) {
    m.candidate.Some? && m.drift.Some? && m.last.Some? && m.seasonal.Some?
  }

  /** The candidate's mean lies strictly below each baseline's. */
  ghost predicate BeatsAll(m: Scores) {
    && HasAll(m) && m.candidate.value < m.drift.value && m.candidate.value < m.last.value
    && m.candidate.value < m.seasonal.value
  }

  ghost predicate RecordMeans(r: SeriesRecord) {
    && IsMean(r.meanMase.candidate, CandidateScores(r.folds)) && IsMean(r.meanMase.drift, DriftScores(r.folds))
    && IsMean(r.meanMase.last, LastScores(r.folds)) && IsMean(r.meanMase.seasonal, SeasonalScores(r.folds))
    && (r.scorable <==> HasAll(r.meanMase)) && (r.improves <==> BeatsAll(r.meanMase))
  }

  lemma {:induction false} FiguresArePresent(folds: seq<Fold>, p: Predictor, scores: seq<Option<real>>)
    requires |scores| == |folds| && forall k :: 0 <= k < |folds| ==> scores[k] == Score(folds[k].mase, p)
    ensures Figures(folds, p).Some? <==> AllPresent(scores)
    ensures Figures(folds, p).Some? ==> Figures(folds, p).value == Present(scores)
  {
    hide Score;
    if folds != [] {
      var n := |folds| - 1;
      FiguresArePresent(folds[..n], p, scores[..n]);
      assert forall k :: 0 <= k < n ==> scores[k] == scores[..n][k];
      if AllPresent(scores) {
        assert Present(scores) == Present(scores[..n]) + [scores[n].value];
      }
    }
  }

  lemma MeanIsMean(folds: seq<Fold>, p: Predictor, scores: seq<Option<real>>)
    requires folds != [] && |scores| == |folds| && forall k :: 0 <= k < |folds| ==> scores[k] == Score(folds[k].mase, p)
    ensures IsMean(MeanScore(folds, p), scores)
  {
    hide Score, Figures;
    FiguresArePresent(folds, p, scores);
  }

  lemma RecordHasMeaning(signalId: string, folds: seq<Fold>)
    requires folds != []
    ensures RecordMeans(RecordOf(signalId, folds))
  {
    hide MeanScore, IsMean;
    MeanIsMean(folds, Candidate, CandidateScores(folds));
    MeanIsMean(folds, Drift, DriftScores(folds));
    MeanIsMean(folds, LastValue, LastScores(folds));
    MeanIsMean(folds, SeasonalNaive, SeasonalScores(folds));
  }

  /** The slice a fold trains on starts here. */
  function SliceStart(origin: int, limit: int): int {
    if origin > limit then origin - limit else 0
  }

  /** The distance to the value a season earlier, or nothing when one of the two is missing. */
  function SeasonGap(train: seq<Option<real>>, season: nat, i: int): real
    requires season <= i < |train|
  {
    if train[i].None? || train[i - season].None? then 0.0
    else if train[i].value < train[i - season].value then train[i - season].value - train[i].value
    else train[i].value - train[i - season].value
  }

  function SeasonGaps(train: seq<Option<real>>, season: nat, n: nat): seq<real>
    requires season <= n <= |train|
  {
    seq(n - season, i requires 0 <= i < n - season => SeasonGap(train, season, season + i))
  }

  predicate IsPair(train: seq<Option<real>>, season: nat, i: int) {
    season <= i < |train| && train[i].Some? && train[i - season].Some?
  }

  ghost function SeasonPairs(train: seq<Option<real>>, season: nat, n: nat): set<int>
    requires n <= |train|
  {
    set i | season <= i < n && IsPair(train, season, i)
  }

  /** The scale is the mean seasonal distance, when that is positive. */
  ghost predicate IsScale(scale: Option<real>, train: seq<Option<real>>, season: nat)
    requires season <= |train|
  {
    var total := Sum(SeasonGaps(train, season, |train|));
    && (scale.Some? <==> total > 0.0)
    && (scale.Some? ==> scale.value * |SeasonPairs(train, season, |train|)| as real == total)
  }

  lemma {:induction false} DifferencesSum(train: seq<Option<real>>, season: nat, n: nat)
    requires 1 <= season <= n <= |train|
    ensures Sum(SeasonalDifferences(train, season, n)) == Sum(SeasonGaps(train, season, n))
    ensures |SeasonalDifferences(train, season, n)| == |SeasonPairs(train, season, n)|
  {
    if n == season {
      assert SeasonPairs(train, season, n) == {};
      assert SeasonGaps(train, season, n) == [];
    } else {
      DifferencesSum(train, season, n - 1);
      NextGap(train, season, n);
      NextPair(train, season, n);
      if train[n - 1].Some? && train[n - 1 - season].Some? {
        SumAppend(SeasonalDifferences(train, season, n - 1), Abs(train[n - 1].value - train[n - 1 - season].value));
      }
    }
  }

  lemma NextGap(train: seq<Option<real>>, season: nat, n: nat)
    requires season < n <= |train|
    ensures Sum(SeasonGaps(train, season, n)) == Sum(SeasonGaps(train, season, n - 1)) + SeasonGap(train, season, n - 1)
  {
    hide SeasonGap;
    assert SeasonGaps(train, season, n) == SeasonGaps(train, season, n - 1) + [SeasonGap(train, season, n - 1)];
    SumAppend(SeasonGaps(train, season, n - 1), SeasonGap(train, season, n - 1));
  }

  lemma NextPair(train: seq<Option<real>>, season: nat, n: nat)
    requires season < n <= |train|
    ensures |SeasonPairs(train, season, n)| == |SeasonPairs(train, season, n - 1)|
              + (if train[n - 1].Some? && train[n - 1 - season].Some? then 1 else 0)
  {
    var pair := if train[n - 1].Some? && train[n - 1 - season].Some? then {n - 1 as int} else {};
    assert SeasonPairs(train, season, n) == SeasonPairs(train, season, n - 1) + pair;
  }

  lemma ScaleIsScale(train: seq<Option<real>>, season: nat)
    requires 1 <= season <= |train|
    ensures IsScale(TrainingScale(train, season), train, season)
  {
    hide SeasonalDifferences, SeasonGaps, SeasonPairs;
    DifferencesSum(train, season, |train|);
    var differences := SeasonalDifferences(train, season, |train|);
    if differences != [] {
      PositiveQuotient(Sum(differences), |differences| as real);
      QuotientTimes(Sum(differences), |differences| as real);
    }
  }

  lemma QuotientTimes(x: real, n: real)
    requires n > 0.0
    ensures x / n * n == x
  {
  }

  ghost function Misses(truth: seq<real>, path: seq<real>): seq<real>
    requires |truth| == |path|
  {
    seq(|truth|, i requires 0 <= i < |truth| =>
      if truth[i] < path[i] then path[i] - truth[i] else truth[i] - path[i])
  }

  /** The mean distance between truth and prediction, in units of the scale. */
  ghost predicate IsScored(score: Option<real>, scale: Option<real>, truth: seq<real>, path: seq<real>) {
    && |truth| == |path| > 0 && (score.Some? <==> scale.Some?)
    && (score.Some? ==> scale.value != 0.0)
    && (score.Some? ==> score.value == Sum(Misses(truth, path)) / |truth| as real / scale.value)
  }

  lemma MaseIsScored(truth: seq<real>, path: seq<real>, scale: Option<real>)
    requires |truth| == |path| > 0 && (scale.Some? ==> scale.value > 0.0)
    ensures IsScored(Mase(truth, Some(path), scale), scale, truth, path)
  {
    assert Errors(truth, path) == Misses(truth, path);
  }

  ghost predicate IsLastObserved(train: seq<Option<real>>, value: real) {
    exists j :: 0 <= j < |train| && train[j] == Some(value) && forall k :: j < k < |train| ==> train[k].None?
  }

  lemma {:induction false} ObservedEnds(train: seq<Option<real>>)
    requires Observed(train) != []
    ensures IsLastObserved(train, Observed(train)[|Observed(train)| - 1])
  {
    var rest := Observed(train[1..]);
    if rest != [] {
      ObservedEnds(train[1..]);
      var j :| 0 <= j < |train[1..]| && train[1..][j] == Some(rest[|rest| - 1])
               && forall k :: j < k < |train[1..]| ==> train[1..][k].None?;
      assert train[j + 1] == Some(rest[|rest| - 1]);
      assert forall k :: j + 1 < k < |train| ==> train[k] == train[1..][k - 1];
    } else {
      ObservedSome(train[1..]);
      assert forall k :: 0 < k < |train| ==> train[k] == train[1..][k - 1];
      assert train[0] == Some(Observed(train)[0]);
    }
  }

  ghost function SeasonPath(train: seq<Option<real>>, season: nat, horizon: nat): seq<real>
    requires 1 <= season <= |train| && AllPresent(train[|train| - season..])
  {
    seq(horizon, i requires 0 <= i < horizon => train[|train| - season..][i % season].value)
  }

  /** The median path of a forecast. */
  ghost predicate IsPath(f: Forecast, path: seq<real>) {
    && |path| == |f.points|
    && forall t :: 0 <= t < |path| ==> "q50" in f.points[t].quantiles && f.points[t].quantiles["q50"] == path[t]
  }

  ghost predicate Predicts(request: Request, provider: Provider, digest: seq<Point> -> string, path: seq<real>) {
    RunForecast(request, provider, digest).Ok? && IsPath(RunForecast(request, provider, digest).value, path)
  }

  /** The request of a fold: the slice before its origin, at the three evaluation levels. */
  function RequestAt(s: Series, c: Config, origin: int): Request
    requires 0 <= origin <= |s.values| && c.contextLimit >= 0
  {
    Request(s.signalId, s.values[SliceStart(origin, c.contextLimit)..origin], c.horizon,
            [Quantile(0.1, "q10"), Quantile(0.5, "q50"), Quantile(0.9, "q90")])
  }

  /** One fold, from the series and the two forecasts alone. */
  ghost predicate FoldMeans(s: Series, c: Config, e: Engine, k: nat, f: Fold) {
    && 0 <= f.origin == |s.values| - (c.folds - k) * c.horizon && c.horizon >= 1 && f.origin + c.horizon <= |s.values|
    && c.contextLimit >= 0
    && f.trainingPoints == f.origin - SliceStart(f.origin, c.contextLimit)
    && AllPresent(s.values[f.origin..f.origin + c.horizon])
    && FoldScores(s, c, e, f, RequestAt(s, c, f.origin), Present(s.values[f.origin..f.origin + c.horizon]))
  }

  ghost predicate FoldScores(s: Series, c: Config, e: Engine, f: Fold, request: Request, truth: seq<real>) {
    var train := request.values;
    && 1 <= s.season <= |train| && IsScale(f.scale, train, s.season)
    && (exists path ::
          Predicts(request, e.provider, e.digest, path) && IsScored(f.mase.candidate, f.scale, truth, path))
    && (exists path ::
          Predicts(request, RobustDrift(e.lib), e.digest, path) && IsScored(f.mase.drift, f.scale, truth, path))
    && (exists x :: IsLastObserved(train, x) && IsScored(f.mase.last, f.scale, truth, seq(|truth|, i => x)))
    && if AllPresent(train[|train| - s.season..])
       then IsScored(f.mase.seasonal, f.scale, truth, SeasonPath(train, s.season, |truth|))
       else f.mase.seasonal == None
  }

  lemma MediansArePath(f: Forecast)
    requires HasMedians(f)
    ensures IsPath(f, Medians(f))
  {
  }

  lemma SeasonalIsScored(train: seq<Option<real>>, season: nat, truth: seq<real>, scale: Option<real>)
    requires 1 <= season <= |train| && |truth| > 0 && (scale.Some? ==> scale.value > 0.0)
    ensures var score := Mase(truth, Seasonal(train, season, |truth|), scale);
            if AllPresent(train[|train| - season..])
            then IsScored(score, scale, truth, SeasonPath(train, season, |truth|))
            else score == None
  {
    hide IsScored;
    var tail := train[|train| - season..];
    if AllPresent(tail) {
      assert Seasonal(train, season, |truth|).value == SeasonPath(train, season, |truth|);
      MaseIsScored(truth, SeasonPath(train, season, |truth|), scale);
    } else {
      assert Seasonal(train, season, |truth|).None?;
    }
  }

  lemma ScoresMean(s: Series, c: Config, e: Engine, f: Fold, request: Request, truth: seq<real>, candidate: Forecast,
                   drift: Forecast)
    requires 1 <= s.season <= |request.values| && |truth| >= 1 && Observed(request.values) != []
    requires RunForecast(request, e.provider, e.digest) == Ok(candidate)
    requires RunForecast(request, RobustDrift(e.lib), e.digest) == Ok(drift)
    requires HasMedians(candidate) && HasMedians(drift) && |candidate.points| == |truth| == |drift.points|
    requires f.scale == TrainingScale(request.values, s.season)
    requires f.mase == ScoreFold(request.values, truth, s.season, Medians(candidate), Medians(drift))
    ensures FoldScores(s, c, e, f, request, truth)
  {
    hide RunForecast, TrainingScale, Mase, Seasonal, IsScored, IsScale, IsLastObserved, IsPath, HasMedians, Observed,
         Medians;
    var train, observed := request.values, Observed(request.values);
    ScaleIsScale(train, s.season);
    ScaleVaries(train, s.season);
    MediansArePath(candidate);
    MediansArePath(drift);
    PathLength(candidate);
    PathLength(drift);
    MaseIsScored(truth, Medians(candidate), f.scale);
    MaseIsScored(truth, Medians(drift), f.scale);
    assert Predicts(request, e.provider, e.digest, Medians(candidate));
    assert Predicts(request, RobustDrift(e.lib), e.digest, Medians(drift));
    var x := observed[|observed| - 1];
    ObservedEnds(train);
    SameRepeated(x, |truth|);
    MaseIsScored(truth, Repeated(x, |truth|), f.scale);
    SeasonalIsScored(train, s.season, truth, f.scale);
  }

  lemma PathLength(f: Forecast)
    requires HasMedians(f)
    ensures |Medians(f)| == |f.points|
  {
  }

  lemma SameRepeated(x: real, n: nat)
    ensures Repeated(x, n) == seq(n, i => x) && |Repeated(x, n)| == n
  {
  }

  lemma FoldSlices(s: Series, c: Config, k: nat)
    requires Valid(s, c) && k < c.folds
    ensures var origin := |s.values| - (c.folds - k) * c.horizon;
            && 0 <= origin && c.horizon >= 1 && c.contextLimit >= 0 && origin + c.horizon <= |s.values|
            && origin == Origin(|s.values|, c, k) && Truth(s, c, k) == s.values[origin..origin + c.horizon]
            && FoldRequest(s, c, k) == RequestAt(s, c, origin)
            && |Train(s, c, k)| == origin - SliceStart(origin, c.contextLimit)
  {
    OriginInRange(s, c, k);
  }

  lemma RequestParts(s: Series, c: Config, k: nat)
    requires Valid(s, c) && k < c.folds
    ensures FoldRequest(s, c, k).values == Train(s, c, k)
  {
  }

  lemma FoldHasMeaning(s: Series, c: Config, e: Engine, fold: nat)
    requires Valid(s, c) && fold < c.folds && EvaluateFold(s, c, e, fold).Ok?
    ensures FoldMeans(s, c, e, fold, EvaluateFold(s, c, e, fold).value)
  {
    hide RunForecast, ScoreFold, TrainingScale, FoldScores, HasMedians, Medians, Observed, ValidateConfig,
         ValidateSeries, Train, Truth, Origin, FoldRequest, RequestAt, SliceStart;
    FoldRunsFit(s, c, e, fold);
    FoldSlices(s, c, fold);
    RequestParts(s, c, fold);
    var f := EvaluateFold(s, c, e, fold).value;
    var truth := Truth(s, c, fold);
    ObservedAll(truth);
    assert Observed(truth) == Present(truth);
    var (candidate, drift) := FoldRuns(s, c, e, fold).value;
    ScoresMean(s, c, e, f, RequestAt(s, c, f.origin), Observed(truth), candidate, drift);
  }

  /** A series record: its folds in order, their means and the verdict. */
  ghost predicate SeriesMeans(s: Series, c: Config, e: Engine, r: SeriesRecord) {
    && r.signalId == s.signalId && |r.folds| == c.folds > 0 && RecordMeans(r)
    && forall k :: 0 <= k < c.folds ==> FoldMeans(s, c, e, k, r.folds[k])
  }

  lemma SeriesHasMeaning(s: Series, c: Config, e: Engine)
    requires ValidateConfig(c).None? && EvaluateOne(s, c, e).Ok?
    ensures c.folds > 0 && SeriesMeans(s, c, e, EvaluateOne(s, c, e).value)
  {
    hide EvaluateFold, FoldMeans, RecordMeans, ValidateConfig, ValidateSeries;
    FoldsPositive(c);
    FoldsAt(s, c, e, c.folds);
    var folds := EvaluateFolds(s, c, e, c.folds).value;
    RecordHasMeaning(s.signalId, folds);
    forall k | 0 <= k < c.folds
      ensures FoldMeans(s, c, e, k, folds[k])
    {
      FoldHasMeaning(s, c, e, k);
    }
  }

  /** One record per series in order; a candidate qualifies exactly when it beats all baselines on all series. */
  ghost predicate ReportMeans(series: seq<Series>, c: Config, e: Engine, r: Report) {
    && |r.records| == |series|
    && (forall k :: 0 <= k < |series| ==> SeriesMeans(series[k], c, e, r.records[k]))
    && (r.complete <==> forall k :: 0 <= k < |series| ==> HasAll(r.records[k].meanMase))
    && (r.qualified <==> forall k :: 0 <= k < |series| ==> BeatsAll(r.records[k].meanMase))
  }

  lemma SeriesVerdict(s: Series, c: Config, e: Engine, r: SeriesRecord)
    requires SeriesMeans(s, c, e, r)
    ensures (r.scorable <==> HasAll(r.meanMase)) && (r.improves <==> BeatsAll(r.meanMase))
  {
  }

  lemma ReportHasMeaning(series: seq<Series>, c: Config, e: Engine)
    requires Evaluation(series, c, e).Ok?
    ensures ReportMeans(series, c, e, Evaluation(series, c, e).value)
  {
    hide EvaluateOne, ValidateConfig, SeriesMeans, HasAll, BeatsAll;
    RecordsAt(series, c, e, |series|);
    var records := EvaluateAll(series, c, e, |series|).value;
    forall k | 0 <= k < |series|
      ensures SeriesMeans(series[k], c, e, records[k])
      ensures records[k].scorable <==> HasAll(records[k].meanMase)
      ensures records[k].improves <==> BeatsAll(records[k].meanMase)
    {
      SeriesHasMeaning(series[k], c, e);
      SeriesVerdict(series[k], c, e, records[k]);
    }
    assert forall k :: 0 <= k < |series| && BeatsAll(records[k].meanMase) ==> HasAll(records[k].meanMase) by {
      BeatingNeedsAll();
    }
  }

  lemma BeatingNeedsAll()
    ensures forall m :: BeatsAll(m) ==> HasAll(m)
  {
  }

  // When an evaluation succeeds.

  ghost predicate ConfigOk(c: Config) {
    1 <= c.horizon <= 1024 && 2 <= c.folds <= 32 && 2 <= c.minContext <= c.contextLimit <= 8192
  }

  ghost predicate SeriesOk(s: Series, c: Config) {
    && 1 <= s.season < c.minContext
    && c.minContext + c.folds * c.horizon <= |s.values| <= 8192 + c.folds * c.horizon
  }

  /** Some character is not white space. */
  ghost predicate HasText(s: string) {
    exists i :: 0 <= i < |s| && s[i] !in " \t\n\r"
  }

  ghost predicate Nameable(series: seq<Series>) {
    && 1 <= |series| <= 256
    && (forall k :: 0 <= k < |series| ==> HasText(series[k].signalId))
    && (forall j, k :: 0 <= j < k < |series| ==> series[j].signalId != series[k].signalId)
  }

  /** The holdout of a fold is complete and the candidate serves its request. */
  ghost predicate FoldOk(s: Series, c: Config, e: Engine, k: nat) {
    var origin := |s.values| - (c.folds - k) * c.horizon;
    && 0 <= origin && c.horizon >= 0 && c.contextLimit >= 0 && origin + c.horizon <= |s.values|
    && AllPresent(s.values[origin..origin + c.horizon])
    && RunForecast(RequestAt(s, c, origin), e.provider, e.digest).Ok?
  }

  lemma FoldOkExactly(s: Series, c: Config, e: Engine, k: nat)
    requires MathLaws(e.lib) && Valid(s, c) && k < c.folds
    ensures EvaluateFold(s, c, e, k).Ok? <==> FoldOk(s, c, e, k)
  {
    hide RunForecast, EvaluateFold, ValidateConfig, ValidateSeries, MathLaws, Truth, FoldRequest, RequestAt, Origin;
    FoldSucceeds(s, c, e, k);
    FoldSlices(s, c, k);
  }

  lemma ValidExactly(s: Series, c: Config)
    ensures ValidateConfig(c).None? <==> ConfigOk(c)
    ensures ValidateSeries(s, c).None? <==> SeriesOk(s, c)
  {
  }

  lemma {:induction false} FoldsOk(s: Series, c: Config, e: Engine, n: nat)
    requires Valid(s, c) && n <= c.folds
    ensures EvaluateFolds(s, c, e, n).Ok? <==> forall fold :: 0 <= fold < n ==> EvaluateFold(s, c, e, fold).Ok?
  {
    hide EvaluateFold;
    if n > 0 {
      FoldsOk(s, c, e, n - 1);
    }
  }

  lemma {:induction false} AllOk(series: seq<Series>, c: Config, e: Engine, n: nat)
    requires ValidateConfig(c).None? && n <= |series|
    ensures EvaluateAll(series, c, e, n).Ok? <==> forall k :: 0 <= k < n ==> EvaluateOne(series[k], c, e).Ok?
  {
    hide EvaluateOne;
    if n > 0 {
      AllOk(series, c, e, n - 1);
    }
  }

  ghost predicate SeriesServed(s: Series, c: Config, e: Engine) {
    SeriesOk(s, c) && forall k :: 0 <= k < c.folds ==> FoldOk(s, c, e, k)
  }

  lemma OneOk(s: Series, c: Config, e: Engine)
    requires MathLaws(e.lib) && ValidateConfig(c).None?
    ensures EvaluateOne(s, c, e).Ok? <==> SeriesServed(s, c, e)
  {
    hide EvaluateFold, FoldOk, MathLaws, ValidateConfig, SeriesOk, ValidateSeries;
    ValidExactly(s, c);
    FoldsPositive(c);
    if ValidateSeries(s, c).None? {
      FoldsOk(s, c, e, c.folds);
      forall k | 0 <= k < c.folds
        ensures EvaluateFold(s, c, e, k).Ok? <==> FoldOk(s, c, e, k)
      {
        FoldOkExactly(s, c, e, k);
      }
    }
  }

  lemma EvaluatesExactly(series: seq<Series>, c: Config, e: Engine)
    requires MathLaws(e.lib)
    ensures Evaluation(series, c, e).Ok? <==>
              ConfigOk(c) && Nameable(series) && forall k :: 0 <= k < |series| ==> SeriesServed(series[k], c, e)
  {
    hide EvaluateOne, SeriesServed, MathLaws, ValidateConfig, ConfigOk;
    ValidExactly(Series("", [], 0), c);
    NamesExactly(series);
    if ValidateConfig(c).None? {
      AllOk(series, c, e, |series|);
      forall k | 0 <= k < |series|
        ensures EvaluateOne(series[k], c, e).Ok? <==> SeriesServed(series[k], c, e)
      {
        OneOk(series[k], c, e);
      }
    }
  }

  lemma NamesExactly(series: seq<Series>)
    ensures series != [] && |series| <= 256 && NamesOk(series) <==> Nameable(series)
  {
    hide IsBlank, HasText;
    forall k | 0 <= k < |series|
      ensures !IsBlank(series[k].signalId) <==> HasText(series[k].signalId)
    {
      NotBlank(series[k].signalId);
    }
  }

  lemma NotBlank(s: string)
    ensures !IsBlank(s) <==> HasText(s)
  {
  }

  // The evaluator's loops.

  method RunFold(s: Series, c: Config, e: Engine, fold: nat) returns (r: Result<Fold>)
    requires Valid(s, c) && fold < c.folds
    ensures r == EvaluateFold(s, c, e, fold)
    ensures r.Ok? ==> FoldSound(s, c, fold, r.value)
    ensures MathLaws(e.lib) ==>
              (r.Ok? <==> Complete(Truth(s, c, fold)) && RunForecast(FoldRequest(s, c, fold), e.provider, e.digest).Ok?)
  {
    hide RunForecast, ScoreFold, TrainingScale, Origin, ValidateConfig, ValidateSeries, FoldSound, MathLaws;
    FoldSucceeds(s, c, e, fold);
    FoldIsSound(s, c, e, fold);
    if !Complete(Truth(s, c, fold)) {
      return Err("missing holdout observations cannot be imputed for scoring");
    }
    var request := FoldRequest(s, c, fold);
    var candidate := Run(request, e.provider, e.digest);
    if candidate.Err? {
      return Err(candidate.error);
    }
    var drift := Run(request, RobustDrift(e.lib), e.digest);
    if drift.Err? {
      return Err(drift.error);
    }
    FoldRunsFit(s, c, e, fold);
    var train, truth := Train(s, c, fold), Observed(Truth(s, c, fold));
    return Ok(Fold(Origin(|s.values|, c, fold), |train|, TrainingScale(train, s.season),
                   ScoreFold(train, truth, s.season, Medians(candidate.value), Medians(drift.value))));
  }

  method RunSeries(s: Series, c: Config, e: Engine) returns (r: Result<SeriesRecord>)
    requires ValidateConfig(c).None?
    ensures r == EvaluateOne(s, c, e)
    ensures r.Ok? ==> SeriesMeans(s, c, e, r.value)
  {
    hide EvaluateFold, RecordOf, ValidateConfig, ValidateSeries, SeriesMeans;
    var invalid := ValidateSeries(s, c);
    if invalid.Some? {
      return Err(invalid.value);
    }
    assert c.folds >= 0 by { FoldsPositive(c); }
    var records: seq<Fold> := [];
    for fold := 0 to c.folds
      invariant EvaluateFolds(s, c, e, fold) == Ok(records)
    {
      var record := RunFold(s, c, e, fold);
      if record.Err? {
        FoldErrorPersists(s, c, e, fold + 1, c.folds);
        return Err(record.error);
      }
      records := records + [record.value];
    }
    SeriesHasMeaning(s, c, e);
    return Ok(RecordOf(s.signalId, records));
  }

  lemma FoldsPositive(c: Config)
    requires ValidateConfig(c).None?
    ensures c.folds >= 2
  {
  }

  lemma {:induction false} FoldErrorPersists(s: Series, c: Config, e: Engine, m: nat, n: nat)
    requires Valid(s, c) && m <= n <= c.folds && EvaluateFolds(s, c, e, m).Err?
    ensures EvaluateFolds(s, c, e, n) == EvaluateFolds(s, c, e, m)
    decreases n - m
  {
    hide EvaluateFold;
    if m < n {
      FoldErrorPersists(s, c, e, m, n - 1);
    }
  }

  method EvaluateWalkForward(series: seq<Series>, c: Config, e: Engine) returns (r: Result<Report>)
    ensures r == Evaluation(series, c, e)
    ensures r.Ok? ==> ReportMeans(series, c, e, r.value)
    ensures MathLaws(e.lib) ==>
              (r.Ok? <==>
                ConfigOk(c) && Nameable(series) && forall k :: 0 <= k < |series| ==> SeriesServed(series[k], c, e))
  {
    hide EvaluateOne, ReportOf, ReportMeans, MathLaws, ConfigOk, Nameable, SeriesServed;
    if MathLaws(e.lib) {
      EvaluatesExactly(series, c, e);
    }
    if Evaluation(series, c, e).Ok? {
      ReportHasMeaning(series, c, e);
    }
    var invalid := ValidateConfig(c);
    if invalid.Some? {
      return Err(invalid.value);
    }
    if series == [] || |series| > 256 {
      return Err("between 1 and 256 evaluation series are required");
    }
    if !NamesOk(series) {
      return Err("evaluation signal identifiers must be nonempty and unique");
    }
    var records: seq<SeriesRecord> := [];
    for i := 0 to |series|
      invariant EvaluateAll(series, c, e, i) == Ok(records)
    {
      var record := RunSeries(series[i], c, e);
      if record.Err? {
        SeriesErrorPersists(series, c, e, i + 1, |series|);
        return Err(record.error);
      }
      records := records + [record.value];
    }
    return Ok(ReportOf(records));
  }

  lemma {:induction false} SeriesErrorPersists(series: seq<Series>, c: Config, e: Engine, m: nat, n: nat)
    requires ValidateConfig(c).None? && m <= n <= |series| && EvaluateAll(series, c, e, m).Err?
    ensures EvaluateAll(series, c, e, n) == EvaluateAll(series, c, e, m)
    decreases n - m
  {
    hide EvaluateOne;
    if m < n {
      SeriesErrorPersists(series, c, e, m, n - 1);
    }
  }

  // Folds partition the end of the series and never look past their origin.

  function Holdouts(s: Series, c: Config, n: nat): seq<Option<real>>
    requires Valid(s, c) && n <= c.folds
  {
    if n == 0 then [] else Holdouts(s, c, n - 1) + Truth(s, c, n - 1)
  }

  lemma {:induction false} HoldoutsUpTo(s: Series, c: Config, n: nat)
    requires Valid(s, c) && n <= c.folds
    ensures 0 <= Origin(|s.values|, c, 0) <= Origin(|s.values|, c, n) <= |s.values|
    ensures Holdouts(s, c, n) == s.values[Origin(|s.values|, c, 0)..Origin(|s.values|, c, n)]
  {
    OriginInRange(s, c, 0);
    if n > 0 {
      OriginInRange(s, c, n - 1);
      HoldoutsUpTo(s, c, n - 1);
    }
  }

  /** The holdouts, in order, are exactly the last folds * horizon values: disjoint and without gaps. */
  lemma HoldoutsCoverTheEnd(s: Series, c: Config)
    requires Valid(s, c)
    ensures 0 <= c.folds * c.horizon <= |s.values|
    ensures Holdouts(s, c, c.folds) == s.values[|s.values| - c.folds * c.horizon..]
  {
    HoldoutsUpTo(s, c, c.folds);
  }

  /** What a fold sends to a provider depends only on the values before its origin. */
  lemma NoLookAhead(s: Series, s': Series, c: Config, fold: nat)
    requires Valid(s, c) && Valid(s', c) && fold < c.folds
    requires s.signalId == s'.signalId && |s.values| == |s'.values|
    requires forall i :: 0 <= i < Origin(|s.values|, c, fold) && i < |s.values| ==> s.values[i] == s'.values[i]
    ensures FoldRequest(s, c, fold) == FoldRequest(s', c, fold)
  {
    OriginInRange(s, c, fold);
    assert Train(s, c, fold) == Train(s', c, fold);
  }

  // A candidate no better than drift never qualifies.

  lemma {:induction false} FoldsAt(s: Series, c: Config, e: Engine, n: nat)
    requires Valid(s, c) && n <= c.folds && EvaluateFolds(s, c, e, n).Ok?
    ensures |EvaluateFolds(s, c, e, n).value| == n
    ensures forall k :: 0 <= k < n ==> EvaluateFold(s, c, e, k) == Ok(EvaluateFolds(s, c, e, n).value[k])
  {
    hide EvaluateFold;
    if n > 0 {
      FoldsAt(s, c, e, n - 1);
    }
  }

  lemma {:induction false} SameFigures(folds: seq<Fold>, p: Predictor, other: seq<Fold>, q: Predictor)
    requires |folds| == |other|
    requires forall k :: 0 <= k < |folds| ==> Score(folds[k].mase, p) == Score(other[k].mase, q)
    ensures Figures(folds, p) == Figures(other, q)
  {
    if folds != [] {
      SameFigures(folds[..|folds| - 1], p, other[..|other| - 1], q);
    }
  }

  /** The candidate's median path equals the drift baseline's in every fold. */
  ghost predicate ForecastsLikeDrift(s: Series, c: Config, e: Engine) {
    Valid(s, c) && forall k :: 0 <= k < c.folds && FoldRuns(s, c, e, k).Ok? ==>
      var (candidate, drift) := FoldRuns(s, c, e, k).value;
      HasMedians(candidate) && HasMedians(drift) && Medians(candidate) == Medians(drift)
  }

  lemma DriftLikeNeverImproves(s: Series, c: Config, e: Engine)
    requires ForecastsLikeDrift(s, c, e) && EvaluateOne(s, c, e).Ok?
    ensures !EvaluateOne(s, c, e).value.improves
  {
    hide TrainingScale, Seasonal, FoldRuns, Train, Truth, Origin, ValidateConfig, ValidateSeries;
    assert c.folds >= 0 by { FoldsPositive(c); }
    var folds := EvaluateFolds(s, c, e, c.folds).value;
    FoldsAt(s, c, e, c.folds);
    forall k | 0 <= k < |folds|
      ensures Score(folds[k].mase, Candidate) == Score(folds[k].mase, Drift)
    {
      assert EvaluateFold(s, c, e, k) == Ok(folds[k]);
      FoldRunsFit(s, c, e, k);
    }
    SameFigures(folds, Candidate, folds, Drift);
  }

  lemma {:induction false} RecordsAt(series: seq<Series>, c: Config, e: Engine, n: nat)
    requires ValidateConfig(c).None? && n <= |series| && EvaluateAll(series, c, e, n).Ok?
    ensures |EvaluateAll(series, c, e, n).value| == n
    ensures forall k :: 0 <= k < n ==> EvaluateOne(series[k], c, e) == Ok(EvaluateAll(series, c, e, n).value[k])
  {
    hide EvaluateOne;
    if n > 0 {
      RecordsAt(series, c, e, n - 1);
    }
  }

  /** One series forecast like drift is enough to withhold qualification. */
  lemma DriftLikeNeverQualifies(series: seq<Series>, c: Config, e: Engine, k: nat)
    requires Evaluation(series, c, e).Ok? && k < |series| && ForecastsLikeDrift(series[k], c, e)
    ensures !Evaluation(series, c, e).value.qualified
  {
    hide EvaluateOne, ForecastsLikeDrift, ValidateConfig;
    RecordsAt(series, c, e, |series|);
    DriftLikeNeverImproves(series[k], c, e);
  }

  /** In particular the built-in provider can never qualify against itself. */
  lemma DriftNeverQualifies(series: seq<Series>, c: Config, e: Engine)
    requires Evaluation(series, c, e).Ok? && e.provider == RobustDrift(e.lib)
    ensures !Evaluation(series, c, e).value.qualified
  {
    hide RunForecast, RecordOf, ReportOf;
    RecordsAt(series, c, e, |series|);
    assert EvaluateOne(series[0], c, e).Ok?;
    SelfIsLikeDrift(series[0], c, e);
    DriftLikeNeverQualifies(series, c, e, 0);
  }

  lemma SelfIsLikeDrift(s: Series, c: Config, e: Engine)
    requires e.provider == RobustDrift(e.lib) && Valid(s, c)
    ensures ForecastsLikeDrift(s, c, e)
  {
    hide RunForecast, RobustDrift, Truth, FoldRequest;
    forall k | 0 <= k < c.folds && FoldRuns(s, c, e, k).Ok?
      ensures var (candidate, drift) := FoldRuns(s, c, e, k).value;
              HasMedians(candidate) && HasMedians(drift) && Medians(candidate) == Medians(drift)
    {
      FoldRunsFit(s, c, e, k);
    }
  }
}
