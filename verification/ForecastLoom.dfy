/**
Forecast Loom: context imputation, the robust-drift provider, and the governed
run that turns a provider's rows into a receipt-bearing forecast.  Floats are
exact reals, and every quantile level carries the key it is printed under.
*/
module ForecastLoom {
  import opened Common
  import opened Decimals
  import opened Stats

  const MAX_CONTEXT: nat := 8192
  const MAX_QUANTILES: nat := 99
  const CONTRACT_VERSION := "szl.lyte.forecast-loom/v1"

  datatype Request = Request(signalId: string, values: seq<Option<real>>, horizon: int, quantiles: seq<Quantile>)

  datatype Point = Point(step: int, quantiles: map<string, real>)

  datatype Receipt = Receipt(
    contract: string, signalId: string, provider: string, contextPoints: nat, imputedPoints: nat,
    horizon: int, quantiles: seq<Quantile>, outputSha256: string,
    originalContextPoints: nat, truncatedPoints: nat)

  datatype Forecast = Forecast(points: seq<Point>, receipt: Receipt)

  /** A provider maps imputed values, horizon and quantiles to one row of quantile values per step. */
  datatype Provider = Provider(name: string, forecast: (seq<real>, nat, seq<Quantile>) -> seq<map<real, real>>)

  /** The library functions whose results the forecasts depend on. */
  datatype MathLib = MathLib(log: real -> real, sqrt: real -> real)

  ghost predicate MathLaws(lib: MathLib) {
    && lib.log(1.0) == 0.0
    && (forall x, y :: 0.0 < x < y ==> lib.log(x) < lib.log(y))
    && (forall x :: x > 0.0 ==> lib.sqrt(x) > 0.0)
  }

  /** Functions that keep these laws exist. */
  lemma LawfulMath() returns (lib: MathLib)
    ensures MathLaws(lib)
  {
    lib := MathLib(x => x - 1.0, x => x);
  }

  // Quantiles.

  predicate StrictlyIncreasing(qs: seq<Quantile>) {
    forall i, j :: 0 <= i < j < |qs| ==> qs[i].level < qs[j].level
  }

  predicate LevelsOk(qs: seq<Quantile>) {
    forall i :: 0 <= i < |qs| ==> 0.0 < qs[i].level < 1.0
  }

  function ValidateQuantiles(qs: seq<Quantile>): Result<seq<Quantile>> {
    if qs == [] || |qs| > MAX_QUANTILES then
      Err("between 1 and 99 quantiles are required")
    else if exists i :: 0 <= i < |qs| && (qs[i].level <= 0.0 || qs[i].level >= 1.0) then
      Err("quantiles must be finite values strictly between 0 and 1")
    else if !StrictlyIncreasing(qs) then
      Err("quantiles must be strictly increasing and unique")
    else if forall i :: 0 <= i < |qs| ==> qs[i].level != 0.5 then
      Err("quantiles must include the median (0.5)")
    else
      Ok(qs)
  }

  predicate QuantilesOk(qs: seq<Quantile>) {
    && 1 <= |qs| <= MAX_QUANTILES
    && LevelsOk(qs)
    && StrictlyIncreasing(qs)
    && exists i :: 0 <= i < |qs| && qs[i].level == 0.5
  }

  lemma QuantilesAccepted(qs: seq<Quantile>)
    ensures ValidateQuantiles(qs).Ok? <==> QuantilesOk(qs)
    ensures QuantilesOk(qs) ==> ValidateQuantiles(qs) == Ok(qs)
  {
    if QuantilesOk(qs) {
      var i :| 0 <= i < |qs| && qs[i].level == 0.5;
    }
  }

  // Imputation.

  function Window(values: seq<Option<real>>): seq<Option<real>> {
    if |values| > MAX_CONTEXT then values[|values| - MAX_CONTEXT..] else values
  }

  function Observed(values: seq<Option<real>>): seq<real> {
    if values == [] then []
    else (if values[0].Some? then [values[0].value] else []) + Observed(values[1..])
  }

  /** Carry the last observation forward; before the first one use the fallback. */
  function Fill(values: seq<Option<real>>, last: Option<real>, fallback: real): seq<real> {
    if values == [] then []
    else match values[0]
      case Some(v) => [v] + Fill(values[1..], Some(v), fallback)
      case None => [if last.Some? then last.value else fallback] + Fill(values[1..], last, fallback)
  }

  function Missing(values: seq<Option<real>>): nat {
    if values == [] then 0 else (if values[0].None? then 1 else 0) + Missing(values[1..])
  }

  function Imputed(values: seq<Option<real>>): Result<(seq<real>, nat)> {
    if values == [] then Err("forecast context cannot be empty")
    else
      var window := Window(values);
      var valid := Observed(window);
      if valid == [] then Err("forecast context cannot be entirely missing")
      else Ok((Fill(window, None, Median(valid)), Missing(window)))
  }

  method Impute(values: seq<Option<real>>) returns (r: Result<(seq<real>, nat)>)
    ensures r == Imputed(values)
    ensures r.Ok? <==> exists i :: |values| - MAX_CONTEXT <= i < |values| && i >= 0 && values[i].Some?
    ensures r.Ok? ==>
              && |r.value.0| == (if |values| > MAX_CONTEXT then MAX_CONTEXT else |values|)
              && FillsGaps(Window(values), r.value.0) && r.value.1 == |Gaps(Window(values))|
  {
    ImputedMeans(values);
    if values == [] {
      return Err("forecast context cannot be empty");
    }
    var window := Window(values);
    var valid := Observed(window);
    if valid == [] {
      return Err("forecast context cannot be entirely missing");
    }
    var filled, imputed := FillGaps(window, Median(valid));
    return Ok((filled, imputed));
  }

  lemma FillNext(values: seq<Option<real>>, last: Option<real>, fallback: real)
    requires values != []
    ensures match values[0]
            case Some(v) =>
              && Fill(values, last, fallback) == [v] + Fill(values[1..], Some(v), fallback)
              && Missing(values) == Missing(values[1..])
            case None =>
              && Fill(values, last, fallback)
                 == [if last.Some? then last.value else fallback] + Fill(values[1..], last, fallback)
              && Missing(values) == 1 + Missing(values[1..])
  {
  }

  lemma FillEnd(last: Option<real>, fallback: real)
    ensures Fill([], last, fallback) == [] && Missing([]) == 0
  {
  }

  method FillGaps(window: seq<Option<real>>, fallback: real) returns (filled: seq<real>, imputed: nat)
    ensures filled == Fill(window, None, fallback) && imputed == Missing(window)
  {
    hide Fill, Missing;
    filled, imputed := [], 0;
    var last: Option<real> := None;
    assert window[0..] == window;
    for i := 0 to |window|
      invariant filled + Fill(window[i..], last, fallback) == Fill(window, None, fallback)
      invariant imputed + Missing(window[i..]) == Missing(window)
    {
      FillNext(window[i..], last, fallback);
      assert window[i..][1..] == window[i + 1..];
      var value := window[i];
      match value {
        case None =>
          imputed := imputed + 1;
          filled := filled + [if last.Some? then last.value else fallback];
        case Some(v) =>
          filled := filled + [v];
          last := value;
      }
    }
    FillEnd(last, fallback);
    assert window[|window|..] == [];
  }

  lemma {:induction false} FillShape(values: seq<Option<real>>, last: Option<real>, fallback: real)
    ensures |Fill(values, last, fallback)| == |values|
    ensures forall i :: 0 <= i < |values| && values[i].Some? ==> Fill(values, last, fallback)[i] == values[i].value
  {
    if values != [] {
      FillShape(values[1..], if values[0].Some? then values[0] else last, fallback);
      assert forall i :: 1 <= i < |values| ==> values[i] == values[1..][i - 1];
    }
  }

  /** The observation a gap is filled from: the last one before it, if there is one. */
  ghost predicate LastBefore(values: seq<Option<real>>, i: nat, j: nat)
    requires i <= |values|
  {
    j < i && values[j].Some? && forall k :: j < k < i ==> values[k].None?
  }

  /** A gap takes the last observation before it; with none before it, the value carried in, or else the fallback. */
  lemma {:induction false} GapsCarryForward(values: seq<Option<real>>, last: Option<real>, fallback: real, i: nat)
    requires i < |values| && values[i].None?
    ensures |Fill(values, last, fallback)| == |values|
    ensures forall j: nat :: LastBefore(values, i, j) ==> Fill(values, last, fallback)[i] == values[j].value
    ensures (forall k :: 0 <= k < i ==> values[k].None?) ==>
              Fill(values, last, fallback)[i] == if last.Some? then last.value else fallback
  {
    FillShape(values, last, fallback);
    if i > 0 {
      var tail, next := values[1..], if values[0].Some? then values[0] else last;
      GapsCarryForward(tail, next, fallback, i - 1);
      assert forall k :: 1 <= k < |values| ==> values[k] == tail[k - 1];
      forall j: nat | LastBefore(values, i, j)
        ensures Fill(values, last, fallback)[i] == values[j].value
      {
        if j > 0 {
          assert LastBefore(tail, i - 1, j - 1);
        }
      }
    }
  }

  ghost function Gaps(window: seq<Option<real>>): set<int> {
    set i | 0 <= i < |window| && window[i].None?
  }

  /** Observations stay in place, and gaps take the last one before them, or the median when there is none. */
  ghost predicate FillsGaps(window: seq<Option<real>>, filled: seq<real>) {
    && |filled| == |window|
    && (forall i :: 0 <= i < |window| && window[i].Some? ==> filled[i] == window[i].value)
    && (forall i: nat, j: nat :: i < |window| && window[i].None? && LastBefore(window, i, j) ==>
          filled[i] == window[j].value)
    && (Observed(window) != [] ==>
          forall i :: 0 <= i < |window| && (forall k :: 0 <= k <= i ==> window[k].None?) ==>
            filled[i] == Median(Observed(window)))
  }

  lemma FillFillsGaps(window: seq<Option<real>>)
    requires Observed(window) != []
    ensures FillsGaps(window, Fill(window, None, Median(Observed(window))))
  {
    hide Fill, Observed, Median;
    var fallback := Median(Observed(window));
    FillShape(window, None, fallback);
    forall i: nat | i < |window| && window[i].None?
      ensures forall j: nat :: LastBefore(window, i, j) ==> Fill(window, None, fallback)[i] == window[j].value
      ensures (forall k :: 0 <= k <= i ==> window[k].None?) ==> Fill(window, None, fallback)[i] == fallback
    {
      GapsCarryForward(window, None, fallback, i);
    }
  }

  lemma {:induction false} MissingAppend(front: seq<Option<real>>, last: Option<real>)
    ensures Missing(front + [last]) == Missing(front) + (if last.None? then 1 else 0)
  {
    if front == [] {
      assert front + [last] == [last] && [last][1..] == [];
    } else {
      MissingAppend(front[1..], last);
      assert (front + [last])[1..] == front[1..] + [last];
    }
  }

  lemma GapsAppend(front: seq<Option<real>>, last: Option<real>)
    ensures |Gaps(front + [last])| == |Gaps(front)| + (if last.None? then 1 else 0)
  {
    var n := |front|;
    assert n !in Gaps(front);
    assert Gaps(front + [last]) == Gaps(front) + (if last.None? then {n} else {});
  }

  lemma {:induction false} MissingCountsGaps(window: seq<Option<real>>)
    ensures Missing(window) == |Gaps(window)|
  {
    hide Missing, Gaps;
    if window == [] {
      NoGaps();
    } else {
      var front, last := window[..|window| - 1], window[|window| - 1];
      assert window == front + [last];
      MissingAppend(front, last);
      GapsAppend(front, last);
      MissingCountsGaps(front);
    }
  }

  lemma NoGaps()
    ensures Missing([]) == |Gaps([])| == 0
  {
  }

  lemma {:induction false} ObservedSome(values: seq<Option<real>>)
    ensures Observed(values) != [] <==> exists i :: 0 <= i < |values| && values[i].Some?
  {
    if values != [] {
      ObservedSome(values[1..]);
      assert forall i :: 1 <= i < |values| ==> values[i] == values[1..][i - 1];
      if values[0].None? && Observed(values) != [] {
        var i :| 0 <= i < |values[1..]| && values[1..][i].Some?;
        assert values[i + 1].Some?;
      }
    }
  }

  lemma ImputedMeans(values: seq<Option<real>>)
    ensures var r := Imputed(values);
            && (r.Ok? <==> exists i :: |values| - MAX_CONTEXT <= i < |values| && i >= 0 && values[i].Some?)
            && (r.Ok? ==>
                  && |r.value.0| == (if |values| > MAX_CONTEXT then MAX_CONTEXT else |values|)
                  && FillsGaps(Window(values), r.value.0) && r.value.1 == |Gaps(Window(values))|)
  {
    hide Fill, Observed, Median, FillsGaps, Missing;
    var window := Window(values);
    var skipped := |values| - |window|;
    assert forall i :: 0 <= i < |window| ==> window[i] == values[skipped + i];
    ObservedSome(window);
    WindowSees(values);
    MissingCountsGaps(window);
    if Observed(window) != [] {
      FillFillsGaps(window);
      FillShape(window, None, Median(Observed(window)));
    }
  }

  lemma WindowSees(values: seq<Option<real>>)
    ensures (exists i :: 0 <= i < |Window(values)| && Window(values)[i].Some?)
       <==> (exists i :: |values| - MAX_CONTEXT <= i < |values| && i >= 0 && values[i].Some?)
  {
    var window := Window(values);
    var skipped := |values| - |window|;
    assert forall i :: 0 <= i < |window| ==> window[i] == values[skipped + i];
    if i :| |values| - MAX_CONTEXT <= i < |values| && i >= 0 && values[i].Some? {
      assert window[i - skipped].Some?;
    }
  }

  // The robust-drift provider.

  function Differences(s: seq<real>): seq<real> {
    if |s| < 2 then [] else [s[1] - s[0]] + Differences(s[1..])
  }

  function LastOf<T>(s: seq<T>, n: nat): seq<T> {
    if |s| > n then s[|s| - n..] else s
  }

  function Slope(values: seq<real>): real {
    if |values| < 2 then 0.0
    else
      var slopes := Differences(LastOf(values, 64));
      if slopes != [] then Median(slopes) else 0.0
  }

  function Deviations(s: seq<real>, center: real): seq<real> {
    if s == [] then [] else [Abs(s[0] - center)] + Deviations(s[1..], center)
  }

  function Scale(values: seq<real>): real
    requires values != []
  {
    DeviationsLength(values, Median(values));
    var mad := Median(Deviations(values, Median(values)));
    if 1.4826 * mad > 0.000000001 then 1.4826 * mad else 0.000000001
  }

  lemma DeviationsLength(s: seq<real>, center: real)
    ensures |Deviations(s, center)| == |s|
  {
  }

  function Logit(q: real, lib: MathLib): real
    requires 0.0 < q < 1.0
  {
    lib.log(q / (1.0 - q)) / 1.7
  }

  function ValueAt(median: real, spread: real, level: real, lib: MathLib): real
    requires 0.0 < level < 1.0
  {
    median + Logit(level, lib) * spread
  }

  function StepMedian(anchor: real, slope: real, step: nat): real {
    anchor + slope * step as real
  }

  function StepSpread(scale: real, step: nat, lib: MathLib): real {
    scale * lib.sqrt(step as real)
  }

  /** One output row: the value median + z(q) * spread under each quantile. */
  function DriftRow(median: real, spread: real, qs: seq<Quantile>, lib: MathLib): map<real, real>
    requires LevelsOk(qs)
  {
    if qs == [] then map[]
    else
      var q := qs[|qs| - 1].level;
      DriftRow(median, spread, qs[..|qs| - 1], lib)[q := ValueAt(median, spread, q, lib)]
  }

  function DriftRows(anchor: real, slope: real, scale: real, horizon: nat, qs: seq<Quantile>, lib: MathLib)
    : seq<map<real, real>>
    requires LevelsOk(qs)
  {
    if horizon == 0 then []
    else DriftRows(anchor, slope, scale, horizon - 1, qs, lib)
         + [DriftRow(StepMedian(anchor, slope, horizon), StepSpread(scale, horizon, lib), qs, lib)]
  }

  function DriftForecast(values: seq<real>, horizon: nat, qs: seq<Quantile>, lib: MathLib): seq<map<real, real>>
    requires values != [] && LevelsOk(qs)
  {
    DriftRows(values[|values| - 1], Slope(values), Scale(LastOf(values, 256)), horizon, qs, lib)
  }

  method ForecastDrift(values: seq<real>, horizon: nat, qs: seq<Quantile>, lib: MathLib)
    returns (output: seq<map<real, real>>)
    requires values != [] && LevelsOk(qs)
    ensures output == DriftForecast(values, horizon, qs, lib)
  {
    var slope := Slope(values);
    var scale := Scale(LastOf(values, 256));
    var anchor := values[|values| - 1];
    output := [];
    for step := 1 to horizon + 1
      invariant output == DriftRows(anchor, slope, scale, step - 1, qs, lib)
    {
      var row := DriftStep(StepMedian(anchor, slope, step), StepSpread(scale, step, lib), qs, lib);
      output := output + [row];
    }
  }

  method DriftStep(median: real, spread: real, qs: seq<Quantile>, lib: MathLib) returns (row: map<real, real>)
    requires LevelsOk(qs)
    ensures row == DriftRow(median, spread, qs, lib)
  {
    row := map[];
    for i := 0 to |qs|
      invariant row == DriftRow(median, spread, qs[..i], lib)
    {
      assert qs[..i + 1][..i] == qs[..i] && qs[..i + 1][i] == qs[i];
      var q := qs[i].level;
      row := row[q := ValueAt(median, spread, q, lib)];
    }
    assert qs[..|qs|] == qs;
  }

  function RobustDrift(lib: MathLib): Provider {
    Provider("szl.robust-drift/v1",
             (values: seq<real>, horizon: nat, qs: seq<Quantile>) =>
               if values != [] && LevelsOk(qs) then DriftForecast(values, horizon, qs, lib) else [])
  }

  // The governed run.

  predicate IsBlank(s: string) {
    forall i :: 0 <= i < |s| ==> s[i] in " \t\n\r"
  }

  predicate Sorted(s: seq<real>) {
    forall i, j :: 0 <= i < j < |s| ==> s[i] <= s[j]
  }

  predicate RowHas(row: map<real, real>, qs: seq<Quantile>) {
    forall i :: 0 <= i < |qs| ==> qs[i].level in row
  }

  function RowValues(row: map<real, real>, qs: seq<Quantile>): seq<real>
    requires RowHas(row, qs)
  {
    seq(|qs|, i requires 0 <= i < |qs| => row[qs[i].level])
  }

  function Normalized(row: map<real, real>, qs: seq<Quantile>): map<string, real>
    requires RowHas(row, qs)
  {
    if qs == [] then map[]
    else Normalized(row, qs[..|qs| - 1])[qs[|qs| - 1].key := row[qs[|qs| - 1].level]]
  }

  function CheckRow(row: map<real, real>, qs: seq<Quantile>): Result<map<string, real>> {
    if !RowHas(row, qs) then Err("provider omitted quantile")
    else if !Sorted(RowValues(row, qs)) then Err("provider returned crossing quantiles")
    else Ok(Normalized(row, qs))
  }

  /** The points of the first n rows, or the first row's error. */
  function CheckRows(rows: seq<map<real, real>>, qs: seq<Quantile>, n: nat): Result<seq<Point>>
    requires n <= |rows|
  {
    if n == 0 then Ok([])
    else
      var before := CheckRows(rows, qs, n - 1);
      if before.Err? then before
      else
        var row := CheckRow(rows[n - 1], qs);
        if row.Err? then Err(row.error) else Ok(before.value + [Point(n, row.value)])
  }

  function RunForecast(request: Request, provider: Provider, digest: seq<Point> -> string): Result<Forecast> {
    if IsBlank(request.signalId) then Err("signal_id is required")
    else if request.horizon < 1 || request.horizon > 1024 then Err("horizon must be between 1 and 1024")
    else
      var quantiles := ValidateQuantiles(request.quantiles);
      if quantiles.Err? then Err(quantiles.error)
      else
        var context := Imputed(request.values);
        if context.Err? then Err(context.error)
        else
          var (values, imputed) := context.value;
          var raw := provider.forecast(values, request.horizon, quantiles.value);
          if |raw| != request.horizon then Err("provider returned an unexpected number of forecast steps")
          else
            var points := CheckRows(raw, quantiles.value, |raw|);
            if points.Err? then Err(points.error)
            else Ok(Forecast(points.value, ReceiptFor(request, provider.name, values, imputed, digest(points.value))))
  }

  function ReceiptFor(request: Request, provider: string, values: seq<real>, imputed: nat, output: string): Receipt {
    Receipt(CONTRACT_VERSION, request.signalId, provider, |values|, imputed, request.horizon, request.quantiles,
            output, |request.values|, if |request.values| > |values| then |request.values| - |values| else 0)
  }

  method Run(request: Request, provider: Provider, digest: seq<Point> -> string) returns (r: Result<Forecast>)
    ensures r == RunForecast(request, provider, digest)
  {
    hide Imputed, ReceiptFor, CheckRow;
    if IsBlank(request.signalId) {
      return Err("signal_id is required");
    }
    if request.horizon < 1 || request.horizon > 1024 {
      return Err("horizon must be between 1 and 1024");
    }
    var quantiles := ValidateQuantiles(request.quantiles);
    if quantiles.Err? {
      return Err(quantiles.error);
    }
    QuantilesAccepted(request.quantiles);
    var qs := quantiles.value;
    var context := Impute(request.values);
    if context.Err? {
      return Err(context.error);
    }
    var (values, imputed) := context.value;
    var raw := provider.forecast(values, request.horizon, qs);
    if |raw| != request.horizon {
      return Err("provider returned an unexpected number of forecast steps");
    }
    var points: seq<Point> := [];
    for step := 0 to |raw|
      invariant CheckRows(raw, qs, step) == Ok(points)
    {
      var row := CheckRowLoop(raw[step], qs);
      if row.Err? {
        ErrorPersists(raw, qs, step + 1, |raw|);
        return Err(row.error);
      }
      points := points + [Point(step + 1, row.value)];
    }
    return Ok(Forecast(points, ReceiptFor(request, provider.name, values, imputed, digest(points))));
  }

  method CheckRowLoop(row: map<real, real>, qs: seq<Quantile>) returns (r: Result<map<string, real>>)
    ensures r == CheckRow(row, qs)
  {
    var observed: seq<real> := [];
    var normalized: map<string, real> := map[];
    for i := 0 to |qs|
      invariant RowHas(row, qs[..i])
      invariant observed == RowValues(row, qs[..i]) && normalized == Normalized(row, qs[..i])
    {
      assert qs[..i + 1][..i] == qs[..i];
      var q := qs[i].level;
      if q !in row {
        return Err("provider omitted quantile");
      }
      observed := observed + [row[q]];
      normalized := normalized[qs[i].key := row[q]];
    }
    assert qs[..|qs|] == qs;
    if !Sorted(observed) {
      return Err("provider returned crossing quantiles");
    }
    return Ok(normalized);
  }

  lemma {:induction false} ErrorPersists(rows: seq<map<real, real>>, qs: seq<Quantile>, m: nat, n: nat)
    requires m <= n <= |rows| && CheckRows(rows, qs, m).Err?
    ensures CheckRows(rows, qs, n) == CheckRows(rows, qs, m)
    decreases n - m
  {
    if m < n {
      ErrorPersists(rows, qs, m, n - 1);
    }
  }

  // What an accepted forecast contains.

  function KeySet(qs: seq<Quantile>): set<string> {
    set q | q in qs :: q.key
  }

  lemma {:induction false} NormalizedKeys(row: map<real, real>, qs: seq<Quantile>)
    requires RowHas(row, qs)
    ensures Normalized(row, qs).Keys == KeySet(qs)
  {
    if qs != [] {
      var front, last := qs[..|qs| - 1], qs[|qs| - 1];
      assert qs == front + [last];
      NormalizedKeys(row, front);
      assert KeySet(qs) == KeySet(front) + {last.key};
    }
  }

  /** Distinct quantiles keep distinct keys, so normalizing a row loses no value. */
  lemma {:induction false} NormalizedKeepsRow(row: map<real, real>, qs: seq<Quantile>, i: nat)
    requires RowHas(row, qs) && StrictlyIncreasing(qs) && Faithful(qs) && i < |qs|
    ensures qs[i].key in Normalized(row, qs) && Normalized(row, qs)[qs[i].key] == row[qs[i].level]
  {
    var n := |qs| - 1;
    if i < n {
      var front := qs[..n];
      assert Faithful(front) && front[i] == qs[i];
      NormalizedKeepsRow(row, front, i);
      assert qs[i].key != qs[n].key;
    }
  }

  /** The point carries exactly the receipt's quantile keys, with non-crossing values. */
  ghost predicate PointOk(p: Point, step: int, qs: seq<Quantile>) {
    && p.step == step
    && p.quantiles.Keys == KeySet(qs)
    && (forall i :: 0 <= i < |qs| ==> qs[i].key in p.quantiles)
    && (forall i, j :: 0 <= i < j < |qs| ==> p.quantiles[qs[i].key] <= p.quantiles[qs[j].key])
  }

  lemma CheckedRowOk(row: map<real, real>, qs: seq<Quantile>, step: int)
    requires StrictlyIncreasing(qs) && Faithful(qs) && CheckRow(row, qs).Ok?
    ensures PointOk(Point(step, CheckRow(row, qs).value), step, qs)
  {
    NormalizedKeys(row, qs);
    var vs := RowValues(row, qs);
    forall i | 0 <= i < |qs|
      ensures qs[i].key in Normalized(row, qs) && Normalized(row, qs)[qs[i].key] == vs[i]
    {
      NormalizedKeepsRow(row, qs, i);
    }
  }

  lemma {:induction false} CheckedPointsOk(rows: seq<map<real, real>>, qs: seq<Quantile>, n: nat)
    requires n <= |rows| && StrictlyIncreasing(qs) && Faithful(qs) && CheckRows(rows, qs, n).Ok?
    ensures |CheckRows(rows, qs, n).value| == n
    ensures forall t :: 0 <= t < n ==> PointOk(CheckRows(rows, qs, n).value[t], t + 1, qs)
  {
    if n > 0 {
      CheckedPointsOk(rows, qs, n - 1);
      CheckedRowOk(rows[n - 1], qs, n);
    }
  }

  /** Every forecast the governed run returns is complete, ordered, keyed by its receipt and digest-bound. */
  ghost predicate ForecastOk(f: Forecast, digest: seq<Point> -> string) {
    && f.receipt.contract == CONTRACT_VERSION
    && QuantilesOk(f.receipt.quantiles)
    && 1 <= f.receipt.horizon <= 1024
    && |f.points| == f.receipt.horizon
    && f.receipt.outputSha256 == digest(f.points)
    && forall t :: 0 <= t < |f.points| ==> PointOk(f.points[t], t + 1, f.receipt.quantiles)
  }

  lemma RunYieldsOkForecast(request: Request, provider: Provider, digest: seq<Point> -> string)
    requires Faithful(request.quantiles) && RunForecast(request, provider, digest).Ok?
    ensures ForecastOk(RunForecast(request, provider, digest).value, digest)
  {
    QuantilesAccepted(request.quantiles);
    var values := Imputed(request.values).value.0;
    var raw := provider.forecast(values, request.horizon, request.quantiles);
    CheckedPointsOk(raw, request.quantiles, |raw|);
  }

  // The built-in provider never fails a valid request.

  predicate RequestOk(request: Request) {
    && !IsBlank(request.signalId)
    && 1 <= request.horizon <= 1024
    && QuantilesOk(request.quantiles)
    && Observed(Window(request.values)) != []
  }

  lemma QuotientOrder(x: real, y: real, a: real, b: real)
    requires 0.0 < x < y && 0.0 < b < a
    ensures 0.0 < x / a < y / b
  {
    var u, v := x / a, y / b;
    assert u * a == x && v * b == y;
    assert u > 0.0 && v > 0.0;
    assert v * b < v * a;
    if u >= v {
      ProductOrder(v, u, a);
    }
  }

  lemma ProductOrder(x: real, y: real, c: real)
    requires x <= y && c > 0.0
    ensures x * c <= y * c
  {
  }

  lemma LogitIncreases(p: real, q: real, lib: MathLib)
    requires MathLaws(lib) && 0.0 < p < q < 1.0
    ensures Logit(p, lib) < Logit(q, lib)
  {
    QuotientOrder(p, q, 1.0 - p, 1.0 - q);
  }

  lemma {:induction false} DriftRowValues(median: real, spread: real, qs: seq<Quantile>, lib: MathLib)
    requires StrictlyIncreasing(qs) && LevelsOk(qs)
    ensures RowHas(DriftRow(median, spread, qs, lib), qs)
    ensures forall i :: 0 <= i < |qs| ==>
              DriftRow(median, spread, qs, lib)[qs[i].level] == ValueAt(median, spread, qs[i].level, lib)
  {
    if qs != [] {
      DriftRowValues(median, spread, qs[..|qs| - 1], lib);
      assert forall i :: 0 <= i < |qs| - 1 ==> qs[i] == qs[..|qs| - 1][i];
    }
  }

  /** A drift row is complete and non-crossing, whatever its median, as long as its spread is positive. */
  lemma DriftRowChecks(median: real, spread: real, qs: seq<Quantile>, lib: MathLib)
    requires MathLaws(lib) && StrictlyIncreasing(qs) && LevelsOk(qs) && spread > 0.0
    ensures CheckRow(DriftRow(median, spread, qs, lib), qs).Ok?
  {
    DriftRowValues(median, spread, qs, lib);
    var row := DriftRow(median, spread, qs, lib);
    forall i, j | 0 <= i < j < |qs|
      ensures row[qs[i].level] <= row[qs[j].level]
    {
      LogitIncreases(qs[i].level, qs[j].level, lib);
      ProductOrder(Logit(qs[i].level, lib), Logit(qs[j].level, lib), spread);
    }
  }

  lemma {:induction false} DriftRowsCheck(anchor: real, slope: real, scale: real, horizon: nat,
                                          qs: seq<Quantile>, lib: MathLib)
    requires MathLaws(lib) && StrictlyIncreasing(qs) && LevelsOk(qs) && scale > 0.0
    ensures |DriftRows(anchor, slope, scale, horizon, qs, lib)| == horizon
    ensures CheckRows(DriftRows(anchor, slope, scale, horizon, qs, lib), qs, horizon).Ok?
  {
    if horizon > 0 {
      DriftRowsCheck(anchor, slope, scale, horizon - 1, qs, lib);
      var before := DriftRows(anchor, slope, scale, horizon - 1, qs, lib);
      var median, spread := StepMedian(anchor, slope, horizon), StepSpread(scale, horizon, lib);
      ProductPositive(scale, lib.sqrt(horizon as real));
      DriftRowChecks(median, spread, qs, lib);
      var row := DriftRow(median, spread, qs, lib);
      RowsPrefix(before, [row], qs, horizon - 1);
    }
  }

  lemma ProductPositive(x: real, y: real)
    requires x > 0.0 && y > 0.0
    ensures x * y > 0.0
  {
  }

  lemma {:induction false} RowsPrefix(rows: seq<map<real, real>>, more: seq<map<real, real>>, qs: seq<Quantile>, n: nat)
    requires n <= |rows|
    ensures CheckRows(rows + more, qs, n) == CheckRows(rows, qs, n)
  {
    if n > 0 {
      RowsPrefix(rows, more, qs, n - 1);
    }
  }

  /** The built-in provider serves exactly the valid requests. */
  lemma DriftServesEveryValidRequest(request: Request, lib: MathLib, digest: seq<Point> -> string)
    requires MathLaws(lib)
    ensures RunForecast(request, RobustDrift(lib), digest).Ok? <==> RequestOk(request)
  {
    QuantilesAccepted(request.quantiles);
    ImputedShape(request.values);
    if RequestOk(request) {
      DriftForecastChecks(Imputed(request.values).value.0, request.horizon, request.quantiles, lib);
    }
  }

  lemma ImputedShape(values: seq<Option<real>>)
    ensures Imputed(values).Ok? <==> Observed(Window(values)) != []
    ensures Imputed(values).Ok? ==> |Imputed(values).value.0| == |Window(values)| > 0
  {
    if values != [] && Observed(Window(values)) != [] {
      FillShape(Window(values), None, Median(Observed(Window(values))));
    }
  }

  lemma DriftForecastChecks(values: seq<real>, horizon: nat, qs: seq<Quantile>, lib: MathLib)
    requires MathLaws(lib) && QuantilesOk(qs) && values != []
    ensures var raw := RobustDrift(lib).forecast(values, horizon, qs);
            |raw| == horizon && CheckRows(raw, qs, horizon).Ok?
  {
    ScalePositive(LastOf(values, 256));
    DriftRowsCheck(values[|values| - 1], Slope(values), Scale(LastOf(values, 256)), horizon, qs, lib);
  }

  lemma ScalePositive(values: seq<real>)
    requires values != []
    ensures Scale(values) > 0.0
  {
  }
}
