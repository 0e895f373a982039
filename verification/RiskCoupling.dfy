/**
The upper end of the horizon bracket is attained: steps can be coupled so that
their breaches overlap only when there is no room left to keep them apart.
*/
module RiskCoupling {
  import opened Decimals
  import opened ForecastLoom
  import opened ForecastRisk
  import opened RiskBounds

  /** North-west-corner coupling of two lists of equal mass: paths are concatenated, weights split. */
  function Couple(a: seq<Outcome>, b: seq<Outcome>): seq<Outcome>
    decreases |a| + |b|
  {
    if a == [] || b == [] then []
    else if a[0].weight <= b[0].weight then
      [Outcome(a[0].weight, a[0].path + b[0].path)] + Couple(a[1..], Reduced(b, a[0].weight))
    else
      [Outcome(b[0].weight, a[0].path + b[0].path)] + Couple(Reduced(a, b[0].weight), b[1..])
  }

  /** The same list with w taken off its first weight. */
  function Reduced(d: seq<Outcome>, w: real): (r: seq<Outcome>)
    requires d != []
    ensures |r| == |d|
  {
    [Outcome(d[0].weight - w, d[0].path)] + d[1..]
  }

  lemma ReducedMass(d: seq<Outcome>, w: real, length: nat, e: Event)
    requires d != [] && Weighted(d, length) && w <= d[0].weight
    ensures Weighted(Reduced(d, w), length)
    ensures Mass(Reduced(d, w), e) == Mass(d, e) - (if Holds(e, d[0].path) then w else 0.0)
  {
    assert d[0] in d && forall o :: o in d[1..] ==> o in d;
    assert Reduced(d, w)[1..] == d[1..];
  }

  lemma TailMass(d: seq<Outcome>, length: nat, e: Event)
    requires d != [] && Weighted(d, length)
    ensures Weighted(d[1..], length) && d[0].weight >= 0.0 && |d[0].path| == length
    ensures Mass(d[1..], e) == Mass(d, e) - (if Holds(e, d[0].path) then d[0].weight else 0.0)
  {
    assert d[0] in d && forall o :: o in d[1..] ==> o in d;
  }

  /** e on a coupled path says what f says on its left part. */
  ghost predicate ReadsLeft(e: Event, f: Event, n: nat) {
    forall p: seq<real>, q: seq<real> :: |p| == n && |q| == 1 ==> (Holds(e, p + q) <==> Holds(f, p))
  }

  ghost predicate ReadsRight(e: Event, f: Event, n: nat) {
    forall p: seq<real>, q: seq<real> :: |p| == n && |q| == 1 ==> (Holds(e, p + q) <==> Holds(f, q))
  }

  ghost predicate Coupled(a: seq<Outcome>, b: seq<Outcome>, n: nat) {
    Weighted(a, n) && Weighted(b, 1) && Mass(a, Sure) == Mass(b, Sure)
  }

  /** One unfolding of the coupling: the cell it emits and the two lists it continues with. */
  lemma CoupleStep(a: seq<Outcome>, b: seq<Outcome>, n: nat) returns (w: real, a': seq<Outcome>, b': seq<Outcome>)
    requires a != [] && b != [] && Coupled(a, b, n)
    ensures 0.0 <= w && |a'| + |b'| < |a| + |b| && Coupled(a', b', n)
    ensures |a[0].path| == n && |b[0].path| == 1
    ensures Couple(a, b) == [Outcome(w, a[0].path + b[0].path)] + Couple(a', b')
    ensures a' == a[1..] || a' == Reduced(a, w)
    ensures b' == b[1..] || b' == Reduced(b, w)
    ensures forall e :: Mass(a', e) == Mass(a, e) - (if Holds(e, a[0].path) then w else 0.0)
    ensures forall e :: Mass(b', e) == Mass(b, e) - (if Holds(e, b[0].path) then w else 0.0)
  {
    TailMass(a, n, Sure);
    TailMass(b, 1, Sure);
    if a[0].weight <= b[0].weight {
      w, a', b' := a[0].weight, a[1..], Reduced(b, a[0].weight);
      forall e
        ensures Mass(a', e) == Mass(a, e) - (if Holds(e, a[0].path) then w else 0.0)
        ensures Mass(b', e) == Mass(b, e) - (if Holds(e, b[0].path) then w else 0.0)
      {
        TailMass(a, n, e);
        ReducedMass(b, w, 1, e);
      }
    } else {
      w, a', b' := b[0].weight, Reduced(a, b[0].weight), b[1..];
      forall e
        ensures Mass(a', e) == Mass(a, e) - (if Holds(e, a[0].path) then w else 0.0)
        ensures Mass(b', e) == Mass(b, e) - (if Holds(e, b[0].path) then w else 0.0)
      {
        ReducedMass(a, w, n, e);
        TailMass(b, 1, e);
      }
    }
  }

  lemma CellMass(w: real, path: seq<real>, rest: seq<Outcome>, e: Event)
    ensures Mass([Outcome(w, path)] + rest, e) == (if Holds(e, path) then w else 0.0) + Mass(rest, e)
  {
    assert ([Outcome(w, path)] + rest)[1..] == rest;
  }

  lemma {:induction false} CoupleKeepsLeft(a: seq<Outcome>, b: seq<Outcome>, n: nat, e: Event, f: Event)
    requires Coupled(a, b, n) && ReadsLeft(e, f, n)
    ensures Mass(Couple(a, b), e) == Mass(a, f)
    decreases |a| + |b|
  {
    if a != [] && b != [] {
      var w, a', b' := CoupleStep(a, b, n);
      CoupleKeepsLeft(a', b', n, e, f);
      CellMass(w, a[0].path + b[0].path, Couple(a', b'), e);
    } else {
      MassIsNonNegative(a, n, f);
    }
  }

  lemma {:induction false} CoupleKeepsRight(a: seq<Outcome>, b: seq<Outcome>, n: nat, e: Event, f: Event)
    requires Coupled(a, b, n) && ReadsRight(e, f, n)
    ensures Mass(Couple(a, b), e) == Mass(b, f)
    decreases |a| + |b|
  {
    if a != [] && b != [] {
      var w, a', b' := CoupleStep(a, b, n);
      CoupleKeepsRight(a', b', n, e, f);
      CellMass(w, a[0].path + b[0].path, Couple(a', b'), e);
    } else {
      MassIsNonNegative(b, 1, f);
    }
  }

  lemma {:induction false} CoupleIsWeighted(a: seq<Outcome>, b: seq<Outcome>, n: nat)
    requires Coupled(a, b, n)
    ensures Weighted(Couple(a, b), n + 1)
    decreases |a| + |b|
  {
    if a != [] && b != [] {
      var w, a', b' := CoupleStep(a, b, n);
      CoupleIsWeighted(a', b', n);
    }
  }

  /** Outcomes whose answer to e is `first` come before all the others. */
  ghost predicate Ordered(d: seq<Outcome>, e: Event, first: bool) {
    forall i, j :: 0 <= i < j < |d| && Holds(e, d[i].path) != first ==> Holds(e, d[j].path) != first
  }

  lemma OrderedTail(d: seq<Outcome>, e: Event, first: bool, w: real)
    requires d != [] && Ordered(d, e, first)
    ensures Ordered(d[1..], e, first) && Ordered(Reduced(d, w), e, first)
  {
    assert forall i :: 0 <= i < |d| ==> Reduced(d, w)[i].path == d[i].path;
    assert forall i :: 0 <= i < |d| - 1 ==> d[1..][i] == d[i + 1];
  }

  lemma {:induction false} UniformMass(d: seq<Outcome>, length: nat, e: Event, all: bool)
    requires Weighted(d, length) && forall i :: 0 <= i < |d| ==> Holds(e, d[i].path) == all
    ensures Mass(d, e) == if all then Mass(d, Sure) else 0.0
  {
    if d != [] {
      assert forall o :: o in d[1..] ==> o in d;
      UniformMass(d[1..], length, e, all);
    }
  }

  lemma LeadMass(d: seq<Outcome>, length: nat, e: Event, first: bool)
    requires d != [] && Weighted(d, length) && Ordered(d, e, first) && Holds(e, d[0].path) != first
    ensures Mass(d, e) == if first then 0.0 else Mass(d, Sure)
  {
    UniformMass(d, length, e, !first);
  }

  function Positive(x: real): real {
    if x > 0.0 then x else 0.0
  }

  /**
  Coupling safe-first with breach-first: the mass in which neither breaches is
  what the second list's breaches cannot cover.
  */
  lemma {:induction false} CoupleSpreadsBreaches(a: seq<Outcome>, b: seq<Outcome>, n: nat, k: Kind)
    requires Coupled(a, b, n) && Ordered(a, Within(n, k), false) && Ordered(b, At(0, k), true)
    ensures Mass(Couple(a, b), Within(n + 1, k))
         == Mass(a, Sure) - Positive(Mass(a, Sure) - Mass(a, Within(n, k)) - Mass(b, At(0, k)))
    decreases |a| + |b|
  {
    hide Holds, Ordered, Weighted;
    MassIsNonNegative(a, n, Within(n, k));
    MassIsNonNegative(b, 1, At(0, k));
    if a != [] && b != [] {
      var w, a', b' := CoupleStep(a, b, n);
      OrderedTail(a, Within(n, k), false, w);
      OrderedTail(b, At(0, k), true, w);
      CoupleSpreadsBreaches(a', b', n, k);
      CellMass(w, a[0].path + b[0].path, Couple(a', b'), Within(n + 1, k));
      WithinCoupled(a[0].path, b[0].path, n, k);
      MassIsNonNegative(a', n, Within(n, k));
      MassIsNonNegative(b', 1, At(0, k));
      var x, y := Holds(Within(n, k), a[0].path), Holds(At(0, k), b[0].path);
      if x {
        LeadMass(a, n, Within(n, k), false);
      }
      if !y {
        LeadMass(b, 1, At(0, k), true);
      }
      assert Holds(Sure, a[0].path) by { AlwaysSure(a[0].path); }
      SpreadStep(Mass(a, Sure), Mass(a, Within(n, k)), Mass(b, At(0, k)), w, x, y);
    }
  }

  lemma AlwaysSure(path: seq<real>)
    ensures Holds(Sure, path)
  {
  }

  lemma SpreadStep(total: real, a: real, b: real, w: real, x: bool, y: bool)
    requires 0.0 <= w && 0.0 <= b && (x ==> a == total) && (!y ==> b == 0.0)
    requires (if x then a - w else a) <= total - w && 0.0 <= (if y then b - w else b)
    ensures (if x || y then w else 0.0)
          + (total - w - Positive(total - w - (if x then a - w else a) - (if y then b - w else b)))
         == total - Positive(total - a - b)
  {
  }

  lemma WithinCoupled(p: seq<real>, q: seq<real>, n: nat, k: Kind)
    requires |p| == n && |q| == 1
    ensures Holds(Within(n + 1, k), p + q) <==> Holds(Within(n, k), p) || Holds(At(0, k), q)
  {
    assert forall t :: 0 <= t < n ==> (p + q)[t] == p[t];
    assert (p + q)[n] == q[0];
    if Holds(Within(n, k), p) {
      var t :| 0 <= t < n && Satisfies(k, p[t]);
      assert Satisfies(k, (p + q)[t]);
    }
    if Holds(At(0, k), q) {
      assert Satisfies(k, (p + q)[n]);
    }
  }

  // Reordering a list without changing any mass.

  ghost function Select(d: seq<Outcome>, e: Event, keep: bool): seq<Outcome> {
    if d == [] then []
    else (if Holds(e, d[0].path) == keep then [d[0]] else []) + Select(d[1..], e, keep)
  }

  lemma {:induction false} SelectFacts(d: seq<Outcome>, e: Event, keep: bool, length: nat)
    requires Weighted(d, length)
    ensures Weighted(Select(d, e, keep), length)
    ensures forall o :: o in Select(d, e, keep) ==> Holds(e, o.path) == keep
  {
    if d != [] {
      assert d[0] in d && forall o :: o in d[1..] ==> o in d;
      SelectFacts(d[1..], e, keep, length);
    }
  }

  lemma {:induction false} SelectMass(d: seq<Outcome>, e: Event, f: Event)
    ensures Mass(Select(d, e, true), f) + Mass(Select(d, e, false), f) == Mass(d, f)
  {
    if d != [] {
      SelectMass(d[1..], e, f);
      CellMass(d[0].weight, d[0].path, Select(d[1..], e, Holds(e, d[0].path)), f);
      assert [Outcome(d[0].weight, d[0].path)] == [d[0]];
      assert forall keep :: [] + Select(d[1..], e, keep) == Select(d[1..], e, keep);
    }
  }

  lemma {:induction false} AppendMass(a: seq<Outcome>, b: seq<Outcome>, e: Event)
    ensures Mass(a + b, e) == Mass(a, e) + Mass(b, e)
  {
    if a == [] {
      assert a + b == b;
    } else {
      assert (a + b)[1..] == a[1..] + b;
      AppendMass(a[1..], b, e);
    }
  }

  lemma Partition(d: seq<Outcome>, length: nat, e: Event, first: bool) returns (p: seq<Outcome>)
    requires Weighted(d, length)
    ensures Weighted(p, length) && Ordered(p, e, first) && forall f :: Mass(p, f) == Mass(d, f)
  {
    var x, y := Select(d, e, first), Select(d, e, !first);
    p := x + y;
    SelectFacts(d, e, first, length);
    SelectFacts(d, e, !first, length);
    forall f
      ensures Mass(p, f) == Mass(d, f)
    {
      AppendMass(x, y, f);
      SelectMass(d, e, f);
    }
    forall i | 0 <= i < |p|
      ensures Holds(e, p[i].path) == (if i < |x| then first else !first)
    {
      assert i < |x| ==> x[i] in x;
      assert i >= |x| ==> y[i - |x|] in y;
    }
  }

  // Building the joint distribution one step at a time.

  lemma CappedSum(s: real, u: real)
    requires 0.0 <= u
    ensures Capped(Capped(s) + u) == Capped(s + u)
    ensures 1.0 - Positive(1.0 - s - u) == Capped(s + u)
  {
  }

  lemma ReadingOldStep(n: nat, t: nat, k: Kind)
    requires t < n
    ensures ReadsLeft(At(t, k), At(t, k), n)
  {
  }

  lemma ReadingNewStep(n: nat, k: Kind)
    ensures ReadsRight(At(n, k), At(0, k), n)
  {
  }

  /** Adding a step with a given marginal, its breaches as disjoint from the earlier ones as possible. */
  lemma Extend(d: seq<Outcome>, m: seq<Outcome>, n: nat, k: Kind) returns (r: seq<Outcome>)
    requires Distribution(d, n) && Distribution(m, 1)
    ensures Distribution(r, n + 1)
    ensures forall t, kind :: 0 <= t < n ==> Mass(r, At(t, kind)) == Mass(d, At(t, kind))
    ensures forall kind :: Mass(r, At(n, kind)) == Mass(m, At(0, kind))
    ensures Mass(r, Within(n + 1, k)) == Capped(Mass(d, Within(n, k)) + Mass(m, At(0, k)))
  {
    hide Holds;
    var a := Partition(d, n, Within(n, k), false);
    var b := Partition(m, 1, At(0, k), true);
    r := Couple(a, b);
    CoupleIsWeighted(a, b, n);
    CoupleKeepsLeft(a, b, n, Sure, Sure) by { SureReadsLeft(n); }
    forall t, kind | 0 <= t < n
      ensures Mass(r, At(t, kind)) == Mass(d, At(t, kind))
    {
      ReadingOldStep(n, t, kind);
      CoupleKeepsLeft(a, b, n, At(t, kind), At(t, kind));
    }
    forall kind
      ensures Mass(r, At(n, kind)) == Mass(m, At(0, kind))
    {
      ReadingNewStep(n, kind);
      CoupleKeepsRight(a, b, n, At(n, kind), At(0, kind));
    }
    CoupleSpreadsBreaches(a, b, n, k);
    MassIsNonNegative(b, 1, At(0, k));
    CappedSum(Mass(d, Within(n, k)), Mass(m, At(0, k)));
  }

  lemma SureReadsLeft(n: nat)
    ensures ReadsLeft(Sure, Sure, n)
  {
  }

  /** Some joint distribution consistent with every step attains the upper end of the horizon bracket. */
  lemma {:induction false} UpperEndIsAttained(rows: seq<Row>, qs: seq<Quantile>, vss: seq<seq<real>>, above: bool,
                                              threshold: real)
    returns (d: seq<Outcome>)
    requires StrictlyIncreasing(qs) && LevelsOk(qs) && RowsFor(rows, qs, vss, above, threshold)
    ensures Distribution(d, |vss|) && Consistent(d, qs, vss)
    ensures Mass(d, Within(|vss|, BreachKind(above, threshold))) == Capped(SumUpper(rows))
    decreases |vss|
  {
    hide Lower, Upper, StrictlyIncreasing, LevelsOk, BreachKind, ConsistentAt, Sorted;
    var k := BreachKind(above, threshold);
    if vss == [] {
      d := [Outcome(1.0, [])];
      NothingWithinZero(d, k);
      assert Mass(d, Sure) == 1.0;
    } else {
      var n := |vss| - 1;
      var before := UpperEndIsAttained(rows[..n], qs, vss[..n], above, threshold);
      var m := BracketIsAttained(qs, vss[n], above, threshold, true);
      d := Extend(before, m, n, k);
      forall t | 0 <= t < n
        ensures ConsistentAt(d, t, qs, vss[t])
      {
        assert vss[..n][t] == vss[t];
        SameMarginal(before, t, d, t, qs, vss[t]);
      }
      SameMarginal(m, 0, d, n, qs, vss[n]);
      MassIsNonNegative(m, 1, At(0, k));
      CappedSum(SumUpper(rows[..n]), rows[n].upper);
    }
  }

  lemma SameMarginal(d: seq<Outcome>, t: nat, r: seq<Outcome>, u: nat, qs: seq<Quantile>, vs: seq<real>)
    requires ConsistentAt(d, t, qs, vs) && forall kind :: Mass(r, At(u, kind)) == Mass(d, At(t, kind))
    ensures ConsistentAt(r, u, qs, vs)
  {
  }

  // The report of a forecast.

  /** The non-crossing quantile values of every step of an accepted forecast. */
  ghost function ForecastValues(f: Forecast, digest: seq<Point> -> string): seq<seq<real>>
    requires ForecastOk(f, digest) && Faithful(f.receipt.quantiles)
  {
    OkPointsHaveKeys(f, digest);
    seq(|f.points|, t requires 0 <= t < |f.points| => PointValues(f.points[t], f.receipt.quantiles))
  }

  /** d gives every step of the forecast marginals whose quantiles are the reported ones. */
  ghost predicate Agrees(d: seq<Outcome>, f: Forecast, digest: seq<Point> -> string)
    requires ForecastOk(f, digest) && Faithful(f.receipt.quantiles)
  {
    Distribution(d, |f.points|) && Consistent(d, f.receipt.quantiles, ForecastValues(f, digest))
  }

  ghost function BreachWithin(d: seq<Outcome>, f: Forecast, rule: Rule): real {
    Mass(d, Within(|f.points|, BreachKind(rule.direction == "above", rule.threshold)))
  }

  ghost function BreachAt(d: seq<Outcome>, t: nat, rule: Rule): real {
    Mass(d, At(t, BreachKind(rule.direction == "above", rule.threshold)))
  }

  lemma ReportRows(f: Forecast, rule: Rule, digest: seq<Point> -> string)
    requires ForecastOk(f, digest) && Faithful(f.receipt.quantiles)
    ensures RowsFor(RiskReport(f, rule, digest).rows, f.receipt.quantiles, ForecastValues(f, digest),
                    rule.direction == "above", rule.threshold)
  {
    hide Lower, Upper;
    OkPointsHaveKeys(f, digest);
    var qs := f.receipt.quantiles;
    forall t | 0 <= t < |f.points|
      ensures Sorted(PointValues(f.points[t], qs))
    {
      assert PointOk(f.points[t], t + 1, qs);
    }
  }

  /** Every step's breach probability lies in its reported bracket. */
  lemma StepBracketsSound(f: Forecast, rule: Rule, digest: seq<Point> -> string, d: seq<Outcome>, t: nat)
    requires ForecastOk(f, digest) && Faithful(f.receipt.quantiles) && Agrees(d, f, digest) && t < |f.points|
    ensures var row := RiskReport(f, rule, digest).rows[t]; row.lower <= BreachAt(d, t, rule) <= row.upper
  {
    hide Lower, Upper, Sorted, RiskReport, ForecastValues;
    ReportRows(f, rule, digest);
    var vss := ForecastValues(f, digest);
    assert |vss| == |f.points| by { ValuesLength(f, digest); }
    BracketIsSound(d, |f.points|, t, f.receipt.quantiles, vss[t], rule.direction == "above", rule.threshold);
  }

  lemma ValuesLength(f: Forecast, digest: seq<Point> -> string)
    requires ForecastOk(f, digest) && Faithful(f.receipt.quantiles)
    ensures |ForecastValues(f, digest)| == |f.points| > 0
  {
  }

  /** No agreeing joint distribution leaves the reported horizon bracket; independence plays no part. */
  lemma HorizonBracketSound(f: Forecast, rule: Rule, digest: seq<Point> -> string, d: seq<Outcome>)
    requires ForecastOk(f, digest) && Faithful(f.receipt.quantiles) && Agrees(d, f, digest)
    ensures var r := RiskReport(f, rule, digest); r.anyLower <= BreachWithin(d, f, rule) <= r.anyUpper
  {
    hide Lower, Upper, Sorted, ForecastValues, StepRows;
    ReportRows(f, rule, digest);
    ValuesLength(f, digest);
    HorizonIsSound(d, RiskReport(f, rule, digest).rows, f.receipt.quantiles, ForecastValues(f, digest),
                   rule.direction == "above", rule.threshold);
  }

  /** The horizon bracket cannot be narrowed: agreeing joint distributions attain both of its ends. */
  lemma HorizonBracketExact(f: Forecast, rule: Rule, digest: seq<Point> -> string)
    returns (least: seq<Outcome>, greatest: seq<Outcome>)
    requires ForecastOk(f, digest) && Faithful(f.receipt.quantiles)
    ensures Agrees(least, f, digest) && BreachWithin(least, f, rule) == RiskReport(f, rule, digest).anyLower
    ensures Agrees(greatest, f, digest) && BreachWithin(greatest, f, rule) == RiskReport(f, rule, digest).anyUpper
  {
    hide Lower, Upper, Sorted, ForecastValues, StepRows;
    ReportRows(f, rule, digest);
    ValuesLength(f, digest);
    var rows, vss := RiskReport(f, rule, digest).rows, ForecastValues(f, digest);
    least := LowerEndIsAttained(rows, f.receipt.quantiles, vss, rule.direction == "above", rule.threshold);
    greatest := UpperEndIsAttained(rows, f.receipt.quantiles, vss, rule.direction == "above", rule.threshold);
  }
}
