/**
What the brackets of a risk window mean.  A distribution over trajectories is a
finite list of weighted paths; it is consistent with a forecast when every
reported value is a quantile of the marginal at its step, atoms included.
*/
module RiskBounds {
  import opened Decimals
  import opened ForecastLoom
  import opened ForecastRisk

  datatype Outcome = Outcome(weight: real, path: seq<real>)

  datatype Kind = Lt(bound: real) | Le(bound: real) | Gt(bound: real)

  /** Something certain, a condition on one step, or a condition on some step before n. */
  datatype Event = Sure | At(t: nat, kind: Kind) | Within(n: nat, kind: Kind)

  predicate Satisfies(k: Kind, x: real) {
    match k
    case Lt(b) => x < b
    case Le(b) => x <= b
    case Gt(b) => x > b
  }

  ghost predicate Holds(e: Event, path: seq<real>) {
    match e
    case Sure => true
    case At(t, k) => t < |path| && Satisfies(k, path[t])
    case Within(n, k) => exists t :: 0 <= t < n && t < |path| && Satisfies(k, path[t])
  }

  ghost function Mass(d: seq<Outcome>, e: Event): real {
    if d == [] then 0.0 else (if Holds(e, d[0].path) then d[0].weight else 0.0) + Mass(d[1..], e)
  }

  /** Non-negative weights on paths of one length. */
  ghost predicate Weighted(d: seq<Outcome>, length: nat) {
    forall o :: o in d ==> o.weight >= 0.0 && |o.path| == length
  }

  ghost predicate Distribution(d: seq<Outcome>, length: nat) {
    Weighted(d, length) && Mass(d, Sure) == 1.0
  }

  /** vs[j] is a qs[j]-quantile of the marginal at step t: P(X < v) <= q <= P(X <= v). */
  ghost predicate ConsistentAt(d: seq<Outcome>, t: nat, qs: seq<Quantile>, vs: seq<real>) {
    && |vs| == |qs|
    && forall j :: 0 <= j < |qs| ==> Mass(d, At(t, Lt(vs[j]))) <= qs[j].level <= Mass(d, At(t, Le(vs[j])))
  }

  function BreachKind(above: bool, threshold: real): Kind {
    if above then Gt(threshold) else Lt(threshold)
  }

  // Masses.

  lemma {:induction false} MassIsMonotone(d: seq<Outcome>, length: nat, e: Event, f: Event)
    requires Weighted(d, length)
    requires forall o :: o in d && Holds(e, o.path) ==> Holds(f, o.path)
    ensures Mass(d, e) <= Mass(d, f)
  {
    if d != [] {
      assert d[0] in d && forall o :: o in d[1..] ==> o in d;
      MassIsMonotone(d[1..], length, e, f);
    }
  }

  lemma {:induction false} MassIsNonNegative(d: seq<Outcome>, length: nat, e: Event)
    requires Weighted(d, length)
    ensures 0.0 <= Mass(d, e) <= Mass(d, Sure)
  {
    if d != [] {
      assert d[0] in d && forall o :: o in d[1..] ==> o in d;
      MassIsNonNegative(d[1..], length, e);
    }
  }

  lemma {:induction false} Complement(d: seq<Outcome>, length: nat, t: nat, v: real)
    requires Weighted(d, length) && t < length
    ensures Mass(d, At(t, Gt(v))) + Mass(d, At(t, Le(v))) == Mass(d, Sure)
  {
    if d != [] {
      assert d[0] in d && forall o :: o in d[1..] ==> o in d;
      Complement(d[1..], length, t, v);
    }
  }

  lemma {:induction false} UnionBound(d: seq<Outcome>, length: nat, n: nat, k: Kind)
    requires Weighted(d, length)
    ensures Mass(d, Within(n + 1, k)) <= Mass(d, Within(n, k)) + Mass(d, At(n, k))
  {
    if d != [] {
      assert d[0] in d && forall o :: o in d[1..] ==> o in d;
      UnionBound(d[1..], length, n, k);
    }
  }

  lemma {:induction false} NothingWithinZero(d: seq<Outcome>, k: Kind)
    ensures Mass(d, Within(0, k)) == 0.0
  {
    if d != [] {
      NothingWithinZero(d[1..], k);
    }
  }

  // Soundness.

  /** Every distribution consistent with one step's quantiles breaches with a probability inside its bracket. */
  lemma BracketIsSound(d: seq<Outcome>, length: nat, t: nat, qs: seq<Quantile>, vs: seq<real>, above: bool,
                       threshold: real)
    requires Distribution(d, length) && t < length && ConsistentAt(d, t, qs, vs)
    requires StrictlyIncreasing(qs) && LevelsOk(qs) && Sorted(vs)
    ensures Lower(qs, vs, above, threshold)
         <= Mass(d, At(t, BreachKind(above, threshold)))
         <= Upper(qs, vs, above, threshold)
  {
    hide Lower, Upper;
    var k := BracketLevels(qs, vs, above, threshold);
    var low := if above then Le(threshold) else Lt(threshold);
    MassIsNonNegative(d, length, At(t, low));
    Complement(d, length, t, threshold);
    if k > 0 {
      MassIsMonotone(d, length, At(t, Le(vs[k - 1])), At(t, low));
    }
    if k < |vs| {
      MassIsMonotone(d, length, At(t, low), At(t, Lt(vs[k])));
    }
  }

  /** The rows of a window over the values vss, one sequence per step. */
  ghost predicate RowsFor(rows: seq<Row>, qs: seq<Quantile>, vss: seq<seq<real>>, above: bool, threshold: real) {
    && |rows| == |vss|
    && forall t :: 0 <= t < |vss| ==>
         && |vss[t]| == |qs| && Sorted(vss[t])
         && rows[t].lower == Lower(qs, vss[t], above, threshold)
         && rows[t].upper == Upper(qs, vss[t], above, threshold)
  }

  ghost predicate Consistent(d: seq<Outcome>, qs: seq<Quantile>, vss: seq<seq<real>>) {
    forall t :: 0 <= t < |vss| ==> ConsistentAt(d, t, qs, vss[t])
  }

  lemma {:induction false} MaxLowerBound(rows: seq<Row>, x: real)
    requires rows != [] && forall t :: 0 <= t < |rows| ==> rows[t].lower <= x
    ensures MaxLower(rows) <= x
  {
    if |rows| > 1 {
      MaxLowerBound(rows[..|rows| - 1], x);
    }
  }

  lemma {:induction false} MaxLowerIsUpperBound(rows: seq<Row>, t: nat)
    requires t < |rows|
    ensures rows[t].lower <= MaxLower(rows)
  {
    if t < |rows| - 1 {
      MaxLowerIsUpperBound(rows[..|rows| - 1], t);
    }
  }

  lemma {:induction false} SumUpperBounds(d: seq<Outcome>, length: nat, rows: seq<Row>, k: Kind)
    requires Distribution(d, length) && |rows| <= length
    requires forall t :: 0 <= t < |rows| ==> Mass(d, At(t, k)) <= rows[t].upper
    ensures Mass(d, Within(|rows|, k)) <= SumUpper(rows)
  {
    if rows == [] {
      NothingWithinZero(d, k);
    } else {
      SumUpperBounds(d, length, rows[..|rows| - 1], k);
      UnionBound(d, length, |rows| - 1, k);
    }
  }

  /** No joint distribution, however dependent its steps, leaves the horizon bracket. */
  lemma HorizonIsSound(d: seq<Outcome>, rows: seq<Row>, qs: seq<Quantile>, vss: seq<seq<real>>, above: bool,
                       threshold: real)
    requires StrictlyIncreasing(qs) && LevelsOk(qs) && RowsFor(rows, qs, vss, above, threshold) && vss != []
    requires Distribution(d, |vss|) && Consistent(d, qs, vss)
    ensures MaxLower(rows) <= Mass(d, Within(|vss|, BreachKind(above, threshold))) <= Capped(SumUpper(rows))
  {
    hide Lower, Upper, StrictlyIncreasing, LevelsOk;
    var k, n := BreachKind(above, threshold), |vss|;
    forall t | 0 <= t < n
      ensures rows[t].lower <= Mass(d, At(t, k)) <= rows[t].upper
      ensures Mass(d, At(t, k)) <= Mass(d, Within(n, k))
    {
      BracketIsSound(d, n, t, qs, vss[t], above, threshold);
      MassIsMonotone(d, n, At(t, k), Within(n, k));
    }
    MaxLowerBound(rows, Mass(d, Within(n, k)));
    SumUpperBounds(d, n, rows, k);
    MassIsNonNegative(d, n, Within(n, k));
  }

  // Staircases: probability q_{i+1} - q_i on the i-th path.

  function Stair(prev: real, qs: seq<Quantile>, paths: seq<seq<real>>): seq<Outcome>
    requires |paths| == |qs| + 1
    decreases qs
  {
    if qs == [] then [Outcome(1.0 - prev, paths[0])]
    else [Outcome(qs[0].level - prev, paths[0])] + Stair(qs[0].level, qs[1..], paths[1..])
  }

  function Cut(prev: real, qs: seq<Quantile>, k: nat): real
    requires k <= |qs| + 1
  {
    if k == 0 then prev else if k <= |qs| then qs[k - 1].level else 1.0
  }

  ghost predicate Ascending(prev: real, qs: seq<Quantile>) {
    StrictlyIncreasing(qs) && LevelsOk(qs) && 0.0 <= prev <= 1.0 && (qs != [] ==> prev < qs[0].level)
  }

  lemma CutStep(prev: real, qs: seq<Quantile>, k: nat)
    requires Ascending(prev, qs) && qs != [] && 1 <= k <= |qs| + 1
    ensures Ascending(qs[0].level, qs[1..])
    ensures Cut(prev, qs, k) == Cut(qs[0].level, qs[1..], k - 1) >= qs[0].level
  {
  }

  lemma {:induction false} StairIsDistribution(prev: real, qs: seq<Quantile>, paths: seq<seq<real>>, length: nat)
    requires |paths| == |qs| + 1 && Ascending(prev, qs) && forall p :: p in paths ==> |p| == length
    ensures Weighted(Stair(prev, qs, paths), length) && Mass(Stair(prev, qs, paths), Sure) == 1.0 - prev
    decreases qs
  {
    if qs != [] {
      CutStep(prev, qs, 1);
      assert forall p :: p in paths[1..] ==> p in paths;
      StairIsDistribution(qs[0].level, qs[1..], paths[1..], length);
      var rest := Stair(qs[0].level, qs[1..], paths[1..]);
      assert ([Outcome(qs[0].level - prev, paths[0])] + rest)[1..] == rest;
    }
  }

  /** An event that holds on the segments lo..hi has at least their probability. */
  lemma {:induction false} StairAtLeast(prev: real, qs: seq<Quantile>, paths: seq<seq<real>>, e: Event, lo: nat,
                                        hi: nat)
    requires |paths| == |qs| + 1 && Ascending(prev, qs) && lo <= hi <= |paths|
    requires forall i :: lo <= i < hi ==> Holds(e, paths[i])
    ensures Mass(Stair(prev, qs, paths), e) >= Cut(prev, qs, hi) - Cut(prev, qs, lo)
    decreases qs
  {
    hide Ascending;
    if qs != [] {
      var next, rest := qs[0].level, Stair(qs[0].level, qs[1..], paths[1..]);
      assert ([Outcome(next - prev, paths[0])] + rest)[1..] == rest;
      CutStep(prev, qs, 1);
      if hi > 0 { CutStep(prev, qs, hi); }
      if lo > 0 { CutStep(prev, qs, lo); }
      StairAtLeast(next, qs[1..], paths[1..], e, if lo > 0 then lo - 1 else 0, if hi > 0 then hi - 1 else 0);
      AscendingHead(prev, qs);
    } else {
      AscendingHead(prev, qs);
    }
  }

  lemma AscendingHead(prev: real, qs: seq<Quantile>)
    requires Ascending(prev, qs)
    ensures if qs == [] then prev <= 1.0 else prev < qs[0].level
  {
  }

  /** An event that fails outside the segments lo..hi has at most their probability. */
  lemma {:induction false} StairAtMost(prev: real, qs: seq<Quantile>, paths: seq<seq<real>>, e: Event, lo: nat, hi: nat)
    requires |paths| == |qs| + 1 && Ascending(prev, qs) && lo <= hi <= |paths|
    requires forall i :: 0 <= i < |paths| && !(lo <= i < hi) ==> !Holds(e, paths[i])
    ensures Mass(Stair(prev, qs, paths), e) <= Cut(prev, qs, hi) - Cut(prev, qs, lo)
    decreases qs
  {
    hide Ascending;
    if qs != [] {
      var next, rest := qs[0].level, Stair(qs[0].level, qs[1..], paths[1..]);
      assert ([Outcome(next - prev, paths[0])] + rest)[1..] == rest;
      CutStep(prev, qs, 1);
      if hi > 0 { CutStep(prev, qs, hi); }
      if lo > 0 { CutStep(prev, qs, lo); }
      StairAtMost(next, qs[1..], paths[1..], e, if lo > 0 then lo - 1 else 0, if hi > 0 then hi - 1 else 0);
      AscendingHead(prev, qs);
    } else {
      AscendingHead(prev, qs);
    }
  }

  /** The value of segment i: each quantile value on its own side of the k-th segment, which sits at c. */
  function Place(vs: seq<real>, k: nat, c: real, i: nat): real
    requires k <= |vs| && i <= |vs|
  {
    if i < k then vs[i] else if i == k then c else vs[i - 1]
  }

  predicate Fits(vs: seq<real>, k: nat, c: real)
    requires k <= |vs|
  {
    (k > 0 ==> vs[k - 1] <= c) && (k < |vs| ==> c <= vs[k])
  }

  /** Any staircase that places its segments around one step's values is consistent with them. */
  lemma StairIsConsistent(qs: seq<Quantile>, vs: seq<real>, k: nat, c: real, paths: seq<seq<real>>, t: nat)
    requires Ascending(0.0, qs) && |vs| == |qs| && |paths| == |qs| + 1 && Sorted(vs) && k <= |vs| && Fits(vs, k, c)
    requires forall i :: 0 <= i < |paths| ==> t < |paths[i]| && paths[i][t] == Place(vs, k, c, i)
    ensures ConsistentAt(Stair(0.0, qs, paths), t, qs, vs)
  {
    hide Ascending;
    forall j | 0 <= j < |qs|
      ensures Mass(Stair(0.0, qs, paths), At(t, Lt(vs[j]))) <= qs[j].level
      ensures qs[j].level <= Mass(Stair(0.0, qs, paths), At(t, Le(vs[j])))
    {
      StairAtLeast(0.0, qs, paths, At(t, Le(vs[j])), 0, j + 1);
      StairAtMost(0.0, qs, paths, At(t, Lt(vs[j])), 0, j + 1);
    }
  }

  /** Where the segment of the threshold goes to attain the upper or the lower end. */
  function Corner(vs: seq<real>, k: nat, above: bool, threshold: real, upper: bool): real
    requires k <= |vs|
  {
    if !upper then threshold
    else if above then (if k < |vs| then vs[k] else threshold + 1.0)
    else if k > 0 then vs[k - 1] else threshold - 1.0
  }

  lemma CornerFits(vs: seq<real>, k: nat, above: bool, threshold: real, upper: bool)
    requires SplitsAt(vs, above, threshold, k) && Sorted(vs)
    ensures Fits(vs, k, Corner(vs, k, above, threshold, upper))
  {
    assert k > 0 ==> Breaches(above, threshold, vs[k - 1]) == !above;
    assert k < |vs| ==> Breaches(above, threshold, vs[k]) == above;
  }

  /** The segments that breach: those beyond the cut, and the threshold's own one at the upper end. */
  lemma CornerBreaches(vs: seq<real>, k: nat, above: bool, threshold: real, upper: bool, i: nat)
    requires SplitsAt(vs, above, threshold, k) && Sorted(vs) && i <= |vs|
    ensures Satisfies(BreachKind(above, threshold), Place(vs, k, Corner(vs, k, above, threshold, upper), i))
            == (if i == k then upper else (i > k) == above)
  {
  }

  // Sharpness of one step.

  /** A one-step distribution that attains the chosen end of the bracket. */
  lemma BracketIsAttained(qs: seq<Quantile>, vs: seq<real>, above: bool, threshold: real, upper: bool)
    returns (d: seq<Outcome>)
    requires StrictlyIncreasing(qs) && LevelsOk(qs) && |vs| == |qs| && Sorted(vs)
    ensures Distribution(d, 1) && ConsistentAt(d, 0, qs, vs)
    ensures Mass(d, At(0, BreachKind(above, threshold)))
            == if upper then Upper(qs, vs, above, threshold) else Lower(qs, vs, above, threshold)
  {
    hide Lower, Upper, ConsistentAt, Stair, Corner, Mass;
    var k := BracketLevels(qs, vs, above, threshold);
    var c := Corner(vs, k, above, threshold, upper);
    var paths := seq(|qs| + 1, i requires 0 <= i <= |vs| => [Place(vs, k, c, i)]);
    d := Stair(0.0, qs, paths);
    CornerFits(vs, k, above, threshold, upper);
    StairIsDistribution(0.0, qs, paths, 1);
    StairIsConsistent(qs, vs, k, c, paths, 0);
    var e := At(0, BreachKind(above, threshold));
    forall i | 0 <= i < |paths|
      ensures Holds(e, paths[i]) == (if i == k then upper else (i > k) == above)
    {
      CornerBreaches(vs, k, above, threshold, upper, i);
    }
    var lo := if above then (if upper then k else k + 1) else 0;
    var hi := if above then |paths| else (if upper then k + 1 else k);
    StairAtLeast(0.0, qs, paths, e, lo, hi);
    StairAtMost(0.0, qs, paths, e, lo, hi);
  }

  // Sharpness of the horizon's lower end: all steps share one staircase.

  /** A step whose cut makes every other step's breach segments a subset of its own. */
  lemma {:induction false} DominantStep(cuts: seq<nat>, above: bool) returns (s: nat)
    requires cuts != []
    ensures s < |cuts| && forall t :: 0 <= t < |cuts| ==> if above then cuts[s] <= cuts[t] else cuts[t] <= cuts[s]
  {
    var n := |cuts| - 1;
    s := n;
    if n > 0 {
      var r := DominantStep(cuts[..n], above);
      assert forall t :: 0 <= t < n ==> cuts[t] == cuts[..n][t];
      if (if above then cuts[r] <= cuts[n] else cuts[n] <= cuts[r]) {
        s := r;
      }
    }
  }

  lemma {:induction false} AllCuts(qs: seq<Quantile>, vss: seq<seq<real>>, above: bool, threshold: real, n: nat)
    returns (cuts: seq<nat>)
    requires StrictlyIncreasing(qs) && LevelsOk(qs) && n <= |vss|
    requires forall t :: 0 <= t < |vss| ==> |vss[t]| == |qs| && Sorted(vss[t])
    ensures |cuts| == n && forall t :: 0 <= t < n ==>
              && SplitsAt(vss[t], above, threshold, cuts[t])
              && Lower(qs, vss[t], above, threshold)
                 == if above then 1.0 - Level(qs, cuts[t] + 1) else Level(qs, cuts[t])
  {
    hide Lower, Upper, SplitsAt;
    cuts := [];
    if n > 0 {
      cuts := AllCuts(qs, vss, above, threshold, n - 1);
      var k := BracketLevels(qs, vss[n - 1], above, threshold);
      assert k <= |qs| by {
        CutInRange(vss[n - 1], above, threshold, k);
      }
      cuts := cuts + [k];
    }
    forall t | 0 <= t < n
      ensures cuts[t] <= |vss[t]|
    {
      CutInRange(vss[t], above, threshold, cuts[t]);
    }
  }

  lemma CutInRange(vs: seq<real>, above: bool, threshold: real, k: nat)
    requires SplitsAt(vs, above, threshold, k)
    ensures k <= |vs|
  {
  }

  /** Column t of the shared staircase holds step t's placement with its threshold segment kept out of breach. */
  function LowerPaths(vss: seq<seq<real>>, cuts: seq<nat>, above: bool, threshold: real, m: nat): seq<seq<real>>
    requires |cuts| == |vss| && forall t :: 0 <= t < |vss| ==> |vss[t]| == m && cuts[t] <= m
  {
    seq(m + 1, i requires 0 <= i <= m =>
      seq(|vss|, t requires 0 <= t < |vss| =>
        Place(vss[t], cuts[t], Corner(vss[t], cuts[t], above, threshold, false), i)))
  }

  lemma LowerPathsBreach(vss: seq<seq<real>>, cuts: seq<nat>, above: bool, threshold: real, m: nat, s: nat, i: nat)
    requires |cuts| == |vss| && forall t :: 0 <= t < |vss| ==> |vss[t]| == m && cuts[t] <= m
    requires forall t :: 0 <= t < |vss| ==> SplitsAt(vss[t], above, threshold, cuts[t]) && Sorted(vss[t])
    requires s < |cuts| && i <= m
    requires forall t :: 0 <= t < |cuts| ==> if above then cuts[s] <= cuts[t] else cuts[t] <= cuts[s]
    requires Holds(Within(|vss|, BreachKind(above, threshold)), LowerPaths(vss, cuts, above, threshold, m)[i])
    ensures i != cuts[s] && (i > cuts[s]) == above
  {
    hide SplitsAt, Sorted, Place, Corner;
    var path := LowerPaths(vss, cuts, above, threshold, m)[i];
    var t :| 0 <= t < |vss| && Satisfies(BreachKind(above, threshold), path[t]);
    CornerBreaches(vss[t], cuts[t], above, threshold, false, i);
  }

  /** Some joint distribution consistent with every step attains the lower end of the horizon bracket. */
  lemma LowerEndIsAttained(rows: seq<Row>, qs: seq<Quantile>, vss: seq<seq<real>>, above: bool, threshold: real)
    returns (d: seq<Outcome>)
    requires StrictlyIncreasing(qs) && LevelsOk(qs) && RowsFor(rows, qs, vss, above, threshold) && vss != []
    ensures Distribution(d, |vss|) && Consistent(d, qs, vss)
    ensures Mass(d, Within(|vss|, BreachKind(above, threshold))) == MaxLower(rows)
  {
    hide Lower, Upper, SplitsAt, Sorted, StrictlyIncreasing, LevelsOk, Satisfies;
    var cuts := AllCuts(qs, vss, above, threshold, |vss|);
    forall t | 0 <= t < |vss|
      ensures cuts[t] <= |vss[t]|
    {
      CutInRange(vss[t], above, threshold, cuts[t]);
    }
    var s := DominantStep(cuts, above);
    var paths := LowerPaths(vss, cuts, above, threshold, |qs|);
    d := Stair(0.0, qs, paths);
    AscendingFromZero(qs);
    StairIsDistribution(0.0, qs, paths, |vss|);
    forall t | 0 <= t < |vss|
      ensures ConsistentAt(d, t, qs, vss[t])
    {
      LowerStairIsConsistent(qs, vss, cuts, above, threshold, t);
    }
    HorizonIsSound(d, rows, qs, vss, above, threshold);
    LowerStairMass(qs, vss, cuts, above, threshold, s);
    MaxLowerIsUpperBound(rows, s);
  }

  lemma LowerStairIsConsistent(qs: seq<Quantile>, vss: seq<seq<real>>, cuts: seq<nat>, above: bool, threshold: real,
                               t: nat)
    requires StrictlyIncreasing(qs) && LevelsOk(qs) && |cuts| == |vss|
    requires forall u :: 0 <= u < |vss| ==> |vss[u]| == |qs| && cuts[u] <= |qs|
    requires t < |vss| && SplitsAt(vss[t], above, threshold, cuts[t]) && Sorted(vss[t])
    ensures ConsistentAt(Stair(0.0, qs, LowerPaths(vss, cuts, above, threshold, |qs|)), t, qs, vss[t])
  {
    hide Corner, Place, ConsistentAt, StrictlyIncreasing, LevelsOk;
    AscendingFromZero(qs);
    CornerFits(vss[t], cuts[t], above, threshold, false);
    StairIsConsistent(qs, vss[t], cuts[t], Corner(vss[t], cuts[t], above, threshold, false),
                      LowerPaths(vss, cuts, above, threshold, |qs|), t);
  }

  lemma AscendingFromZero(qs: seq<Quantile>)
    requires StrictlyIncreasing(qs) && LevelsOk(qs)
    ensures Ascending(0.0, qs)
  {
  }

  lemma LowerStairMass(qs: seq<Quantile>, vss: seq<seq<real>>, cuts: seq<nat>, above: bool, threshold: real, s: nat)
    requires StrictlyIncreasing(qs) && LevelsOk(qs) && |cuts| == |vss|
    requires forall t :: 0 <= t < |vss| ==> |vss[t]| == |qs| && cuts[t] <= |qs|
    requires forall t :: 0 <= t < |vss| ==> SplitsAt(vss[t], above, threshold, cuts[t]) && Sorted(vss[t])
    requires s < |cuts| && forall t :: 0 <= t < |cuts| ==> if above then cuts[s] <= cuts[t] else cuts[t] <= cuts[s]
    ensures Mass(Stair(0.0, qs, LowerPaths(vss, cuts, above, threshold, |qs|)),
                 Within(|vss|, BreachKind(above, threshold)))
         <= if above then 1.0 - Level(qs, cuts[s] + 1) else Level(qs, cuts[s])
  {
    hide SplitsAt, Sorted, Satisfies;
    AscendingFromZero(qs);
    var paths := LowerPaths(vss, cuts, above, threshold, |qs|);
    var e := Within(|vss|, BreachKind(above, threshold));
    var lo, hi := if above then cuts[s] + 1 else 0, if above then |qs| + 1 else cuts[s];
    forall i | 0 <= i < |paths| && !(lo <= i < hi)
      ensures !Holds(e, paths[i])
    {
      if Holds(e, paths[i]) {
        LowerPathsBreach(vss, cuts, above, threshold, |qs|, s, i);
      }
    }
    StairAtMost(0.0, qs, paths, e, lo, hi);
  }
}
