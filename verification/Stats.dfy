/** Order statistics over exact reals: sorting, the median, and their behaviour under x -> c*x + d. */
module Stats {

  function Insert(x: real, s: seq<real>): seq<real> {
    if s == [] || x <= s[0] then [x] + s else [s[0]] + Insert(x, s[1..])
  }

  function Sort(s: seq<real>): seq<real> {
    if s == [] then [] else Insert(s[0], Sort(s[1..]))
  }

  lemma {:induction false} SortLength(s: seq<real>)
    ensures |Sort(s)| == |s|
  {
    if s != [] {
      SortLength(s[1..]);
      InsertLength(s[0], Sort(s[1..]));
    }
  }

  lemma {:induction false} InsertLength(x: real, s: seq<real>)
    ensures |Insert(x, s)| == |s| + 1
  {
    if s != [] && x > s[0] {
      InsertLength(x, s[1..]);
    }
  }

  ghost predicate Ordered(s: seq<real>) {
    forall i, j :: 0 <= i < j < |s| ==> s[i] <= s[j]
  }

  /** Sorting orders the values and neither loses nor invents one. */
  lemma {:induction false} SortOrders(s: seq<real>)
    ensures Ordered(Sort(s)) && multiset(Sort(s)) == multiset(s)
  {
    if s != [] {
      SortOrders(s[1..]);
      InsertOrders(s[0], Sort(s[1..]));
      InsertAdds(s[0], Sort(s[1..]));
      assert s == [s[0]] + s[1..];
    }
  }

  lemma {:induction false} InsertAdds(x: real, s: seq<real>)
    ensures multiset(Insert(x, s)) == multiset(s) + multiset{x}
  {
    if s != [] && x > s[0] {
      assert s == [s[0]] + s[1..];
      InsertAdds(x, s[1..]);
    }
  }

  lemma {:induction false} InsertOrders(x: real, s: seq<real>)
    requires Ordered(s)
    ensures Ordered(Insert(x, s))
  {
    if s == [] || x <= s[0] {
      assert Ordered([x] + s);
    } else {
      InsertOrders(x, s[1..]);
      InsertAdds(x, s[1..]);
      forall y | y in multiset(Insert(x, s[1..]))
        ensures s[0] <= y
      {
        assert y == x || y in s[1..];
      }
      FirstIsLeast(s[0], Insert(x, s[1..]));
    }
  }

  lemma FirstIsLeast(x: real, s: seq<real>)
    requires Ordered(s) && forall y :: y in multiset(s) ==> x <= y
    ensures Ordered([x] + s)
  {
    forall i | 0 <= i < |s|
      ensures x <= s[i]
    {
      assert s[i] in multiset(s);
    }
  }

  /** The median: the middle of the sorted data, or the mean of the two middles. */
  function Median(s: seq<real>): real
    requires s != []
  {
    SortLength(s);
    var sorted, n := Sort(s), |s|;
    if n % 2 == 1 then sorted[n / 2] else (sorted[n / 2 - 1] + sorted[n / 2]) / 2.0
  }

  lemma {:induction false} OrderedUnique(s: seq<real>, t: seq<real>)
    requires Ordered(s) && Ordered(t) && multiset(s) == multiset(t)
    ensures s == t
  {
    hide Ordered;
    SameSize(s, t);
    if s != [] {
      SameLeast(s, t);
      SameRest(s, t);
      OrderedTail(s);
      OrderedTail(t);
      OrderedUnique(s[1..], t[1..]);
      assert s == [s[0]] + s[1..] && t == [t[0]] + t[1..];
    }
  }

  lemma SameSize(s: seq<real>, t: seq<real>)
    requires multiset(s) == multiset(t)
    ensures |s| == |t|
  {
    assert |s| == |multiset(s)| && |t| == |multiset(t)|;
  }

  lemma SameRest(s: seq<real>, t: seq<real>)
    requires multiset(s) == multiset(t) && s != [] && t != [] && s[0] == t[0]
    ensures multiset(s[1..]) == multiset(t[1..])
  {
    assert s == [s[0]] + s[1..] && t == [t[0]] + t[1..];
    assert multiset(s[1..]) == multiset(s) - multiset{s[0]};
    assert multiset(t[1..]) == multiset(t) - multiset{t[0]};
  }

  lemma OrderedTail(s: seq<real>)
    requires Ordered(s) && s != []
    ensures Ordered(s[1..])
  {
  }

  lemma SameLeast(s: seq<real>, t: seq<real>)
    requires Ordered(s) && Ordered(t) && multiset(s) == multiset(t) && s != [] && t != []
    ensures s[0] == t[0]
  {
    assert s[0] in multiset(s) && t[0] in multiset(t);
    var i :| 0 <= i < |t| && t[i] == s[0];
    var j :| 0 <= j < |s| && s[j] == t[0];
  }

  /** In any ordered arrangement of the data: the middle one, or half the sum of the two middle ones. */
  lemma MedianMeans(s: seq<real>, t: seq<real>)
    requires s != [] && Ordered(t) && multiset(t) == multiset(s)
    ensures |t| == |s|
    ensures |s| % 2 == 1 ==> Median(s) == t[|s| / 2]
    ensures |s| % 2 == 0 ==> 2.0 * Median(s) == t[|s| / 2 - 1] + t[|s| / 2]
  {
    SortLength(s);
    SortOrders(s);
    OrderedUnique(t, Sort(s));
  }

  function Abs(x: real): real {
    if x < 0.0 then -x else x
  }

  function Sum(s: seq<real>): real {
    if s == [] then 0.0 else s[0] + Sum(s[1..])
  }

  lemma {:induction false} SumAppend(a: seq<real>, x: real)
    ensures Sum(a + [x]) == Sum(a) + x
  {
    if a == [] {
      assert [x][1..] == [] && [] + [x] == [x];
    } else {
      SumAppend(a[1..], x);
      assert (a + [x])[1..] == a[1..] + [x];
    }
  }

  function Mean(s: seq<real>): real
    requires s != []
  {
    Sum(s) / |s| as real
  }

  /** f is x -> c*x + d for some d, with c > 0. */
  ghost predicate Rescales(f: real -> real, c: real) {
    c > 0.0 && forall x, y :: f(x) - f(y) == c * (x - y)
  }

  /** A change of unit and zero point. */
  function Affine(c: real, d: real): real -> real {
    x => c * x + d
  }

  lemma AffineRescales(c: real, d: real)
    requires c > 0.0
    ensures Rescales(Affine(c, d), c)
  {
    forall x, y
      ensures Affine(c, d)(x) - Affine(c, d)(y) == c * (x - y)
    {
    }
  }

  ghost predicate Increasing(f: real -> real) {
    forall x, y :: x <= y <==> f(x) <= f(y)
  }

  lemma RescalingIncreases(f: real -> real, c: real)
    requires Rescales(f, c)
    ensures Increasing(f)
  {
    forall x, y
      ensures x <= y <==> f(x) <= f(y)
    {
      PositiveFactor(c, y - x);
      assert f(y) - f(x) == c * (y - x);
    }
  }

  lemma PositiveFactor(c: real, x: real)
    requires c > 0.0
    ensures c * x >= 0.0 <==> x >= 0.0
    ensures c * x > 0.0 <==> x > 0.0
  {
  }

  lemma RescalingMidpoint(f: real -> real, c: real, x: real, y: real)
    requires Rescales(f, c)
    ensures (f(x) + f(y)) / 2.0 == f((x + y) / 2.0)
  {
    var m := (x + y) / 2.0;
    assert f(x) - f(m) == c * (x - m) && f(m) - f(y) == c * (m - y);
    assert x - m == m - y;
  }

  function Map(f: real -> real, s: seq<real>): seq<real> {
    if s == [] then [] else [f(s[0])] + Map(f, s[1..])
  }

  lemma {:induction false} MapAt(f: real -> real, s: seq<real>)
    ensures |Map(f, s)| == |s| && forall i :: 0 <= i < |s| ==> Map(f, s)[i] == f(s[i])
  {
    if s != [] {
      MapAt(f, s[1..]);
      assert forall i :: 1 <= i < |s| ==> s[i] == s[1..][i - 1];
    }
  }

  lemma {:induction false} MapInsert(f: real -> real, x: real, s: seq<real>)
    requires Increasing(f)
    ensures Insert(f(x), Map(f, s)) == Map(f, Insert(x, s))
  {
    if s == [] {
    } else if x <= s[0] {
      assert ([x] + s)[1..] == s;
    } else {
      MapInsert(f, x, s[1..]);
      assert ([s[0]] + Insert(x, s[1..]))[1..] == Insert(x, s[1..]);
    }
  }

  lemma {:induction false} MapSort(f: real -> real, s: seq<real>)
    requires Increasing(f)
    ensures Sort(Map(f, s)) == Map(f, Sort(s))
  {
    if s != [] {
      MapSort(f, s[1..]);
      MapInsert(f, s[0], Sort(s[1..]));
    }
  }

  /** The median commutes with every increasing affine map. */
  lemma MedianRescales(f: real -> real, c: real, s: seq<real>)
    requires Rescales(f, c) && s != []
    ensures Map(f, s) != [] && Median(Map(f, s)) == f(Median(s))
  {
    RescalingIncreases(f, c);
    MapAt(f, s);
    MapSort(f, s);
    SortLength(s);
    MapAt(f, Sort(s));
    if |s| % 2 == 0 {
      RescalingMidpoint(f, c, Sort(s)[|s| / 2 - 1], Sort(s)[|s| / 2]);
    }
  }

  /** Scaling every element by c scales the sum and the mean. */
  ghost predicate Scaled(c: real, s: seq<real>, t: seq<real>) {
    |s| == |t| && forall i :: 0 <= i < |s| ==> t[i] == c * s[i]
  }

  lemma {:induction false} SumScales(c: real, s: seq<real>, t: seq<real>)
    requires Scaled(c, s, t)
    ensures Sum(t) == c * Sum(s)
  {
    if s != [] {
      SumScales(c, s[1..], t[1..]);
      Distribute(c, s[0], Sum(s[1..]));
    }
  }

  lemma Distribute(c: real, x: real, y: real)
    ensures c * (x + y) == c * x + c * y
  {
  }

  lemma MeanScales(c: real, s: seq<real>, t: seq<real>)
    requires Scaled(c, s, t) && s != []
    ensures Mean(t) == c * Mean(s)
  {
    SumScales(c, s, t);
    ProductQuotient(c, Sum(s), |s| as real);
  }

  lemma ProductQuotient(c: real, t: real, n: real)
    requires n != 0.0
    ensures (c * t) / n == c * (t / n)
  {
  }

  lemma AbsScales(c: real, x: real)
    requires c > 0.0
    ensures Abs(c * x) == c * Abs(x)
  {
    PositiveFactor(c, x);
  }
}
