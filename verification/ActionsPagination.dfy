/**
Bounded page-by-page observation of workflow runs, against an upstream that may
answer anything on any page.
*/
module ActionsPagination {
  import opened Common
  import opened Decimals
  import opened Json

  datatype Run = Run(id: int, details: Json)

  datatype Body = Overflow | BadLength | Malformed | Listing(count: int, items: seq<Json>)

  /** TransportError: no response began.  One that breaks off counts as malformed. */
  datatype Response = TransportError | Http(status: nat, etag: Option<string>, body: Body)

  datatype State = Observed | ObservedPartial | NotModified | Unavailable

  datatype Observation = Observation(
    state: State, runs: seq<Run>, etag: Option<string>, pages: nat, complete: bool, reason: Option<string>)

  datatype Limits = Limits(maxPages: nat, perPage: nat)

  /** A run, a validation error, or an instant whose UTC form overflows: an error the fetch does not catch. */
  datatype Reading = Valid(run: Run) | Invalid | Overflows

  /** Pages are numbered from 1; parse is the strict reading of one run. */
  datatype Upstream = Upstream(page: nat -> Response, parse: Json -> Reading)

  datatype Fetched = Returned(observation: Observation) | Raised

  // What pages contain.

  function Parsed(items: seq<Json>, parse: Json -> Reading): Option<seq<Run>> {
    if items == [] then Some([])
    else
      var before, last := Parsed(items[..|items| - 1], parse), parse(items[|items| - 1]);
      if before.Some? && last.Valid? then Some(before.value + [last.run]) else None
  }

  /** A page that reports `count` runs in total and whose items all parse. */
  ghost predicate GoodPage(u: Upstream, page: nat, count: int) {
    && u.page(page).Http? && u.page(page).status == 200 && u.page(page).body.Listing?
    && u.page(page).body.count == count && Parsed(u.page(page).body.items, u.parse).Some?
  }

  ghost predicate GoodPages(u: Upstream, pages: nat, count: int) {
    forall p :: 1 <= p <= pages ==> GoodPage(u, p, count)
  }

  /** The runs of the first n pages, in order. */
  ghost function Collected(u: Upstream, n: nat, count: int): seq<Run>
    requires GoodPages(u, n, count)
  {
    if n == 0 then []
    else
      assert GoodPage(u, n, count);
      Collected(u, n - 1, count) + Parsed(u.page(n).body.items, u.parse).value
  }

  ghost predicate Distinct(runs: seq<Run>) {
    forall i, j :: 0 <= i < j < |runs| ==> runs[i].id != runs[j].id
  }

  function Missing(reason: string, pages: nat): Observation {
    Observation(Unavailable, [], None, pages, false, Some(reason))
  }

  // The page loop.

  ghost predicate Seen(seen: set<int>, runs: seq<Run>) {
    seen == set i | 0 <= i < |runs| :: runs[i].id
  }

  /** Item i overflows, and all before it are runs not seen before. */
  ghost predicate OverflowsAt(runs: seq<Run>, items: seq<Json>, parse: Json -> Reading, i: nat) {
    && i < |items| && parse(items[i]).Overflows?
    && Parsed(items[..i], parse).Some? && Distinct(runs + Parsed(items[..i], parse).value)
  }

  datatype Added = Took(runs: seq<Run>, seen: set<int>) | Refused | Overflowed

  /** Adds one page's runs, unless an item does not parse, repeats an identity or overflows first. */
  method AddPage(runs: seq<Run>, seen: set<int>, items: seq<Json>, parse: Json -> Reading) returns (r: Added)
    requires Seen(seen, runs) && Distinct(runs)
    ensures r.Took? <==> Parsed(items, parse).Some? && Distinct(runs + Parsed(items, parse).value)
    ensures r.Took? ==> r.runs == runs + Parsed(items, parse).value && Seen(r.seen, r.runs)
    ensures r.Overflowed? <==> exists i :: OverflowsAt(runs, items, parse, i)
  {
    var all, known := runs, seen;
    for i := 0 to |items|
      invariant Parsed(items[..i], parse).Some? && all == runs + Parsed(items[..i], parse).value
      invariant Seen(known, all) && Distinct(all)
    {
      ParsedNext(items, i, parse);
      var reading := parse(items[i]);
      if reading.Overflows? {
        assert OverflowsAt(runs, items, parse, i);
        BlockedAt(runs, items, parse, i);
        return Overflowed;
      }
      if reading.Invalid? {
        BlockedAt(runs, items, parse, i);
        return Refused;
      }
      var next := all + [reading.run];
      assert next == runs + Parsed(items[..i + 1], parse).value;
      if reading.run.id in known {
        RepeatsSeen(known, all, reading.run);
        BlockedAt(runs, items, parse, i);
        return Refused;
      }
      NextSeen(known, all, reading.run);
      known := known + {reading.run.id};
      all := next;
    }
    assert items[..|items|] == items;
    TakenOverflowsNowhere(runs, items, parse);
    return Took(all, known);
  }

  lemma RepeatsSeen(seen: set<int>, runs: seq<Run>, run: Run)
    requires Seen(seen, runs) && run.id in seen
    ensures !Distinct(runs + [run])
  {
    var k :| 0 <= k < |runs| && runs[k].id == run.id;
    assert (runs + [run])[k].id == (runs + [run])[|runs|].id;
  }

  /** When the items up to i do not make distinct runs, no longer prefix does. */
  lemma BlockedAt(runs: seq<Run>, items: seq<Json>, parse: Json -> Reading, i: nat)
    requires i < |items|
    requires Parsed(items[..i + 1], parse).Some? ==> !Distinct(runs + Parsed(items[..i + 1], parse).value)
    requires Parsed(items[..i], parse).Some?
    ensures !(Parsed(items, parse).Some? && Distinct(runs + Parsed(items, parse).value))
    ensures !parse(items[i]).Overflows? ==> forall k :: !OverflowsAt(runs, items, parse, k)
  {
    ShorterDistinct(runs, items, parse, i + 1, |items|);
    assert items[..|items|] == items;
    if !parse(items[i]).Overflows? {
      forall k: nat
        ensures !OverflowsAt(runs, items, parse, k)
      {
        if OverflowsAt(runs, items, parse, k) {
          if k > i {
            ShorterDistinct(runs, items, parse, i + 1, k);
          } else if k < i {
            ParsedItem(items[..i], parse, k);
          }
        }
      }
    }
  }

  lemma ShorterDistinct(runs: seq<Run>, items: seq<Json>, parse: Json -> Reading, m: nat, n: nat)
    requires m <= n <= |items|
    ensures Parsed(items[..n], parse).Some? && Distinct(runs + Parsed(items[..n], parse).value) ==>
              Parsed(items[..m], parse).Some? && Distinct(runs + Parsed(items[..m], parse).value)
  {
    hide Distinct;
    if Parsed(items[..n], parse).Some? && Distinct(runs + Parsed(items[..n], parse).value) {
      ParsedPrefix(items[..n], m, parse);
      assert items[..n][..m] == items[..m];
      var part, whole := Parsed(items[..m], parse).value, Parsed(items[..n], parse).value;
      PrefixDistinct(runs, part, whole, runs + part);
    }
  }

  lemma ParsedItem(items: seq<Json>, parse: Json -> Reading, k: nat)
    requires Parsed(items, parse).Some? && k < |items|
    ensures parse(items[k]).Valid?
  {
    ParsedAt(items, parse, Parsed(items, parse).value);
  }

  lemma TakenOverflowsNowhere(runs: seq<Run>, items: seq<Json>, parse: Json -> Reading)
    requires Parsed(items, parse).Some?
    ensures forall k :: !OverflowsAt(runs, items, parse, k)
  {
    forall k: nat
      ensures !OverflowsAt(runs, items, parse, k)
    {
      if k < |items| {
        ParsedItem(items, parse, k);
      }
    }
  }

  lemma NextSeen(seen: set<int>, runs: seq<Run>, run: Run)
    requires Seen(seen, runs) && Distinct(runs) && run.id !in seen
    ensures Seen(seen + {run.id}, runs + [run]) && Distinct(runs + [run])
  {
    var next := runs + [run];
    assert forall k :: 0 <= k < |runs| ==> next[k] == runs[k];
    assert next[|runs|] == run;
    forall x
      ensures x in seen + {run.id} <==> x in set i | 0 <= i < |next| :: next[i].id
    {
      if x in seen {
        var k :| 0 <= k < |runs| && runs[k].id == x;
        assert next[k].id == x;
      }
      if x == run.id {
        assert next[|runs|].id == x;
      }
    }
  }

  lemma ParsedNext(items: seq<Json>, i: nat, parse: Json -> Reading)
    requires i < |items| && Parsed(items[..i], parse).Some?
    ensures Parsed(items[..i + 1], parse)
         == if parse(items[i]).Valid? then Some(Parsed(items[..i], parse).value + [parse(items[i]).run]) else None
  {
    assert items[..i + 1][..i] == items[..i] && items[..i + 1][i] == items[i];
  }

  lemma {:induction false} ParsedPrefix(items: seq<Json>, n: nat, parse: Json -> Reading)
    requires n <= |items| && Parsed(items, parse).Some?
    ensures Parsed(items[..n], parse).Some? && Parsed(items[..n], parse).value <= Parsed(items, parse).value
    decreases |items| - n
  {
    if n < |items| {
      var front := items[..|items| - 1];
      ParsedPrefix(front, n, parse);
      assert front[..n] == items[..n];
    } else {
      assert items[..n] == items;
    }
  }

  lemma PrefixDistinct(runs: seq<Run>, part: seq<Run>, whole: seq<Run>, next: seq<Run>)
    requires part <= whole && next == runs + part && Distinct(runs + whole)
    ensures Distinct(next)
  {
    assert forall k :: 0 <= k < |next| ==> next[k] == (runs + whole)[k];
  }

  /** What a finished observation tells about the upstream it was made from, whatever that upstream does. */
  ghost predicate Truthful(o: Observation, u: Upstream, l: Limits) {
    && (o.state.Unavailable? ==> o.runs == [] && !o.complete && o.reason.Some?)
    && (!o.state.Unavailable? ==> o.reason == None && 1 <= o.pages <= l.maxPages)
    && (o.state.NotModified? ==> o.runs == [] && o.pages == 1 && u.page(1).Http? && u.page(1).status == 304)
    && (o.state.Observed? || o.state.ObservedPartial? ==> exists count: nat :: CountedBy(o, u, count))
  }

  /** Every fetched page reported `count`, and the runs are those pages' distinct runs in order. */
  ghost predicate CountedBy(o: Observation, u: Upstream, count: nat) {
    && GoodPages(u, o.pages, count) && o.runs == Collected(u, o.pages, count) && Distinct(o.runs)
    && (o.state.Observed? <==> o.complete) && (o.complete <==> |o.runs| == count) && |o.runs| <= count
  }

  function AtMost(x: nat, n: nat): nat {
    if x < n then x else n
  }

  /** How many of n runs the first p pages hold. */
  function Upto(p: nat, l: Limits, n: nat): nat {
    AtMost(p * l.perPage, n)
  }

  /** A fixed upstream: every page is a slice of one list of items that parse to distinct runs. */
  ghost predicate Serves(u: Upstream, l: Limits, items: seq<Json>, runs: seq<Run>) {
    && Parsed(items, u.parse) == Some(runs) && Distinct(runs)
    && forall p :: p >= 1 ==> ServesPage(u, l, items, p)
  }

  ghost predicate ServesPage(u: Upstream, l: Limits, items: seq<Json>, p: nat)
    requires p >= 1
  {
    && u.page(p).Http? && u.page(p).status == 200 && u.page(p).body.Listing?
    && u.page(p).body.count == |items|
    && Upto(p - 1, l, |items|) <= Upto(p, l, |items|)
    && u.page(p).body.items == items[Upto(p - 1, l, |items|)..Upto(p, l, |items|)]
  }

  lemma {:induction false} ParsedAt(items: seq<Json>, parse: Json -> Reading, runs: seq<Run>)
    ensures Parsed(items, parse) == Some(runs) <==>
              |runs| == |items| && forall i :: 0 <= i < |items| ==> parse(items[i]) == Valid(runs[i])
  {
    if items != [] {
      var n := |items| - 1;
      if runs != [] {
        ParsedAt(items[..n], parse, runs[..|runs| - 1]);
        assert runs == runs[..|runs| - 1] + [runs[|runs| - 1]];
      }
      if Parsed(items, parse).Some? {
        ParsedAt(items[..n], parse, Parsed(items[..n], parse).value);
      }
    }
  }

  lemma ParsedSlice(items: seq<Json>, parse: Json -> Reading, runs: seq<Run>, lo: nat, hi: nat)
    requires Parsed(items, parse) == Some(runs) && lo <= hi <= |items|
    ensures |runs| == |items| && Parsed(items[lo..hi], parse) == Some(runs[lo..hi])
  {
    ParsedAt(items, parse, runs);
    ParsedAt(items[lo..hi], parse, runs[lo..hi]);
  }

  lemma PageSpan(p: nat, l: Limits, n: nat)
    requires p >= 1
    ensures p * l.perPage == (p - 1) * l.perPage + l.perPage
    ensures Upto(p - 1, l, n) <= Upto(p, l, n) <= Upto(p - 1, l, n) + l.perPage
    ensures Upto(p, l, n) < Upto(p - 1, l, n) + l.perPage ==> Upto(p, l, n) == n
    ensures Upto(p, l, n) == n <==> n <= p * l.perPage
  {
    assert p * l.perPage == (p - 1) * l.perPage + l.perPage;
  }

  lemma SpanGrows(p: nat, q: nat, l: Limits)
    requires p <= q
    ensures p * l.perPage <= q * l.perPage
  {
  }

  /** What page p of a fixed upstream adds to the runs of the pages before it. */
  ghost predicate AddsNext(u: Upstream, l: Limits, all: seq<Run>, p: nat)
    requires p >= 1
  {
    var lo, hi := Upto(p - 1, l, |all|), Upto(p, l, |all|);
    && u.page(p).Http? && u.page(p).status == 200 && u.page(p).body.Listing? && u.page(p).body.count == |all|
    && lo <= hi <= |all| && |u.page(p).body.items| == hi - lo <= l.perPage
    && Parsed(u.page(p).body.items, u.parse) == Some(all[lo..hi])
    && Distinct(all[..lo] + all[lo..hi]) && all[..lo] + all[lo..hi] == all[..hi]
    && (hi - lo < l.perPage ==> hi == |all|)
    && (hi == |all| <==> |all| <= p * l.perPage)
  }

  lemma ServedPage(u: Upstream, l: Limits, p: nat)
    requires p >= 1
    ensures forall items, all :: Serves(u, l, items, all) ==> AddsNext(u, l, all, p)
  {
    forall items, all | Serves(u, l, items, all)
      ensures AddsNext(u, l, all, p)
    {
      assert ServesPage(u, l, items, p);
      PageSpan(p, l, |items|);
      var lo, hi := Upto(p - 1, l, |items|), Upto(p, l, |items|);
      ParsedSlice(items, u.parse, all, lo, hi);
      assert all[..lo] + all[lo..hi] == all[..hi];
      assert |all| == |items|;
    }
  }

  lemma PageCollected(u: Upstream, n: nat, count: int)
    requires n >= 1 && GoodPages(u, n - 1, count) && GoodPage(u, n, count)
    ensures GoodPages(u, n, count)
    ensures Collected(u, n, count) == Collected(u, n - 1, count) + Parsed(u.page(n).body.items, u.parse).value
  {
  }

  lemma ParsedLength(items: seq<Json>, parse: Json -> Reading)
    requires Parsed(items, parse).Some?
    ensures |Parsed(items, parse).value| == |items|
  {
    ParsedAt(items, parse, Parsed(items, parse).value);
  }

  /** The runs gathered after some pages of a fixed upstream. */
  ghost predicate OnTrack(u: Upstream, l: Limits, all: seq<Run>, runs: seq<Run>, total: Option<nat>, pages: nat,
                          more: bool) {
    && runs == all[..Upto(pages, l, |all|)]
    && (pages > 0 ==> total == Some(|all|))
    && (!more ==> |all| <= pages * l.perPage)
  }

  // Which fetches return at all.

  /** All pages up to n are full pages of `count` distinct runs in total, with runs still to come. */
  ghost predicate Passed(u: Upstream, l: Limits, n: nat, count: nat) {
    && GoodPages(u, n, count)
    && (forall p :: 1 <= p <= n ==> FullPage(u, l, p))
    && Distinct(Collected(u, n, count)) && (n > 0 ==> |Collected(u, n, count)| < count)
  }

  ghost predicate FullPage(u: Upstream, l: Limits, p: nat) {
    u.page(p).Http? && u.page(p).body.Listing? && |u.page(p).body.items| == l.perPage
  }

  /** A page the loop reads item by item: of the agreed count, and not too long. */
  ghost predicate Readable(u: Upstream, l: Limits, p: nat, count: nat, before: seq<Run>) {
    && u.page(p).Http? && u.page(p).status == 200 && u.page(p).body.Listing? && u.page(p).body.count == count
    && |u.page(p).body.items| <= l.perPage && |before| + |u.page(p).body.items| <= count
  }

  /** The loop reaches page p, and on it an item that overflows. */
  ghost predicate OverflowsOn(u: Upstream, l: Limits, p: nat, count: nat, i: nat) {
    && 1 <= p <= l.maxPages && Passed(u, l, p - 1, count)
    && Readable(u, l, p, count, Collected(u, p - 1, count))
    && OverflowsAt(Collected(u, p - 1, count), u.page(p).body.items, u.parse, i)
  }

  /** Nothing overflows on page p, and the loop does not go on from it. */
  ghost predicate EndsAt(u: Upstream, l: Limits, p: nat)
    requires p >= 1
  {
    && (forall count: nat, i: nat :: !OverflowsOn(u, l, p, count, i))
    && (forall count: nat :: !Passed(u, l, p, count))
  }

  lemma {:induction false} CollectedGrows(u: Upstream, m: nat, n: nat, count: int)
    requires m <= n && GoodPages(u, n, count)
    ensures GoodPages(u, m, count) && Collected(u, m, count) <= Collected(u, n, count)
    decreases n
  {
    if m < n {
      CollectedGrows(u, m, n - 1, count);
    }
  }

  lemma PassedBefore(u: Upstream, l: Limits, m: nat, n: nat, count: nat)
    requires m <= n && Passed(u, l, n, count)
    ensures Passed(u, l, m, count)
  {
    CollectedGrows(u, m, n, count);
    assert forall i :: 0 <= i < |Collected(u, m, count)| ==> Collected(u, m, count)[i] == Collected(u, n, count)[i];
  }

  /** Nothing overflows on a page already taken. */
  lemma TakenPages(u: Upstream, l: Limits, n: nat, count: nat)
    requires GoodPages(u, n, count)
    ensures forall p: nat, c: nat, i: nat :: p <= n ==> !OverflowsOn(u, l, p, c, i)
  {
    hide Passed, Distinct, Parsed;
    forall p: nat, c: nat, i: nat | p <= n
      ensures !OverflowsOn(u, l, p, c, i)
    {
      if OverflowsOn(u, l, p, c, i) {
        assert GoodPage(u, p, count);
        TakenOverflowsNowhere(Collected(u, p - 1, c), u.page(p).body.items, u.parse);
      }
    }
  }

  /** Once the loop ends at a page, nothing overflows anywhere. */
  lemma EndedFetch(u: Upstream, l: Limits, p: nat, count: nat)
    requires p >= 1 && GoodPages(u, p - 1, count) && EndsAt(u, l, p)
    ensures forall q: nat, c: nat, i: nat :: !OverflowsOn(u, l, q, c, i)
  {
    hide Passed, Readable, OverflowsAt;
    TakenPages(u, l, p - 1, count);
    forall q: nat, c: nat, i: nat
      ensures !OverflowsOn(u, l, q, c, i)
    {
      if q > p && OverflowsOn(u, l, q, c, i) {
        PassedBefore(u, l, p, q - 1, c);
      }
    }
  }

  /** So it is when the last page allowed has been taken. */
  lemma FinishedFetch(u: Upstream, l: Limits, n: nat, count: nat)
    requires GoodPages(u, n, count) && (n >= l.maxPages || (n >= 1 && !Passed(u, l, n, count)))
    ensures forall q: nat, c: nat, i: nat :: !OverflowsOn(u, l, q, c, i)
  {
    hide Passed, Readable, OverflowsAt;
    TakenPages(u, l, n, count);
    forall q: nat, c: nat, i: nat
      ensures !OverflowsOn(u, l, q, c, i)
    {
      if q > n && OverflowsOn(u, l, q, c, i) {
        PassedBefore(u, l, n, q - 1, c);
        SameCount(u, l, n, count, c);
      }
    }
  }

  lemma SameCount(u: Upstream, l: Limits, n: nat, count: nat, other: nat)
    requires n >= 1 && GoodPages(u, n, count) && Passed(u, l, n, other)
    ensures other == count
  {
    assert GoodPage(u, n, count) && GoodPage(u, n, other);
  }

  /** Where the loop stands before a page: what the pages before it reported and gave. */
  ghost predicate Standing(u: Upstream, l: Limits, page: nat, total: Option<nat>, runs: seq<Run>)
    requires page >= 1
  {
    if page == 1 then total.None? && runs == []
    else total.Some? && Passed(u, l, page - 1, total.value) && runs == Collected(u, page - 1, total.value)
  }

  /** The page is read item by item in this standing. */
  ghost predicate Legible(u: Upstream, l: Limits, page: nat, total: Option<nat>, runs: seq<Run>) {
    && u.page(page).Http? && u.page(page).status == 200 && u.page(page).body.Listing?
    && 0 <= u.page(page).body.count && (total.Some? ==> u.page(page).body.count == total.value)
    && |u.page(page).body.items| <= l.perPage && |runs| + |u.page(page).body.items| <= u.page(page).body.count
  }

  lemma StandingCount(u: Upstream, l: Limits, page: nat, total: Option<nat>, runs: seq<Run>, count: nat)
    requires page >= 1 && Standing(u, l, page, total, runs) && Passed(u, l, page - 1, count)
    ensures Collected(u, page - 1, count) == runs && (total.Some? ==> total.value == count)
  {
    hide FullPage, Distinct, GoodPage;
    if page > 1 {
      SameCount(u, l, page - 1, total.value, count);
    }
  }

  lemma PassedPage(u: Upstream, l: Limits, page: nat, total: Option<nat>, runs: seq<Run>, count: nat)
    requires page >= 1 && Standing(u, l, page, total, runs) && Passed(u, l, page, count)
    ensures Legible(u, l, page, total, runs) && count == u.page(page).body.count
    ensures var items := u.page(page).body.items;
            Parsed(items, u.parse).Some? && Distinct(runs + Parsed(items, u.parse).value)
  {
    hide Distinct, Parsed;
    PassedBefore(u, l, page - 1, page, count);
    StandingCount(u, l, page, total, runs, count);
    assert GoodPage(u, page, count) && FullPage(u, l, page);
    PageCollected(u, page, count);
    ParsedLength(u.page(page).body.items, u.parse);
  }

  lemma IllegibleEnds(u: Upstream, l: Limits, page: nat, total: Option<nat>, runs: seq<Run>)
    requires page >= 1 && Standing(u, l, page, total, runs) && !Legible(u, l, page, total, runs)
    ensures EndsAt(u, l, page)
  {
    hide Passed, OverflowsAt, Standing;
    forall count: nat, i: nat
      ensures !OverflowsOn(u, l, page, count, i)
    {
      if OverflowsOn(u, l, page, count, i) {
        StandingCount(u, l, page, total, runs, count);
      }
    }
    forall count: nat
      ensures !Passed(u, l, page, count)
    {
      if Passed(u, l, page, count) {
        PassedPage(u, l, page, total, runs, count);
      }
    }
  }

  lemma RefusedEnds(u: Upstream, l: Limits, page: nat, total: Option<nat>, runs: seq<Run>)
    requires page >= 1 && Standing(u, l, page, total, runs) && Legible(u, l, page, total, runs)
    requires var items := u.page(page).body.items;
             && !(Parsed(items, u.parse).Some? && Distinct(runs + Parsed(items, u.parse).value))
             && forall i :: !OverflowsAt(runs, items, u.parse, i)
    ensures EndsAt(u, l, page)
  {
    hide Passed, OverflowsAt, Standing, Distinct, Parsed;
    forall count: nat, i: nat
      ensures !OverflowsOn(u, l, page, count, i)
    {
      if OverflowsOn(u, l, page, count, i) {
        StandingCount(u, l, page, total, runs, count);
      }
    }
    forall count: nat
      ensures !Passed(u, l, page, count)
    {
      if Passed(u, l, page, count) {
        PassedPage(u, l, page, total, runs, count);
      }
    }
  }

  lemma OverflowRaises(u: Upstream, l: Limits, page: nat, total: Option<nat>, runs: seq<Run>, i: nat)
    requires 1 <= page <= l.maxPages && Standing(u, l, page, total, runs) && Legible(u, l, page, total, runs)
    requires OverflowsAt(runs, u.page(page).body.items, u.parse, i)
    ensures OverflowsOn(u, l, page, u.page(page).body.count, i)
  {
    hide OverflowsAt, Parsed;
    if page == 1 {
      assert Collected(u, 0, u.page(page).body.count) == [];
    }
  }

  lemma StandingPassed(u: Upstream, l: Limits, page: nat, total: Option<nat>, runs: seq<Run>, count: nat)
    requires page >= 1 && Standing(u, l, page, total, runs) && (total.Some? ==> total.value == count)
    ensures Passed(u, l, page - 1, count) && GoodPages(u, page - 1, count) && Collected(u, page - 1, count) == runs
  {
    hide GoodPage, FullPage, Parsed;
  }

  lemma PassedNext(u: Upstream, l: Limits, page: nat, count: nat)
    requires page >= 1 && GoodPages(u, page, count) && Passed(u, l, page - 1, count)
    requires Distinct(Collected(u, page, count))
    ensures Passed(u, l, page, count) <==> FullPage(u, l, page) && |Collected(u, page, count)| < count
  {
    hide GoodPage, Distinct, Collected, FullPage;
  }

  lemma NextStanding(u: Upstream, l: Limits, page: nat, total: Option<nat>, runs: seq<Run>)
    requires page >= 1 && Standing(u, l, page, total, runs) && Legible(u, l, page, total, runs)
    requires var items := u.page(page).body.items;
             Parsed(items, u.parse).Some? && Distinct(runs + Parsed(items, u.parse).value)
    ensures var items, count := u.page(page).body.items, u.page(page).body.count;
            var next := runs + Parsed(items, u.parse).value;
            && GoodPages(u, page, count) && next == Collected(u, page, count) && |next| <= count
            && (Passed(u, l, page, count) <==> |items| == l.perPage && |next| < count)
  {
    hide Distinct, Parsed, Passed, Collected, GoodPages;
    var items, count := u.page(page).body.items, u.page(page).body.count;
    assert GoodPage(u, page, count);
    StandingPassed(u, l, page, total, runs, count);
    PageCollected(u, page, count);
    ParsedLength(items, u.parse);
    PassedNext(u, l, page, count);
  }

  /** What one page does to the loop. */
  datatype Step = Stop(observation: Observation) | Raise | Next(count: nat, runs: seq<Run>, seen: set<int>, more: bool)

  ghost predicate Taken(u: Upstream, l: Limits, page: nat, total: Option<nat>, runs: seq<Run>) {
    && Legible(u, l, page, total, runs) && Parsed(u.page(page).body.items, u.parse).Some?
    && Distinct(runs + Parsed(u.page(page).body.items, u.parse).value)
  }

  ghost predicate Answered(u: Upstream, page: nat) {
    u.page(page).Http? && u.page(page).status == 200
  }

  ghost predicate Redirected(u: Upstream, page: nat) {
    u.page(page).Http? && 300 <= u.page(page).status <= 399 && !Unmodified(u, page)
  }

  ghost predicate Unmodified(u: Upstream, page: nat) {
    u.page(page).Http? && u.page(page).status == 304 && page == 1
  }

  ghost predicate Forbidden(u: Upstream, page: nat) {
    u.page(page).Http? && (u.page(page).status == 403 || u.page(page).status == 429)
  }

  /** What an early answer at a page says, and of which page. */
  ghost predicate StopMeans(u: Upstream, l: Limits, etag: Option<string>, page: nat, total: Option<nat>,
                            runs: seq<Run>, o: Observation) {
    var response := u.page(page);
    && !Taken(u, l, page, total, runs) && o.runs == []
    && (o.pages == if response.TransportError? then page - 1 else page)
    && (o.state.NotModified? <==> Unmodified(u, page)) && (o.state.Unavailable? <==> !Unmodified(u, page))
    && (Unmodified(u, page) ==> o.complete && o.reason == None && IsEtag(o.etag, response.etag, etag))
    && (!Unmodified(u, page) ==> !o.complete && o.reason.Some? && o.etag == None)
    && (o.reason == Some("redirect_rejected") <==> Redirected(u, page))
    && (o.reason == Some("rate_limited_or_forbidden") <==> Forbidden(u, page))
    && (o.reason == Some("response_body_overflow") <==> Answered(u, page) && response.body.Overflow?)
    && (o.reason == Some("invalid_content_length") <==> Answered(u, page) && response.body.BadLength?)
    && (o.reason == Some("transport_or_payload_failure") <==>
          response.TransportError? || (Answered(u, page) && (response.body.Malformed? || response.body.Listing?)))
    && (response.Http? && !Answered(u, page) && !Unmodified(u, page) && !Redirected(u, page) && !Forbidden(u, page) ==>
          o.reason == Some("upstream_http_" + NatText(response.status)))
  }

  /** The etag of an unmodified listing is the one received, or else the one sent. */
  ghost predicate IsEtag(result: Option<string>, received: Option<string>, sent: Option<string>) {
    if received.Some? && received.value != "" then result == received else result == sent
  }

  /** One round of the loop: an early answer, an escaping error, or the next standing. */
  method ReadPage(u: Upstream, l: Limits, etag: Option<string>, page: nat, total: Option<nat>, runs: seq<Run>,
                  seen: set<int>)
    returns (r: Step)
    requires 1 <= page <= l.maxPages && Standing(u, l, page, total, runs) && Seen(seen, runs) && Distinct(runs)
    ensures r.Next? <==> Taken(u, l, page, total, runs)
    ensures r.Next? ==> r.count == u.page(page).body.count
    ensures r.Next? ==> r.runs == runs + Parsed(u.page(page).body.items, u.parse).value && Seen(r.seen, r.runs)
    ensures r.Next? ==> (r.more <==> |u.page(page).body.items| == l.perPage && |r.runs| < r.count)
    ensures r.Raise? ==> Legible(u, l, page, total, runs)
    ensures r.Raise? ==> exists i: nat :: OverflowsOn(u, l, page, u.page(page).body.count, i)
    ensures r.Stop? ==> StopMeans(u, l, etag, page, total, runs, r.observation) && EndsAt(u, l, page)
  {
    hide Standing, Passed, Parsed, Distinct, EndsAt, Seen, OverflowsOn, OverflowsAt;
    var response := u.page(page);
    if !Legible(u, l, page, total, runs) {
      IllegibleEnds(u, l, page, total, runs);
    }
    if response.TransportError? {
      return Stop(Missing("transport_or_payload_failure", page - 1));
    }
    if response.status == 304 && page == 1 {
      var found := if response.etag.Some? && response.etag.value != "" then response.etag else etag;
      return Stop(Observation(NotModified, [], found, page, true, None));
    }
    if 300 <= response.status < 400 {
      return Stop(Missing("redirect_rejected", page));
    }
    if response.status != 200 {
      var reason :=
        if response.status in {403, 429} then "rate_limited_or_forbidden"
        else "upstream_http_" + NatText(response.status);
      assert ("upstream_http_" + NatText(response.status))[0] == 'u';
      return Stop(Missing(reason, page));
    }
    if response.body.Overflow? {
      return Stop(Missing("response_body_overflow", page));
    }
    if response.body.BadLength? {
      return Stop(Missing("invalid_content_length", page));
    }
    if response.body.Malformed? || response.body.count < 0 || |response.body.items| > l.perPage {
      return Stop(Missing("transport_or_payload_failure", page));
    }
    var count, items := response.body.count, response.body.items;
    if total.Some? && count != total.value {
      return Stop(Missing("transport_or_payload_failure", page));
    }
    if |runs| + |items| > count {
      return Stop(Missing("transport_or_payload_failure", page));
    }
    var added := AddPage(runs, seen, items, u.parse);
    if added.Overflowed? {
      ghost var i :| OverflowsAt(runs, items, u.parse, i);
      OverflowRaises(u, l, page, total, runs, i);
      return Raise;
    }
    if added.Refused? {
      RefusedEnds(u, l, page, total, runs);
      return Stop(Missing("transport_or_payload_failure", page));
    }
    ParsedLength(items, u.parse);
    return Next(count, added.runs, added.seen, !(|items| < l.perPage || |added.runs| == count));
  }

  /** A fixed upstream keeps the loop going until it has given all it has. */
  lemma TrackedPage(u: Upstream, l: Limits, all: seq<Run>, page: nat, total: Option<nat>, runs: seq<Run>)
    requires page >= 1 && AddsNext(u, l, all, page) && runs == all[..Upto(page - 1, l, |all|)]
    requires total.Some? ==> total.value == |all|
    ensures Taken(u, l, page, total, runs)
    ensures runs + Parsed(u.page(page).body.items, u.parse).value == all[..Upto(page, l, |all|)]
    ensures u.page(page).body.count == |all|
    ensures !(|u.page(page).body.items| == l.perPage && Upto(page, l, |all|) < |all|) ==> |all| <= page * l.perPage
  {
    hide Distinct, Parsed;
  }

  /** The fetch stopped early: the loop reached a page that it could not take. */
  ghost predicate Stopped(u: Upstream, l: Limits, etag: Option<string>, o: Observation) {
    exists page: nat, total, runs ::
      1 <= page <= l.maxPages && Standing(u, l, page, total, runs) && StopMeans(u, l, etag, page, total, runs, o)
  }

  /** The fetch went through: to the last page that gave cause to go on, with the first page's etag. */
  ghost predicate WentThrough(u: Upstream, l: Limits, o: Observation) {
    && 1 <= o.pages <= l.maxPages && u.page(1).Http? && o.etag == u.page(1).etag
    && exists count: nat :: WentTo(u, l, o, count)
  }

  ghost predicate WentTo(u: Upstream, l: Limits, o: Observation, count: nat) {
    && CountedBy(o, u, count) && o.pages >= 1
    && Passed(u, l, o.pages - 1, count) && (o.pages == l.maxPages || !Passed(u, l, o.pages, count))
  }

  /**
  Pages are fetched until one is short, the count is reached or the limit is.
  The fetch raises exactly when it reaches an item that overflows.
  */
  method FetchWorkflowRuns(u: Upstream, l: Limits, etag: Option<string>) returns (r: Fetched)
    requires l.maxPages >= 1 && l.perPage >= 1
    ensures r.Raised? <==> exists p: nat, count: nat, i: nat :: OverflowsOn(u, l, p, count, i)
    ensures r.Returned? ==> Truthful(r.observation, u, l)
    ensures r.Returned? ==>
              var o := r.observation;
              if o.state.Observed? || o.state.ObservedPartial? then WentThrough(u, l, o) else Stopped(u, l, etag, o)
    ensures forall items, runs :: Serves(u, l, items, runs) ==>
              && r.Returned? && r.observation.runs == runs[..Upto(l.maxPages, l, |runs|)]
              && r.observation.state == (if |runs| <= l.maxPages * l.perPage then Observed else ObservedPartial)
  {
    hide Serves, AddsNext, OverflowsOn, EndsAt, Distinct, Seen, Parsed, Taken, Passed;
    var runs: seq<Run>, seen: set<int> := [], {};
    var total: Option<nat>, firstEtag: Option<string> := None, None;
    var pages, more := 0, true;
    NothingSeen();
    while pages < l.maxPages && more
      invariant pages <= l.maxPages && (pages == 0 ==> more)
      invariant more && pages < l.maxPages ==> Standing(u, l, pages + 1, total, runs)
      invariant pages > 0 ==>
                  total.Some? && GoodPages(u, pages, total.value) && runs == Collected(u, pages, total.value)
      invariant pages > 0 ==> |runs| <= total.value && (more <==> Passed(u, l, pages, total.value))
      invariant pages > 0 ==> Passed(u, l, pages - 1, total.value)
      invariant pages > 0 ==> u.page(1).Http? && firstEtag == u.page(1).etag
      invariant Seen(seen, runs) && Distinct(runs)
      invariant forall items, all :: Serves(u, l, items, all) ==> OnTrack(u, l, all, runs, total, pages, more)
      decreases l.maxPages - pages
    {
      var step := ReadPage(u, l, etag, pages + 1, total, runs, seen);
      Tracked(u, l, runs, total, pages);
      if step.Raise? {
        ghost var i: nat :| OverflowsOn(u, l, pages + 1, u.page(pages + 1).body.count, i);
        return Raised;
      }
      if step.Stop? {
        EndedFetch(u, l, pages + 1, if total.Some? then total.value else 0);
        StoppedAt(u, l, etag, pages + 1, total, runs, step.observation);
        return Returned(step.observation);
      }
      TakenStanding(u, l, pages + 1, total, runs);
      StandingPassed(u, l, pages + 1, total, runs, step.count);
      if total.None? {
        firstEtag := u.page(pages + 1).etag;
      }
      pages, total, runs, seen, more := pages + 1, Some(step.count), step.runs, step.seen, step.more;
    }
    SpanGrows(pages, l.maxPages, l);
    FinishedFetch(u, l, pages, total.value);
    var complete := |runs| == total.value;
    var o := Observation(if complete then Observed else ObservedPartial, runs, firstEtag, pages, complete, None);
    assert CountedBy(o, u, total.value);
    assert WentTo(u, l, o, total.value);
    return Returned(o);
  }

  lemma StoppedAt(u: Upstream, l: Limits, etag: Option<string>, page: nat, total: Option<nat>, runs: seq<Run>,
                  o: Observation)
    requires 1 <= page <= l.maxPages && Standing(u, l, page, total, runs)
    requires StopMeans(u, l, etag, page, total, runs, o)
    ensures Stopped(u, l, etag, o) && Truthful(o, u, l) && (o.state.NotModified? || o.state.Unavailable?)
  {
    hide Taken, Standing;
  }

  lemma NothingSeen()
    ensures Seen({}, []) && Distinct([])
  {
  }

  lemma TakenStanding(u: Upstream, l: Limits, page: nat, total: Option<nat>, runs: seq<Run>)
    requires page >= 1 && Standing(u, l, page, total, runs) && Taken(u, l, page, total, runs)
    ensures var items, count := u.page(page).body.items, u.page(page).body.count;
            var next := runs + Parsed(items, u.parse).value;
            && Legible(u, l, page, total, runs) && GoodPages(u, page, count)
            && next == Collected(u, page, count) && |next| <= count
            && Distinct(next) && (Passed(u, l, page, count) <==> |items| == l.perPage && |next| < count)
            && (Passed(u, l, page, count) ==> Standing(u, l, page + 1, Some(count as nat), next))
  {
    hide Distinct, Parsed, Passed, GoodPages, Collected;
    NextStanding(u, l, page, total, runs);
  }

  /** What a fixed upstream's next page adds. */
  ghost predicate NextTracked(u: Upstream, l: Limits, all: seq<Run>, runs: seq<Run>, total: Option<nat>, page: nat)
    requires page >= 1
  {
    && Taken(u, l, page, total, runs)
    && var items := u.page(page).body.items;
       var next := runs + Parsed(items, u.parse).value;
       && OnTrack(u, l, all, next, Some(|all|), page, |items| == l.perPage && |next| < |all|)
       && u.page(page).body.count == |all|
  }

  lemma Tracked(u: Upstream, l: Limits, runs: seq<Run>, total: Option<nat>, pages: nat)
    requires pages == 0 ==> total.None?
    ensures forall items, all :: Serves(u, l, items, all) && OnTrack(u, l, all, runs, total, pages, true) ==>
              NextTracked(u, l, all, runs, total, pages + 1)
  {
    hide Distinct, Parsed, AddsNext, Serves, Taken;
    ServedPage(u, l, pages + 1);
    forall items, all | Serves(u, l, items, all) && OnTrack(u, l, all, runs, total, pages, true)
      ensures NextTracked(u, l, all, runs, total, pages + 1)
    {
      TrackedPage(u, l, all, pages + 1, total, runs);
      TakenReads(u, l, pages + 1, total, runs);
    }
  }

  lemma TakenReads(u: Upstream, l: Limits, page: nat, total: Option<nat>, runs: seq<Run>)
    requires Taken(u, l, page, total, runs)
    ensures Legible(u, l, page, total, runs) && Parsed(u.page(page).body.items, u.parse).Some?
  {
    hide Parsed, Distinct;
  }
}
