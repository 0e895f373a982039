/**
Exactly which clocks the replay guard can follow: on every other sequence of
claim times, some run is answered differently from the log.
*/
module ReplayClock {
  import opened Common
  import opened ReplayGuard

  function Repeated(c: char, n: nat): string {
    seq(n, _ => c)
  }

  const FIRST := Repeated('a', 16)
  const SECOND := Repeated('b', 16)
  const THIRD := Repeated('c', 16)
  const FILLER := Repeated('f', 16)
  const KEY := Repeated('k', 16)
  const OTHER := Repeated('o', 16)
  const PAYLOAD := Repeated('0', 64)
  const CHANGED := Repeated('1', 64)

  lemma NamesAreWellFormed()
    ensures IsToken(FIRST) && IsToken(SECOND) && IsToken(THIRD) && IsToken(FILLER) && IsToken(KEY) && IsToken(OTHER)
    ensures IsSha256(PAYLOAD) && IsSha256(CHANGED)
  {
  }

  lemma NamesAreDistinct()
    ensures FIRST != SECOND && FIRST != THIRD && FIRST != FILLER && SECOND != THIRD && SECOND != FILLER
    ensures THIRD != FILLER
    ensures KEY != OTHER && PAYLOAD != CHANGED
  {
    assert FIRST[0] == 'a' && SECOND[0] == 'b' && THIRD[0] == 'c' && FILLER[0] == 'f';
    assert KEY[0] == 'k' && OTHER[0] == 'o';
    assert PAYLOAD[0] == '0' && CHANGED[0] == '1';
  }

  /** One nonce at i and again at k; a filler, claimed over and over, at all other times. */
  function ForgetfulRun(times: seq<real>, i: nat, k: nat): seq<Request> {
    seq(|times|, m requires 0 <= m < |times| =>
      if m == i || m == k then Request(FIRST, KEY, PAYLOAD, times[m]) else Request(FILLER, OTHER, PAYLOAD, times[m]))
  }

  /** One key with the same payload at i and j, and with another payload at k. */
  function RebindingRun(times: seq<real>, i: nat, j: nat, k: nat): seq<Request> {
    seq(|times|, m requires 0 <= m < |times| =>
      if m == i then Request(FIRST, KEY, PAYLOAD, times[m])
      else if m == j then Request(SECOND, KEY, PAYLOAD, times[m])
      else if m == k then Request(THIRD, KEY, CHANGED, times[m])
      else Request(FILLER, OTHER, PAYLOAD, times[m]))
  }

  ghost predicate WellFormed(run: seq<Request>) {
    forall m :: 0 <= m < |run| ==> Shape(run[m]).None?
  }

  lemma {:induction false} TimesOf(run: seq<Request>)
    requires WellFormed(run)
    ensures |Times(run)| == |run| && forall m :: 0 <= m < |run| ==> Times(run)[m] == run[m].now
  {
    hide Shape;
    if run != [] {
      TimesOf(run[1..]);
      assert forall m :: 1 <= m < |run| ==> run[m] == run[1..][m - 1];
    }
  }

  // Where the contents of the registries come from.

  lemma StepOrigin(st: State, c: Config, r: Request)
    requires Shape(r).None?
    ensures var (next, outcome) := ClaimStep(st, c, r);
            && (forall n :: n in next.nonces ==>
                  || (outcome.Accepted? && n == r.nonce && next.nonces[n] == r.now + c.retention)
                  || (n in st.nonces && next.nonces[n] == st.nonces[n] > r.now))
            && (forall k :: k in next.keys ==>
                  || (outcome.Accepted? && k == r.key && next.keys[k] == (r.payload, r.now + c.retention))
                  || (!(outcome.Accepted? && k == r.key) && k in st.keys && next.keys[k] == st.keys[k]))
  {
    hide Shape, Verdict;
  }

  /** A recorded nonce was accepted at some claim, and no claim since has found it expired. */
  lemma {:induction false} NonceOrigin(c: Config, run: seq<Request>, m: nat, n: string) returns (p: nat)
    requires m <= |run| && WellFormed(run) && n in StateAt(EMPTY, c, run, m).nonces
    ensures p < m && run[p].nonce == n && StateAt(EMPTY, c, run, m).nonces[n] == run[p].now + c.retention
    ensures forall q :: p < q < m ==> run[q].now < run[p].now + c.retention
  {
    hide Shape, ClaimStep;
    var st, r := StateAt(EMPTY, c, run, m - 1), run[m - 1];
    StepOrigin(st, c, r);
    if n in st.nonces && StateAt(EMPTY, c, run, m).nonces[n] == st.nonces[n] > r.now {
      p := NonceOrigin(c, run, m - 1, n);
    } else {
      p := m - 1;
    }
  }

  /** A bound key was accepted with its payload at some claim, and not accepted again since. */
  lemma {:induction false} KeyOrigin(c: Config, run: seq<Request>, m: nat, k: string) returns (p: nat)
    requires m <= |run| && WellFormed(run) && k in StateAt(EMPTY, c, run, m).keys
    ensures p < m && run[p].key == k
    ensures StateAt(EMPTY, c, run, m).keys[k] == (run[p].payload, run[p].now + c.retention)
    ensures forall q :: p < q < m && run[q].key == k ==> !OutcomeAt(EMPTY, c, run, q).Accepted?
  {
    hide Shape, ClaimStep;
    StepOrigin(StateAt(EMPTY, c, run, m - 1), c, run[m - 1]);
    if OutcomeAt(EMPTY, c, run, m - 1).Accepted? && k == run[m - 1].key {
      p := m - 1;
    } else {
      p := KeyOrigin(c, run, m - 1, k);
    }
  }

  lemma Accepts(st: State, c: Config, r: Request, nonces: set<string>, keys: set<string>)
    requires Shape(r).None? && r.nonce !in st.nonces && st.nonces.Keys <= nonces && st.keys.Keys <= keys
    requires |nonces| < c.maxEntries && |keys| < c.maxEntries
    requires r.key in st.keys && st.keys[r.key].1 > r.now ==> st.keys[r.key].0 == r.payload
    ensures ClaimStep(st, c, r).1.Accepted?
  {
    hide Shape;
    var live := Prune(st, r.now);
    Smaller(live.nonces.Keys, nonces);
    Smaller(live.keys.Keys, keys);
    assert |live.nonces| == |live.nonces.Keys| && |live.keys| == |live.keys.Keys|;
  }

  lemma {:induction false} Smaller(a: set<string>, b: set<string>)
    requires a <= b
    ensures |a| <= |b|
  {
    if a != {} {
      var x :| x in a;
      Smaller(a - {x}, b - {x});
    }
  }

  /** An accepted claim stays in the log. */
  lemma {:induction false} LogKeeps(c: Config, run: seq<Request>, p: nat, m: nat)
    requires p < m <= |run| && LogVerdict(LogAt(c, run, p), c, run[p]).Accepted?
    ensures |LogAt(c, run, p)| < |LogAt(c, run, m)|
    ensures LogAt(c, run, m)[|LogAt(c, run, p)|] == Entry(run[p].nonce, run[p].key, run[p].payload, run[p].now)
  {
    hide LogVerdict;
    if p + 1 < m {
      LogKeeps(c, run, p, m - 1);
    }
  }

  // A forgotten nonce.

  /** If j expires what i recorded and k goes back, the guard accepts at k a nonce that the log still holds live. */
  lemma ForgottenNonce(c: Config, times: seq<real>, i: nat, j: nat, k: nat)
    requires i < j < k < |times| && Forgets(c.retention, times[i], times[j], times[k]) && c.maxEntries >= 3
    ensures var run := ForgetfulRun(times, i, k);
            && WellFormed(run) && Times(run) == times
            && OutcomeAt(EMPTY, c, run, i).Accepted? && OutcomeAt(EMPTY, c, run, k).Accepted?
            && (AgreesAt(c, run, i) ==> LogVerdict(LogAt(c, run, k), c, run[k]) == Refused(NonceReplayed))
            && !Agrees(c, run)
  {
    hide LogVerdict, ClaimStep, Shape, StateAt, LogAt, Repeated;
    NamesAreDistinct();
    var run := ForgetfulRun(times, i, k);
    ForgetfulShape(times, i, k);
    TimesOf(run);
    ForgetfulAccepts(c, times, i, i, k);
    FirstIsForgotten(c, times, i, j, k);
    ForgetfulAccepts(c, times, i, k, k);
    assert Agrees(c, run) ==> AgreesAt(c, run, i) && AgreesAt(c, run, k);
    if AgreesAt(c, run, i) {
      LogKeeps(c, run, i, k);
      LogHoldsNonce(LogAt(c, run, k), c, run[k], |LogAt(c, run, i)|);
    }
  }

  lemma FirstIsForgotten(c: Config, times: seq<real>, i: nat, j: nat, k: nat)
    requires i < j < k < |times| && Forgets(c.retention, times[i], times[j], times[k])
    ensures FIRST !in StateAt(EMPTY, c, ForgetfulRun(times, i, k), k).nonces
  {
    hide Shape, ClaimStep, StateAt, Repeated;
    var run := ForgetfulRun(times, i, k);
    ForgetfulShape(times, i, k);
    NamesAreDistinct();
    assert run[j].now == times[j];
    if FIRST in StateAt(EMPTY, c, run, k).nonces {
      var p := NonceOrigin(c, run, k, FIRST);
    }
  }

  lemma ForgetfulShape(times: seq<real>, i: nat, k: nat)
    ensures WellFormed(ForgetfulRun(times, i, k))
  {
    hide IsToken, IsSha256, Repeated;
    NamesAreWellFormed();
  }

  lemma ForgetfulAccepts(c: Config, times: seq<real>, i: nat, m: nat, k: nat)
    requires i < k < |times| && (m == i || m == k) && c.maxEntries >= 3
    requires m == k ==> FIRST !in StateAt(EMPTY, c, ForgetfulRun(times, i, k), k).nonces
    ensures OutcomeAt(EMPTY, c, ForgetfulRun(times, i, k), m).Accepted?
  {
    hide Shape, ClaimStep, StateAt, Repeated;
    NamesAreDistinct();
    var run := ForgetfulRun(times, i, k);
    ForgetfulShape(times, i, k);
    var st := StateAt(EMPTY, c, run, m);
    forall n | n in st.nonces
      ensures n in {FIRST, FILLER} && (m == i ==> n != FIRST)
    {
      var p := NonceOrigin(c, run, m, n);
    }
    forall n | n in st.keys
      ensures n in {KEY, OTHER} && st.keys[n].0 == PAYLOAD
    {
      var p := KeyOrigin(c, run, m, n);
    }
    Accepts(st, c, run[m], {FIRST, FILLER}, {KEY, OTHER});
  }

  lemma LogHoldsNonce(log: seq<Entry>, c: Config, r: Request, i: nat)
    requires i < |log| && log[i].nonce == r.nonce && Live(log[i], c, r.now) && Shape(r).None?
    ensures LogVerdict(log, c, r) == Refused(NonceReplayed)
  {
    hide Shape;
  }

  // A shortened binding.

  /**
  If j binds the key of i again at an earlier time, and k finds that binding
  expired, the guard accepts at k a payload that the log refuses: any step back
  is enough.
  */
  lemma ShortenedKey(c: Config, times: seq<real>, i: nat, j: nat, k: nat)
    requires i < j < k < |times| && Shortens(c.retention, times[i], times[j], times[k]) && c.maxEntries >= 4
    ensures var run := RebindingRun(times, i, j, k);
            && WellFormed(run) && Times(run) == times
            && OutcomeAt(EMPTY, c, run, i).Accepted? && OutcomeAt(EMPTY, c, run, k).Accepted?
            && (AgreesAt(c, run, i) ==> KeyDiffers(LogAt(c, run, k), c, KEY, CHANGED, times[k]))
            && (AgreesAt(c, run, i) ==> LogVerdict(LogAt(c, run, k), c, run[k]).Refused?)
            && !Agrees(c, run)
  {
    hide LogVerdict, ClaimStep, Shape, StateAt, LogAt, Repeated;
    NamesAreDistinct();
    var run := RebindingRun(times, i, j, k);
    RebindingShape(times, i, j, k);
    TimesOf(run);
    RebindingAccepts(c, times, i, j, k, i);
    RebindingAccepts(c, times, i, j, k, j);
    RebindingExpires(c, times, i, j, k);
    RebindingAccepts(c, times, i, j, k, k);
    assert Agrees(c, run) ==> AgreesAt(c, run, i) && AgreesAt(c, run, k);
    if AgreesAt(c, run, i) {
      LogKeeps(c, run, i, k);
      LogHoldsKey(LogAt(c, run, k), c, run[k], |LogAt(c, run, i)|);
    }
  }

  lemma RebindingShape(times: seq<real>, i: nat, j: nat, k: nat)
    ensures WellFormed(RebindingRun(times, i, j, k))
  {
    hide IsToken, IsSha256, Repeated;
    NamesAreWellFormed();
  }

  lemma RebindingExpires(c: Config, times: seq<real>, i: nat, j: nat, k: nat)
    requires i < j < k < |times| && times[j] + c.retention <= times[k]
    requires OutcomeAt(EMPTY, c, RebindingRun(times, i, j, k), j).Accepted?
    ensures var st := StateAt(EMPTY, c, RebindingRun(times, i, j, k), k);
            KEY in st.keys ==> st.keys[KEY].1 <= times[k]
  {
    hide Shape, ClaimStep, StateAt, Repeated;
    NamesAreDistinct();
    var run := RebindingRun(times, i, j, k);
    RebindingShape(times, i, j, k);
    if KEY in StateAt(EMPTY, c, run, k).keys {
      var p := KeyOrigin(c, run, k, KEY);
      assert p == i || p == j;
      assert run[j].key == KEY;
    }
  }

  lemma RebindingAccepts(c: Config, times: seq<real>, i: nat, j: nat, k: nat, m: nat)
    requires i < j < k < |times| && m in {i, j, k} && c.maxEntries >= 4
    requires m == k ==> var st := StateAt(EMPTY, c, RebindingRun(times, i, j, k), k);
                        KEY in st.keys ==> st.keys[KEY].1 <= times[k]
    ensures OutcomeAt(EMPTY, c, RebindingRun(times, i, j, k), m).Accepted?
  {
    hide Shape, ClaimStep, StateAt, Repeated;
    NamesAreDistinct();
    var run := RebindingRun(times, i, j, k);
    RebindingShape(times, i, j, k);
    var st := StateAt(EMPTY, c, run, m);
    forall n | n in st.nonces
      ensures n in {FIRST, SECOND, FILLER} && n != run[m].nonce
    {
      var p := NonceOrigin(c, run, m, n);
    }
    forall n | n in st.keys
      ensures n in {KEY, OTHER} && st.keys[n].0 == PAYLOAD
    {
      var p := KeyOrigin(c, run, m, n);
    }
    Accepts(st, c, run[m], {FIRST, SECOND, FILLER}, {KEY, OTHER});
  }

  lemma LogHoldsKey(log: seq<Entry>, c: Config, r: Request, i: nat)
    requires i < |log| && log[i].key == r.key && log[i].payload != r.payload && Live(log[i], c, r.now)
    ensures KeyDiffers(log, c, r.key, r.payload, r.now) && LogVerdict(log, c, r).Refused?
  {
    hide Shape;
  }

  // Both directions.

  /**
  The guard answers every run with the given claim times as the log does if and
  only if no three of the times, in the order of the claims, disturb it.
  */
  lemma AgreementExactly(c: Config, times: seq<real>)
    requires c.maxEntries >= 4
    ensures (forall run: seq<Request> :: Times(run) == times ==> Agrees(c, run)) <==> Steady(c.retention, times)
  {
    hide Agrees, Times;
    if Steady(c.retention, times) {
      forall run: seq<Request> | Times(run) == times
        ensures Agrees(c, run)
      {
        SteadyRunsAgree(c, run);
      }
    } else {
      var i, j, k :| 0 <= i < j < k < |times| && Disturbs(c.retention, times[i], times[j], times[k]);
      if Forgets(c.retention, times[i], times[j], times[k]) {
        ForgottenNonce(c, times, i, j, k);
      } else {
        ShortenedKey(c, times, i, j, k);
      }
    }
  }
}
