/**
The process-local nonce and idempotency guard of the governed-event webhook,
and the unbounded log of accepted claims that it stands for.
*/
module ReplayGuard {
  import opened Common

  // Identifier shapes.

  predicate IsAlnum(c: char) {
    'a' <= c <= 'z' || 'A' <= c <= 'Z' || '0' <= c <= '9'
  }

  predicate IsSafe(c: char) {
    IsAlnum(c) || c in "._:-"
  }

  predicate IsSafeText(s: string, least: nat, most: nat) {
    least <= |s| <= most && s != "" && IsAlnum(s[0]) && forall i :: 0 <= i < |s| ==> IsSafe(s[i])
  }

  /** Nonces and idempotency keys: 16 to 128 safe characters. */
  predicate IsToken(s: string) { IsSafeText(s, 16, 128) }

  // One claim.

  datatype Config = Config(retention: real, maxEntries: nat)

  datatype Request = Request(nonce: string, key: string, payload: string, now: real)

  datatype Error = BadNonce | BadKey | BadDigest | NonceReplayed | NoncesFull | KeyConflict | KeysFull

  datatype Outcome = Accepted(replayed: bool) | Refused(error: Error)

  /** Expiry by nonce, and payload with expiry by idempotency key. */
  datatype State = State(nonces: map<string, real>, keys: map<string, (string, real)>)

  function Prune(st: State, now: real): State {
    State(map n | n in st.nonces && st.nonces[n] > now :: st.nonces[n],
          map k | k in st.keys && st.keys[k].1 > now :: st.keys[k])
  }

  function Shape(r: Request): Option<Error> {
    if !IsToken(r.nonce) then Some(BadNonce)
    else if !IsToken(r.key) then Some(BadKey)
    else if !IsSha256(r.payload) then Some(BadDigest)
    else None
  }

  /** The refusal, if any, that the pruned maps give a well-formed request. */
  function Verdict(live: State, c: Config, r: Request): Outcome {
    if r.nonce in live.nonces then Refused(NonceReplayed)
    else if |live.nonces| >= c.maxEntries then Refused(NoncesFull)
    else if r.key in live.keys && live.keys[r.key].0 != r.payload then Refused(KeyConflict)
    else if r.key !in live.keys && |live.keys| >= c.maxEntries then Refused(KeysFull)
    else Accepted(r.key in live.keys)
  }

  function Record(live: State, c: Config, r: Request): State {
    State(live.nonces[r.nonce := r.now + c.retention], live.keys[r.key := (r.payload, r.now + c.retention)])
  }

  function ClaimStep(st: State, c: Config, r: Request): (State, Outcome) {
    var bad := Shape(r);
    if bad.Some? then (st, Refused(bad.value))
    else
      var live := Prune(st, r.now);
      var verdict := Verdict(live, c, r);
      (if verdict.Accepted? then Record(live, c, r) else live, verdict)
  }

  ghost function LiveNonceSet(st: State, now: real): set<string> {
    set n | n in st.nonces && st.nonces[n] > now
  }

  ghost predicate BoundElsewhere(st: State, r: Request) {
    r.key in st.keys && st.keys[r.key].1 > r.now && st.keys[r.key].0 != r.payload
  }

  /** What each refusal says of the request and the state: the first fault is the one reported. */
  lemma RefusedExactly(st: State, c: Config, r: Request)
    ensures var refused, live := ClaimStep(st, c, r).1, LiveNonceSet(st, r.now);
            var formed := IsToken(r.nonce) && IsToken(r.key) && IsSha256(r.payload);
            && (refused == Refused(BadNonce) <==> !IsToken(r.nonce))
            && (refused == Refused(BadKey) <==> IsToken(r.nonce) && !IsToken(r.key))
            && (refused == Refused(BadDigest) <==> IsToken(r.nonce) && IsToken(r.key) && !IsSha256(r.payload))
            && (refused == Refused(NonceReplayed) <==> formed && r.nonce in live)
            && (refused == Refused(NoncesFull) <==> formed && r.nonce !in live && |live| >= c.maxEntries)
            && (refused == Refused(KeyConflict) <==>
                  formed && r.nonce !in live && |live| < c.maxEntries && BoundElsewhere(st, r))
  {
    hide IsToken, IsSha256;
    var pruned := Prune(st, r.now);
    assert pruned.nonces.Keys == LiveNonceSet(st, r.now) && |pruned.nonces| == |pruned.nonces.Keys|;
  }

  /** Each idempotency key belongs to the live nonce that last claimed it, and no two keys share one. */
  ghost predicate Owned(st: State, owner: map<string, string>) {
    && owner.Keys == st.keys.Keys
    && (forall k :: k in owner ==> owner[k] in st.nonces && st.nonces[owner[k]] == st.keys[k].1)
    && (forall k, l :: k in owner && l in owner && k != l ==> owner[k] != owner[l])
  }

  ghost function NextOwner(st: State, owner: map<string, string>, c: Config, r: Request): map<string, string> {
    if Shape(r).Some? then owner
    else
      var live := Prune(st, r.now);
      var kept := map k | k in owner && k in live.keys :: owner[k];
      if Verdict(live, c, r).Accepted? then kept[r.key := r.nonce] else kept
  }

  lemma PruneKeepsOwners(st: State, owner: map<string, string>, now: real)
    requires Owned(st, owner)
    ensures Owned(Prune(st, now), map k | k in owner && k in Prune(st, now).keys :: owner[k])
  {
  }

  /** Distinct keys inject into distinct nonces. */
  lemma {:induction false} InjectionBounds(keys: set<string>, nonces: set<string>, owner: map<string, string>)
    requires keys <= owner.Keys && forall k :: k in keys ==> owner[k] in nonces
    requires forall k, l :: k in keys && l in keys && k != l ==> owner[k] != owner[l]
    ensures |keys| <= |nonces|
    decreases keys
  {
    if keys != {} {
      var k :| k in keys;
      InjectionBounds(keys - {k}, nonces - {owner[k]}, owner);
    }
  }

  lemma OwnedBounds(st: State, owner: map<string, string>)
    requires Owned(st, owner)
    ensures |st.keys| <= |st.nonces|
  {
    InjectionBounds(st.keys.Keys, st.nonces.Keys, owner);
    assert |st.keys| == |st.keys.Keys| && |st.nonces| == |st.nonces.Keys|;
  }

  /**
  Whatever the clock does, ownership survives a claim, so the key registry is
  never fuller than the nonce registry and its capacity error cannot occur.
  */
  lemma KeysNeverFull(st: State, owner: map<string, string>, c: Config, r: Request)
    requires Owned(st, owner)
    ensures Owned(ClaimStep(st, c, r).0, NextOwner(st, owner, c, r))
    ensures ClaimStep(st, c, r).1 != Refused(KeysFull)
  {
    if Shape(r).None? {
      var live := Prune(st, r.now);
      var kept := map k | k in owner && k in live.keys :: owner[k];
      PruneKeepsOwners(st, owner, r.now);
      OwnedBounds(live, kept);
      if Verdict(live, c, r).Accepted? {
        RecordKeepsOwners(live, kept, c, r);
      }
    }
  }

  lemma RecordKeepsOwners(live: State, owner: map<string, string>, c: Config, r: Request)
    requires Owned(live, owner) && r.nonce !in live.nonces
    ensures Owned(Record(live, c, r), owner[r.key := r.nonce])
  {
  }

  /** The guard as the object that serializes claims. */
  class ReplayProtector {
    const config: Config
    var nonces: map<string, real>
    var keys: map<string, (string, real)>
    ghost var owner: map<string, string>

    ghost predicate Valid()
      reads this
    {
      Owned(Current(), owner)
    }

    function Current(): State
      reads this
    {
      State(nonces, keys)
    }

    constructor (retention: real, maxEntries: nat)
      requires 60.0 <= retention <= 86400.0 && 100 <= maxEntries <= 1000000
      ensures Valid() && Current() == State(map[], map[]) && config == Config(retention, maxEntries)
    {
      config := Config(retention, maxEntries);
      nonces, keys, owner := map[], map[], map[];
    }

    /** Every claim moves the object as ClaimStep says, and never reports a full key registry. */
    method Claim(r: Request) returns (outcome: Outcome)
      requires Valid()
      modifies this
      ensures Valid()
      ensures Current() == ClaimStep(old(Current()), config, r).0
      ensures outcome == ClaimStep(old(Current()), config, r).1
      ensures outcome != Refused(KeysFull)
    {
      hide Owned, NextOwner, Shape, Prune;
      KeysNeverFull(Current(), owner, config, r);
      var bad := Shape(r);
      if bad.Some? {
        return Refused(bad.value);
      }
      var expires := r.now + config.retention;
      owner := NextOwner(Current(), owner, config, r);
      var live := Prune(Current(), r.now);
      nonces, keys := live.nonces, live.keys;
      if r.nonce in nonces {
        return Refused(NonceReplayed);
      }
      if |nonces| >= config.maxEntries {
        return Refused(NoncesFull);
      }
      if r.key in keys && keys[r.key].0 != r.payload {
        return Refused(KeyConflict);
      }
      var replayed := r.key in keys;
      if !replayed && |keys| >= config.maxEntries {
        return Refused(KeysFull);
      }
      nonces := nonces[r.nonce := expires];
      keys := keys[r.key := (r.payload, expires)];
      return Accepted(replayed);
    }
  }

  // The unbounded log.

  datatype Entry = Entry(nonce: string, key: string, payload: string, at: real)

  predicate Live(e: Entry, c: Config, now: real) {
    e.at + c.retention > now
  }

  ghost predicate NonceLive(log: seq<Entry>, c: Config, nonce: string, now: real) {
    exists i :: 0 <= i < |log| && Live(log[i], c, now) && log[i].nonce == nonce
  }

  ghost predicate KeyLive(log: seq<Entry>, c: Config, key: string, now: real) {
    exists i :: 0 <= i < |log| && Live(log[i], c, now) && log[i].key == key
  }

  ghost predicate KeyDiffers(log: seq<Entry>, c: Config, key: string, payload: string, now: real) {
    exists i :: 0 <= i < |log| && Live(log[i], c, now) && log[i].key == key && log[i].payload != payload
  }

  function LiveCount(log: seq<Entry>, c: Config, now: real): nat {
    if log == [] then 0
    else LiveCount(log[..|log| - 1], c, now) + (if Live(log[|log| - 1], c, now) then 1 else 0)
  }

  /** What a claim must answer, told from the whole history of accepted claims. */
  ghost function LogVerdict(log: seq<Entry>, c: Config, r: Request): Outcome {
    if Shape(r).Some? then Refused(Shape(r).value)
    else if NonceLive(log, c, r.nonce, r.now) then Refused(NonceReplayed)
    else if LiveCount(log, c, r.now) >= c.maxEntries then Refused(NoncesFull)
    else if KeyDiffers(log, c, r.key, r.payload, r.now) then Refused(KeyConflict)
    else Accepted(KeyLive(log, c, r.key, r.now))
  }

  ghost function LogNext(log: seq<Entry>, c: Config, r: Request): seq<Entry> {
    if LogVerdict(log, c, r).Accepted? then log + [Entry(r.nonce, r.key, r.payload, r.now)] else log
  }

  // Clocks the guard can follow.

  /** The times of the well-formed requests: a malformed one never reaches the registries. */
  function Times(run: seq<Request>): seq<real> {
    if run == [] then [] else (if Shape(run[0]).None? then [run[0].now] else []) + Times(run[1..])
  }

  /** What is recorded at i has expired at j, and is live again at k. */
  predicate Forgets(retention: real, i: real, j: real, k: real) {
    k < i + retention <= j
  }

  /** A key bound at i and again at the earlier time j has expired at k, where its first binding is still live. */
  predicate Shortens(retention: real, i: real, j: real, k: real) {
    j < i && j + retention <= k < i + retention
  }

  predicate Disturbs(retention: real, i: real, j: real, k: real) {
    Forgets(retention, i, j, k) || Shortens(retention, i, j, k)
  }

  /** No three claim times, in the order of the claims, disturb the guard. */
  predicate Steady(retention: real, times: seq<real>) {
    forall i, j, k :: 0 <= i < j < k < |times| ==> !Disturbs(retention, times[i], times[j], times[k])
  }

  // What the registries must hold for the claims still to come.

  ghost predicate LogSteady(log: seq<Entry>, c: Config, future: seq<real>) {
    forall i, j, k :: 0 <= i < |log| && 0 <= j < k < |future| ==>
      !Disturbs(c.retention, log[i].at, future[j], future[k])
  }

  ghost predicate DistinctLive(log: seq<Entry>, c: Config, future: seq<real>) {
    forall i, j, k :: 0 <= i < j < |log| && 0 <= k < |future| ==>
      Live(log[i], c, future[k]) && Live(log[j], c, future[k]) ==> log[i].nonce != log[j].nonce
  }

  ghost predicate NoncesCover(nonces: map<string, real>, log: seq<Entry>, c: Config, future: seq<real>) {
    forall i, k :: 0 <= i < |log| && 0 <= k < |future| && Live(log[i], c, future[k]) ==>
      log[i].nonce in nonces && nonces[log[i].nonce] == log[i].at + c.retention
  }

  ghost predicate NoncesLogged(nonces: map<string, real>, log: seq<Entry>, c: Config) {
    forall n :: n in nonces ==> exists i :: 0 <= i < |log| && log[i].nonce == n && log[i].at + c.retention == nonces[n]
  }

  ghost predicate KeysCover(keys: map<string, (string, real)>, log: seq<Entry>, c: Config, future: seq<real>) {
    forall i, k :: 0 <= i < |log| && 0 <= k < |future| && Live(log[i], c, future[k]) ==>
      log[i].key in keys && keys[log[i].key].0 == log[i].payload && keys[log[i].key].1 > future[k]
  }

  ghost predicate KeysLogged(keys: map<string, (string, real)>, log: seq<Entry>, c: Config) {
    forall k :: k in keys ==> exists i :: 0 <= i < |log| && log[i].key == k && log[i].at + c.retention == keys[k].1
  }

  /** The registries hold every entry that a claim still to come will find live, and nothing that was never logged. */
  ghost predicate Represents(st: State, log: seq<Entry>, c: Config, future: seq<real>) {
    && LogSteady(log, c, future) && DistinctLive(log, c, future)
    && NoncesCover(st.nonces, log, c, future) && NoncesLogged(st.nonces, log, c)
    && KeysCover(st.keys, log, c, future) && KeysLogged(st.keys, log, c)
  }

  /** On a steady clock, pruning takes away only what no later claim needs. */
  lemma PruneRepresents(st: State, log: seq<Entry>, c: Config, future: seq<real>)
    requires Represents(st, log, c, future) && future != []
    ensures Represents(Prune(st, future[0]), log, c, future)
  {
    var live := Prune(st, future[0]);
    forall i, k | 0 <= i < |log| && 0 <= k < |future| && Live(log[i], c, future[k])
      ensures Live(log[i], c, future[0])
    {
      assert k > 0 ==> !Disturbs(c.retention, log[i].at, future[0], future[k]);
    }
    PruneKeepsLogged(st, log, c, future[0]);
  }

  lemma PruneKeepsLogged(st: State, log: seq<Entry>, c: Config, now: real)
    requires NoncesLogged(st.nonces, log, c) && KeysLogged(st.keys, log, c)
    ensures NoncesLogged(Prune(st, now).nonces, log, c) && KeysLogged(Prune(st, now).keys, log, c)
  {
  }

  lemma LaterRepresents(st: State, log: seq<Entry>, c: Config, future: seq<real>)
    requires Represents(st, log, c, future) && future != []
    ensures Represents(st, log, c, [future[0]]) && Represents(st, log, c, future[1..])
  {
    hide NoncesLogged, KeysLogged, Disturbs;
  }

  ghost function LiveNonces(log: seq<Entry>, c: Config, now: real): set<string> {
    set i | 0 <= i < |log| && Live(log[i], c, now) :: log[i].nonce
  }

  ghost predicate DistinctAt(log: seq<Entry>, c: Config, now: real) {
    forall i, j :: 0 <= i < j < |log| && Live(log[i], c, now) && Live(log[j], c, now) ==>
      log[i].nonce != log[j].nonce
  }

  lemma LiveNoncesAppend(front: seq<Entry>, last: Entry, c: Config, now: real)
    requires DistinctAt(front + [last], c, now)
    ensures DistinctAt(front, c, now)
    ensures Live(last, c, now) ==> last.nonce !in LiveNonces(front, c, now)
    ensures LiveNonces(front + [last], c, now) ==
              LiveNonces(front, c, now) + (if Live(last, c, now) then {last.nonce} else {})
  {
    hide Live;
    var log := front + [last];
    assert log[|front|] == last && forall i :: 0 <= i < |front| ==> log[i] == front[i];
    forall n
      ensures n in LiveNonces(log, c, now) <==>
                n in LiveNonces(front, c, now) || (Live(last, c, now) && n == last.nonce)
    {
      if n in LiveNonces(front, c, now) {
        var i :| 0 <= i < |front| && Live(front[i], c, now) && front[i].nonce == n;
        assert Live(log[i], c, now);
      }
      if Live(last, c, now) && n == last.nonce {
        assert Live(log[|front|], c, now);
      }
    }
  }

  lemma {:induction false} CountsNonces(log: seq<Entry>, c: Config, now: real)
    requires DistinctAt(log, c, now)
    ensures |LiveNonces(log, c, now)| == LiveCount(log, c, now)
  {
    hide DistinctAt, LiveNonces, Live;
    if log == [] {
      NothingLive(c, now);
    } else {
      var front, last := log[..|log| - 1], log[|log| - 1];
      assert log == front + [last];
      LiveNoncesAppend(front, last, c, now);
      CountsNonces(front, c, now);
    }
  }

  lemma NothingLive(c: Config, now: real)
    ensures LiveNonces([], c, now) == {}
  {
  }

  /** The answer read off the pruned maps is the answer read off the log. */
  lemma VerdictFromLog(live: State, log: seq<Entry>, c: Config, r: Request, owner: map<string, string>)
    requires Represents(live, log, c, [r.now]) && Owned(live, owner) && Shape(r).None?
    requires forall n :: n in live.nonces ==> live.nonces[n] > r.now
    requires forall k :: k in live.keys ==> live.keys[k].1 > r.now
    ensures Verdict(live, c, r) == LogVerdict(log, c, r)
  {
    hide IsToken, IsSha256, Represents, Owned, NonceLive, KeyLive, KeyDiffers;
    OwnedBounds(live, owner);
    NonceFromLog(live, log, c, r);
    KeyFromLog(live, log, c, r);
  }

  lemma NonceFromLog(live: State, log: seq<Entry>, c: Config, r: Request)
    requires Represents(live, log, c, [r.now])
    requires forall n :: n in live.nonces ==> live.nonces[n] > r.now
    ensures r.nonce in live.nonces <==> NonceLive(log, c, r.nonce, r.now)
    ensures |live.nonces| == LiveCount(log, c, r.now)
  {
    hide KeysCover, KeysLogged, LogSteady;
    assert [r.now][0] == r.now;
    CountsNonces(log, c, r.now);
    assert live.nonces.Keys == LiveNonces(log, c, r.now);
    assert r.nonce in live.nonces <==> r.nonce in LiveNonces(log, c, r.now);
  }

  lemma KeyFromLog(live: State, log: seq<Entry>, c: Config, r: Request)
    requires Represents(live, log, c, [r.now])
    requires forall k :: k in live.keys ==> live.keys[k].1 > r.now
    ensures r.key in live.keys <==> KeyLive(log, c, r.key, r.now)
    ensures r.key in live.keys && live.keys[r.key].0 != r.payload <==> KeyDiffers(log, c, r.key, r.payload, r.now)
  {
    hide LogSteady, DistinctLive, NoncesCover, NoncesLogged;
    assert [r.now][0] == r.now;
    if r.key in live.keys {
      var i :| 0 <= i < |log| && log[i].key == r.key && log[i].at + c.retention == live.keys[r.key].1;
      assert Live(log[i], c, r.now);
    }
  }

  lemma RecordNonces(nonces: map<string, real>, log: seq<Entry>, c: Config, e: Entry, future: seq<real>)
    requires NoncesCover(nonces, log, c, future) && NoncesLogged(nonces, log, c) && DistinctLive(log, c, future)
    requires e.nonce !in nonces
    ensures var next, nonces' := log + [e], nonces[e.nonce := e.at + c.retention];
            NoncesCover(nonces', next, c, future) && NoncesLogged(nonces', next, c) && DistinctLive(next, c, future)
  {
    hide NoncesLogged, Live;
    assert forall i :: 0 <= i < |log| ==> (log + [e])[i] == log[i];
    LogNonce(nonces, log, c, e);
  }

  lemma LogNonce(nonces: map<string, real>, log: seq<Entry>, c: Config, e: Entry)
    requires NoncesLogged(nonces, log, c)
    ensures NoncesLogged(nonces[e.nonce := e.at + c.retention], log + [e], c)
  {
    var next, nonces' := log + [e], nonces[e.nonce := e.at + c.retention];
    assert next[|log|] == e;
    forall n | n in nonces'
      ensures exists i :: 0 <= i < |next| && next[i].nonce == n && next[i].at + c.retention == nonces'[n]
    {
      if n != e.nonce {
        var i :| 0 <= i < |log| && log[i].nonce == n && log[i].at + c.retention == nonces[n];
        assert next[i] == log[i];
      }
    }
  }

  lemma RecordKeys(keys: map<string, (string, real)>, log: seq<Entry>, c: Config, e: Entry, future: seq<real>)
    requires KeysCover(keys, log, c, future) && KeysLogged(keys, log, c)
    requires LogSteady(log, c, [e.at] + future)
    requires e.key in keys ==> keys[e.key].0 == e.payload
    ensures var next, keys' := log + [e], keys[e.key := (e.payload, e.at + c.retention)];
            KeysCover(keys', next, c, future) && KeysLogged(keys', next, c)
  {
    hide KeysLogged;
    var next, keys' := log + [e], keys[e.key := (e.payload, e.at + c.retention)];
    LogKey(keys, log, c, e);
    forall i, k | 0 <= i < |next| && 0 <= k < |future| && Live(next[i], c, future[k])
      ensures next[i].key in keys' && keys'[next[i].key].0 == next[i].payload && keys'[next[i].key].1 > future[k]
    {
      if i < |log| {
        assert next[i] == log[i];
        assert ([e.at] + future)[0] == e.at && ([e.at] + future)[k + 1] == future[k];
        assert !Disturbs(c.retention, log[i].at, e.at, future[k]);
      }
    }
  }

  lemma LogKey(keys: map<string, (string, real)>, log: seq<Entry>, c: Config, e: Entry)
    requires KeysLogged(keys, log, c)
    ensures KeysLogged(keys[e.key := (e.payload, e.at + c.retention)], log + [e], c)
  {
    var next, keys' := log + [e], keys[e.key := (e.payload, e.at + c.retention)];
    assert next[|log|] == e;
    forall k | k in keys'
      ensures exists i :: 0 <= i < |next| && next[i].key == k && next[i].at + c.retention == keys'[k].1
    {
      if k != e.key {
        var i :| 0 <= i < |log| && log[i].key == k && log[i].at + c.retention == keys[k].1;
        assert next[i] == log[i];
      }
    }
  }

  lemma RecordRepresents(live: State, log: seq<Entry>, c: Config, r: Request, future: seq<real>)
    requires Represents(live, log, c, [r.now] + future) && Steady(c.retention, [r.now] + future)
    requires r.nonce !in live.nonces && (r.key in live.keys ==> live.keys[r.key].0 == r.payload)
    ensures Represents(Record(live, c, r), log + [Entry(r.nonce, r.key, r.payload, r.now)], c, future)
  {
    hide NoncesCover, NoncesLogged, DistinctLive, KeysCover, KeysLogged, LogSteady, Steady;
    var e := Entry(r.nonce, r.key, r.payload, r.now);
    LaterRepresents(live, log, c, [r.now] + future);
    assert ([r.now] + future)[1..] == future;
    RecordNonces(live.nonces, log, c, e, future);
    RecordKeys(live.keys, log, c, e, future);
    SteadyEntry(log, c, e, future);
  }

  lemma SteadyEntry(log: seq<Entry>, c: Config, e: Entry, future: seq<real>)
    requires LogSteady(log, c, future) && Steady(c.retention, [e.at] + future)
    ensures LogSteady(log + [e], c, future)
  {
    hide Disturbs;
    var all := [e.at] + future;
    forall i, j, k | 0 <= i < |log| + 1 && 0 <= j < k < |future|
      ensures !Disturbs(c.retention, (log + [e])[i].at, future[j], future[k])
    {
      assert all[0] == e.at && all[j + 1] == future[j] && all[k + 1] == future[k];
    }
  }

  /** One claim on the guard answers as the log does, and keeps representing it for the claims to come. */
  lemma ClaimRefinesLog(st: State, log: seq<Entry>, c: Config, r: Request, future: seq<real>,
                        owner: map<string, string>)
    requires var coming := (if Shape(r).None? then [r.now] else []) + future;
             Represents(st, log, c, coming) && Steady(c.retention, coming)
    requires Owned(st, owner)
    ensures ClaimStep(st, c, r).1 == LogVerdict(log, c, r)
    ensures Represents(ClaimStep(st, c, r).0, LogNext(log, c, r), c, future)
  {
    hide Represents, Owned, IsToken, IsSha256, Record, Verdict, Steady;
    if Shape(r).None? {
      var coming, live := [r.now] + future, Prune(st, r.now);
      assert coming[0] == r.now && coming[1..] == future;
      PruneRepresents(st, log, c, coming);
      LaterRepresents(live, log, c, coming);
      PruneKeepsOwners(st, owner, r.now);
      VerdictFromLog(live, log, c, r, map k | k in owner && k in live.keys :: owner[k]);
      if Verdict(live, c, r).Accepted? {
        AcceptedMeans(live, c, r);
        RecordRepresents(live, log, c, r, future);
      }
    } else {
      assert [] + future == future;
    }
  }

  lemma AcceptedMeans(live: State, c: Config, r: Request)
    requires Verdict(live, c, r).Accepted?
    ensures r.nonce !in live.nonces && (r.key in live.keys ==> live.keys[r.key].0 == r.payload)
  {
  }

  // Whole runs.

  const EMPTY := State(map[], map[])

  /** The registries after m claims of a run, and the answer to the next. */
  function StateAt(st: State, c: Config, run: seq<Request>, m: nat): State
    requires m <= |run|
  {
    if m == 0 then st else ClaimStep(StateAt(st, c, run, m - 1), c, run[m - 1]).0
  }

  function OutcomeAt(st: State, c: Config, run: seq<Request>, m: nat): Outcome
    requires m < |run|
  {
    ClaimStep(StateAt(st, c, run, m), c, run[m]).1
  }

  /** The log after m claims of a run. */
  ghost function LogAt(c: Config, run: seq<Request>, m: nat): seq<Entry>
    requires m <= |run|
  {
    if m == 0 then [] else LogNext(LogAt(c, run, m - 1), c, run[m - 1])
  }

  /** The guard answers every claim of a run, from empty, as the unbounded log of accepted claims does. */
  ghost predicate Agrees(c: Config, run: seq<Request>) {
    forall m :: 0 <= m < |run| ==> AgreesAt(c, run, m)
  }

  ghost predicate AgreesAt(c: Config, run: seq<Request>, m: nat)
    requires m < |run|
  {
    OutcomeAt(EMPTY, c, run, m) == LogVerdict(LogAt(c, run, m), c, run[m])
  }

  lemma NothingRepresented(c: Config, future: seq<real>)
    ensures Represents(EMPTY, [], c, future) && Owned(EMPTY, map[])
  {
  }

  lemma {:induction false} RunRepresents(c: Config, run: seq<Request>, m: nat) returns (owner: map<string, string>)
    requires m <= |run| && Steady(c.retention, Times(run))
    ensures Represents(StateAt(EMPTY, c, run, m), LogAt(c, run, m), c, Times(run[m..]))
    ensures Steady(c.retention, Times(run[m..])) && Owned(StateAt(EMPTY, c, run, m), owner)
  {
    hide Steady, ClaimStep, LogVerdict, LogNext, Shape, Represents, Owned, NextOwner;
    if m == 0 {
      owner := map[];
      assert run[0..] == run;
      NothingRepresented(c, Times(run));
    } else {
      var before := RunRepresents(c, run, m - 1);
      var st, log, r := StateAt(EMPTY, c, run, m - 1), LogAt(c, run, m - 1), run[m - 1];
      assert run[m - 1..][1..] == run[m..];
      ClaimRefinesLog(st, log, c, r, Times(run[m..]), before);
      KeysNeverFull(st, before, c, r);
      owner := NextOwner(st, before, c, r);
      SteadyTail(c.retention, if Shape(r).None? then [r.now] else [], Times(run[m..]));
    }
  }

  lemma SteadyTail(retention: real, first: seq<real>, rest: seq<real>)
    requires Steady(retention, first + rest)
    ensures Steady(retention, rest)
  {
    hide Disturbs;
    var all := first + rest;
    forall i, j, k | 0 <= i < j < k < |rest|
      ensures !Disturbs(retention, rest[i], rest[j], rest[k])
    {
      assert all[|first| + i] == rest[i] && all[|first| + j] == rest[j] && all[|first| + k] == rest[k];
    }
  }

  /** On a steady clock the guard agrees with the log, whatever is claimed. */
  lemma SteadyRunsAgree(c: Config, run: seq<Request>)
    requires Steady(c.retention, Times(run))
    ensures Agrees(c, run)
  {
    hide Steady, ClaimStep, LogVerdict, LogNext, Shape, Represents, Owned;
    forall m | 0 <= m < |run|
      ensures AgreesAt(c, run, m)
    {
      var owner := RunRepresents(c, run, m);
      assert run[m..][1..] == run[m + 1..];
      ClaimRefinesLog(StateAt(EMPTY, c, run, m), LogAt(c, run, m), c, run[m], Times(run[m + 1..]), owner);
    }
  }

  predicate ClockForward(run: seq<Request>) {
    forall i, j :: 0 <= i < j < |run| ==> run[i].now <= run[j].now
  }

  lemma {:induction false} TimesForward(run: seq<Request>, t: real)
    requires ClockForward(run) && (run != [] ==> t <= run[0].now)
    ensures forall i :: 0 <= i < |Times(run)| ==> t <= Times(run)[i]
    ensures forall i, j :: 0 <= i < j < |Times(run)| ==> Times(run)[i] <= Times(run)[j]
  {
    hide Shape;
    if run != [] {
      var rest := run[1..];
      assert forall i :: 0 <= i < |rest| ==> rest[i] == run[i + 1];
      TimesForward(rest, run[0].now);
      var first := if Shape(run[0]).None? then [run[0].now] else [];
      assert Times(run) == first + Times(rest);
    }
  }

  /** A clock that never steps back is steady, so every such run is answered as the log answers it. */
  lemma GuardRefinesLog(c: Config, run: seq<Request>)
    requires ClockForward(run)
    ensures Agrees(c, run)
  {
    TimesForward(run, if run == [] then 0.0 else run[0].now);
    SteadyRunsAgree(c, run);
  }

  /** So is every run shorter than the retention, however its clock jumps. */
  lemma ShortRunsAgree(c: Config, run: seq<Request>)
    requires forall i, j :: 0 <= i < |Times(run)| && 0 <= j < |Times(run)| ==>
               Times(run)[j] < Times(run)[i] + c.retention
    ensures Agrees(c, run)
  {
    SteadyRunsAgree(c, run);
  }

  /** On every run, with any clock, the key registry never reports itself full. */
  lemma KeysNeverFullOnRuns(st: State, owner: map<string, string>, c: Config, run: seq<Request>, m: nat)
    requires Owned(st, owner) && m < |run|
    ensures OutcomeAt(st, c, run, m) != Refused(KeysFull)
  {
    hide Owned, ClaimStep;
    var now := RunOwned(st, owner, c, run, m);
    KeysNeverFull(StateAt(st, c, run, m), now, c, run[m]);
  }

  lemma {:induction false} RunOwned(st: State, owner: map<string, string>, c: Config, run: seq<Request>, m: nat)
    returns (now: map<string, string>)
    requires Owned(st, owner) && m <= |run|
    ensures Owned(StateAt(st, c, run, m), now)
  {
    hide Owned, ClaimStep;
    now := owner;
    if m > 0 {
      var before := RunOwned(st, owner, c, run, m - 1);
      KeysNeverFull(StateAt(st, c, run, m - 1), before, c, run[m - 1]);
      now := NextOwner(StateAt(st, c, run, m - 1), before, c, run[m - 1]);
    }
  }
}
