/**
Verification of governed webhook events: timestamp skew, signature, payload,
source, replay claim and receipt draft, in that order.
*/
module GovernedWebhook {
  import opened Common
  import opened Decimals
  import opened ReplayGuard

  /** A local time since the start of year 1 and its offset from UTC, both in microseconds. */
  datatype Moment = Moment(local: int, offset: int)

  /** Converting to UTC stays within the calendar. */
  predicate UtcInRange(m: Moment) {
    InCalendar(m.local - m.offset)
  }

  datatype Event = Event(sourceId: string, subjectType: string, subjectId: string, occurredAt: Moment)

  datatype Message = Message(timestamp: string, nonce: string, key: string, signature: Option<string>, body: string)

  /**
  Configuration, with the HMAC, the payload digest and the event decoder as
  functions; the decoder checks every field but the three identifiers.
  */
  datatype Env = Env(
    guard: Config, skew: real, hasSecret: bool, allowUnsigned: bool, sources: set<string>,
    hmac: (string, string, string) -> string, sha256: string -> string, parse: string -> Option<Event>)

  datatype Failure = BadTimestamp | Skewed | BadNonceText | BadSignature | BadPayload | UnknownSource
                   | ClaimFailed(error: Error) | BadInstant | BadDraft

  datatype Verification = Verified(replayed: bool) | Rejected(failure: Failure)

  /** Unix seconds written canonically: digits without sign or leading zero. */
  function CanonicalSeconds(text: string): Option<nat> {
    if text != "" && AllDigits(text) && (|text| == 1 || text[0] != '0') then Some(NatOf(text)) else None
  }

  predicate SignatureOk(env: Env, m: Message) {
    if env.hasSecret then m.signature.Some? && m.signature.value == env.hmac(m.timestamp, m.nonce, m.body)
    else env.allowUnsigned
  }

  predicate Within(env: Env, seconds: nat, now: real) {
    -env.skew <= now - seconds as real <= env.skew
  }

  /** Identifiers of a parsed event: 1 to 128 safe characters. */
  predicate IsSafeId(s: string) { IsSafeText(s, 1, 128) }

  predicate EventOk(e: Event) {
    IsSafeId(e.sourceId) && IsSafeId(e.subjectType) && IsSafeId(e.subjectId)
  }

  function ParsedEvent(env: Env, body: string): Option<Event> {
    var decoded := env.parse(body);
    if decoded.Some? && EventOk(decoded.value) then decoded else None
  }

  /** What the receipt draft demands of a parsed event; its identifiers hold no white space to strip. */
  predicate DraftOk(e: Event) {
    IsName(e.subjectType) && 1 <= |e.subjectId| <= 256
  }

  /** Everything verify decides before it touches the guard. */
  function Precheck(env: Env, m: Message, now: real): Option<Failure> {
    var seconds := CanonicalSeconds(m.timestamp);
    if seconds.None? then Some(BadTimestamp)
    else if !Within(env, seconds.value, now) then Some(Skewed)
    else if !IsToken(m.nonce) then Some(BadNonceText)
    else if !SignatureOk(env, m) then Some(BadSignature)
    else if ParsedEvent(env, m.body).None? then Some(BadPayload)
    else if ParsedEvent(env, m.body).value.sourceId !in env.sources then Some(UnknownSource)
    else None
  }

  function RequestOf(env: Env, m: Message, now: real): Request {
    Request(m.nonce, m.key, env.sha256(m.body), now)
  }

  function VerifyStep(st: State, env: Env, m: Message, now: real): (State, Verification) {
    var failure := Precheck(env, m, now);
    if failure.Some? then (st, Rejected(failure.value))
    else
      var (next, outcome) := ClaimStep(st, env.guard, RequestOf(env, m, now));
      var event := ParsedEvent(env, m.body).value;
      if outcome.Refused? then (next, Rejected(ClaimFailed(outcome.error)))
      else if !UtcInRange(event.occurredAt) then (next, Rejected(BadInstant))
      else if !DraftOk(event) then (next, Rejected(BadDraft))
      else (next, Verified(outcome.replayed))
  }

  class GovernedEventVerifier {
    const env: Env
    const protector: ReplayProtector

    constructor (env: Env, protector: ReplayProtector)
      requires env.guard == protector.config
      ensures this.env == env && this.protector == protector
    {
      this.env, this.protector := env, protector;
    }

    /** The call moves the shared guard and answers as VerifyStep says, also when it raises after the claim. */
    method Verify(m: Message, now: real) returns (r: Verification)
      requires protector.Valid() && env.guard == protector.config
      modifies protector
      ensures protector.Valid()
      ensures protector.Current() == VerifyStep(old(protector.Current()), env, m, now).0
      ensures r == VerifyStep(old(protector.Current()), env, m, now).1
      ensures r.Verified? <==>
                && Timely(env, m, now) && Authentic(env, m) && Claimable(old(protector.Current()), env, m, now)
                && exists e :: KnownEvent(env, m, e) && Receiptable(e)
      ensures !Authentic(env, m) ==> r.Rejected? && protector.Current() == old(protector.Current())
    {
      hide Timely, Authentic, Claimable, KnownEvent, Receiptable;
      VerifiedExactly(protector.Current(), env, m, now);
      if !Authentic(env, m) {
        UnauthenticChangesNothing(protector.Current(), env, m, now);
      }
      hide IsToken, ClaimStep, IsName, EventOk;
      var seconds := CanonicalSeconds(m.timestamp);
      if seconds.None? {
        return Rejected(BadTimestamp);
      }
      if !Within(env, seconds.value, now) {
        return Rejected(Skewed);
      }
      if !IsToken(m.nonce) {
        return Rejected(BadNonceText);
      }
      if !SignatureOk(env, m) {
        return Rejected(BadSignature);
      }
      var event := ParsedEvent(env, m.body);
      if event.None? {
        return Rejected(BadPayload);
      }
      if event.value.sourceId !in env.sources {
        return Rejected(UnknownSource);
      }
      var outcome := protector.Claim(RequestOf(env, m, now));
      if outcome.Refused? {
        return Rejected(ClaimFailed(outcome.error));
      }
      if !UtcInRange(event.value.occurredAt) {
        return Rejected(BadInstant);
      }
      if !DraftOk(event.value) {
        return Rejected(BadDraft);
      }
      return Verified(outcome.replayed);
    }
  }

  // The verdict, written out.

  ghost predicate Letter(c: char) {
    'A' <= c <= 'Z' || 'a' <= c <= 'z' || '0' <= c <= '9'
  }

  /** Letters and digits, and after the first character also . _ : - */
  ghost predicate Identifier(s: string, least: nat, most: nat) {
    && 1 <= |s| && least <= |s| <= most && Letter(s[0])
    && forall i :: 0 <= i < |s| ==> Letter(s[i]) || s[i] == '.' || s[i] == '_' || s[i] == ':' || s[i] == '-'
  }

  ghost predicate LowerName(s: string) {
    && 1 <= |s| <= 128 && 'a' <= s[0] <= 'z'
    && forall i :: 0 <= i < |s| ==>
         || 'a' <= s[i] <= 'z' || '0' <= s[i] <= '9' || s[i] == '_' || s[i] == '.' || s[i] == ':' || s[i] == '-'
  }

  ghost predicate HexDigest(s: string) {
    |s| == 64 && forall i :: 0 <= i < 64 ==> '0' <= s[i] <= '9' || 'a' <= s[i] <= 'f'
  }

  /** The timestamp prints a natural number of seconds at most `skew` away from now. */
  ghost predicate Timely(env: Env, m: Message, now: real) {
    exists t: nat :: m.timestamp == NatText(t) && t as real - env.skew <= now <= t as real + env.skew
  }

  /** With a secret the signature is the HMAC; without one, unsigned messages must be allowed. */
  ghost predicate Authentic(env: Env, m: Message) {
    if env.hasSecret then m.signature == Some(env.hmac(m.timestamp, m.nonce, m.body)) else env.allowUnsigned
  }

  ghost predicate KnownEvent(env: Env, m: Message, e: Event) {
    && env.parse(m.body) == Some(e) && Identifier(e.sourceId, 1, 128) && Identifier(e.subjectType, 1, 128)
    && Identifier(e.subjectId, 1, 128) && e.sourceId in env.sources
  }

  ghost function LiveKeySet(st: State, now: real): set<string> {
    set k | k in st.keys && st.keys[k].1 > now
  }

  /** The nonce is new, there is room for it, and the key is new with room for it, or bound to this very body. */
  ghost predicate Claimable(st: State, env: Env, m: Message, now: real) {
    && Identifier(m.nonce, 16, 128) && Identifier(m.key, 16, 128) && HexDigest(env.sha256(m.body))
    && m.nonce !in LiveNonceSet(st, now) && |LiveNonceSet(st, now)| < env.guard.maxEntries
    && if m.key in LiveKeySet(st, now) then st.keys[m.key].0 == env.sha256(m.body)
       else |LiveKeySet(st, now)| < env.guard.maxEntries
  }

  ghost predicate Receiptable(e: Event) {
    0 <= e.occurredAt.local - e.occurredAt.offset < 3_652_059 * 86_400_000_000 && LowerName(e.subjectType)
  }

  lemma IdentifiersAreSafe(s: string, least: nat, most: nat)
    ensures IsSafeText(s, least, most) <==> Identifier(s, least, most)
  {
  }

  lemma NamesAreLower(s: string)
    ensures IsName(s) <==> LowerName(s)
  {
  }

  /** A canonical timestamp is the printed form of the number it reads as. */
  lemma SecondsRead(text: string, t: nat)
    ensures CanonicalSeconds(text) == Some(t) <==> text == NatText(t)
  {
    NatTextReads(t);
    NoLeadingZero(t);
    if text != "" && AllDigits(text) && (|text| == 1 || text[0] != '0') {
      TextOfReading(text);
    }
  }

  lemma TimelyExactly(env: Env, m: Message, now: real)
    ensures Timely(env, m, now) <==>
              CanonicalSeconds(m.timestamp).Some? && Within(env, CanonicalSeconds(m.timestamp).value, now)
  {
    hide CanonicalSeconds, NatText;
    if CanonicalSeconds(m.timestamp).Some? {
      SecondsRead(m.timestamp, CanonicalSeconds(m.timestamp).value);
    }
    forall t: nat | m.timestamp == NatText(t)
      ensures CanonicalSeconds(m.timestamp) == Some(t)
    {
      SecondsRead(m.timestamp, t);
    }
  }

  lemma PrecheckExactly(env: Env, m: Message, now: real)
    ensures Precheck(env, m, now).None? <==>
              && Timely(env, m, now) && Identifier(m.nonce, 16, 128) && Authentic(env, m)
              && exists e :: KnownEvent(env, m, e)
    ensures forall e :: KnownEvent(env, m, e) ==> ParsedEvent(env, m.body) == Some(e)
  {
    hide CanonicalSeconds, Timely, Identifier, IsSafeText;
    TimelyExactly(env, m, now);
    IdentifiersAreSafe(m.nonce, 16, 128);
    if env.parse(m.body).Some? {
      var e := env.parse(m.body).value;
      IdentifiersAreSafe(e.sourceId, 1, 128);
      IdentifiersAreSafe(e.subjectType, 1, 128);
      IdentifiersAreSafe(e.subjectId, 1, 128);
      assert KnownEvent(env, m, e) <==> EventOk(e) && e.sourceId in env.sources;
    }
  }

  lemma ClaimExactly(st: State, env: Env, m: Message, now: real)
    ensures ClaimStep(st, env.guard, RequestOf(env, m, now)).1.Accepted? <==> Claimable(st, env, m, now)
    ensures ClaimStep(st, env.guard, RequestOf(env, m, now)).1 == Accepted(true) <==>
              Claimable(st, env, m, now) && m.key in LiveKeySet(st, now)
  {
    hide Identifier, IsSafeText;
    IdentifiersAreSafe(m.nonce, 16, 128);
    IdentifiersAreSafe(m.key, 16, 128);
    var live := Prune(st, now);
    assert live.nonces.Keys == LiveNonceSet(st, now) && live.keys.Keys == LiveKeySet(st, now);
    assert |live.nonces| == |live.nonces.Keys| && |live.keys| == |live.keys.Keys|;
  }

  /**
  A message is verified exactly when it is timely, its nonce and key are well
  formed, it is authentic, its event is known, the guard has room for it, and
  the event can be written into a receipt.
  */
  lemma VerifiedExactly(st: State, env: Env, m: Message, now: real)
    ensures VerifyStep(st, env, m, now).1.Verified? <==>
              && Timely(env, m, now) && Authentic(env, m) && Claimable(st, env, m, now)
              && exists e :: KnownEvent(env, m, e) && Receiptable(e)
    ensures VerifyStep(st, env, m, now).1 == Verified(true) ==> m.key in LiveKeySet(st, now)
    ensures VerifyStep(st, env, m, now).1 == Verified(false) ==> m.key !in LiveKeySet(st, now)
  {
    hide CanonicalSeconds, Timely, Identifier, IsName, LowerName, ClaimStep, Authentic, LiveNonceSet, LiveKeySet,
         Precheck, Letter;
    PrecheckExactly(env, m, now);
    ClaimExactly(st, env, m, now);
    if e :| KnownEvent(env, m, e) {
      NamesAreLower(e.subjectType);
      SubjectFits(e.subjectId);
    }
  }

  lemma SubjectFits(s: string)
    ensures Identifier(s, 1, 128) ==> 1 <= |s| <= 256
  {
  }

  /** An unauthentic message is never verified and leaves the guard as it was. */
  lemma UnauthenticChangesNothing(st: State, env: Env, m: Message, now: real)
    requires !Authentic(env, m)
    ensures VerifyStep(st, env, m, now).0 == st && VerifyStep(st, env, m, now).1.Rejected?
  {
    hide CanonicalSeconds, IsToken;
  }

  // A rejection that has already spent the nonce.

  /** m passes every check except the skew, the replay guard and those made after the claim. */
  ghost predicate Presentable(env: Env, m: Message) {
    && CanonicalSeconds(m.timestamp).Some? && SignatureOk(env, m) && Shape(RequestOf(env, m, 0.0)).None?
    && ParsedEvent(env, m.body).Some? && ParsedEvent(env, m.body).value.sourceId in env.sources
  }

  /** The call is rejected, and yet it has recorded its nonce. */
  ghost predicate LeavesClaim(st: State, env: Env, m: Message, now: real) {
    var (next, v) := VerifyStep(st, env, m, now);
    v.Rejected? && m.nonce in next.nonces && (m.nonce in st.nonces ==> st.nonces[m.nonce] != next.nonces[m.nonce])
  }

  lemma SafeEventsDraft(e: Event)
    requires EventOk(e)
    ensures DraftOk(e) <==> IsName(e.subjectType)
  {
    hide IsName;
  }

  /** A refused claim only drops what has expired. */
  lemma RefusedClaimsDrop(st: State, c: Config, r: Request)
    requires ClaimStep(st, c, r).1.Refused?
    ensures forall n :: n in ClaimStep(st, c, r).0.nonces ==>
              n in st.nonces && st.nonces[n] == ClaimStep(st, c, r).0.nonces[n]
    ensures forall k :: k in ClaimStep(st, c, r).0.keys ==> k in st.keys && st.keys[k] == ClaimStep(st, c, r).0.keys[k]
  {
    hide IsToken, IsSha256;
  }

  lemma AcceptedClaimsRecord(st: State, c: Config, r: Request)
    requires ClaimStep(st, c, r).1.Accepted?
    ensures ClaimStep(st, c, r).0 == Record(Prune(st, r.now), c, r)
    ensures Shape(r).None? && (r.nonce in st.nonces ==> st.nonces[r.nonce] <= r.now)
  {
    hide IsToken, IsSha256;
  }

  /** A rejection for an event the receipt can represent has recorded neither nonce nor key. */
  lemma OtherRejectionsRecordNothing(st: State, env: Env, m: Message, now: real)
    requires VerifyStep(st, env, m, now).1.Rejected?
    requires ParsedEvent(env, m.body).Some? ==>
               var event := ParsedEvent(env, m.body).value; IsName(event.subjectType) && UtcInRange(event.occurredAt)
    ensures var next := VerifyStep(st, env, m, now).0;
            && (forall n :: n in next.nonces ==> n in st.nonces && st.nonces[n] == next.nonces[n])
            && (forall k :: k in next.keys ==> k in st.keys && st.keys[k] == next.keys[k])
            && !LeavesClaim(st, env, m, now)
  {
    hide IsToken, IsSha256, IsName, ClaimStep, EventOk, DraftOk, CanonicalSeconds;
    if Precheck(env, m, now).None? {
      SafeEventsDraft(ParsedEvent(env, m.body).value);
      RefusedClaimsDrop(st, env.guard, RequestOf(env, m, now));
    }
  }

  /** What an empty guard answers a presentable message within its window, and what it has recorded by then. */
  lemma FirstCall(env: Env, m: Message, now: real)
    requires Presentable(env, m) && Within(env, CanonicalSeconds(m.timestamp).value, now) && env.guard.maxEntries > 0
    ensures var event := ParsedEvent(env, m.body).value;
            VerifyStep(EMPTY, env, m, now) ==
              (Record(EMPTY, env.guard, RequestOf(env, m, now)),
               if !UtcInRange(event.occurredAt) then Rejected(BadInstant)
               else if !IsName(event.subjectType) then Rejected(BadDraft)
               else Verified(false))
  {
    hide IsToken, IsSha256, IsName, CanonicalSeconds, Record, DraftOk, EventOk;
    SafeEventsDraft(ParsedEvent(env, m.body).value);
    assert Prune(EMPTY, now) == EMPTY;
  }

  /**
  Some state and time reject a presentable message after recording it if and
  only if its subject type is no receipt name or its instant has no UTC form.
  */
  lemma RejectedYetClaimed(env: Env, m: Message)
    requires Presentable(env, m) && env.guard.maxEntries > 0 && env.skew >= 0.0
    ensures var event := ParsedEvent(env, m.body).value;
            (exists st, now :: LeavesClaim(st, env, m, now))
              <==> !IsName(event.subjectType) || !UtcInRange(event.occurredAt)
  {
    hide IsToken, IsSha256, IsName, CanonicalSeconds, SignatureOk, VerifyStep, UtcInRange, ParsedEvent;
    var event := ParsedEvent(env, m.body).value;
    if !IsName(event.subjectType) || !UtcInRange(event.occurredAt) {
      var now := CanonicalSeconds(m.timestamp).value as real;
      FirstCall(env, m, now);
      RecordHolds(env.guard, RequestOf(env, m, now));
      assert LeavesClaim(EMPTY, env, m, now);
    } else {
      forall st, now
        ensures !LeavesClaim(st, env, m, now)
      {
        if VerifyStep(st, env, m, now).1.Rejected? {
          OtherRejectionsRecordNothing(st, env, m, now);
        }
      }
    }
  }

  lemma RecordHolds(c: Config, r: Request)
    ensures r.nonce in Record(EMPTY, c, r).nonces && r.key in Record(EMPTY, c, r).keys
  {
  }

  /** 0001-01-01T00:00:00+01:00 */
  const BEFORE_CALENDAR := Moment(0, 3_600_000_000)

  /** 9999-12-31T23:59:59-01:00 */
  const AFTER_CALENDAR := Moment(CALENDAR - 1_000_000, -3_600_000_000)

  /** Both kinds exist: identifiers the parser takes, and instants it takes, that spend the nonce of a first call. */
  lemma RejectedFirstCalls(env: Env, m: Message, now: real)
    requires Presentable(env, m) && Within(env, CanonicalSeconds(m.timestamp).value, now) && env.guard.maxEntries > 0
    ensures IsSafeId("Deploy") && IsSafeId("deploy")
    ensures var event, recorded := ParsedEvent(env, m.body).value, Record(EMPTY, env.guard, RequestOf(env, m, now));
            && (event.subjectType == "Deploy" && UtcInRange(event.occurredAt) ==>
                  VerifyStep(EMPTY, env, m, now) == (recorded, Rejected(BadDraft)))
            && (event.occurredAt in {BEFORE_CALENDAR, AFTER_CALENDAR} ==>
                  VerifyStep(EMPTY, env, m, now) == (recorded, Rejected(BadInstant)))
  {
    hide VerifyStep, CanonicalSeconds, Presentable, ParsedEvent;
    FirstCall(env, m, now);
  }

  /** Presentable messages exist for every event with safe identifiers, under the default limits. */
  lemma PresentableMessage(event: Event) returns (env: Env, m: Message)
    requires EventOk(event)
    ensures Presentable(env, m) && ParsedEvent(env, m.body) == Some(event)
    ensures env.guard == Config(900.0, 20_000) && env.skew == 300.0
    ensures Within(env, CanonicalSeconds(m.timestamp).value, 0.0)
  {
    hide EventOk;
    var token, digest := seq(16, _ => 'a'), seq(64, _ => '0');
    env := Env(Config(900.0, 20_000), 300.0, false, true, {event.sourceId},
               (t, n, b) => "", b => digest, b => Some(event));
    m := Message("0", token, token, None, "");
    assert AllDigits("0") && "0"[..0] == "";
    assert env.sources == {event.sourceId};
  }

  // At most one acceptance.

  datatype Call = Call(message: Message, now: real)

  /** The outcome of the i-th call of a run. */
  function VerificationAt(st: State, env: Env, run: seq<Call>, i: nat): Verification
    requires i < |run|
    decreases i
  {
    var (next, v) := VerifyStep(st, env, run[0].message, run[0].now);
    if i == 0 then v else VerificationAt(next, env, run[1..], i - 1)
  }

  predicate ClockMovesForward(run: seq<Call>) {
    forall i, j :: 0 <= i < j < |run| ==> run[i].now <= run[j].now
  }

  ghost predicate SameMessage(a: Call, b: Call) {
    a.message.timestamp == b.message.timestamp && a.message.nonce == b.message.nonce
  }

  /** On every run of one shared guard, no (timestamp, nonce) is verified twice. */
  ghost predicate AtMostOnce(env: Env) {
    forall run: seq<Call>, i, j :: ClockMovesForward(run) && 0 <= i < j < |run| && SameMessage(run[i], run[j]) ==>
      !(VerificationAt(EMPTY, env, run, i).Verified? && VerificationAt(EMPTY, env, run, j).Verified?)
  }

  /** While its expiry is ahead, a recorded nonce stays recorded and refuses every new claim on it. */
  lemma LiveNonceBlocks(st: State, env: Env, m: Message, now: real, nonce: string, expiry: real)
    requires nonce in st.nonces && st.nonces[nonce] == expiry > now
    ensures nonce in VerifyStep(st, env, m, now).0.nonces && VerifyStep(st, env, m, now).0.nonces[nonce] == expiry
    ensures m.nonce == nonce ==> VerifyStep(st, env, m, now).1.Rejected?
  {
    hide IsToken, IsSha256, IsName, Precheck;
  }

  lemma {:induction false} BlockedUntilExpiry(st: State, env: Env, run: seq<Call>, j: nat, nonce: string, expiry: real)
    requires ClockMovesForward(run) && j < |run| && run[j].message.nonce == nonce && run[j].now < expiry
    requires nonce in st.nonces && st.nonces[nonce] == expiry
    ensures VerificationAt(st, env, run, j).Rejected?
    decreases j
  {
    hide VerifyStep;
    LiveNonceBlocks(st, env, run[0].message, run[0].now, nonce, expiry);
    if j > 0 {
      BlockedUntilExpiry(VerifyStep(st, env, run[0].message, run[0].now).0, env, run[1..], j - 1, nonce, expiry);
    }
  }

  // A correction under the same key.

  /** The key is bound to a payload at least until the given time. */
  ghost predicate Bound(st: State, key: string, payload: string, until: real) {
    key in st.keys && st.keys[key].0 == payload && st.keys[key].1 >= until
  }

  lemma BoundKeyBlocks(st: State, env: Env, m: Message, now: real, key: string, payload: string, until: real)
    requires Bound(st, key, payload, until) && now < until <= now + env.guard.retention
    ensures Bound(VerifyStep(st, env, m, now).0, key, payload, until)
    ensures m.key == key && env.sha256(m.body) != payload ==> VerifyStep(st, env, m, now).1.Rejected?
  {
    hide IsToken, IsSha256, IsName, Precheck;
  }

  lemma {:induction false} BoundUntilExpiry(st: State, env: Env, run: seq<Call>, j: nat, key: string,
                                            payload: string, until: real)
    requires ClockMovesForward(run) && j < |run| && run[j].message.key == key
    requires env.sha256(run[j].message.body) != payload
    requires Bound(st, key, payload, until) && run[j].now < until <= run[0].now + env.guard.retention
    ensures VerificationAt(st, env, run, j).Rejected?
    decreases j
  {
    hide VerifyStep, Bound;
    BoundKeyBlocks(st, env, run[0].message, run[0].now, key, payload, until);
    if j > 0 {
      BoundUntilExpiry(VerifyStep(st, env, run[0].message, run[0].now).0, env, run[1..], j - 1, key, payload, until);
    }
  }

  lemma ClaimBinds(st: State, env: Env, m: Message, now: real)
    requires LeavesClaim(st, env, m, now)
    ensures var next := VerifyStep(st, env, m, now).0;
            && Bound(next, m.key, env.sha256(m.body), now + env.guard.retention)
            && m.nonce in next.nonces && next.nonces[m.nonce] == now + env.guard.retention
  {
    hide IsToken, IsSha256, IsName, ClaimStep, EventOk, DraftOk, CanonicalSeconds, Precheck;
    var r := RequestOf(env, m, now);
    if Precheck(env, m, now).None? && ClaimStep(st, env.guard, r).1.Accepted? {
      AcceptedClaimsRecord(st, env.guard, r);
    } else if Precheck(env, m, now).None? {
      RefusedClaimsDrop(st, env.guard, r);
    }
  }

  /**
  After such a rejection the sender cannot correct the event: until the claim
  expires, every call with the same nonce, or with the same key and another
  body, is rejected too, whatever is called in between.
  */
  lemma CorrectionRefused(st: State, env: Env, run: seq<Call>, j: nat)
    requires ClockMovesForward(run) && 0 < j < |run| && LeavesClaim(st, env, run[0].message, run[0].now)
    requires run[j].now < run[0].now + env.guard.retention
    requires || run[j].message.nonce == run[0].message.nonce
             || (run[j].message.key == run[0].message.key
                 && env.sha256(run[j].message.body) != env.sha256(run[0].message.body))
    ensures VerificationAt(st, env, run, j).Rejected?
  {
    hide VerifyStep, LeavesClaim, Bound;
    var first, until := run[0].message, run[0].now + env.guard.retention;
    ClaimBinds(st, env, first, run[0].now);
    var next := VerifyStep(st, env, first, run[0].now).0;
    if run[j].message.nonce == first.nonce {
      BlockedUntilExpiry(next, env, run[1..], j - 1, first.nonce, until);
    } else {
      BoundUntilExpiry(next, env, run[1..], j - 1, first.key, env.sha256(first.body), until);
    }
  }

  // Never twice.

  lemma VerifiedRecords(st: State, env: Env, m: Message, now: real)
    requires VerifyStep(st, env, m, now).1.Verified?
    ensures CanonicalSeconds(m.timestamp).Some? && Within(env, CanonicalSeconds(m.timestamp).value, now)
    ensures m.nonce in VerifyStep(st, env, m, now).0.nonces
    ensures VerifyStep(st, env, m, now).0.nonces[m.nonce] == now + env.guard.retention
  {
    hide IsToken, IsSha256, IsName;
  }

  lemma {:induction false} VerifiedIsTimely(st: State, env: Env, run: seq<Call>, i: nat)
    requires i < |run| && VerificationAt(st, env, run, i).Verified?
    ensures var t := CanonicalSeconds(run[i].message.timestamp); t.Some? && Within(env, t.value, run[i].now)
    decreases i
  {
    hide VerifyStep, CanonicalSeconds, Within;
    if i == 0 {
      VerifiedRecords(st, env, run[0].message, run[0].now);
    } else {
      VerifiedIsTimely(VerifyStep(st, env, run[0].message, run[0].now).0, env, run[1..], i - 1);
    }
  }

  lemma {:induction false} NeverTwice(st: State, env: Env, run: seq<Call>, i: nat, j: nat)
    requires env.guard.retention > 2.0 * env.skew && ClockMovesForward(run) && i < j < |run|
    requires SameMessage(run[i], run[j])
    ensures !(VerificationAt(st, env, run, i).Verified? && VerificationAt(st, env, run, j).Verified?)
    decreases i
  {
    hide VerifyStep, CanonicalSeconds;
    var next := VerifyStep(st, env, run[0].message, run[0].now).0;
    if i > 0 {
      NeverTwice(next, env, run[1..], i - 1, j - 1);
    } else if VerificationAt(st, env, run, i).Verified? && VerificationAt(st, env, run, j).Verified? {
      VerifiedRecords(st, env, run[0].message, run[0].now);
      VerifiedIsTimely(st, env, run, j);
      BlockedUntilExpiry(next, env, run[1..], j - 1, run[0].message.nonce, run[0].now + env.guard.retention);
    }
  }

  /** m passes every check other than skew and replay. */
  ghost predicate Acceptable(env: Env, m: Message) {
    && Presentable(env, m)
    && UtcInRange(ParsedEvent(env, m.body).value.occurredAt) && DraftOk(ParsedEvent(env, m.body).value)
  }

  lemma AcceptedWhenClear(st: State, env: Env, m: Message, now: real)
    requires Acceptable(env, m) && Within(env, CanonicalSeconds(m.timestamp).value, now)
    requires Prune(st, now) == EMPTY && env.guard.maxEntries > 0
    ensures VerifyStep(st, env, m, now) == (Record(EMPTY, env.guard, RequestOf(env, m, now)), Verified(false))
  {
    hide IsToken, IsSha256, IsName, CanonicalSeconds, Prune, Record;
  }

  lemma RecordExpires(c: Config, r: Request, now: real)
    requires r.now + c.retention <= now
    ensures Prune(Record(EMPTY, c, r), now) == EMPTY
  {
  }

  /** With too short a retention, one message is verified at both edges of its skew window. */
  lemma TwiceAtTheEdges(env: Env, m: Message) returns (run: seq<Call>)
    requires Acceptable(env, m) && env.guard.maxEntries > 0 && env.skew >= 0.0 && env.guard.retention <= 2.0 * env.skew
    ensures ClockMovesForward(run) && |run| == 2 && SameMessage(run[0], run[1])
    ensures VerificationAt(EMPTY, env, run, 0).Verified? && VerificationAt(EMPTY, env, run, 1).Verified?
  {
    hide VerifyStep, CanonicalSeconds, SignatureOk, DraftOk, Shape, Record;
    var t := CanonicalSeconds(m.timestamp).value as real;
    var early, late := t - env.skew, t + env.skew;
    run := [Call(m, early), Call(m, late)];
    assert Prune(EMPTY, early) == EMPTY;
    AcceptedWhenClear(EMPTY, env, m, early);
    RecordExpires(env.guard, RequestOf(env, m, early), late);
    AcceptedWhenClear(Record(EMPTY, env.guard, RequestOf(env, m, early)), env, m, late);
    assert run[1..] == [Call(m, late)];
  }

  /**
  A guard shared by every call admits a message at most once on all runs with a
  non-decreasing clock exactly when its retention exceeds twice the skew.
  */
  lemma AtMostOnceIffLongRetention(env: Env, m: Message)
    requires Acceptable(env, m) && env.guard.maxEntries > 0 && env.skew >= 0.0
    ensures AtMostOnce(env) <==> env.guard.retention > 2.0 * env.skew
  {
    hide VerificationAt, Acceptable, ClockMovesForward, SameMessage;
    if env.guard.retention > 2.0 * env.skew {
      forall run: seq<Call>, i, j | ClockMovesForward(run) && 0 <= i < j < |run| && SameMessage(run[i], run[j])
        ensures !(VerificationAt(EMPTY, env, run, i).Verified? && VerificationAt(EMPTY, env, run, j).Verified?)
      {
        NeverTwice(EMPTY, env, run, i, j);
      }
    } else {
      var run := TwiceAtTheEdges(env, m);
      assert SameMessage(run[0], run[1]);
    }
  }
}
