/**
Per-stream hash chains of a preserved database: one pass over each table
verifies the interleaved chains of all scopes against the stream heads.
*/
module HashChains {
  import opened Common
  import opened Json
  import opened JsonEquality

  datatype Stream = Receipts | Idempotency | Memory | Anatomy | Operational

  const STREAMS := [Receipts, Idempotency, Memory, Anatomy, Operational]

  datatype Scope = Scope(tenant: string, workspace: string)

  /** A stored instant: local microseconds and, if the database kept one, the offset from UTC. */
  datatype Stamp = Stamp(local: int, offset: Option<int>)

  /**
  One table row: text columns, the version column, JSON columns and datetime
  columns.  A text or JSON column that holds null is absent.
  */
  datatype Row = Row(
    scope: Scope, sequence: int, previousHash: Option<string>, recordHash: string, basis: Json,
    texts: map<string, string>, version: int, documents: map<string, Json>, times: map<string, Stamp>)

  datatype Head = Head(lastSequence: int, lastHash: Option<string>)

  datatype Database = Database(scopes: set<Scope>, heads: map<(Scope, Stream), Head>, tables: map<Stream, seq<Row>>)

  /** The digest of canonical JSON, and the UTC rendering of an instant. */
  datatype Env = Env(sha256: Json -> string, iso: int -> string)

  // Projections.

  function TextColumn(row: Row, name: string): Json {
    if name in row.texts then Str(row.texts[name]) else Null
  }

  function Document(row: Row, column: string): Json {
    if column in row.documents then row.documents[column] else Null
  }

  /** The instant a stamp stands for; naive stamps are UTC. */
  function Instant(s: Stamp): int {
    s.local - (if s.offset.Some? then s.offset.value else 0)
  }

  function Timestamp(row: Row, name: string, env: Env): Json {
    if name in row.times then Str(env.iso(Instant(row.times[name]))) else Null
  }

  function ScopeFields(row: Row): map<string, Json> {
    map["tenant_id" := Str(row.scope.tenant), "workspace_id" := Str(row.scope.workspace)]
  }

  function Schema(stream: Stream): string {
    match stream
    case Receipts => "szl.lyte.receipt/v1"
    case Idempotency => "szl.lyte.idempotency-record/v1"
    case Memory => "szl.lyte.memory-record/v2"
    case Anatomy => "szl.lyte.anatomy-trace/v1"
    case Operational => "szl.lyte.operational-record/v1"
  }

  function StreamName(stream: Stream): string {
    match stream
    case Receipts => "receipts"
    case Idempotency => "idempotency"
    case Memory => "memory"
    case Anatomy => "anatomy"
    case Operational => "operational"
  }

  function TextNames(stream: Stream): set<string> {
    match stream
    case Receipts => {"kind", "subject_type", "subject_id", "truth_label", "payload_sha256"}
    case Idempotency => {"key_digest", "request_digest", "response_receipt_hash"}
    case Memory => {"memory_kind", "summary", "truth_label", "receipt_hash"}
    case Anatomy => {"trace_id", "span_id", "parent_span_id", "organ", "operation", "state", "truth_label",
                     "input_sha256", "output_sha256"}
    case Operational => {"entity_kind", "entity_id", "name", "truth_label", "source_revision"}
  }

  /** The JSON columns of a stream, under their projected names. */
  function DocumentNames(stream: Stream): map<string, string> {
    match stream
    case Receipts => map["evidence_refs" := "evidence_refs", "payload" := "payload_json"]
    case Idempotency => map[]
    case Memory => map["evidence_refs" := "evidence_refs", "subjects" := "subjects", "metadata" := "metadata_json"]
    case Anatomy => map["attributes" := "attributes_json"]
    case Operational => map["evidence_refs" := "evidence_refs", "body" := "body_json", "metadata" := "metadata_json"]
  }

  /** The datetime columns in the data; created_at is outside it. */
  function TimeNames(stream: Stream): set<string> {
    match stream
    case Anatomy => {"started_at", "completed_at"}
    case Operational => {"observed_at"}
    case _ => {}
  }

  function Texts(row: Row, stream: Stream): map<string, Json> {
    map n | n in TextNames(stream) :: TextColumn(row, n)
  }

  function Times(row: Row, stream: Stream, env: Env): map<string, Json> {
    map n | n in TimeNames(stream) :: Timestamp(row, n, env)
  }

  /** A memory's renamed column, a trace's repeated scope, a record's version. */
  function Extra(row: Row, stream: Stream): map<string, Json> {
    match stream
    case Memory => map["partition_digest" := TextColumn(row, "scope_digest")]
    case Anatomy => ScopeFields(row)
    case Operational => map["version" := Int(row.version)]
    case _ => map[]
  }

  function Typed(row: Row, stream: Stream, env: Env): map<string, Json> {
    Texts(row, stream) + Times(row, stream, env) + Extra(row, stream)
  }

  function Documents(row: Row, stream: Stream): map<string, Json> {
    map n | n in DocumentNames(stream) :: Document(row, DocumentNames(stream)[n])
  }

  /** The hashed data columns of a row, under their projected names. */
  function Data(row: Row, stream: Stream, env: Env): map<string, Json> {
    Typed(row, stream, env) + Documents(row, stream)
  }

  /** Every hashed instant can be written in UTC. */
  predicate TimesOk(row: Row, stream: Stream) {
    forall n :: n in row.times && (n == "created_at" || n in TimeNames(stream)) ==> InCalendar(Instant(row.times[n]))
  }

  /** Receipts also store the digest of their payload. */
  predicate PayloadBound(row: Row, stream: Stream, env: Env) {
    stream.Receipts? ==> Str(env.sha256(Document(row, "payload_json"))) == TextColumn(row, "payload_sha256")
  }

  function Projected(row: Row, stream: Stream, env: Env): Json {
    Obj(map[
      "schema" := Str(Schema(stream)),
      "tenant_id" := Str(row.scope.tenant),
      "workspace_id" := Str(row.scope.workspace),
      "stream_kind" := Str(StreamName(stream)),
      "sequence" := Int(row.sequence),
      "previous_hash" := TextOrNull(row.previousHash),
      "created_at" := Timestamp(row, "created_at", env),
      "data" := Obj(Data(row, stream, env))])
  }

  function Projection(row: Row, stream: Stream, env: Env): Result<Json> {
    if !PayloadBound(row, stream, env) then Err("PAYLOAD_DIGEST_MISMATCH")
    else if !TimesOk(row, stream) then Err("OverflowError")
    else Ok(Projected(row, stream, env))
  }

  /** Anything equal to a projection names its sequence and, exactly, the previous hash. */
  lemma ProjectionBinds(row: Row, stream: Stream, env: Env, basis: Json)
    requires Projection(row, stream, env).Ok? && PyEq(basis, Projection(row, stream, env).value)
    ensures basis.Obj? && "previous_hash" in basis.fields
    ensures basis.fields["previous_hash"] == TextOrNull(row.previousHash)
  {
    hide Data, Timestamp, Schema, StreamName;
    assert "previous_hash" in Projected(row, stream, env).fields;
  }

  // One chain.

  /** The stored basis equals the object rebuilt from the row's columns, and the record hash is its digest. */
  predicate Sealed(row: Row, stream: Stream, env: Env) {
    var p := Projection(row, stream, env);
    row.basis.Obj? && p.Ok? && PyEq(row.basis, p.value) && env.sha256(row.basis) == row.recordHash
  }

  /** Sequence and hash of the last record; (0, None) for an empty chain. */
  function Tip(chain: seq<Row>): (int, Option<string>) {
    if chain == [] then (0, None) else (chain[|chain| - 1].sequence, Some(chain[|chain| - 1].recordHash))
  }

  predicate Links(tip: (int, Option<string>), row: Row, stream: Stream, env: Env) {
    row.sequence == tip.0 + 1 && row.previousHash == tip.1 && Sealed(row, stream, env)
  }

  /** Every row continues the one before it, starting from nothing. */
  ghost predicate IsChain(chain: seq<Row>, stream: Stream, env: Env) {
    forall i :: 0 <= i < |chain| ==> Links(Tip(chain[..i]), chain[i], stream, env)
  }

  lemma LastLinks(chain: seq<Row>, stream: Stream, env: Env)
    requires IsChain(chain, stream, env) && chain != []
    ensures var n := |chain| - 1;
            IsChain(chain[..n], stream, env) && Links(Tip(chain[..n]), chain[n], stream, env)
  {
    hide Links, Tip;
    var n := |chain| - 1;
    assert forall i :: 0 <= i < n ==> chain[..i] == chain[..n][..i] && chain[..n][i] == chain[i];
  }

  lemma {:induction false} ChainIsNumbered(chain: seq<Row>, stream: Stream, env: Env)
    requires IsChain(chain, stream, env)
    ensures forall i :: 0 <= i < |chain| ==> chain[i].sequence == i + 1
    ensures Tip(chain).0 == |chain|
  {
    hide Sealed, IsChain;
    if chain != [] {
      LastLinks(chain, stream, env);
      ChainIsNumbered(chain[..|chain| - 1], stream, env);
      assert forall i :: 0 <= i < |chain| - 1 ==> chain[i] == chain[..|chain| - 1][i];
    }
  }

  /** The rows of one scope, in table order. */
  function OfScope(rows: seq<Row>, scope: Scope): seq<Row> {
    if rows == [] then []
    else OfScope(rows[..|rows| - 1], scope) + (if rows[|rows| - 1].scope == scope then [rows[|rows| - 1]] else [])
  }

  /** What one stream must look like, scope by scope. */
  ghost predicate StreamOk(rows: seq<Row>, scopes: set<Scope>, heads: map<(Scope, Stream), Head>, stream: Stream,
                           env: Env) {
    && (forall i :: 0 <= i < |rows| ==> rows[i].scope in scopes)
    && (forall s :: s in scopes ==> IsChain(OfScope(rows, s), stream, env))
    && (forall s :: s in scopes ==> (s, stream) in heads && Tip(OfScope(rows, s)) == HeadTip(heads[(s, stream)]))
  }

  function HeadTip(h: Head): (int, Option<string>) {
    (h.lastSequence, h.lastHash)
  }

  function ExpectedHeads(scopes: set<Scope>): set<(Scope, Stream)> {
    set s, stream | s in scopes && stream in STREAMS :: (s, stream)
  }

  function RowsOf(db: Database, stream: Stream): seq<Row> {
    if stream in db.tables then db.tables[stream] else []
  }

  ghost predicate DatabaseOk(db: Database, env: Env) {
    db.heads.Keys == ExpectedHeads(db.scopes)
    && forall stream :: stream in STREAMS ==> StreamOk(RowsOf(db, stream), db.scopes, db.heads, stream, env)
  }

  // The one-pass verifier.

  lemma {:induction false} OfScopeGrows(rows: seq<Row>, i: nat, scope: Scope)
    requires i <= |rows|
    ensures OfScope(rows[..i], scope) <= OfScope(rows, scope)
    decreases |rows| - i
  {
    if i < |rows| {
      assert rows[..i + 1][..i] == rows[..i];
      OfScopeGrows(rows, i + 1, scope);
    } else {
      assert rows[..i] == rows;
    }
  }

  lemma NextOfScope(rows: seq<Row>, i: nat, scope: Scope)
    requires i < |rows|
    ensures OfScope(rows[..i + 1], scope)
         == OfScope(rows[..i], scope) + (if rows[i].scope == scope then [rows[i]] else [])
  {
    assert rows[..i + 1][..i] == rows[..i];
  }

  lemma ChainExtends(chain: seq<Row>, row: Row, stream: Stream, env: Env)
    requires IsChain(chain, stream, env)
    ensures IsChain(chain + [row], stream, env) <==> Links(Tip(chain), row, stream, env)
  {
    hide Links;
    var next := chain + [row];
    assert forall i :: 0 <= i < |chain| ==> next[..i] == chain[..i] && next[i] == chain[i];
    assert next[..|chain|] == chain && next[|chain|] == row;
  }

  lemma EveryRowLinks(rows: seq<Row>, scopes: set<Scope>, heads: map<(Scope, Stream), Head>, stream: Stream,
                      env: Env, i: nat)
    requires i < |rows| && StreamOk(rows, scopes, heads, stream, env)
    ensures rows[i].scope in scopes && Links(Tip(OfScope(rows[..i], rows[i].scope)), rows[i], stream, env)
  {
    hide Links, Tip, OfScope;
    var s := rows[i].scope;
    var chain, before := OfScope(rows, s), OfScope(rows[..i], s);
    NextOfScope(rows, i, s);
    OfScopeGrows(rows, i + 1, s);
    PrefixEnds(before, rows[i], chain);
    assert IsChain(chain, stream, env);
    assert Links(Tip(chain[..|before|]), chain[|before|], stream, env);
  }

  lemma PrefixEnds(before: seq<Row>, row: Row, chain: seq<Row>)
    requires before + [row] <= chain
    ensures |before| < |chain| && chain[..|before|] == before && chain[|before|] == row
  {
    assert chain[|before|] == (before + [row])[|before|];
  }

  /** A row that does not continue its scope's chain spoils the whole stream. */
  lemma BrokenRow(rows: seq<Row>, scopes: set<Scope>, heads: map<(Scope, Stream), Head>, stream: Stream, env: Env,
                  i: nat)
    requires i < |rows|
    requires rows[i].scope !in scopes || !Links(Tip(OfScope(rows[..i], rows[i].scope)), rows[i], stream, env)
    ensures !StreamOk(rows, scopes, heads, stream, env)
  {
    hide Links, StreamOk;
    if StreamOk(rows, scopes, heads, stream, env) {
      EveryRowLinks(rows, scopes, heads, stream, env, i);
    }
  }

  function ProgressOf(progress: map<Scope, (int, Option<string>)>, s: Scope): (int, Option<string>) {
    if s in progress then progress[s] else (0, None)
  }

  method VerifyStream(rows: seq<Row>, scopes: set<Scope>, heads: map<(Scope, Stream), Head>, stream: Stream, env: Env)
    returns (r: Result<()>)
    requires forall s :: s in scopes ==> (s, stream) in heads
    ensures r.Ok? <==> StreamOk(rows, scopes, heads, stream, env)
  {
    hide Links, IsChain, Projection, Tip, PyEq;
    var progress: map<Scope, (int, Option<string>)> := map[];
    assert Tip([]) == (0, None) by { EmptyTip(); }
    EmptyIsChain(stream, env);
    for i := 0 to |rows|
      invariant forall k :: 0 <= k < i ==> rows[k].scope in scopes
      invariant forall s :: IsChain(OfScope(rows[..i], s), stream, env)
      invariant forall s :: ProgressOf(progress, s) == Tip(OfScope(rows[..i], s))
    {
      var row := rows[i];
      var (sequence, previous) := ProgressOf(progress, row.scope);
      LinksMeans((sequence, previous), row, stream, env);
      if row.scope !in scopes || row.sequence != sequence + 1 || row.previousHash != previous || !row.basis.Obj? {
        BrokenRow(rows, scopes, heads, stream, env, i);
        return Err("HASH_CHAIN_MISMATCH");
      }
      var projection := Projection(row, stream, env);
      if projection.Err? {
        BrokenRow(rows, scopes, heads, stream, env, i);
        return Err(projection.error);
      }
      if !PyEq(row.basis, projection.value) || env.sha256(row.basis) != row.recordHash {
        BrokenRow(rows, scopes, heads, stream, env, i);
        return Err("HASH_CHAIN_MISMATCH");
      }
      var seen, next := rows[..i + 1], progress[row.scope := (sequence + 1, Some(row.recordHash))];
      forall s
        ensures IsChain(OfScope(seen, s), stream, env)
        ensures ProgressOf(next, s) == Tip(OfScope(seen, s))
      {
        NextOfScope(rows, i, s);
        if s == row.scope {
          ChainExtends(OfScope(rows[..i], s), row, stream, env);
          TipOfAppend(OfScope(rows[..i], s), row);
        } else {
          assert OfScope(rows[..i], s) + [] == OfScope(rows[..i], s);
        }
      }
      progress := next;
    }
    assert rows[..|rows|] == rows;
    var left := scopes;
    while left != {}
      invariant left <= scopes
      invariant forall s :: s in scopes - left ==> Tip(OfScope(rows, s)) == HeadTip(heads[(s, stream)])
    {
      var scope :| scope in left;
      if ProgressOf(progress, scope) != HeadTip(heads[(scope, stream)]) {
        return Err("STREAM_HEAD_MISMATCH");
      }
      left := left - {scope};
    }
    return Ok(());
  }

  lemma EmptyTip()
    ensures Tip([]) == (0, None)
  {
  }

  lemma EmptyIsChain(stream: Stream, env: Env)
    ensures IsChain([], stream, env)
  {
  }

  lemma TipOfAppend(chain: seq<Row>, row: Row)
    ensures Tip(chain + [row]) == (row.sequence, Some(row.recordHash))
  {
  }

  lemma LinksMeans(tip: (int, Option<string>), row: Row, stream: Stream, env: Env)
    ensures Links(tip, row, stream, env) <==>
              && row.sequence == tip.0 + 1 && row.previousHash == tip.1 && row.basis.Obj?
              && Projection(row, stream, env).Ok? && PyEq(row.basis, Projection(row, stream, env).value)
              && env.sha256(row.basis) == row.recordHash
  {
    hide Projection, PyEq;
  }

  /**
  The verifier accepts exactly the databases whose heads are those of scopes x
  streams and whose every scope and stream is a sealed chain ending at its head.
  */
  method Chains(db: Database, env: Env) returns (r: Result<nat>)
    ensures r.Ok? <==> DatabaseOk(db, env)
    ensures r.Ok? ==> r.value == |db.heads.Keys|
  {
    hide StreamOk;
    var expected := ExpectedHeads(db.scopes);
    if db.heads.Keys != expected {
      return Err("STREAM_HEAD_SET_MISMATCH");
    }
    for k := 0 to |STREAMS|
      invariant forall j :: 0 <= j < k ==> StreamOk(RowsOf(db, STREAMS[j]), db.scopes, db.heads, STREAMS[j], env)
    {
      assert forall s :: s in db.scopes ==> (s, STREAMS[k]) in ExpectedHeads(db.scopes);
      var stream := VerifyStream(RowsOf(db, STREAMS[k]), db.scopes, db.heads, STREAMS[k], env);
      if stream.Err? {
        return Err(stream.error);
      }
    }
    return Ok(|expected|);
  }

  // Consequences.

  lemma {:induction false} ScopesOfRows(rows: seq<Row>, scopes: set<Scope>)
    ensures (forall i :: 0 <= i < |rows| ==> rows[i].scope in scopes)
            <==> (forall s :: s !in scopes ==> OfScope(rows, s) == [])
  {
    if rows != [] {
      var front, last := rows[..|rows| - 1], rows[|rows| - 1];
      ScopesOfRows(front, scopes);
      assert forall i :: 0 <= i < |rows| - 1 ==> front[i] == rows[i];
      if last.scope !in scopes {
        assert OfScope(rows, last.scope) != [];
      } else {
        assert forall s :: s !in scopes ==> OfScope(rows, s) == OfScope(front, s);
      }
    }
  }

  /** Only the order within each scope matters: no interleaving of scopes changes the verdict. */
  lemma InterleavingIsIrrelevant(db: Database, other: Database, env: Env)
    requires db.scopes == other.scopes && db.heads == other.heads
    requires forall stream, s :: OfScope(RowsOf(db, stream), s) == OfScope(RowsOf(other, stream), s)
    ensures DatabaseOk(db, env) <==> DatabaseOk(other, env)
  {
    hide IsChain, Tip, RowsOf;
    forall stream: Stream
      ensures StreamOk(RowsOf(db, stream), db.scopes, db.heads, stream, env)
          <==> StreamOk(RowsOf(other, stream), db.scopes, db.heads, stream, env)
    {
      ScopesOfRows(RowsOf(db, stream), db.scopes);
      ScopesOfRows(RowsOf(other, stream), db.scopes);
    }
  }

  lemma LastIsSealed(chain: seq<Row>, stream: Stream, env: Env)
    requires IsChain(chain, stream, env) && chain != []
    ensures var last := chain[|chain| - 1];
            && last.basis.Obj? && "previous_hash" in last.basis.fields
            && last.basis.fields["previous_hash"] == TextOrNull(last.previousHash)
            && Sealed(last, stream, env)
            && last.previousHash == Tip(chain[..|chain| - 1]).1
            && IsChain(chain[..|chain| - 1], stream, env)
  {
    hide Projection, PyEq, IsChain, Tip;
    LastLinks(chain, stream, env);
    var last := chain[|chain| - 1];
    ProjectionBinds(last, stream, env, last.basis);
  }

  /** Rows with one basis and hash, whose projections Python's == cannot tell apart. */
  predicate Alike(a: Row, b: Row, stream: Stream, env: Env) {
    var p, q := Projection(a, stream, env), Projection(b, stream, env);
    a.basis == b.basis && a.recordHash == b.recordHash && p.Ok? && q.Ok? && PyEq(p.value, q.value)
  }

  lemma SealedAlike(a: Row, b: Row, stream: Stream, env: Env)
    requires Sealed(a, stream, env) && Sealed(b, stream, env) && a.basis == b.basis
    ensures Alike(a, b, stream, env)
  {
    hide Projection, PyEq;
    var p, q := Projection(a, stream, env).value, Projection(b, stream, env).value;
    PyEqEquivalence(a.basis, p, p);
    PyEqEquivalence(p, a.basis, q);
  }

  /** Chains that end in the same hash hold the same bases, and equal projections, at every sequence number. */
  lemma {:induction false} TipDeterminesChain(a: seq<Row>, b: seq<Row>, stream: Stream, env: Env)
    requires Injective(env.sha256) && IsChain(a, stream, env) && IsChain(b, stream, env) && Tip(a).1 == Tip(b).1
    ensures |a| == |b|
    ensures forall i :: 0 <= i < |a| ==> Sealed(a[i], stream, env) && Sealed(b[i], stream, env)
    ensures forall i :: 0 <= i < |a| ==> Alike(a[i], b[i], stream, env)
  {
    hide IsChain, Projection, PyEq, Alike;
    if a != [] && b != [] {
      LastIsSealed(a, stream, env);
      LastIsSealed(b, stream, env);
      var m, n := |a| - 1, |b| - 1;
      assert env.sha256(a[m].basis) == env.sha256(b[n].basis);
      assert TextOrNull(a[m].previousHash) == TextOrNull(b[n].previousHash);
      TipDeterminesChain(a[..m], b[..n], stream, env);
      SealedAlike(a[m], b[n], stream, env);
      assert forall i :: 0 <= i < m ==> a[i] == a[..m][i] && b[i] == b[..n][i];
    }
  }

  /**
  Two accepted databases that agree on one head hash hold the same bases and
  hashes in that scope and stream, and projections equal under ==, record by record.
  */
  lemma HeadDeterminesContents(x: Database, y: Database, s: Scope, stream: Stream, env: Env)
    requires Injective(env.sha256) && DatabaseOk(x, env) && DatabaseOk(y, env)
    requires s in x.scopes && s in y.scopes
    ensures (s, stream) in x.heads && (s, stream) in y.heads
    ensures x.heads[(s, stream)].lastHash == y.heads[(s, stream)].lastHash ==>
              var a, b := OfScope(RowsOf(x, stream), s), OfScope(RowsOf(y, stream), s);
              && |a| == |b| == x.heads[(s, stream)].lastSequence
              && (forall i :: 0 <= i < |a| ==> Sealed(a[i], stream, env) && Sealed(b[i], stream, env))
              && (forall i :: 0 <= i < |a| ==>
                    a[i].sequence == b[i].sequence == i + 1 && Alike(a[i], b[i], stream, env))
  {
    hide IsChain, Tip, Projection, OfScope, RowsOf, DatabaseOk, Alike, Sealed;
    var a, b := OfScope(RowsOf(x, stream), s), OfScope(RowsOf(y, stream), s);
    AcceptedChain(x, s, stream, env);
    AcceptedChain(y, s, stream, env);
    ChainIsNumbered(a, stream, env);
    ChainIsNumbered(b, stream, env);
    if x.heads[(s, stream)].lastHash == y.heads[(s, stream)].lastHash {
      TipDeterminesChain(a, b, stream, env);
    }
  }

  lemma AcceptedChain(db: Database, s: Scope, stream: Stream, env: Env)
    requires DatabaseOk(db, env) && s in db.scopes
    ensures (s, stream) in db.heads
    ensures IsChain(OfScope(RowsOf(db, stream), s), stream, env)
    ensures Tip(OfScope(RowsOf(db, stream), s)) == HeadTip(db.heads[(s, stream)])
  {
    hide IsChain, Tip, OfScope, RowsOf;
    EveryStream(stream);
    assert StreamOk(RowsOf(db, stream), db.scopes, db.heads, stream, env);
  }

  lemma EveryStream(stream: Stream)
    ensures stream in STREAMS
  {
    assert STREAMS[0].Receipts? && STREAMS[1].Idempotency? && STREAMS[2].Memory? && STREAMS[3].Anatomy?
           && STREAMS[4].Operational?;
  }
}
