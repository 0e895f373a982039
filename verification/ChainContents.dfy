/**
What a head hash of an accepted database pins down.  The verifier compares a
stored basis with the rebuilt row by Python's ==, so a hash fixes the basis but
leaves a JSON column free to write a number or boolean in another way.
*/
module ChainContents {
  import opened Common
  import opened Json
  import opened JsonEquality
  import opened HashChains

  // Which columns a projection leaves free.

  /** The JSON columns that no digest of their own binds: all but the payload of a receipt. */
  predicate Unbound(stream: Stream, name: string) {
    name in DocumentNames(stream) && name != "payload"
  }

  predicate RigidRow(row: Row, stream: Stream) {
    forall n :: n in DocumentNames(stream) && Unbound(stream, n) ==> Rigid(Documents(row, stream)[n])
  }

  /** The value of a typed column. */
  predicate Scalar(v: Json) {
    v.Null? || v.Str? || v.Int?
  }

  lemma TypedIsScalar(row: Row, stream: Stream, env: Env, n: string)
    requires n in Typed(row, stream, env)
    ensures Scalar(Typed(row, stream, env)[n])
  {
    hide TextNames, TimeNames;
  }

  lemma DataShape(row: Row, stream: Stream, env: Env, n: string)
    requires n in Data(row, stream, env)
    ensures n in DocumentNames(stream) ==> Data(row, stream, env)[n] == Documents(row, stream)[n]
    ensures n !in DocumentNames(stream) ==>
              && n in Typed(row, stream, env) && Data(row, stream, env)[n] == Typed(row, stream, env)[n]
              && Scalar(Data(row, stream, env)[n])
  {
    hide Typed, Documents, DocumentNames;
    DocumentKeys(row, stream);
    if n !in DocumentNames(stream) {
      TypedIsScalar(row, stream, env, n);
    }
  }

  lemma ScalarsSettle(v: Json, w: Json)
    requires Scalar(v) && Scalar(w) && PyEq(v, w)
    ensures v == w
  {
  }

  /** Equal projections agree on every data column up to ==, and on everything outside the data. */
  lemma EqualProjections(a: Row, b: Row, stream: Stream, env: Env)
    requires PyEq(Projected(a, stream, env), Projected(b, stream, env))
    ensures Data(a, stream, env).Keys == Data(b, stream, env).Keys
    ensures forall n :: n in Data(a, stream, env) ==> PyEq(Data(a, stream, env)[n], Data(b, stream, env)[n])
    ensures Projected(a, stream, env).fields["data" := Null] == Projected(b, stream, env).fields["data" := Null]
  {
    hide Data, Timestamp, Schema, StreamName, Rigid;
    var p, q := Projected(a, stream, env).fields, Projected(b, stream, env).fields;
    assert PyEq(p["data"], q["data"]);
    forall n | n in p && n != "data"
      ensures p[n] == q[n]
    {
      OutsideIsScalar(a, stream, env, n);
      OutsideIsScalar(b, stream, env, n);
      ScalarsSettle(p[n], q[n]);
    }
    assert p.Keys == q.Keys;
  }

  lemma OutsideIsScalar(row: Row, stream: Stream, env: Env, n: string)
    requires n in Projected(row, stream, env).fields && n != "data"
    ensures Scalar(Projected(row, stream, env).fields[n])
  {
    hide Data, Schema, StreamName;
  }

  lemma SameData(a: Row, b: Row, stream: Stream, env: Env)
    requires Projected(a, stream, env).fields["data" := Null] == Projected(b, stream, env).fields["data" := Null]
    requires Data(a, stream, env) == Data(b, stream, env)
    ensures Projected(a, stream, env) == Projected(b, stream, env)
  {
    hide Data, Timestamp, Schema, StreamName;
    var p, q := Projected(a, stream, env).fields, Projected(b, stream, env).fields;
    assert p == p["data" := Null]["data" := p["data"]];
    assert q == q["data" := Null]["data" := q["data"]];
  }

  /** The payload of a receipt is bound by its digest column, whatever it holds. */
  lemma PayloadIsBound(a: Row, b: Row, env: Env)
    requires Injective(env.sha256) && Projection(a, Receipts, env).Ok? && Projection(b, Receipts, env).Ok?
    requires PyEq(Projection(a, Receipts, env).value, Projection(b, Receipts, env).value)
    ensures Document(a, "payload_json") == Document(b, "payload_json")
  {
    hide Data, Typed, Documents, PyEq;
    EqualProjections(a, b, Receipts, env);
    PayloadDigestColumn(a, env);
    PayloadDigestColumn(b, env);
    DataShape(a, Receipts, env, "payload_sha256");
    DataShape(b, Receipts, env, "payload_sha256");
    ScalarsSettle(Data(a, Receipts, env)["payload_sha256"], Data(b, Receipts, env)["payload_sha256"]);
  }

  lemma PayloadDigestColumn(row: Row, env: Env)
    ensures "payload_sha256" in Data(row, Receipts, env)
    ensures Data(row, Receipts, env)["payload_sha256"] == TextColumn(row, "payload_sha256")
  {
  }

  /** Without booleans and integral numbers in its unbound JSON columns, a row has no equal but itself. */
  lemma RigidProjection(a: Row, b: Row, stream: Stream, env: Env)
    requires Injective(env.sha256) && Projection(a, stream, env).Ok? && Projection(b, stream, env).Ok?
    requires PyEq(Projection(a, stream, env).value, Projection(b, stream, env).value) && RigidRow(a, stream)
    ensures Projection(a, stream, env) == Projection(b, stream, env)
  {
    hide Data, Projected, PyEq, Rigid;
    EqualProjections(a, b, stream, env);
    var p, q := Data(a, stream, env), Data(b, stream, env);
    forall n | n in p
      ensures p[n] == q[n]
    {
      DataShape(a, stream, env, n);
      DataShape(b, stream, env, n);
      if Unbound(stream, n) {
        RigidIsAlone(p[n], q[n]);
      } else if n in DocumentNames(stream) {
        PayloadIsBound(a, b, env);
      } else {
        ScalarsSettle(p[n], q[n]);
      }
    }
    SameData(a, b, stream, env);
  }

  // Rewriting one column.

  /** The row with one JSON column rewritten to an equal value. */
  function Rewritten(row: Row, stream: Stream, name: string, v: Json): Row
    requires Unbound(stream, name)
  {
    row.(documents := row.documents[DocumentNames(stream)[name] := v])
  }

  lemma RewrittenDocuments(row: Row, stream: Stream, name: string, v: Json)
    requires Unbound(stream, name)
    ensures Documents(Rewritten(row, stream, name, v), stream) == Documents(row, stream)[name := v]
    ensures Document(Rewritten(row, stream, name, v), "payload_json") == Document(row, "payload_json")
  {
  }

  lemma TypedUnchanged(row: Row, other: Row, stream: Stream, env: Env)
    requires row.scope == other.scope && row.texts == other.texts && row.version == other.version
    requires row.times == other.times
    ensures Typed(row, stream, env) == Typed(other, stream, env)
  {
    hide TextNames, TimeNames;
    assert Texts(row, stream) == Texts(other, stream);
    assert Times(row, stream, env) == Times(other, stream, env);
  }

  lemma RewrittenData(row: Row, stream: Stream, name: string, v: Json, env: Env)
    requires Unbound(stream, name)
    ensures Data(Rewritten(row, stream, name, v), stream, env) == Data(row, stream, env)[name := v]
    ensures name in Data(row, stream, env) && Data(row, stream, env)[name] == Documents(row, stream)[name]
  {
    hide Documents, Typed, Rewritten;
    RewrittenDocuments(row, stream, name, v);
    SameTyped(row, stream, name, v, env);
    DocumentKeys(row, stream);
    SumUpdated(Typed(row, stream, env), Documents(row, stream), name, v);
  }

  lemma SameTyped(row: Row, stream: Stream, name: string, v: Json, env: Env)
    requires Unbound(stream, name)
    ensures Typed(Rewritten(row, stream, name, v), stream, env) == Typed(row, stream, env)
  {
    hide Typed;
    TypedUnchanged(row, Rewritten(row, stream, name, v), stream, env);
  }

  lemma SumUpdated(a: map<string, Json>, b: map<string, Json>, k: string, v: Json)
    ensures a + b[k := v] == (a + b)[k := v]
  {
  }

  lemma DocumentKeys(row: Row, stream: Stream)
    ensures Documents(row, stream).Keys == DocumentNames(stream).Keys
  {
  }

  /** Rewriting an unbound column to an equal but different value keeps the row sealed and changes its projection. */
  lemma RewritingKeepsSeal(row: Row, stream: Stream, name: string, v: Json, env: Env)
    requires Unbound(stream, name) && Sealed(row, stream, env)
    requires PyEq(Documents(row, stream)[name], v)
    ensures Sealed(Rewritten(row, stream, name, v), stream, env)
    ensures v != Documents(row, stream)[name] ==>
              Projection(Rewritten(row, stream, name, v), stream, env) != Projection(row, stream, env)
  {
    hide Data, PyEq, Documents, DocumentNames, Timestamp, Schema, StreamName;
    var other := Rewritten(row, stream, name, v);
    RewrittenData(row, stream, name, v, env);
    RewrittenDocuments(row, stream, name, v);
    forall n | n in Data(row, stream, env)
      ensures PyEq(Data(row, stream, env)[n], Data(other, stream, env)[n])
    {
      Reflexive(Data(row, stream, env)[n]);
    }
    EqualData(row, other, stream, env);
    PyEqEquivalence(row.basis, Projected(row, stream, env), Projected(other, stream, env));
    assert Projected(row, stream, env).fields["data"] == Obj(Data(row, stream, env));
    assert Projected(other, stream, env).fields["data"] == Obj(Data(other, stream, env));
  }

  lemma EqualData(a: Row, b: Row, stream: Stream, env: Env)
    requires a.(documents := b.documents) == b
    requires Data(a, stream, env).Keys == Data(b, stream, env).Keys
    requires forall n :: n in Data(a, stream, env) ==> PyEq(Data(a, stream, env)[n], Data(b, stream, env)[n])
    ensures PyEq(Projected(a, stream, env), Projected(b, stream, env))
  {
    hide Data, Schema, StreamName, Timestamp;
    var p, q := Projected(a, stream, env).fields, Projected(b, stream, env).fields;
    forall n | n in p
      ensures n in q && PyEq(p[n], q[n])
    {
      if n == "data" {
        assert PyEq(Obj(Data(a, stream, env)), Obj(Data(b, stream, env)));
      } else {
        SameOutside(a, b, stream, env, n);
        Reflexive(p[n]);
      }
    }
    assert p.Keys == q.Keys;
  }

  lemma SameOutside(a: Row, b: Row, stream: Stream, env: Env, n: string)
    requires a.(documents := b.documents) == b && n in Projected(a, stream, env).fields && n != "data"
    ensures Projected(a, stream, env).fields[n] == Projected(b, stream, env).fields[n]
  {
    hide Data, Schema, StreamName;
  }

  lemma Reflexive(v: Json)
    ensures PyEq(v, v)
  {
    PyEqEquivalence(v, v, v);
  }

  /** Puts another row where the chain of its scope has its i-th. */
  lemma {:induction false} ReplaceInScope(rows: seq<Row>, s: Scope, i: nat, other: Row) returns (changed: seq<Row>)
    requires i < |OfScope(rows, s)| && other.scope == s
    ensures OfScope(changed, s) == OfScope(rows, s)[i := other]
    ensures forall t :: t != s ==> OfScope(changed, t) == OfScope(rows, t)
    ensures |changed| == |rows| && forall k :: 0 <= k < |rows| ==> changed[k].scope == rows[k].scope
  {
    var n := |rows| - 1;
    var front, last := rows[..n], rows[n];
    if i < |OfScope(front, s)| {
      var before := ReplaceInScope(front, s, i, other);
      changed := before + [last];
      assert changed[..n] == before;
    } else {
      changed := front + [other];
      assert changed[..n] == front;
    }
  }

  lemma ChainWithTwin(chain: seq<Row>, i: nat, other: Row, stream: Stream, env: Env)
    requires IsChain(chain, stream, env) && i < |chain| && Sealed(other, stream, env)
    requires var row := chain[i];
             && other.sequence == row.sequence && other.previousHash == row.previousHash
             && other.recordHash == row.recordHash
    ensures IsChain(chain[i := other], stream, env) && Tip(chain[i := other]) == Tip(chain)
  {
    hide Links, Tip;
    var changed := chain[i := other];
    SameTip(chain, i, other, |chain|);
    assert chain[..|chain|] == chain && changed[..|chain|] == changed;
    forall j | 0 <= j < |chain|
      ensures Links(Tip(changed[..j]), changed[j], stream, env)
    {
      assert Links(Tip(chain[..j]), chain[j], stream, env);
      SameTip(chain, i, other, j);
      if j == i {
        TwinLinks(Tip(chain[..j]), chain[j], other, stream, env);
      }
    }
  }

  lemma SameTip(chain: seq<Row>, i: nat, other: Row, j: nat)
    requires i < |chain| && j <= |chain|
    requires other.sequence == chain[i].sequence && other.recordHash == chain[i].recordHash
    ensures Tip(chain[i := other][..j]) == Tip(chain[..j])
  {
  }

  lemma TwinLinks(tip: (int, Option<string>), row: Row, other: Row, stream: Stream, env: Env)
    requires Links(tip, row, stream, env) && Sealed(other, stream, env)
    requires other.sequence == row.sequence && other.previousHash == row.previousHash
    ensures Links(tip, other, stream, env)
  {
    hide Sealed;
  }

  ghost predicate SameContents(a: seq<Row>, b: seq<Row>, stream: Stream, env: Env) {
    |a| == |b| && forall i :: 0 <= i < |a| ==> Projection(a[i], stream, env) == Projection(b[i], stream, env)
  }

  function ChainOf(db: Database, s: Scope, stream: Stream): seq<Row> {
    OfScope(RowsOf(db, stream), s)
  }

  ghost predicate SameHead(x: Database, y: Database, s: Scope, stream: Stream) {
    && (s, stream) in x.heads && (s, stream) in y.heads
    && x.heads[(s, stream)].lastHash == y.heads[(s, stream)].lastHash
  }

  /** Every accepted database with this head hash holds identical contents. */
  ghost predicate Pins(x: Database, s: Scope, stream: Stream, env: Env) {
    forall y :: DatabaseOk(y, env) && s in y.scopes && SameHead(x, y, s, stream) ==>
      SameContents(ChainOf(x, s, stream), ChainOf(y, s, stream), stream, env)
  }

  /** A row that is not rigid can be rewritten: it stays sealed, and its projection changes. */
  lemma LooseRow(row: Row, stream: Stream, env: Env) returns (other: Row)
    requires Sealed(row, stream, env) && !RigidRow(row, stream)
    ensures Sealed(other, stream, env) && Projection(other, stream, env) != Projection(row, stream, env)
    ensures other.scope == row.scope && other.sequence == row.sequence && other.previousHash == row.previousHash
    ensures other.recordHash == row.recordHash
  {
    hide Sealed, Projection, Rigid, PyEq, Variant;
    var name :| name in DocumentNames(stream) && Unbound(stream, name) && !Rigid(Documents(row, stream)[name]);
    var v := Variant(Documents(row, stream)[name]);
    VariantIsEqual(Documents(row, stream)[name]);
    RewritingKeepsSeal(row, stream, name, v, env);
    other := Rewritten(row, stream, name, v);
  }

  /** So can a database: it stays accepted, with the same heads, and differs there. */
  lemma LooseRowHasTwin(x: Database, s: Scope, stream: Stream, env: Env, i: nat) returns (y: Database)
    requires DatabaseOk(x, env) && s in x.scopes && i < |ChainOf(x, s, stream)|
    requires !RigidRow(ChainOf(x, s, stream)[i], stream)
    ensures DatabaseOk(y, env) && y.scopes == x.scopes && y.heads == x.heads
    ensures !SameContents(ChainOf(x, s, stream), ChainOf(y, s, stream), stream, env)
  {
    hide IsChain, Tip, Sealed, Projection, OfScope, RigidRow;
    AcceptedChain(x, s, stream, env);
    var chain, rows := ChainOf(x, s, stream), RowsOf(x, stream);
    ChainMember(rows, s, i, stream, env);
    var other := LooseRow(chain[i], stream, env);
    var changed := ReplaceInScope(rows, s, i, other);
    ChainWithTwin(chain, i, other, stream, env);
    y := x.(tables := x.tables[stream := changed]);
    ChangedStream(x, y, s, stream, env, changed);
    assert ChainOf(y, s, stream)[i] == other;
  }

  lemma ChainMember(rows: seq<Row>, s: Scope, i: nat, stream: Stream, env: Env)
    requires i < |OfScope(rows, s)| && IsChain(OfScope(rows, s), stream, env)
    ensures OfScope(rows, s)[i].scope == s && Sealed(OfScope(rows, s)[i], stream, env)
  {
    hide Sealed, OfScope;
    ScopeOfMember(rows, s, i);
    var chain := OfScope(rows, s);
    assert Links(Tip(chain[..i]), chain[i], stream, env);
  }

  lemma {:induction false} ScopeOfMember(rows: seq<Row>, s: Scope, i: nat)
    requires i < |OfScope(rows, s)|
    ensures OfScope(rows, s)[i].scope == s
  {
    var front := rows[..|rows| - 1];
    if i < |OfScope(front, s)| {
      ScopeOfMember(front, s, i);
    }
  }

  lemma ChangedStream(x: Database, y: Database, s: Scope, stream: Stream, env: Env, changed: seq<Row>)
    requires DatabaseOk(x, env) && y == x.(tables := x.tables[stream := changed]) && s in x.scopes
    requires |changed| == |RowsOf(x, stream)|
    requires forall k :: 0 <= k < |changed| ==> changed[k].scope == RowsOf(x, stream)[k].scope
    requires forall t :: t != s ==> OfScope(changed, t) == OfScope(RowsOf(x, stream), t)
    requires IsChain(OfScope(changed, s), stream, env) && Tip(OfScope(changed, s)) == Tip(OfScope(RowsOf(x, stream), s))
    ensures DatabaseOk(y, env) && RowsOf(y, stream) == changed
  {
    hide IsChain, Tip, OfScope, StreamOk;
    EveryStream(stream);
    ChangedStreamOk(RowsOf(x, stream), changed, x.scopes, x.heads, s, stream, env);
    assert forall t: Stream :: t != stream ==> RowsOf(y, t) == RowsOf(x, t);
  }

  lemma ChangedStreamOk(rows: seq<Row>, changed: seq<Row>, scopes: set<Scope>, heads: map<(Scope, Stream), Head>,
                        s: Scope, stream: Stream, env: Env)
    requires StreamOk(rows, scopes, heads, stream, env) && |changed| == |rows|
    requires forall k :: 0 <= k < |changed| ==> changed[k].scope == rows[k].scope
    requires forall t :: t != s ==> OfScope(changed, t) == OfScope(rows, t)
    requires IsChain(OfScope(changed, s), stream, env) && Tip(OfScope(changed, s)) == Tip(OfScope(rows, s))
    ensures StreamOk(changed, scopes, heads, stream, env)
  {
    hide IsChain, Tip, OfScope;
    forall t | t in scopes
      ensures IsChain(OfScope(changed, t), stream, env) && Tip(OfScope(changed, t)) == Tip(OfScope(rows, t))
    {
      assert t != s ==> OfScope(changed, t) == OfScope(rows, t);
    }
  }

  /**
  A head hash of an accepted database determines the contents behind it if and
  only if no unbound JSON column there holds a boolean or an integral number.
  */
  lemma HeadPinsExactly(x: Database, s: Scope, stream: Stream, env: Env)
    requires Injective(env.sha256) && DatabaseOk(x, env) && s in x.scopes
    ensures Pins(x, s, stream, env) <==>
              forall i :: 0 <= i < |ChainOf(x, s, stream)| ==> RigidRow(ChainOf(x, s, stream)[i], stream)
  {
    hide RigidRow, DatabaseOk, Projection, OfScope, RowsOf;
    AcceptedChain(x, s, stream, env);
    if forall i :: 0 <= i < |ChainOf(x, s, stream)| ==> RigidRow(ChainOf(x, s, stream)[i], stream) {
      forall y | DatabaseOk(y, env) && s in y.scopes && SameHead(x, y, s, stream)
        ensures SameContents(ChainOf(x, s, stream), ChainOf(y, s, stream), stream, env)
      {
        RigidContents(x, y, s, stream, env);
      }
    } else {
      var i :| 0 <= i < |ChainOf(x, s, stream)| && !RigidRow(ChainOf(x, s, stream)[i], stream);
      var y := LooseRowHasTwin(x, s, stream, env, i);
      assert SameHead(x, y, s, stream);
    }
  }

  lemma RigidContents(x: Database, y: Database, s: Scope, stream: Stream, env: Env)
    requires Injective(env.sha256) && DatabaseOk(x, env) && DatabaseOk(y, env) && s in x.scopes && s in y.scopes
    requires SameHead(x, y, s, stream)
    requires forall i :: 0 <= i < |ChainOf(x, s, stream)| ==> RigidRow(ChainOf(x, s, stream)[i], stream)
    ensures SameContents(ChainOf(x, s, stream), ChainOf(y, s, stream), stream, env)
  {
    hide RigidRow, DatabaseOk, Projection, OfScope, RowsOf, PyEq;
    HeadDeterminesContents(x, y, s, stream, env);
    var a, b := ChainOf(x, s, stream), ChainOf(y, s, stream);
    forall i | 0 <= i < |a|
      ensures Projection(a[i], stream, env) == Projection(b[i], stream, env)
    {
      assert Alike(a[i], b[i], stream, env);
      RigidProjection(a[i], b[i], stream, env);
    }
  }

  // Two accepted databases with one head.

  function SingleRow(s: Scope, stream: Stream, name: string, v: Json, env: Env): Row
    requires Unbound(stream, name)
  {
    var bare := Row(s, 1, None, "", Null, map["payload_sha256" := env.sha256(Null)], 1,
                    map[DocumentNames(stream)[name] := v], map[]);
    var basis := Projected(bare, stream, env);
    bare.(basis := basis, recordHash := env.sha256(basis))
  }

  /** A database of one scope whose only row holds v in one JSON column. */
  function SingleRowDatabase(s: Scope, stream: Stream, name: string, v: Json, env: Env): Database
    requires Unbound(stream, name)
  {
    var row := SingleRow(s, stream, name, v, env);
    Database({s}, map key | key in ExpectedHeads({s}) ::
                    (if key.1 == stream then Head(1, Some(row.recordHash)) else Head(0, None)),
             map[stream := [row]])
  }

  lemma ResealedProjection(row: Row, basis: Json, hash: string, stream: Stream, env: Env)
    ensures Projected(row.(basis := basis, recordHash := hash), stream, env) == Projected(row, stream, env)
    ensures Documents(row.(basis := basis, recordHash := hash), stream) == Documents(row, stream)
  {
    hide Typed, Timestamp, Schema, StreamName, DocumentNames;
    var other := row.(basis := basis, recordHash := hash);
    TypedUnchanged(row, other, stream, env);
    SameTimestamp(row, other, "created_at", env);
    assert Documents(row, stream) == Documents(other, stream);
  }

  lemma SameTimestamp(row: Row, other: Row, name: string, env: Env)
    requires row.times == other.times
    ensures Timestamp(row, name, env) == Timestamp(other, name, env)
  {
  }

  lemma ProjectedIsObject(row: Row, stream: Stream, env: Env)
    ensures Projected(row, stream, env).Obj?
  {
    hide Data, Timestamp, Schema, StreamName;
  }

  lemma SingleRowSealed(s: Scope, stream: Stream, name: string, v: Json, env: Env)
    requires Unbound(stream, name)
    ensures var row := SingleRow(s, stream, name, v, env);
            Links((0, None), row, stream, env) && row.scope == s && Documents(row, stream)[name] == v
  {
    hide PyEq, Projected;
    var row := SingleRow(s, stream, name, v, env);
    ResealedProjection(row, Null, "", stream, env);
    PyEqEquivalence(row.basis, row.basis, row.basis);
    assert row.basis.Obj? by { ProjectedIsObject(row, stream, env); }
  }

  lemma SingleRowAccepted(s: Scope, stream: Stream, name: string, v: Json, env: Env)
    requires Unbound(stream, name)
    ensures var x := SingleRowDatabase(s, stream, name, v, env);
            && DatabaseOk(x, env) && s in x.scopes
            && ChainOf(x, s, stream) == [SingleRow(s, stream, name, v, env)]
  {
    hide SingleRow, Links, Unbound, StreamOk, OfScope;
    var x, row := SingleRowDatabase(s, stream, name, v, env), SingleRow(s, stream, name, v, env);
    SingleRowSealed(s, stream, name, v, env);
    OneRowChain(row, s, stream, env);
    assert forall t: Stream :: t in STREAMS ==> (s, t) in ExpectedHeads({s});
    forall t: Stream | t in STREAMS
      ensures StreamOk(RowsOf(x, t), x.scopes, x.heads, t, env)
    {
      if t == stream {
        OneRowStream(row, s, x.heads, stream, env);
      } else {
        EmptyStream(s, x.heads, t, env);
      }
    }
  }

  lemma OneRowStream(row: Row, s: Scope, heads: map<(Scope, Stream), Head>, stream: Stream, env: Env)
    requires Links((0, None), row, stream, env) && row.scope == s
    requires (s, stream) in heads && heads[(s, stream)] == Head(1, Some(row.recordHash))
    ensures StreamOk([row], {s}, heads, stream, env)
  {
    hide Links, IsChain, Tip, OfScope;
    OneRowChain(row, s, stream, env);
  }

  lemma EmptyStream(s: Scope, heads: map<(Scope, Stream), Head>, stream: Stream, env: Env)
    requires (s, stream) in heads && heads[(s, stream)] == Head(0, None)
    ensures StreamOk([], {s}, heads, stream, env)
  {
    hide Links;
    EmptyIsChain(stream, env);
    EmptyTip();
  }

  lemma OneRowChain(row: Row, s: Scope, stream: Stream, env: Env)
    requires Links((0, None), row, stream, env) && row.scope == s
    ensures OfScope([row], s) == [row] && IsChain([row], stream, env) && Tip([row]) == (1, Some(row.recordHash))
  {
    hide Sealed, IsChain;
    assert [row] == [] + [row] && [row][..0] == [];
    EmptyIsChain(stream, env);
    ChainExtends([], row, stream, env);
    TipOfAppend([], row);
  }

  /** {"enabled": true} */
  const ENABLED := Obj(map["enabled" := Bool(true)])

  lemma EnabledIsLoose(row: Row, stream: Stream, name: string)
    requires Unbound(stream, name) && Documents(row, stream)[name] == ENABLED
    ensures !RigidRow(row, stream)
  {
    assert "enabled" in ENABLED.fields && !Rigid(ENABLED.fields["enabled"]);
    hide DocumentNames, Documents;
  }

  /** Any unbound JSON column can read true in one accepted database and 1 in another with the same heads. */
  lemma BooleansPassForNumbers(s: Scope, stream: Stream, name: string, env: Env) returns (x: Database, y: Database)
    requires Unbound(stream, name)
    ensures DatabaseOk(x, env) && DatabaseOk(y, env) && x.scopes == y.scopes == {s} && x.heads == y.heads
    ensures |ChainOf(x, s, stream)| == 1 && Documents(ChainOf(x, s, stream)[0], stream)[name] == ENABLED
    ensures !SameContents(ChainOf(x, s, stream), ChainOf(y, s, stream), stream, env)
  {
    hide DatabaseOk, SameContents, ChainOf, SingleRow, Documents, Unbound;
    SingleRowSealed(s, stream, name, ENABLED, env);
    SingleRowAccepted(s, stream, name, ENABLED, env);
    x := SingleRowDatabase(s, stream, name, ENABLED, env);
    EnabledIsLoose(ChainOf(x, s, stream)[0], stream, name);
    y := LooseRowHasTwin(x, s, stream, env, 0);
  }
}
