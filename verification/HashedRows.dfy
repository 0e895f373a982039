/**
What each stream hashes of a row, column by column: the object a record's basis
must equal, and what two databases with one head hash agree on.
*/
module HashedRows {
  import opened Common
  import opened Json
  import opened JsonEquality
  import opened HashChains
  import opened ChainContents

  function Cell(row: Row, column: string): Json {
    if column in row.texts then Str(row.texts[column]) else Null
  }

  function Doc(row: Row, column: string): Json {
    if column in row.documents then row.documents[column] else Null
  }

  /** A stored time in UTC; without an offset it is UTC already. */
  function At(row: Row, column: string, env: Env): Json {
    if column !in row.times then Null
    else match row.times[column].offset
      case None => Str(env.iso(row.times[column].local))
      case Some(offset) => Str(env.iso(row.times[column].local - offset))
  }

  function ReceiptData(row: Row): map<string, Json> {
    map["kind" := Cell(row, "kind"), "subject_type" := Cell(row, "subject_type"),
        "subject_id" := Cell(row, "subject_id"),
        "truth_label" := Cell(row, "truth_label"), "payload_sha256" := Cell(row, "payload_sha256")]
    + map["evidence_refs" := Doc(row, "evidence_refs"), "payload" := Doc(row, "payload_json")]
  }

  function IdempotencyData(row: Row): map<string, Json> {
    map["key_digest" := Cell(row, "key_digest"), "request_digest" := Cell(row, "request_digest"),
        "response_receipt_hash" := Cell(row, "response_receipt_hash")]
  }

  function MemoryData(row: Row): map<string, Json> {
    map["memory_kind" := Cell(row, "memory_kind"), "summary" := Cell(row, "summary"),
        "truth_label" := Cell(row, "truth_label"), "receipt_hash" := Cell(row, "receipt_hash")]
    + map["partition_digest" := Cell(row, "scope_digest")]
    + map["evidence_refs" := Doc(row, "evidence_refs"), "subjects" := Doc(row, "subjects"),
          "metadata" := Doc(row, "metadata_json")]
  }

  function AnatomyData(row: Row, env: Env): map<string, Json> {
    map["trace_id" := Cell(row, "trace_id"), "span_id" := Cell(row, "span_id"),
        "parent_span_id" := Cell(row, "parent_span_id"), "organ" := Cell(row, "organ"),
        "operation" := Cell(row, "operation"), "state" := Cell(row, "state"), "truth_label" := Cell(row, "truth_label"),
        "input_sha256" := Cell(row, "input_sha256"), "output_sha256" := Cell(row, "output_sha256")]
    + map["started_at" := At(row, "started_at", env), "completed_at" := At(row, "completed_at", env)]
    + map["tenant_id" := Str(row.scope.tenant), "workspace_id" := Str(row.scope.workspace)]
    + map["attributes" := Doc(row, "attributes_json")]
  }

  function OperationalData(row: Row, env: Env): map<string, Json> {
    map["entity_kind" := Cell(row, "entity_kind"), "entity_id" := Cell(row, "entity_id"), "name" := Cell(row, "name"),
        "truth_label" := Cell(row, "truth_label"), "source_revision" := Cell(row, "source_revision")]
    + map["observed_at" := At(row, "observed_at", env)]
    + map["version" := Int(row.version)]
    + map["evidence_refs" := Doc(row, "evidence_refs"), "body" := Doc(row, "body_json"),
          "metadata" := Doc(row, "metadata_json")]
  }

  function WrittenData(row: Row, stream: Stream, env: Env): map<string, Json> {
    match stream
    case Receipts => ReceiptData(row)
    case Idempotency => IdempotencyData(row)
    case Memory => MemoryData(row)
    case Anatomy => AnatomyData(row, env)
    case Operational => OperationalData(row, env)
  }

  /** Schema and name of a stream. */
  function Titles(stream: Stream): (string, string) {
    match stream
    case Receipts => ("szl.lyte.receipt/v1", "receipts")
    case Idempotency => ("szl.lyte.idempotency-record/v1", "idempotency")
    case Memory => ("szl.lyte.memory-record/v2", "memory")
    case Anatomy => ("szl.lyte.anatomy-trace/v1", "anatomy")
    case Operational => ("szl.lyte.operational-record/v1", "operational")
  }

  /** The object a record of a stream hashes. */
  function Written(row: Row, stream: Stream, env: Env): Json {
    Obj(map[
      "schema" := Str(Titles(stream).0),
      "tenant_id" := Str(row.scope.tenant),
      "workspace_id" := Str(row.scope.workspace),
      "stream_kind" := Str(Titles(stream).1),
      "sequence" := Int(row.sequence),
      "previous_hash" := match row.previousHash { case None => Null case Some(h) => Str(h) },
      "created_at" := At(row, "created_at", env),
      "data" := Obj(WrittenData(row, stream, env))])
  }

  // The projection is that object.

  lemma SameCell(row: Row, column: string, env: Env)
    ensures Cell(row, column) == TextColumn(row, column)
    ensures Doc(row, column) == Document(row, column)
    ensures At(row, column, env) == Timestamp(row, column, env)
  {
  }

  lemma SameCells(row: Row, env: Env)
    ensures forall c :: Cell(row, c) == TextColumn(row, c)
    ensures forall c :: Doc(row, c) == Document(row, c)
    ensures forall c :: At(row, c, env) == Timestamp(row, c, env)
  {
    hide Cell, TextColumn, Doc, Document, At, Timestamp;
    forall c
      ensures Cell(row, c) == TextColumn(row, c) && Doc(row, c) == Document(row, c)
              && At(row, c, env) == Timestamp(row, c, env)
    {
      SameCell(row, c, env);
    }
  }

  lemma ReceiptTexts(row: Row)
    ensures Texts(row, Receipts) ==
              map["kind" := Cell(row, "kind"), "subject_type" := Cell(row, "subject_type"),
                  "subject_id" := Cell(row, "subject_id"), "truth_label" := Cell(row, "truth_label"),
                  "payload_sha256" := Cell(row, "payload_sha256")]
  {
    hide Cell, TextColumn;
    SameCells(row, Env(j => "", i => ""));
  }

  lemma ReceiptDocuments(row: Row)
    ensures Documents(row, Receipts) ==
              map["evidence_refs" := Doc(row, "evidence_refs"), "payload" := Doc(row, "payload_json")]
    ensures Extra(row, Receipts) == map[]
  {
    hide Doc, Document;
    SameCells(row, Env(j => "", i => ""));
  }

  lemma ReceiptsAreWritten(row: Row, env: Env)
    ensures Data(row, Receipts, env) == ReceiptData(row)
  {
    hide Cell, TextColumn, Doc, Document, Texts, Documents, Times, Extra;
    ReceiptTexts(row);
    ReceiptDocuments(row);
    NoTimes(row, Receipts, env);
    EmptyAdds(Texts(row, Receipts));
  }

  lemma NoTimes(row: Row, stream: Stream, env: Env)
    requires stream in {Receipts, Idempotency, Memory}
    ensures Times(row, stream, env) == map[]
  {
  }

  lemma IdempotencyIsWritten(row: Row, env: Env)
    ensures Data(row, Idempotency, env) == IdempotencyData(row)
  {
    hide Cell, TextColumn;
    SameCells(row, env);
    NoTimes(row, Idempotency, env);
    assert Documents(row, Idempotency) == map[];
  }

  lemma MemoryTexts(row: Row)
    ensures Texts(row, Memory) ==
              map["memory_kind" := Cell(row, "memory_kind"), "summary" := Cell(row, "summary"),
                  "truth_label" := Cell(row, "truth_label"), "receipt_hash" := Cell(row, "receipt_hash")]
  {
    hide Cell, TextColumn;
    SameCells(row, Env(j => "", i => ""));
  }

  lemma MemoryDocuments(row: Row)
    ensures Documents(row, Memory) ==
              map["evidence_refs" := Doc(row, "evidence_refs"), "subjects" := Doc(row, "subjects"),
                  "metadata" := Doc(row, "metadata_json")]
  {
    hide Doc, Document;
    ThreeDocuments(row, Memory, "evidence_refs", "subjects", "metadata");
    SameCells(row, Env(j => "", i => ""));
  }

  lemma MemoryIsWritten(row: Row, env: Env)
    ensures Data(row, Memory, env) == MemoryData(row)
  {
    hide Cell, TextColumn, Doc, Document, Texts, Documents, Extra, Times;
    MemoryTexts(row);
    MemoryDocuments(row);
    MemoryExtra(row);
    NoTimes(row, Memory, env);
    EmptyAdds(Texts(row, Memory));
  }

  lemma MemoryExtra(row: Row)
    ensures Extra(row, Memory) == map["partition_digest" := Cell(row, "scope_digest")]
  {
  }

  lemma EmptyAdds(m: map<string, Json>)
    ensures m + map[] == m && map[] + m == m
  {
  }

  lemma AnatomyTexts(row: Row)
    ensures Texts(row, Anatomy) ==
              map["trace_id" := Cell(row, "trace_id"), "span_id" := Cell(row, "span_id"),
                  "parent_span_id" := Cell(row, "parent_span_id"), "organ" := Cell(row, "organ"),
                  "operation" := Cell(row, "operation"), "state" := Cell(row, "state"),
                  "truth_label" := Cell(row, "truth_label"), "input_sha256" := Cell(row, "input_sha256"),
                  "output_sha256" := Cell(row, "output_sha256")]
  {
    hide Cell, TextColumn;
    SameCells(row, Env(j => "", i => ""));
  }

  lemma AnatomyTimes(row: Row, env: Env)
    ensures Times(row, Anatomy, env) ==
              map["started_at" := At(row, "started_at", env), "completed_at" := At(row, "completed_at", env)]
    ensures Documents(row, Anatomy) == map["attributes" := Doc(row, "attributes_json")]
  {
    hide At, Timestamp, Doc, Document;
    SameCells(row, env);
  }

  lemma AnatomyIsWritten(row: Row, env: Env)
    ensures Data(row, Anatomy, env) == AnatomyData(row, env)
  {
    hide Cell, Doc, At, Texts, Documents, Times;
    AnatomyTexts(row);
    AnatomyTimes(row, env);
  }

  lemma OperationalTexts(row: Row)
    ensures Texts(row, Operational) ==
              map["entity_kind" := Cell(row, "entity_kind"), "entity_id" := Cell(row, "entity_id"),
                  "name" := Cell(row, "name"), "truth_label" := Cell(row, "truth_label"),
                  "source_revision" := Cell(row, "source_revision")]
  {
    hide Cell, TextColumn;
    SameCells(row, Env(j => "", i => ""));
  }

  lemma OperationalDocuments(row: Row)
    ensures Documents(row, Operational) ==
              map["evidence_refs" := Doc(row, "evidence_refs"), "body" := Doc(row, "body_json"),
                  "metadata" := Doc(row, "metadata_json")]
  {
    hide Doc, Document;
    ThreeDocuments(row, Operational, "evidence_refs", "body", "metadata");
    SameCells(row, Env(j => "", i => ""));
  }

  lemma ThreeDocuments(row: Row, stream: Stream, a: string, b: string, c: string)
    requires DocumentNames(stream).Keys == {a, b, c} && a != b && b != c && a != c
    ensures Documents(row, stream) ==
              map[a := Document(row, DocumentNames(stream)[a]), b := Document(row, DocumentNames(stream)[b]),
                  c := Document(row, DocumentNames(stream)[c])]
  {
    hide DocumentNames, Document;
  }

  lemma OperationalTimes(row: Row, env: Env)
    ensures Times(row, Operational, env) == map["observed_at" := At(row, "observed_at", env)]
  {
    hide At, Timestamp;
    SameCells(row, env);
  }

  lemma OperationalIsWritten(row: Row, env: Env)
    ensures Data(row, Operational, env) == OperationalData(row, env)
  {
    hide Cell, Doc, At, Texts, Documents, Times;
    OperationalTexts(row);
    OperationalDocuments(row);
    OperationalTimes(row, env);
  }

  lemma DataIsWritten(row: Row, stream: Stream, env: Env)
    ensures Data(row, stream, env) == WrittenData(row, stream, env)
  {
    hide Data, ReceiptData, IdempotencyData, MemoryData, AnatomyData, OperationalData;
    match stream
    case Receipts => ReceiptsAreWritten(row, env);
    case Idempotency => IdempotencyIsWritten(row, env);
    case Memory => MemoryIsWritten(row, env);
    case Anatomy => AnatomyIsWritten(row, env);
    case Operational => OperationalIsWritten(row, env);
  }

  lemma TitlesAreWritten(stream: Stream)
    ensures Titles(stream) == (Schema(stream), StreamName(stream))
  {
  }

  lemma ProjectionIsWritten(row: Row, stream: Stream, env: Env)
    ensures Projected(row, stream, env) == Written(row, stream, env)
  {
    hide Data, WrittenData, Titles, Schema, StreamName, At, Timestamp;
    DataIsWritten(row, stream, env);
    TitlesAreWritten(stream);
    SameCell(row, "created_at", env);
  }

  /** The hashed instants of a stream. */
  function HashedTimes(stream: Stream): set<string> {
    match stream
    case Anatomy => {"created_at", "started_at", "completed_at"}
    case Operational => {"created_at", "observed_at"}
    case _ => {"created_at"}
  }

  /** A row can be rebuilt when its payload has the stored digest and its instants have a UTC form. */
  ghost predicate Rebuilds(row: Row, stream: Stream, env: Env) {
    && (stream.Receipts? ==>
          "payload_sha256" in row.texts && row.texts["payload_sha256"] == env.sha256(Doc(row, "payload_json")))
    && forall c :: c in HashedTimes(stream) && c in row.times ==>
         var offset := if row.times[c].offset.Some? then row.times[c].offset.value else 0;
         0 <= row.times[c].local - offset < 3_652_059 * 86_400_000_000
  }

  lemma RebuiltExactly(row: Row, stream: Stream, env: Env)
    ensures Projection(row, stream, env) ==
              if Rebuilds(row, stream, env) then Ok(Written(row, stream, env))
              else if !PayloadBound(row, stream, env) then Err("PAYLOAD_DIGEST_MISMATCH") else Err("OverflowError")
  {
    hide Projected, Written;
    ProjectionIsWritten(row, stream, env);
    SameCell(row, "payload_json", env);
  }

  /** A record is sealed exactly when its basis is an object equal to the written one and the hash is its digest. */
  lemma SealedExactly(row: Row, stream: Stream, env: Env)
    ensures Sealed(row, stream, env) <==>
              && row.basis.Obj? && Rebuilds(row, stream, env) && PyEq(row.basis, Written(row, stream, env))
              && row.recordHash == env.sha256(row.basis)
  {
    hide Projection, Written, PyEq, Rebuilds, PayloadBound;
    RebuiltExactly(row, stream, env);
  }

  /** A database of one scope that holds one record. */
  function OneRecord(row: Row, stream: Stream): Database {
    Database({row.scope}, map key | key in ExpectedHeads({row.scope}) ::
                            (if key.1 == stream then Head(1, Some(row.recordHash)) else Head(0, None)),
             map[stream := [row]])
  }

  /** A first record whose basis is the written object, with its digest as hash, is accepted in every stream. */
  lemma FirstRecordAccepted(row: Row, stream: Stream, env: Env)
    requires Rebuilds(row, stream, env) && row.sequence == 1 && row.previousHash == None
    requires row.basis == Written(row, stream, env) && row.recordHash == env.sha256(row.basis)
    ensures DatabaseOk(OneRecord(row, stream), env)
  {
    hide Written, Rebuilds, StreamOk, Sealed, OfScope;
    var x, s := OneRecord(row, stream), row.scope;
    PyEqEquivalence(row.basis, row.basis, row.basis);
    WrittenIsObject(row, stream, env);
    SealedExactly(row, stream, env);
    assert forall t: Stream :: t in STREAMS ==> (s, t) in ExpectedHeads({s});
    forall t: Stream | t in STREAMS
      ensures StreamOk(RowsOf(x, t), x.scopes, x.heads, t, env)
    {
      if t == stream {
        OneRowStream(row, s, x.heads, stream, env);
      } else {
        EmptyStream(s, x.heads, t, env);
      }
    }
  }

  lemma WrittenIsObject(row: Row, stream: Stream, env: Env)
    ensures Written(row, stream, env).Obj?
  {
    hide WrittenData, Titles, At;
  }

  // What one head pins.

  /** The rows agree on every hashed column, JSON columns up to ==. */
  ghost predicate SameColumns(a: Row, b: Row, stream: Stream, env: Env) {
    && At(a, "created_at", env) == At(b, "created_at", env)
    && match stream
       case Receipts =>
         && SameCellsOf(a, b, {"kind", "subject_type", "subject_id", "truth_label", "payload_sha256"})
         && PyEq(Doc(a, "evidence_refs"), Doc(b, "evidence_refs")) && Doc(a, "payload_json") == Doc(b, "payload_json")
       case Idempotency => SameCellsOf(a, b, {"key_digest", "request_digest", "response_receipt_hash"})
       case Memory =>
         && SameCellsOf(a, b, {"memory_kind", "summary", "truth_label", "receipt_hash", "scope_digest"})
         && PyEq(Doc(a, "evidence_refs"), Doc(b, "evidence_refs")) && PyEq(Doc(a, "subjects"), Doc(b, "subjects"))
         && PyEq(Doc(a, "metadata_json"), Doc(b, "metadata_json"))
       case Anatomy =>
         && SameCellsOf(a, b, {"trace_id", "span_id", "parent_span_id", "organ", "operation", "state", "truth_label",
                               "input_sha256", "output_sha256"})
         && PyEq(Doc(a, "attributes_json"), Doc(b, "attributes_json"))
         && At(a, "started_at", env) == At(b, "started_at", env)
         && At(a, "completed_at", env) == At(b, "completed_at", env)
       case Operational =>
         && SameCellsOf(a, b, {"entity_kind", "entity_id", "name", "truth_label", "source_revision"})
         && a.version == b.version && At(a, "observed_at", env) == At(b, "observed_at", env)
         && PyEq(Doc(a, "evidence_refs"), Doc(b, "evidence_refs")) && PyEq(Doc(a, "body_json"), Doc(b, "body_json"))
         && PyEq(Doc(a, "metadata_json"), Doc(b, "metadata_json"))
  }

  ghost predicate SameCellsOf(a: Row, b: Row, columns: set<string>) {
    forall c :: c in columns ==> Cell(a, c) == Cell(b, c)
  }

  lemma FieldsEqual(a: map<string, Json>, b: map<string, Json>, k: string)
    requires PyEq(Obj(a), Obj(b)) && k in a
    ensures k in b && PyEq(a[k], b[k]) && (Scalar(a[k]) && Scalar(b[k]) ==> a[k] == b[k])
  {
    if Scalar(a[k]) && Scalar(b[k]) {
      ScalarsSettle(a[k], b[k]);
    }
  }

  lemma AllFieldsEqual(a: map<string, Json>, b: map<string, Json>)
    requires PyEq(Obj(a), Obj(b))
    ensures forall k :: k in a ==> k in b && PyEq(a[k], b[k]) && (Scalar(a[k]) && Scalar(b[k]) ==> a[k] == b[k])
  {
    hide PyEq, Scalar;
    forall k | k in a
      ensures k in b && PyEq(a[k], b[k]) && (Scalar(a[k]) && Scalar(b[k]) ==> a[k] == b[k])
    {
      FieldsEqual(a, b, k);
    }
  }

  /** Names of different kinds of column never coincide in the projected data. */
  lemma KindsAreDisjoint(stream: Stream, n: string)
    ensures n in TextNames(stream) ==> n !in DocumentNames(stream) && n !in TimeNames(stream)
    ensures n in TextNames(stream) ==> n !in {"partition_digest", "tenant_id", "workspace_id", "version"}
    ensures n in TimeNames(stream) ==>
              n !in DocumentNames(stream) && n !in {"partition_digest", "tenant_id", "workspace_id", "version"}
    ensures n in {"partition_digest", "version"} ==> n !in DocumentNames(stream)
  {
  }

  lemma DataReads(row: Row, stream: Stream, env: Env, n: string)
    ensures n in TextNames(stream) ==> n in Data(row, stream, env) && Data(row, stream, env)[n] == TextColumn(row, n)
    ensures n in TimeNames(stream) ==>
              n in Data(row, stream, env) && Data(row, stream, env)[n] == Timestamp(row, n, env)
    ensures n in DocumentNames(stream) ==>
              n in Data(row, stream, env) && Data(row, stream, env)[n] == Document(row, DocumentNames(stream)[n])
  {
    hide TextNames, TimeNames, DocumentNames, TextColumn, Timestamp, Document;
    KindsAreDisjoint(stream, n);
  }

  lemma ExtraReads(row: Row, stream: Stream, env: Env)
    ensures stream.Memory? ==>
              "partition_digest" in Data(row, stream, env)
              && Data(row, stream, env)["partition_digest"] == TextColumn(row, "scope_digest")
    ensures stream.Operational? ==>
              "version" in Data(row, stream, env) && Data(row, stream, env)["version"] == Int(row.version)
  {
    hide TextNames, TimeNames, DocumentNames, TextColumn, Timestamp, Document;
    KindsAreDisjoint(stream, "partition_digest");
    KindsAreDisjoint(stream, "version");
  }

  lemma ColumnsAreScalar(row: Row, env: Env)
    ensures forall c :: Scalar(TextColumn(row, c)) && Scalar(Timestamp(row, c, env))
  {
  }

  lemma EqualColumns(a: Row, b: Row, stream: Stream, env: Env)
    requires PyEq(Obj(Data(a, stream, env)), Obj(Data(b, stream, env)))
    ensures forall n :: n in TextNames(stream) ==> TextColumn(a, n) == TextColumn(b, n)
    ensures forall n :: n in TimeNames(stream) ==> Timestamp(a, n, env) == Timestamp(b, n, env)
    ensures forall n :: n in DocumentNames(stream) ==>
              PyEq(Document(a, DocumentNames(stream)[n]), Document(b, DocumentNames(stream)[n]))
    ensures stream.Memory? ==> TextColumn(a, "scope_digest") == TextColumn(b, "scope_digest")
    ensures stream.Operational? ==> a.version == b.version
  {
    hide Data, PyEq, TextNames, TimeNames, DocumentNames, TextColumn, Timestamp, Document;
    AllFieldsEqual(Data(a, stream, env), Data(b, stream, env));
    ColumnsAreScalar(a, env);
    ColumnsAreScalar(b, env);
    ExtraReads(a, stream, env);
    ExtraReads(b, stream, env);
    forall n
      ensures n in TextNames(stream) ==> TextColumn(a, n) == TextColumn(b, n)
      ensures n in TimeNames(stream) ==> Timestamp(a, n, env) == Timestamp(b, n, env)
      ensures n in DocumentNames(stream) ==>
                PyEq(Document(a, DocumentNames(stream)[n]), Document(b, DocumentNames(stream)[n]))
    {
      DataReads(a, stream, env, n);
      DataReads(b, stream, env, n);
    }
  }

  lemma EqualLedgers(a: Row, b: Row, stream: Stream, env: Env)
    requires Injective(env.sha256) && Rebuilds(a, stream, env) && Rebuilds(b, stream, env)
    requires stream in {Receipts, Idempotency, Memory}
    requires PyEq(Projected(a, stream, env), Projected(b, stream, env))
    ensures SameColumns(a, b, stream, env)
  {
    hide PyEq, Cell, TextColumn, Doc, Document, At, Timestamp, Rebuilds, Data, Projected;
    CreatedAndData(a, b, stream, env);
    EqualColumns(a, b, stream, env);
    SameCells(a, env);
    SameCells(b, env);
    match stream
    case Receipts =>
      assert DocumentNames(Receipts)["evidence_refs"] == "evidence_refs";
      assert Cell(a, "payload_sha256") == Cell(b, "payload_sha256");
      SamePayload(a, b, env);
    case Idempotency =>
    case Memory =>
      assert DocumentNames(Memory)["evidence_refs"] == "evidence_refs";
      assert DocumentNames(Memory)["subjects"] == "subjects";
      assert DocumentNames(Memory)["metadata"] == "metadata_json";
  }

  lemma EqualRecords(a: Row, b: Row, stream: Stream, env: Env)
    requires stream in {Anatomy, Operational} && PyEq(Projected(a, stream, env), Projected(b, stream, env))
    ensures SameColumns(a, b, stream, env)
  {
    hide PyEq, Cell, TextColumn, Doc, Document, At, Timestamp, Data, Projected;
    CreatedAndData(a, b, stream, env);
    EqualColumns(a, b, stream, env);
    SameCells(a, env);
    SameCells(b, env);
    match stream
    case Anatomy => assert DocumentNames(Anatomy)["attributes"] == "attributes_json";
    case Operational =>
      assert DocumentNames(Operational)["evidence_refs"] == "evidence_refs";
      assert DocumentNames(Operational)["body"] == "body_json";
      assert DocumentNames(Operational)["metadata"] == "metadata_json";
  }

  lemma EqualRows(a: Row, b: Row, stream: Stream, env: Env)
    requires Injective(env.sha256) && Rebuilds(a, stream, env) && Rebuilds(b, stream, env)
    requires PyEq(Projected(a, stream, env), Projected(b, stream, env))
    ensures SameColumns(a, b, stream, env)
  {
    hide PyEq, Projected, SameColumns, Rebuilds;
    if stream in {Anatomy, Operational} {
      EqualRecords(a, b, stream, env);
    } else {
      EqualLedgers(a, b, stream, env);
    }
  }

  lemma CreatedAndData(a: Row, b: Row, stream: Stream, env: Env)
    requires PyEq(Projected(a, stream, env), Projected(b, stream, env))
    ensures Timestamp(a, "created_at", env) == Timestamp(b, "created_at", env)
    ensures PyEq(Obj(Data(a, stream, env)), Obj(Data(b, stream, env)))
  {
    hide PyEq, Timestamp, Data, Schema, StreamName, Scalar;
    ColumnsAreScalar(a, env);
    ColumnsAreScalar(b, env);
    var p, q := Projected(a, stream, env).fields, Projected(b, stream, env).fields;
    AllFieldsEqual(p, q);
    assert "created_at" in p && "data" in p;
    assert p["created_at"] == Timestamp(a, "created_at", env) && q["created_at"] == Timestamp(b, "created_at", env);
    assert p["data"] == Obj(Data(a, stream, env)) && q["data"] == Obj(Data(b, stream, env));
  }

  lemma SamePayload(a: Row, b: Row, env: Env)
    requires Injective(env.sha256) && Rebuilds(a, Receipts, env) && Rebuilds(b, Receipts, env)
    requires Cell(a, "payload_sha256") == Cell(b, "payload_sha256")
    ensures Doc(a, "payload_json") == Doc(b, "payload_json")
  {
    hide Doc;
  }

  /**
  Two accepted databases with one head hash of a scope and stream agree, row by
  row, on every column the stream hashes: on texts, the version and instants
  exactly, and on JSON columns up to ==.
  */
  lemma HeadPinsColumns(x: Database, y: Database, s: Scope, stream: Stream, env: Env)
    requires Injective(env.sha256) && DatabaseOk(x, env) && DatabaseOk(y, env) && s in x.scopes && s in y.scopes
    requires SameHead(x, y, s, stream)
    ensures |ChainOf(x, s, stream)| == |ChainOf(y, s, stream)|
    ensures forall i :: 0 <= i < |ChainOf(x, s, stream)| ==>
              SameColumns(ChainOf(x, s, stream)[i], ChainOf(y, s, stream)[i], stream, env)
  {
    hide DatabaseOk, Projection, Projected, OfScope, RowsOf, PyEq, SameColumns, Sealed, Written, Rebuilds;
    HeadDeterminesContents(x, y, s, stream, env);
    var a, b := ChainOf(x, s, stream), ChainOf(y, s, stream);
    forall i | 0 <= i < |a|
      ensures SameColumns(a[i], b[i], stream, env)
    {
      assert Sealed(a[i], stream, env) && Sealed(b[i], stream, env) && Alike(a[i], b[i], stream, env);
      SealedExactly(a[i], stream, env);
      SealedExactly(b[i], stream, env);
      RebuiltExactly(a[i], stream, env);
      RebuiltExactly(b[i], stream, env);
      ProjectionIsWritten(a[i], stream, env);
      ProjectionIsWritten(b[i], stream, env);
      EqualRows(a[i], b[i], stream, env);
    }
  }
}
