/**
Transactional import of a qualified snapshot.  Any step may fail, the commit may
fail with an unknown outcome, insertion may store anything, and other writers
may act once the transaction is over.
*/
module Restore {
  import opened Common
  import opened Json
  import opened JsonText

  /** What a query of every supported table returns, in primary-key order. */
  type Tables = map<string, seq<Json>>

  datatype TableSummary = TableSummary(rows: nat, sha256: string)

  datatype Summary = Summary(tables: map<string, TableSummary>, logical: string, streams: nat)

  /**
  The functions a summary is made of: row normalization, the canonical text of a
  value without its final newline, digests, the schema check (with or without a
  required migration) and the chain check.
  */
  datatype Reader = Reader(
    normalize: Json -> Json, text: Json -> string, sha256: string -> string,
    logical: map<string, TableSummary> -> string, schemaOk: (Tables, bool) -> bool, chains: Tables -> Result<nat>)

  function Normalized(r: Reader, rows: seq<Json>): seq<Json> {
    if rows == [] then [] else [r.normalize(rows[0])] + Normalized(r, rows[1..])
  }

  /** The bytes hashed for one table: one canonical line per row. */
  function Lines(r: Reader, rows: seq<Json>): string {
    if rows == [] then "" else r.text(rows[0]) + "\n" + Lines(r, rows[1..])
  }

  function SummarizeTable(r: Reader, rows: seq<Json>): TableSummary {
    TableSummary(|rows|, r.sha256(Lines(r, Normalized(r, rows))))
  }

  function TableSummaries(r: Reader, t: Tables): map<string, TableSummary> {
    map name | name in t :: SummarizeTable(r, t[name])
  }

  function Summarize(r: Reader, t: Tables, migrated: bool): Result<Summary> {
    if !r.schemaOk(t, migrated) then Err("SCHEMA")
    else
      var chains := r.chains(t);
      if chains.Err? then Err(chains.error)
      else Ok(Summary(TableSummaries(r, t), r.logical(TableSummaries(r, t)), chains.value))
  }

  /** The accumulating loop over one table's rows. */
  method DigestRows(r: Reader, rows: seq<Json>) returns (s: TableSummary)
    ensures s == SummarizeTable(r, rows)
  {
    var data, count := "", 0;
    for i := 0 to |rows|
      invariant count == i
      invariant data + Lines(r, Normalized(r, rows[i..])) == Lines(r, Normalized(r, rows))
    {
      assert rows[i..][1..] == rows[i + 1..];
      assert Normalized(r, rows[i..])[1..] == Normalized(r, rows[i + 1..]);
      data := data + (r.text(r.normalize(rows[i])) + "\n");
      count := count + 1;
    }
    assert rows[|rows|..] == [];
    assert data + "" == data;
    s := TableSummary(count, r.sha256(data));
  }

  // A summary determines the tables.

  ghost predicate Laws(r: Reader) {
    && (forall x, y :: r.sha256(x) == r.sha256(y) ==> x == y)
    && Injective(r.text)
    && forall v :: OneLine(r.text(v))
  }

  /** Readers that keep these laws exist, with any normalization, schema check and chain check. */
  lemma LawfulReader(normalize: Json -> Json, schemaOk: (Tables, bool) -> bool, chains: Tables -> Result<nat>)
    returns (r: Reader)
    ensures Laws(r) && r.normalize == normalize && r.schemaOk == schemaOk && r.chains == chains
  {
    var text := InjectiveDigest();
    r := Reader(normalize, text, x => x, t => "", schemaOk, chains);
  }

  /** Text up to the first newline is uniquely determined. */
  lemma FirstLine(a: string, x: string, b: string, y: string)
    requires a + "\n" + x == b + "\n" + y
    requires (forall i :: 0 <= i < |a| ==> a[i] != '\n') && (forall i :: 0 <= i < |b| ==> b[i] != '\n')
    ensures a == b && x == y
  {
    var s := a + "\n" + x;
    assert s[|a|] == '\n' && s[|b|] == '\n';
    assert forall i :: 0 <= i < |a| ==> s[i] == a[i];
    assert forall i :: 0 <= i < |b| ==> s[i] == b[i];
    assert |a| == |b|;
    assert a == s[..|a|] && b == s[..|b|];
    assert x == s[|a| + 1..] && y == s[|b| + 1..];
  }

  /** The hashed lines can be read back in only one way. */
  lemma {:induction false} LinesAreInjective(r: Reader, a: seq<Json>, b: seq<Json>)
    requires Laws(r) && Lines(r, a) == Lines(r, b)
    ensures a == b
  {
    if a != [] && b != [] {
      FirstLine(r.text(a[0]), Lines(r, a[1..]), r.text(b[0]), Lines(r, b[1..]));
      LinesAreInjective(r, a[1..], b[1..]);
      assert a == [a[0]] + a[1..] && b == [b[0]] + b[1..];
    }
  }

  /** The same tables, row for row, up to normalization. */
  ghost predicate SameTables(r: Reader, a: Tables, b: Tables) {
    a.Keys == b.Keys && forall name :: name in a ==> SameRows(r, a[name], b[name])
  }

  ghost predicate SameRows(r: Reader, a: seq<Json>, b: seq<Json>) {
    |a| == |b| && forall i :: 0 <= i < |a| ==> r.normalize(a[i]) == r.normalize(b[i])
  }

  lemma {:induction false} NormalizedAt(r: Reader, rows: seq<Json>)
    ensures |Normalized(r, rows)| == |rows|
    ensures forall i :: 0 <= i < |rows| ==> Normalized(r, rows)[i] == r.normalize(rows[i])
  {
    if rows != [] {
      NormalizedAt(r, rows[1..]);
    }
  }

  lemma SummaryDeterminesTables(r: Reader, a: Tables, b: Tables)
    requires Laws(r) && TableSummaries(r, a) == TableSummaries(r, b)
    ensures SameTables(r, a, b)
  {
    hide Laws;
    assert a.Keys == TableSummaries(r, a).Keys && b.Keys == TableSummaries(r, b).Keys;
    forall name | name in a
      ensures SameRows(r, a[name], b[name])
    {
      assert SummarizeTable(r, a[name]) == TableSummaries(r, b)[name];
      DigestDeterminesLines(r, a[name], b[name]);
    }
  }

  lemma DigestDeterminesLines(r: Reader, a: seq<Json>, b: seq<Json>)
    requires Laws(r) && SummarizeTable(r, a) == SummarizeTable(r, b)
    ensures SameRows(r, a, b)
  {
    LinesAreInjective(r, Normalized(r, a), Normalized(r, b));
    NormalizedAt(r, a);
    NormalizedAt(r, b);
  }

  /** The text is the lines of all rows after normalization, one after the other. */
  ghost predicate Listed(r: Reader, rows: seq<Json>, text: string) {
    exists parts: seq<string> {:trigger Joined(parts)} ::
      && |parts| == |rows| && text == Joined(parts)
      && forall i :: 0 <= i < |rows| ==> parts[i] == r.text(r.normalize(rows[i])) + "\n"
  }

  ghost function Joined(parts: seq<string>): string {
    if parts == [] then "" else parts[0] + Joined(parts[1..])
  }

  lemma {:induction false} LinesAreListed(r: Reader, rows: seq<Json>) returns (parts: seq<string>)
    ensures |parts| == |rows| && Lines(r, Normalized(r, rows)) == Joined(parts)
    ensures forall i :: 0 <= i < |rows| ==> parts[i] == r.text(r.normalize(rows[i])) + "\n"
  {
    if rows == [] {
      parts := [];
    } else {
      var rest := LinesAreListed(r, rows[1..]);
      parts := [r.text(r.normalize(rows[0])) + "\n"] + rest;
      assert Normalized(r, rows)[1..] == Normalized(r, rows[1..]);
    }
  }

  ghost predicate TableSays(r: Reader, rows: seq<Json>, s: TableSummary) {
    s.rows == |rows| && exists text :: Listed(r, rows, text) && s.sha256 == r.sha256(text)
  }

  /**
  Tables have a summary exactly when the schema and the chains are in order; it
  gives every table's row count and digest and the number of streams.
  */
  lemma SummarizeExactly(r: Reader, t: Tables, migrated: bool)
    ensures Summarize(r, t, migrated).Ok? <==> r.schemaOk(t, migrated) && r.chains(t).Ok?
    ensures Summarize(r, t, migrated).Ok? ==>
              var s := Summarize(r, t, migrated).value;
              && s.tables.Keys == t.Keys && (forall name :: name in t ==> TableSays(r, t[name], s.tables[name]))
              && s.logical == r.logical(s.tables) && r.chains(t) == Ok(s.streams)
  {
    hide Lines, Joined;
    forall name | name in t
      ensures TableSays(r, t[name], SummarizeTable(r, t[name]))
    {
      var parts := LinesAreListed(r, t[name]);
      assert Listed(r, t[name], Joined(parts));
    }
  }

  // The run.

  datatype Effect = NotCommitted | CommitOutcomeUnknown | Committed

  datatype Outcome = Returned(effect: Effect) | Raised(effect: Effect)

  datatype CommitResult = CommitOk | ErrorAfterCommit | ErrorBeforeCommit

  /** What can fail besides the checks and the commit; batches are counted from 0 in each table. */
  datatype Step =
    Freeze | OpenSource | Connect | Lock | Insert(table: string, batch: nat) | Compare | ReadBack | Receipt

  /**
  Everything the run does not control: which of its steps fail, what inserting a
  batch does to a table, how the commit ends, the identities the two target
  connections observe, and what other writers do after the transaction.
  */
  datatype World = World(
    fails: Step -> bool, insert: (seq<Json>, seq<Json>) -> seq<Json>, commit: CommitResult,
    identity: string, laterIdentity: string, others: Tables -> Tables)

  const BATCH: nat := 500

  function CopyTable(w: World, stored: seq<Json>, rows: seq<Json>): seq<Json>
    decreases |rows|
  {
    if rows == [] then stored
    else
      var n := if |rows| > BATCH then BATCH else |rows|;
      CopyTable(w, w.insert(stored, rows[..n]), rows[n..])
  }

  /** What the transaction holds after copying: tables absent from the snapshot stay as they were. */
  ghost function Copied(w: World, target: Tables, source: Tables): Tables {
    map name | name in target :: if name in source then CopyTable(w, target[name], source[name]) else target[name]
  }

  predicate Empty(t: Tables) {
    forall name :: name in t ==> t[name] == []
  }

  // Batched copying.

  /** Inserting a batch into a table read in primary-key order, batches arriving in that order. */
  ghost predicate Faithful(w: World) {
    forall stored, rows :: w.insert(stored, rows) == stored + rows
  }

  /** Batched copying into any table loses and duplicates no row and keeps their order. */
  lemma {:induction false} BatchesLoseNothing(w: World, stored: seq<Json>, rows: seq<Json>)
    requires Faithful(w)
    ensures CopyTable(w, stored, rows) == stored + rows
    decreases |rows|
  {
    if rows != [] {
      var n := if |rows| > BATCH then BATCH else |rows|;
      BatchesLoseNothing(w, stored + rows[..n], rows[n..]);
      assert stored + rows[..n] + rows[n..] == stored + rows;
    }
  }

  /** An insertion that keeps each batch as one row shows what the batches are: 500 rows each but the last. */
  lemma {:induction false} BatchesOf500(w: World, stored: seq<Json>, rows: seq<Json>)
    requires forall t, batch :: w.insert(t, batch) == t + [Arr(batch)]
    ensures |CopyTable(w, stored, rows)| == |stored| + (|rows| + 499) / 500
    ensures CopyTable(w, stored, rows)[..|stored|] == stored
    ensures forall k :: 0 <= k < (|rows| + 499) / 500 ==>
              CopyTable(w, stored, rows)[|stored| + k] == Arr(Slice(rows, 500 * k, 500 * k + 500))
    decreases |rows|
  {
    if rows != [] {
      var n := if |rows| > BATCH then BATCH else |rows|;
      var next := stored + [Arr(rows[..n])];
      BatchesOf500(w, next, rows[n..]);
      var t := CopyTable(w, stored, rows);
      assert t[|stored|] == t[..|next|][|stored|] && t[..|stored|] == t[..|next|][..|stored|];
      forall k | 0 <= k < (|rows| + 499) / 500
        ensures t[|stored| + k] == Arr(Slice(rows, 500 * k, 500 * k + 500))
      {
        if k > 0 {
          assert t[|next| + (k - 1)] == Arr(Slice(rows[n..], 500 * (k - 1), 500 * (k - 1) + 500));
        }
      }
    }
  }

  /** The rows from lo to hi, or to the end if that comes first. */
  function Slice(rows: seq<Json>, lo: nat, hi: nat): seq<Json> {
    if hi <= |rows| && lo <= hi then rows[lo..hi] else if lo <= |rows| then rows[lo..] else []
  }

  /** Every batch of these rows from the k-th on is inserted. */
  ghost predicate InsertsFrom(w: World, table: string, k: nat, rows: nat) {
    forall b: nat :: k <= b < (rows + 499) / 500 ==> !w.fails(Insert(table, b))
  }

  ghost predicate InsertsAll(w: World, names: set<string>, source: Tables) {
    forall name :: name in names && name in source ==> InsertsFrom(w, name, 0, |source[name]|)
  }

  ghost predicate NeverFails(w: World) {
    forall step :: !w.fails(step)
  }

  /** Nothing fails, insertion is faithful, and the empty migrated target can hold the snapshot. */
  ghost predicate Smooth(r: Reader, w: World, source: Tables, target: Tables) {
    && NeverFails(w) && Faithful(w) && w.commit.CommitOk? && w.others(source) == source
    && Empty(target) && target.Keys == source.Keys && Summarize(r, target, true).Ok?
    && Summarize(r, source, false).Ok? && Summarize(r, source, true) == Summarize(r, source, false)
  }

  /** Everything up to the commit goes well. */
  ghost predicate Prepared(r: Reader, w: World, source: Tables, target: Tables) {
    && !w.fails(Freeze) && !w.fails(OpenSource) && !w.fails(Connect) && !w.fails(Lock) && !w.fails(Compare)
    && InsertsAll(w, target.Keys, source)
    && Summarize(r, source, false).Ok? && Summarize(r, target, true).Ok? && Empty(target)
    && Summarize(r, Copied(w, target, source), true) == Summarize(r, source, false)
  }

  /** The second connection finds what was copied, and the receipt of the result is written. */
  ghost predicate ReadsBack(r: Reader, w: World, source: Tables, target: Tables) {
    && !w.fails(ReadBack) && !w.fails(Receipt)
    && Summarize(r, w.others(Copied(w, target, source)), true) == Summarize(r, source, false)
  }

  lemma SmoothIsPrepared(r: Reader, w: World, source: Tables, target: Tables)
    requires Smooth(r, w, source, target)
    ensures w.commit.CommitOk? && Copied(w, target, source) == source == w.others(source)
    ensures Prepared(r, w, source, target) && ReadsBack(r, w, source, target)
  {
    hide CopyTable, Summarize;
    forall name | name in source
      ensures Copied(w, target, source)[name] == source[name]
    {
      BatchesLoseNothing(w, [], source[name]);
      assert target[name] == [] && [] + source[name] == source[name];
    }
  }

  class Target {
    var committed: Tables
    /** The committed contents right after this run's commit took effect, if it did. */
    ghost var written: Option<Tables>

    constructor (tables: Tables)
      ensures committed == tables
    {
      committed, written := tables, None;
    }

    /** Copies one table in batches; None when a batch failed on the way. */
    method CopyRows(w: World, name: string, stored: seq<Json>, rows: seq<Json>) returns (r: Option<seq<Json>>)
      ensures r.Some? <==> InsertsFrom(w, name, 0, |rows|)
      ensures r.Some? ==> r.value == CopyTable(w, stored, rows)
    {
      var table, i, batch := stored, 0, 0;
      while i < |rows|
        invariant 0 <= i <= |rows| && (i == 500 * batch || i == |rows|)
        invariant (|rows| + 499) / 500 == batch + (|rows| - i + 499) / 500
        invariant InsertsFrom(w, name, 0, |rows|) <==> InsertsFrom(w, name, batch, |rows|)
        invariant CopyTable(w, table, rows[i..]) == CopyTable(w, stored, rows)
      {
        if w.fails(Insert(name, batch)) {
          return None;
        }
        var n := if |rows| - i > BATCH then BATCH else |rows| - i;
        assert rows[i..][..n] == rows[i..i + n] && rows[i..][n..] == rows[i + n..];
        table := w.insert(table, rows[i..i + n]);
        i, batch := i + n, batch + 1;
      }
      r := Some(table);
    }

    /** Copies every table of the source into the transaction's view of the target. */
    method CopyAll(w: World, start: Tables, source: Tables) returns (r: Option<Tables>)
      ensures r.Some? <==> InsertsAll(w, start.Keys, source)
      ensures r.Some? ==> r.value == Copied(w, start, source)
    {
      hide CopyTable, InsertsFrom;
      var view, left := start, source.Keys * start.Keys;
      while left != {}
        invariant left <= source.Keys * start.Keys && view.Keys == start.Keys
        invariant InsertsAll(w, start.Keys, source) <==> InsertsAll(w, left, source)
        invariant forall name :: name in start ==>
                    view[name] ==
                      if name in source && name !in left then CopyTable(w, start[name], source[name]) else start[name]
      {
        var name :| name in left;
        var table := CopyRows(w, name, view[name], source[name]);
        if table.None? {
          return None;
        }
        view := view[name := table.value];
        left := left - {name};
      }
      r := Some(view);
    }

    /**
    Runs the import of the frozen snapshot `source`, whose digest was observed as
    `digest`.  The effect reported with every result or error says what happened
    to the committed target.
    */
    method Restore(r: Reader, w: World, source: Tables, digest: string, expectedDigest: string, approved: string)
      returns (outcome: Outcome)
      modifies this
      ensures outcome ==
                if digest != expectedDigest || w.identity != approved || !Prepared(r, w, source, old(committed))
                then Raised(NotCommitted)
                else if !w.commit.CommitOk? then Raised(CommitOutcomeUnknown)
                else if w.laterIdentity == approved && ReadsBack(r, w, source, old(committed))
                then Returned(Committed) else Raised(Committed)
      ensures outcome.effect == NotCommitted ==> committed == old(committed) && written == None
      ensures outcome.effect == CommitOutcomeUnknown ==>
                if w.commit.ErrorBeforeCommit? then committed == old(committed) && written == None
                else committed == Copied(w, old(committed), source) && written == Some(committed)
      ensures outcome.effect == Committed ==>
                written == Some(Copied(w, old(committed), source)) && committed == w.others(written.value)
      ensures written.Some? && Laws(r) ==> SameTables(r, written.value, source)
      ensures outcome.Returned? ==>
                && Summarize(r, committed, true) == Summarize(r, source, false)
                && (Laws(r) ==> SameTables(r, committed, source))
      ensures digest == expectedDigest && w.identity == w.laterIdentity == approved
              && Smooth(r, w, source, old(committed)) ==>
                outcome == Returned(Committed) && committed == source && written == Some(source)
    {
      hide Laws, Summarize, SameTables, Smooth, Copied, InsertsAll;
      if Smooth(r, w, source, committed) {
        SmoothIsPrepared(r, w, source, committed);
      }
      written := None;
      // Own a frozen copy, check its digest, summarize it.
      if w.fails(Freeze) || digest != expectedDigest || w.fails(OpenSource) {
        return Raised(NotCommitted);
      }
      var expected := Summarize(r, source, false);
      if expected.Err? {
        return Raised(NotCommitted);
      }
      // Connect, begin, check the identity, lock, inspect.
      if w.fails(Connect) || w.identity != approved || w.fails(Lock) {
        return Raised(NotCommitted);
      }
      var before := Summarize(r, committed, true);
      if before.Err? || !Empty(committed) {
        return Raised(NotCommitted);
      }
      var view := CopyAll(w, committed, source);
      if view.None? {
        return Raised(NotCommitted);
      }
      if w.fails(Compare) || Summarize(r, view.value, true) != expected {
        return Raised(NotCommitted);
      }
      EqualSummaries(r, view.value, source);
      match w.commit {
        case ErrorBeforeCommit => return Raised(CommitOutcomeUnknown);
        case ErrorAfterCommit =>
          committed, written := view.value, Some(view.value);
          return Raised(CommitOutcomeUnknown);
        case CommitOk =>
          committed, written := view.value, Some(view.value);
      }
      // Read back through a second connection.
      committed := w.others(committed);
      if w.fails(ReadBack) || w.laterIdentity != approved || Summarize(r, committed, true) != expected {
        return Raised(Committed);
      }
      EqualSummaries(r, committed, source);
      if w.fails(Receipt) {
        return Raised(Committed);
      }
      return Returned(Committed);
    }
  }

  lemma EqualSummaries(r: Reader, a: Tables, b: Tables)
    requires Summarize(r, a, true).Ok? && Summarize(r, a, true) == Summarize(r, b, false)
    ensures Laws(r) ==> SameTables(r, a, b)
  {
    if Laws(r) {
      SummaryDeterminesTables(r, a, b);
    }
  }

  /** A run in which nothing fails exists for every snapshot, under lawful reading. */
  lemma SmoothRun(source: Tables) returns (r: Reader, w: World, target: Tables)
    ensures Laws(r) && Smooth(r, w, source, target)
  {
    r := LawfulReader(v => v, (t, migrated) => true, t => Ok(0));
    w := World(step => false, (stored, rows) => stored + rows, CommitOk, "", "", t => t);
    target := map name | name in source :: [];
  }
}
