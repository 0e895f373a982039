/**
Build receipts: the manifest of a payload, its canonical stored form, and the
staged verification of a stored receipt against the current payload.  Files hold
text; a byte outside ASCII is outside the receipt's canonical form.
*/
module BuildReceipt {
  import opened Common
  import opened Decimals
  import opened Json
  import opened CanonicalJson

  const MAX_RECEIPT_BYTES: nat := 4_000_000

  datatype Entry = Entry(path: string, size: nat, sha256: string)

  predicate IsRevision(s: string) { IsLowerHexText(s, 40) }

  predicate IsPathChar(c: char) {
    'a' <= c <= 'z' || 'A' <= c <= 'Z' || '0' <= c <= '9' || c in "._/-"
  }

  predicate DotsAt(s: string, i: int) {
    && 0 <= i <= |s| - 2 && s[i] == '.' && s[i + 1] == '.'
    && (i == 0 || s[i - 1] == '/') && (i + 2 == |s| || s[i + 2] == '/')
  }

  /** Some component of the path is exactly "..". */
  predicate HasParent(s: string) {
    exists i :: 0 <= i < |s| && DotsAt(s, i)
  }

  /** Relative, made of safe characters, and without a parent component. */
  predicate SafePath(s: string) {
    s != "" && (forall i :: 0 <= i < |s| ==> IsPathChar(s[i])) && s[0] != '/' && !HasParent(s)
  }

  predicate EntryOk(e: Entry) {
    SafePath(e.path) && IsSha256(e.sha256)
  }

  /** Sorted by path, without duplicates. */
  predicate Ascending(entries: seq<Entry>) {
    forall i, j :: 0 <= i < j < |entries| ==>
      Leq(entries[i].path, entries[j].path) && entries[i].path != entries[j].path
  }

  predicate ManifestOk(entries: seq<Entry>) {
    entries != [] && Ascending(entries) && forall i :: 0 <= i < |entries| ==> EntryOk(entries[i])
  }

  // Collecting the payload.

  /** A stable sort by path. */
  function InsertEntry(e: Entry, s: seq<Entry>): seq<Entry> {
    if s == [] then [e]
    else if Leq(e.path, s[0].path) then [e] + s
    else [s[0]] + InsertEntry(e, s[1..])
  }

  function SortEntries(s: seq<Entry>): seq<Entry> {
    if s == [] then [] else InsertEntry(s[0], SortEntries(s[1..]))
  }

  ghost predicate SortedByPath(s: seq<Entry>) {
    forall i, j :: 0 <= i < j < |s| ==> Leq(s[i].path, s[j].path)
  }

  lemma {:induction false} InsertContents(e: Entry, s: seq<Entry>)
    ensures multiset(InsertEntry(e, s)) == multiset(s) + multiset{e} && |InsertEntry(e, s)| == |s| + 1
  {
    hide Leq;
    if s != [] {
      assert s == [s[0]] + s[1..];
      InsertContents(e, s[1..]);
    }
  }

  ghost predicate StartsBefore(e: Entry, s: seq<Entry>) {
    forall j :: 0 <= j < |s| ==> Leq(e.path, s[j].path)
  }

  lemma ConsSorted(e: Entry, s: seq<Entry>)
    requires StartsBefore(e, s) && SortedByPath(s)
    ensures SortedByPath([e] + s)
  {
    hide Leq;
  }

  lemma HeadStartsBefore(e: Entry, s: seq<Entry>)
    requires SortedByPath(s) && s != [] && Leq(e.path, s[0].path)
    ensures StartsBefore(e, s)
  {
    hide Leq;
    forall j | 0 <= j < |s|
      ensures Leq(e.path, s[j].path)
    {
      LeqTotal(s[0].path, s[0].path);
      LeqTransitive(e.path, s[0].path, s[j].path);
    }
  }

  lemma {:induction false} InsertKeeps(e: Entry, s: seq<Entry>)
    requires SortedByPath(s)
    ensures SortedByPath(InsertEntry(e, s)) && multiset(InsertEntry(e, s)) == multiset(s) + multiset{e}
    ensures |InsertEntry(e, s)| == |s| + 1
  {
    hide Leq, StartsBefore;
    InsertContents(e, s);
    if s != [] {
      LeqTotal(e.path, s[0].path);
      if Leq(e.path, s[0].path) {
        HeadStartsBefore(e, s);
        ConsSorted(e, s);
      } else {
        InsertKeeps(e, s[1..]);
        InsertStartsBefore(s[0], e, s[1..]);
        ConsSorted(s[0], InsertEntry(e, s[1..]));
      }
    }
  }

  lemma InsertStartsBefore(first: Entry, e: Entry, s: seq<Entry>)
    requires Leq(first.path, e.path) && forall j :: 0 <= j < |s| ==> Leq(first.path, s[j].path)
    ensures StartsBefore(first, InsertEntry(e, s))
  {
    hide Leq, InsertEntry;
    InsertContents(e, s);
    var r := InsertEntry(e, s);
    forall j | 0 <= j < |r|
      ensures Leq(first.path, r[j].path)
    {
      assert r[j] in multiset(r);
      assert r[j] == e || r[j] in s;
    }
  }

  lemma NothingSorted()
    ensures SortedByPath([])
  {
  }

  lemma {:induction false} SortKeeps(s: seq<Entry>)
    ensures SortedByPath(SortEntries(s)) && multiset(SortEntries(s)) == multiset(s) && |SortEntries(s)| == |s|
  {
    hide SortedByPath, InsertEntry;
    if s == [] {
      NothingSorted();
    } else {
      SortKeeps(s[1..]);
      InsertKeeps(s[0], SortEntries(s[1..]));
      assert s == [s[0]] + s[1..];
    }
  }

  predicate DistinctPaths(s: seq<Entry>) {
    forall i, j :: 0 <= i < j < |s| ==> s[i].path != s[j].path
  }

  /** The payload manifest of the files a walk found; the walk itself is not modelled. */
  method CollectPayloadEntries(found: seq<Entry>) returns (r: Option<seq<Entry>>)
    ensures r == Collected(found)
  {
    var entries: seq<Entry> := [];
    for i := 0 to |found|
      invariant entries == found[..i] && forall k :: 0 <= k < i ==> SafePath(found[k].path)
    {
      if !SafePath(found[i].path) {
        return None;
      }
      entries := entries + [found[i]];
    }
    assert entries == found;
    var sorted := SortEntries(entries);
    if !DistinctPaths(sorted) {
      return None;
    }
    return Some(sorted);
  }

  function Collected(found: seq<Entry>): Option<seq<Entry>> {
    if (forall i :: 0 <= i < |found| ==> SafePath(found[i].path)) && DistinctPaths(SortEntries(found))
    then Some(SortEntries(found)) else None
  }

  lemma {:induction false} DistinctOccursOnce(s: seq<Entry>, e: Entry)
    requires DistinctPaths(s)
    ensures multiset(s)[e] <= 1
  {
    if s != [] {
      assert s == [s[0]] + s[1..];
      DistinctOccursOnce(s[1..], e);
      if s[0] == e {
        assert forall i :: 1 <= i < |s| ==> s[i].path != e.path;
        assert e !in s[1..];
      }
    }
  }

  lemma RepeatedOccursTwice(s: seq<Entry>, i: nat, j: nat)
    requires i < j < |s| && s[i] == s[j]
    ensures multiset(s)[s[i]] >= 2
  {
    assert s == s[..i] + [s[i]] + s[i + 1..];
    assert s[j] == s[i + 1..][j - i - 1];
    assert s[i] in multiset(s[i + 1..]);
  }

  /** Whether paths repeat does not depend on the order. */
  lemma DistinctInAnyOrder(a: seq<Entry>, b: seq<Entry>)
    requires multiset(a) == multiset(b) && DistinctPaths(a)
    ensures DistinctPaths(b)
  {
    forall i, j | 0 <= i < j < |b|
      ensures b[i].path != b[j].path
    {
      if b[i] == b[j] {
        RepeatedOccursTwice(b, i, j);
        DistinctOccursOnce(a, b[i]);
      } else {
        assert b[i] in multiset(a) && b[j] in multiset(a);
        var k :| 0 <= k < |a| && a[k] == b[i];
        var l :| 0 <= l < |a| && a[l] == b[j];
      }
    }
  }

  /**
  Collecting succeeds exactly when every path is safe and none repeats; the
  manifest is then sorted, duplicate-free, and holds exactly the files found.
  */
  lemma CollectedIsManifest(found: seq<Entry>)
    ensures Collected(found).Some? <==>
              DistinctPaths(found) && forall i :: 0 <= i < |found| ==> SafePath(found[i].path)
    ensures Collected(found).Some? ==>
              Ascending(Collected(found).value) && multiset(Collected(found).value) == multiset(found)
    ensures Collected(found).Some? && found != [] && (forall i :: 0 <= i < |found| ==> IsSha256(found[i].sha256)) ==>
              ManifestOk(Collected(found).value)
  {
    hide SafePath, IsSha256;
    SortKeeps(found);
    var s := SortEntries(found);
    if DistinctPaths(found) {
      DistinctInAnyOrder(found, s);
    }
    if Collected(found).Some? {
      DistinctInAnyOrder(s, found);
      forall i | 0 <= i < |s|
        ensures s[i] in found
      {
        assert s[i] in multiset(s);
      }
    }
  }

  lemma {:induction false} AscendingUnique(a: seq<Entry>, b: seq<Entry>)
    requires Ascending(a) && Ascending(b) && multiset(a) == multiset(b)
    ensures a == b
  {
    hide Ascending;
    if a == [] {
      assert |multiset(b)| == 0;
    } else {
      assert |multiset(b)| == |multiset(a)| > 0;
      SameFirst(a, b);
      assert a == [a[0]] + a[1..] && b == [b[0]] + b[1..];
      assert multiset(a[1..]) == multiset(a) - multiset{a[0]} == multiset(b[1..]);
      AscendingTail(a);
      AscendingTail(b);
      AscendingUnique(a[1..], b[1..]);
    }
  }

  lemma AscendingTail(a: seq<Entry>)
    requires Ascending(a) && a != []
    ensures Ascending(a[1..])
  {
  }

  lemma SameFirst(a: seq<Entry>, b: seq<Entry>)
    requires Ascending(a) && Ascending(b) && multiset(a) == multiset(b) && a != [] && b != []
    ensures a[0] == b[0]
  {
    assert a[0] in multiset(a) && a[0] in b;
    assert b[0] in multiset(b) && b[0] in a;
    var i :| 0 <= i < |b| && b[i] == a[0];
    var j :| 0 <= j < |a| && a[j] == b[0];
    LeqTotal(a[0].path, b[0].path);
  }

  /** The manifest, or its refusal, does not depend on the order in which the walk met the files. */
  lemma WalkOrderIsIrrelevant(found: seq<Entry>, other: seq<Entry>)
    requires multiset(found) == multiset(other)
    ensures Collected(found) == Collected(other)
  {
    hide Collected;
    if Collected(found).Some? {
      CollectedInAnyOrder(found, other);
    } else if Collected(other).Some? {
      CollectedInAnyOrder(other, found);
    }
  }

  lemma CollectedInAnyOrder(found: seq<Entry>, other: seq<Entry>)
    requires multiset(found) == multiset(other) && Collected(found).Some?
    ensures Collected(found) == Collected(other)
  {
    hide SafePath, SortEntries, DistinctPaths;
    CollectedIsManifest(found);
    DistinctInAnyOrder(found, other);
    forall i | 0 <= i < |other|
      ensures SafePath(other[i].path)
    {
      assert other[i] in multiset(other) && other[i] in found;
    }
    CollectedIsManifest(other);
    AscendingUnique(Collected(found).value, Collected(other).value);
  }

  // The receipt document.

  function EntryJson(e: Entry): Json {
    Obj(map["path" := Str(e.path), "size" := Int(e.size), "sha256" := Str(e.sha256)])
  }

  function EntriesJson(entries: seq<Entry>): Json {
    Arr(seq(|entries|, i requires 0 <= i < |entries| => EntryJson(entries[i])))
  }

  function SourceJson(revision: string): Json {
    Obj(map["repository" := Str("szl-holdings/lyte-services"), "revision" := Str(revision)])
  }

  function PayloadFields(entries: seq<Entry>): map<string, Json> {
    map["scope" := Str("lyte-application-files/v1"), "algorithm" := Str("sha256"), "files" := EntriesJson(entries)]
  }

  function Root(revision: string, payload: map<string, Json>): Json {
    Obj(map["schema" := Str("szl.lyte-build-receipt/v1"), "service" := Str("lyte-signal-lattice"),
            "source" := SourceJson(revision), "payload" := Obj(payload)])
  }

  function Basis(revision: string, entries: seq<Entry>): Json {
    Root(revision, PayloadFields(entries))
  }

  function Document(revision: string, entries: seq<Entry>, digest: string): Json {
    Root(revision, PayloadFields(entries)["sha256" := Str(digest)])
  }

  lemma HexIsPlain(s: string, n: nat)
    requires IsLowerHexText(s, n)
    ensures PlainText(s)
  {
  }

  lemma EntryIsFragment(e: Entry)
    requires EntryOk(e)
    ensures Fragment(EntryJson(e))
  {
    HexIsPlain(e.sha256, 64);
  }

  lemma EntriesAreFragment(entries: seq<Entry>)
    requires forall i :: 0 <= i < |entries| ==> EntryOk(entries[i])
    ensures Fragment(EntriesJson(entries))
  {
    forall i | 0 <= i < |entries|
      ensures Fragment(EntryJson(entries[i]))
    {
      EntryIsFragment(entries[i]);
    }
  }

  lemma SourceIsFragment(revision: string)
    requires IsRevision(revision)
    ensures Fragment(SourceJson(revision))
  {
    HexIsPlain(revision, 40);
  }

  lemma RootIsFragment(revision: string, payload: map<string, Json>)
    requires IsRevision(revision) && Fragment(Obj(payload))
    ensures Fragment(Root(revision, payload))
  {
    hide PlainText, SourceJson;
    SourceIsFragment(revision);
    ConstantsArePlain();
    assert Fragment(Str("szl.lyte-build-receipt/v1")) && Fragment(Str("lyte-signal-lattice"));
  }

  lemma ConstantsArePlain()
    ensures PlainText("schema") && PlainText("service") && PlainText("source") && PlainText("payload")
    ensures PlainText("szl.lyte-build-receipt/v1") && PlainText("lyte-signal-lattice")
    ensures PlainText("scope") && PlainText("algorithm") && PlainText("files") && PlainText("sha256")
    ensures PlainText("lyte-application-files/v1")
  {
  }

  lemma PayloadIsFragment(entries: seq<Entry>, digest: string)
    requires (forall i :: 0 <= i < |entries| ==> EntryOk(entries[i])) && IsSha256(digest)
    ensures Fragment(Obj(PayloadFields(entries))) && Fragment(Obj(PayloadFields(entries)["sha256" := Str(digest)]))
  {
    hide EntriesJson, PlainText, EntryOk;
    EntriesAreFragment(entries);
    HexIsPlain(digest, 64);
    ConstantsArePlain();
    assert Fragment(Str("lyte-application-files/v1")) && Fragment(Str("sha256")) && Fragment(Str(digest));
  }

  lemma DocumentsAreFragment(revision: string, entries: seq<Entry>, digest: string)
    requires IsRevision(revision) && IsSha256(digest) && forall i :: 0 <= i < |entries| ==> EntryOk(entries[i])
    ensures Fragment(Basis(revision, entries)) && Fragment(Document(revision, entries, digest))
  {
    hide PayloadFields;
    PayloadIsFragment(entries, digest);
    RootIsFragment(revision, PayloadFields(entries));
    RootIsFragment(revision, PayloadFields(entries)["sha256" := Str(digest)]);
  }

  /** SHA-256 of text, as lower-case hexadecimal. */
  type Digest = string -> string

  ghost predicate DigestLaw(sha: Digest) {
    forall s :: IsSha256(sha(s))
  }

  function BasisDigest(sha: Digest, revision: string, entries: seq<Entry>): string
    requires IsRevision(revision) && ManifestOk(entries)
  {
    BasisIsFragment(revision, entries);
    sha(Print(Basis(revision, entries)))
  }

  lemma BasisIsFragment(revision: string, entries: seq<Entry>)
    requires IsRevision(revision) && ManifestOk(entries)
    ensures Fragment(Basis(revision, entries))
  {
    hide PayloadFields;
    assert IsSha256(entries[0].sha256);
    PayloadIsFragment(entries, entries[0].sha256);
    RootIsFragment(revision, PayloadFields(entries));
  }

  function BuildReceiptDocument(sha: Digest, revision: string, entries: seq<Entry>): Json
    requires IsRevision(revision) && ManifestOk(entries)
  {
    Document(revision, entries, BasisDigest(sha, revision, entries))
  }

  /** The one text that a receipt for this revision and payload may have. */
  ghost function ReceiptText(sha: Digest, revision: string, entries: seq<Entry>): string
    requires DigestLaw(sha) && IsRevision(revision) && ManifestOk(entries)
  {
    DocumentsAreFragment(revision, entries, BasisDigest(sha, revision, entries));
    Encode(BuildReceiptDocument(sha, revision, entries))
  }

  // Validation of a decoded document.

  function ReadEntry(j: Json): Option<Entry> {
    if !j.Obj? || j.fields.Keys != {"path", "size", "sha256"} then None
    else
      var path, size, digest := j.fields["path"], j.fields["size"], j.fields["sha256"];
      if !path.Str? || !SafePath(path.text) then None
      else if !size.Int? || size.value < 0 then None
      else if !digest.Str? || !IsSha256(digest.text) then None
      else Some(Entry(path.text, size.value, digest.text))
  }

  function ReadEntries(items: seq<Json>): Option<seq<Entry>> {
    if items == [] then Some([])
    else
      var before, last := ReadEntries(items[..|items| - 1]), ReadEntry(items[|items| - 1]);
      if before.Some? && last.Some? then Some(before.value + [last.value]) else None
  }

  /** The checks up to the list of files: revision, digest and raw files of a well-formed document. */
  function ReadHeader(d: Json): Option<(string, string, seq<Json>)> {
    if !d.Obj? || d.fields.Keys != {"schema", "service", "source", "payload"} then None
    else if d.fields["schema"] != Str("szl.lyte-build-receipt/v1") then None
    else if d.fields["service"] != Str("lyte-signal-lattice") then None
    else
      var source, payload := d.fields["source"], d.fields["payload"];
      if !source.Obj? || source.fields.Keys != {"repository", "revision"} then None
      else if source.fields["repository"] != Str("szl-holdings/lyte-services") then None
      else if !source.fields["revision"].Str? || !IsRevision(source.fields["revision"].text) then None
      else if !payload.Obj? || payload.fields.Keys != {"scope", "algorithm", "files", "sha256"} then None
      else if payload.fields["scope"] != Str("lyte-application-files/v1") then None
      else if payload.fields["algorithm"] != Str("sha256") then None
      else if !payload.fields["sha256"].Str? || !IsSha256(payload.fields["sha256"].text) then None
      else if !payload.fields["files"].Arr? || payload.fields["files"].items == [] then None
      else Some((source.fields["revision"].text, payload.fields["sha256"].text, payload.fields["files"].items))
  }

  function Validated(d: Json): Option<(string, string, seq<Entry>)> {
    var header := ReadHeader(d);
    if header.None? then None
    else
      var entries := ReadEntries(header.value.2);
      if entries.None? || !Ascending(entries.value) then None
      else Some((header.value.0, header.value.1, entries.value))
  }

  method ValidateDocument(d: Json) returns (r: Option<(string, string, seq<Entry>)>)
    ensures r == Validated(d)
  {
    hide ReadHeader, ReadEntry, Ascending;
    var header := ReadHeader(d);
    if header.None? {
      return None;
    }
    var items := header.value.2;
    var validated: seq<Entry> := [];
    for i := 0 to |items|
      invariant ReadEntries(items[..i]) == Some(validated)
    {
      assert items[..i + 1][..i] == items[..i];
      var entry := ReadEntry(items[i]);
      if entry.None? {
        ReadFails(items, i + 1);
        return None;
      }
      validated := validated + [entry.value];
    }
    assert items[..|items|] == items;
    if !Ascending(validated) {
      return None;
    }
    return Some((header.value.0, header.value.1, validated));
  }

  lemma {:induction false} ReadFails(items: seq<Json>, n: nat)
    requires n <= |items| && ReadEntries(items[..n]).None?
    ensures ReadEntries(items).None?
    decreases |items|
  {
    hide ReadEntry;
    if n < |items| {
      assert items[..|items| - 1][..n] == items[..n];
      ReadFails(items[..|items| - 1], n);
    } else {
      assert items[..n] == items;
    }
  }

  // A valid document is the document of what was read from it.

  lemma EntryRead(j: Json)
    requires ReadEntry(j).Some?
    ensures j == EntryJson(ReadEntry(j).value) && EntryOk(ReadEntry(j).value)
  {
    hide SafePath, IsSha256;
    var e := ReadEntry(j).value;
    assert j.fields == EntryJson(e).fields;
  }

  lemma EntryReadsBack(e: Entry)
    requires EntryOk(e)
    ensures ReadEntry(EntryJson(e)) == Some(e)
  {
    hide SafePath, IsSha256;
  }

  lemma {:induction false} EntriesRead(items: seq<Json>, entries: seq<Entry>)
    ensures ReadEntries(items) == Some(entries) <==>
              Arr(items) == EntriesJson(entries) && forall i :: 0 <= i < |entries| ==> EntryOk(entries[i])
  {
    hide ReadEntry, EntryJson, EntryOk;
    if items != [] {
      var n := |items| - 1;
      if ReadEntries(items[..n]).Some? {
        EntriesRead(items[..n], ReadEntries(items[..n]).value);
      }
      if ReadEntry(items[n]).Some? {
        EntryRead(items[n]);
      }
      if entries != [] {
        EntriesRead(items[..n], entries[..|entries| - 1]);
        assert entries == entries[..|entries| - 1] + [entries[|entries| - 1]];
        if EntryOk(entries[|entries| - 1]) {
          EntryReadsBack(entries[|entries| - 1]);
        }
      }
      if Arr(items) == EntriesJson(entries) {
        assert |items| == |entries| && items[n] == EntryJson(entries[n]);
        assert Arr(items[..n]) == EntriesJson(entries[..n]);
      }
      if ReadEntries(items) == Some(entries) {
        assert items == items[..n] + [items[n]];
      }
    }
  }

  lemma HeaderRead(d: Json)
    requires ReadHeader(d).Some?
    ensures var (revision, digest, items) := ReadHeader(d).value;
            && IsRevision(revision) && IsSha256(digest) && items != []
            && d == Obj(map["schema" := Str("szl.lyte-build-receipt/v1"), "service" := Str("lyte-signal-lattice"),
                            "source" := SourceJson(revision), "payload" := PayloadWith(items, digest)])
  {
    hide IsRevision, IsSha256;
    var (revision, digest, items) := ReadHeader(d).value;
    assert d.fields["source"].fields == SourceJson(revision).fields;
    assert d.fields["payload"].fields == PayloadWith(items, digest).fields;
  }

  function PayloadWith(items: seq<Json>, digest: string): Json {
    Obj(map["scope" := Str("lyte-application-files/v1"), "algorithm" := Str("sha256"), "files" := Arr(items),
            "sha256" := Str(digest)])
  }

  /** Validation accepts exactly the documents of valid manifests, and reads back what they were made of. */
  lemma ValidatedExactly(d: Json, revision: string, digest: string, entries: seq<Entry>)
    ensures Validated(d) == Some((revision, digest, entries)) <==>
              && d == Document(revision, entries, digest)
              && IsRevision(revision) && IsSha256(digest) && ManifestOk(entries)
  {
    hide ReadHeader, ReadEntries, IsRevision, IsSha256, EntryOk, Ascending, EntriesJson;
    if Validated(d) == Some((revision, digest, entries)) {
      HeaderRead(d);
      var items := ReadHeader(d).value.2;
      EntriesRead(items, entries);
      DocumentShape(revision, entries, digest, items);
    }
    if d == Document(revision, entries, digest) && IsRevision(revision) && IsSha256(digest) && ManifestOk(entries) {
      var items := EntriesItems(entries);
      DocumentShape(revision, entries, digest, items);
      EntriesRead(items, entries);
      HeaderReadsBack(d, revision, digest, items);
    }
  }

  lemma EntriesItems(entries: seq<Entry>) returns (items: seq<Json>)
    ensures Arr(items) == EntriesJson(entries) && |items| == |entries|
  {
    items := EntriesJson(entries).items;
  }

  lemma DocumentShape(revision: string, entries: seq<Entry>, digest: string, items: seq<Json>)
    requires Arr(items) == EntriesJson(entries)
    ensures |items| == |entries|
    ensures Document(revision, entries, digest)
         == Obj(map["schema" := Str("szl.lyte-build-receipt/v1"), "service" := Str("lyte-signal-lattice"),
                    "source" := SourceJson(revision), "payload" := PayloadWith(items, digest)])
  {
    assert PayloadFields(entries)["sha256" := Str(digest)] == PayloadWith(items, digest).fields;
  }

  lemma HeaderReadsBack(d: Json, revision: string, digest: string, items: seq<Json>)
    requires d == Obj(map["schema" := Str("szl.lyte-build-receipt/v1"), "service" := Str("lyte-signal-lattice"),
                          "source" := SourceJson(revision), "payload" := PayloadWith(items, digest)])
    requires IsRevision(revision) && IsSha256(digest) && items != []
    ensures ReadHeader(d) == Some((revision, digest, items))
  {
    hide IsRevision, IsSha256;
  }

  // Observation.

  datatype Stored = Absent | NotRegular | Unreadable | Bytes(raw: string)

  datatype State = Missing | MissingOptional | Invalid | SourceMismatch | PayloadMismatch | Verified

  /** The staged measurement of a stored receipt; current is None when collecting the payload fails. */
  method Observe(stored: Stored, expected: Option<string>, current: Option<seq<Entry>>, required: bool, sha: Digest)
    returns (state: State)
    requires DigestLaw(sha) && (current.Some? ==> ManifestOk(current.value))
    ensures stored.Absent? ==> state == if required then Missing else MissingOptional
    ensures stored.NotRegular? || stored.Unreadable? ==> state == Invalid
    ensures stored.Bytes? ==> state != Missing && state != MissingOptional
    ensures stored.Bytes? && |stored.raw| > 4_000_000 ==> state == Invalid
    ensures state == Verified <==>
              && stored.Bytes? && |stored.raw| <= 4_000_000
              && expected.Some? && IsRevision(expected.value) && current.Some?
              && stored.raw == ReceiptText(sha, expected.value, current.value)
    ensures stored.Bytes? && |stored.raw| <= 4_000_000 ==>
              (state == SourceMismatch <==>
                exists revision, digest, entries ::
                  ReadsAs(stored.raw, revision, digest, entries) && expected != Some(revision))
    ensures stored.Bytes? && |stored.raw| <= 4_000_000 ==>
              (state == PayloadMismatch <==>
                exists revision, digest, entries :: ReadsAs(stored.raw, revision, digest, entries)
                  && expected == Some(revision) && digest == BasisDigest(sha, revision, entries)
                  && current.Some? && current.value != entries)
  {
    hide IsRevision, IsSha256, Validated, ManifestOk, Decode, BasisDigest, Document;
    match stored
    case Absent => return if required then Missing else MissingOptional;
    case NotRegular => return Invalid;
    case Unreadable => return Invalid;
    case Bytes(raw) =>
      if expected.Some? && IsRevision(expected.value) && current.Some? {
        TextReads(sha, expected.value, current.value);
      }
      forall revision, digest, entries | ReadsAs(raw, revision, digest, entries)
        ensures raw != "" && Decode(raw).Some? && Fragment(Decode(raw).value) && raw == Encode(Decode(raw).value)
        ensures Validated(Decode(raw).value) == Some((revision, digest, entries))
      {
        ValidatedExactly(Decode(raw).value, revision, digest, entries);
      }
      if raw == "" || |raw| > MAX_RECEIPT_BYTES {
        return Invalid;
      }
      var document := Decode(raw);
      if document.None? {
        return Invalid;
      }
      DecodedFragment(raw);
      if raw != Encode(document.value) {
        return Invalid;
      }
      var valid := ValidateDocument(document.value);
      if valid.None? {
        return Invalid;
      }
      var (revision, digest, entries) := valid.value;
      ValidatedExactly(document.value, revision, digest, entries);
      assert ReadsAs(raw, revision, digest, entries);
      if expected != Some(revision) {
        return SourceMismatch;
      }
      if BasisDigest(sha, revision, entries) != digest {
        return Invalid;
      }
      if current.None? {
        return Invalid;
      }
      if current.value != entries {
        return PayloadMismatch;
      }
      return Verified;
  }

  /** raw is the canonical text of a valid document with these parts. */
  ghost predicate ReadsAs(raw: string, revision: string, digest: string, entries: seq<Entry>) {
    && IsRevision(revision) && IsSha256(digest) && ManifestOk(entries)
    && Decode(raw) == Some(Document(revision, entries, digest)) && raw == Encode(Decode(raw).value)
  }

  lemma DecodedFragment(raw: string)
    requires Decode(raw).Some?
    ensures Fragment(Decode(raw).value)
  {
  }

  lemma TextReads(sha: Digest, revision: string, entries: seq<Entry>)
    requires DigestLaw(sha) && IsRevision(revision) && ManifestOk(entries)
    ensures var text, d := ReceiptText(sha, revision, entries), BuildReceiptDocument(sha, revision, entries);
            && text != "" && Fragment(d) && text == Encode(d) && Decode(text) == Some(d)
            && Validated(d) == Some((revision, BasisDigest(sha, revision, entries), entries))
  {
    hide IsRevision, IsSha256, ManifestOk, BasisDigest, Document, Decode, Validated;
    var digest := BasisDigest(sha, revision, entries);
    ManifestEntriesOk(entries);
    assert IsSha256(digest) by { BasisDigestIsHex(sha, revision, entries); }
    DocumentsAreFragment(revision, entries, digest);
    DecodeEncode(Document(revision, entries, digest));
    ValidatedExactly(Document(revision, entries, digest), revision, digest, entries);
  }

  lemma ManifestEntriesOk(entries: seq<Entry>)
    requires ManifestOk(entries)
    ensures forall i :: 0 <= i < |entries| ==> EntryOk(entries[i])
  {
  }

  lemma BasisDigestIsHex(sha: Digest, revision: string, entries: seq<Entry>)
    requires DigestLaw(sha) && IsRevision(revision) && ManifestOk(entries)
    ensures IsSha256(BasisDigest(sha, revision, entries))
  {
    hide Print, IsSha256;
  }

  /** Generation stores the receipt text and verifies it; it fails only beyond the size bound. */
  method GenerateBuildReceipt(sha: Digest, revision: string, entries: seq<Entry>) returns (text: string, verified: bool)
    requires DigestLaw(sha) && IsRevision(revision) && ManifestOk(entries)
    ensures text == ReceiptText(sha, revision, entries)
    ensures verified <==> |text| <= 4_000_000
  {
    hide IsRevision, IsSha256, ManifestOk, BasisDigest, Document;
    ManifestEntriesOk(entries);
    BasisDigestIsHex(sha, revision, entries);
    DocumentsAreFragment(revision, entries, BasisDigest(sha, revision, entries));
    text := Encode(BuildReceiptDocument(sha, revision, entries));
    var state := Observe(Bytes(text), Some(revision), Some(entries), true, sha);
    verified := state.Verified?;
  }

  /** Receipt texts identify their revision and payload. */
  lemma ReceiptTextIdentifiesPayload(sha: Digest, r: string, a: seq<Entry>, s: string, b: seq<Entry>)
    requires DigestLaw(sha) && IsRevision(r) && ManifestOk(a) && IsRevision(s) && ManifestOk(b)
    ensures ReceiptText(sha, r, a) == ReceiptText(sha, s, b) <==> r == s && a == b
  {
    hide IsRevision, ManifestOk, Validated, ReceiptText, Decode, BuildReceiptDocument;
    TextReads(sha, r, a);
    TextReads(sha, s, b);
  }
}
