/** The build receipt of a revision and payload, written out character by character. */
module ReceiptSpelling {
  import opened Common
  import opened Decimals
  import opened Json
  import opened CanonicalJson
  import opened BuildReceipt

  function Quoted(s: string): string {
    "\"" + s + "\""
  }

  function Field(name: string, value: string): string {
    Quoted(name) + ":" + value
  }

  function FileSpelled(e: Entry): string {
    "{" + (Field("path", Quoted(e.path)) + "," + Field("sha256", Quoted(e.sha256)) + ","
           + Field("size", NatText(e.size))) + "}"
  }

  /** The files from the i-th on, separated by commas. */
  function FilesSpelled(entries: seq<Entry>, i: nat): string
    requires i <= |entries|
    decreases |entries| - i
  {
    if i == |entries| then ""
    else if i + 1 == |entries| then FileSpelled(entries[i])
    else FileSpelled(entries[i]) + "," + FilesSpelled(entries, i + 1)
  }

  function FileList(entries: seq<Entry>): string {
    "[" + FilesSpelled(entries, 0) + "]"
  }

  function PayloadSpelled(entries: seq<Entry>): string {
    "{" + (Field("algorithm", Quoted("sha256")) + "," + Field("files", FileList(entries)) + ","
           + Field("scope", Quoted("lyte-application-files/v1"))) + "}"
  }

  function SignedSpelled(entries: seq<Entry>, digest: string): string {
    "{" + (Field("algorithm", Quoted("sha256")) + "," + Field("files", FileList(entries)) + ","
           + Field("scope", Quoted("lyte-application-files/v1")) + "," + Field("sha256", Quoted(digest))) + "}"
  }

  function SourceSpelled(revision: string): string {
    "{" + (Field("repository", Quoted("szl-holdings/lyte-services")) + "," + Field("revision", Quoted(revision))) + "}"
  }

  function RootSpelled(revision: string, payload: string): string {
    "{" + (Field("payload", payload) + "," + Field("schema", Quoted("szl.lyte-build-receipt/v1")) + ","
           + Field("service", Quoted("lyte-signal-lattice")) + "," + Field("source", SourceSpelled(revision))) + "}"
  }

  /** Everything the payload digest covers. */
  function BasisSpelled(revision: string, entries: seq<Entry>): string {
    RootSpelled(revision, PayloadSpelled(entries))
  }

  function ReceiptSpelled(revision: string, entries: seq<Entry>, digest: string): string {
    RootSpelled(revision, SignedSpelled(entries, digest)) + "\n"
  }

  // Canonical key order.

  /** The least key comes first. */
  lemma FirstKey(k: string, keys: set<string>)
    requires k in keys && forall j :: j in keys ==> Leq(k, j)
    ensures SortedKeys(keys) == [k] + SortedKeys(keys - {k})
  {
    LeastIsUnique(keys);
    assert IsLeast(k, keys) && IsLeast(Least(keys), keys);
  }

  lemma OneKey(k: string)
    ensures SortedKeys({k}) == [k]
  {
    LeqTotal(k, k);
    FirstKey(k, {k});
    assert {k} - {k} == {};
  }

  lemma TwoKeys(a: string, b: string)
    requires Leq(a, b) && a != b
    ensures SortedKeys({a, b}) == [a, b]
  {
    LeqTotal(a, a);
    FirstKey(a, {a, b});
    assert {a, b} - {a} == {b};
    OneKey(b);
  }

  lemma ThreeKeys(a: string, b: string, c: string)
    requires Leq(a, b) && Leq(b, c) && a != b && b != c && a != c
    ensures SortedKeys({a, b, c}) == [a, b, c]
  {
    LeqTotal(a, a);
    LeqTransitive(a, b, c);
    FirstKey(a, {a, b, c});
    assert {a, b, c} - {a} == {b, c};
    TwoKeys(b, c);
  }

  lemma FourKeys(a: string, b: string, c: string, d: string)
    requires Leq(a, b) && Leq(b, c) && Leq(c, d) && |{a, b, c, d}| == 4
    requires a != b && a != c && a != d && b != c && b != d && c != d
    ensures SortedKeys({a, b, c, d}) == [a, b, c, d]
  {
    LeqTotal(a, a);
    LeqTransitive(a, b, c);
    LeqTransitive(a, c, d);
    FirstKey(a, {a, b, c, d});
    assert {a, b, c, d} - {a} == {b, c, d};
    ThreeKeys(b, c, d);
  }

  lemma Before(a: string, b: string, n: nat)
    requires n < |a| && n < |b| && a[..n] == b[..n] && a[n] < b[n]
    ensures Leq(a, b) && a != b
    decreases n
  {
    if n > 0 {
      assert a[0] == a[..n][0] && b[0] == b[..n][0];
      assert a[1..][..n - 1] == a[..n][1..] && b[1..][..n - 1] == b[..n][1..];
      Before(a[1..], b[1..], n - 1);
    }
  }

  lemma FileKeys()
    ensures SortedKeys({"path", "size", "sha256"}) == ["path", "sha256", "size"]
  {
    Before("path", "sha256", 0);
    Before("sha256", "size", 1);
    Before("path", "size", 0);
    ThreeKeys("path", "sha256", "size");
    assert {"path", "size", "sha256"} == {"path", "sha256", "size"};
  }

  lemma SourceKeys()
    ensures SortedKeys({"repository", "revision"}) == ["repository", "revision"]
  {
    Before("repository", "revision", 2);
    TwoKeys("repository", "revision");
  }

  lemma RootKeys()
    ensures SortedKeys({"schema", "service", "source", "payload"}) == ["payload", "schema", "service", "source"]
  {
    Before("payload", "schema", 0);
    Before("payload", "service", 0);
    Before("payload", "source", 0);
    Before("schema", "service", 1);
    Before("schema", "source", 1);
    Before("service", "source", 1);
    FourKeys("payload", "schema", "service", "source");
    assert {"schema", "service", "source", "payload"} == {"payload", "schema", "service", "source"};
  }

  lemma PayloadKeys()
    ensures SortedKeys({"scope", "algorithm", "files"}) == ["algorithm", "files", "scope"]
  {
    Before("algorithm", "files", 0);
    Before("files", "scope", 0);
    Before("algorithm", "scope", 0);
    ThreeKeys("algorithm", "files", "scope");
    assert {"scope", "algorithm", "files"} == {"algorithm", "files", "scope"};
  }

  lemma SignedKeys()
    ensures SortedKeys({"scope", "algorithm", "files", "sha256"}) == ["algorithm", "files", "scope", "sha256"]
  {
    Before("algorithm", "files", 0);
    Before("files", "scope", 0);
    Before("scope", "sha256", 1);
    Before("algorithm", "scope", 0);
    Before("algorithm", "sha256", 0);
    Before("files", "sha256", 0);
    FourKeys("algorithm", "files", "scope", "sha256");
    assert {"scope", "algorithm", "files", "sha256"} == {"algorithm", "files", "scope", "sha256"};
  }

  // Printing objects whose keys are known.

  lemma SameQuote(s: string)
    ensures Quoted(s) == Quote(s)
  {
  }

  lemma PrintsText(s: string)
    requires PlainText(s)
    ensures Print(Str(s)) == Quoted(s)
  {
  }

  lemma PrintsTwo(v: Json, a: string, b: string)
    requires Fragment(v) && v.Obj? && a in v.fields && b in v.fields && SortedKeys(v.fields.Keys) == [a, b]
    ensures Print(v) == "{" + (Field(a, Print(v.fields[a])) + "," + Field(b, Print(v.fields[b]))) + "}"
  {
    hide Quoted, Quote, SortedKeys, Print;
    SameQuote(a);
    SameQuote(b);
    PrintedFields(v, [a, b]);
    assert [a, b][1..] == [b];
    PrintedFields(v, [b]);
    PrintedObject(v);
  }

  lemma PrintsThree(v: Json, a: string, b: string, c: string)
    requires Fragment(v) && v.Obj? && a in v.fields && b in v.fields && c in v.fields
    requires SortedKeys(v.fields.Keys) == [a, b, c]
    ensures Print(v) == "{" + (Field(a, Print(v.fields[a])) + "," + Field(b, Print(v.fields[b])) + ","
                               + Field(c, Print(v.fields[c]))) + "}"
  {
    hide Quoted, Quote, SortedKeys, Print;
    SameQuote(a);
    SameQuote(b);
    SameQuote(c);
    PrintedFields(v, [a, b, c]);
    assert [a, b, c][1..] == [b, c];
    PrintedFields(v, [b, c]);
    assert [b, c][1..] == [c];
    PrintedFields(v, [c]);
    PrintedObject(v);
  }

  lemma PrintsFour(v: Json, a: string, b: string, c: string, d: string)
    requires Fragment(v) && v.Obj? && a in v.fields && b in v.fields && c in v.fields && d in v.fields
    requires SortedKeys(v.fields.Keys) == [a, b, c, d]
    ensures Print(v) == "{" + (Field(a, Print(v.fields[a])) + "," + Field(b, Print(v.fields[b])) + ","
                               + Field(c, Print(v.fields[c])) + "," + Field(d, Print(v.fields[d]))) + "}"
  {
    hide Quoted, Quote, SortedKeys, Print;
    SameQuote(a);
    SameQuote(b);
    SameQuote(c);
    SameQuote(d);
    PrintedFields(v, [a, b, c, d]);
    assert [a, b, c, d][1..] == [b, c, d];
    PrintedFields(v, [b, c, d]);
    assert [b, c, d][1..] == [c, d];
    PrintedFields(v, [c, d]);
    assert [c, d][1..] == [d];
    PrintedFields(v, [d]);
    PrintedObject(v);
  }

  lemma PrintedObject(v: Json)
    requires Fragment(v) && v.Obj?
    ensures forall k :: k in SortedKeys(v.fields.Keys) ==> k in v.fields
    ensures Print(v) == "{" + PrintFields(v, SortedKeys(v.fields.Keys)) + "}"
  {
    SortedKeysList(v.fields.Keys);
  }

  // The parts of a receipt.

  lemma FilePrints(e: Entry)
    requires EntryOk(e)
    ensures Fragment(EntryJson(e)) && Print(EntryJson(e)) == FileSpelled(e)
  {
    hide SortedKeys, NatText, Field, Quoted, Print, EntryOk, PlainText;
    var v := EntryJson(e);
    EntryIsFragment(e);
    FileKeys();
    assert v.fields.Keys == {"path", "size", "sha256"};
    PrintsThree(v, "path", "sha256", "size");
    PrintsText(e.path);
    PrintsText(e.sha256);
    PrintsNumber(e.size);
    assert v.fields["path"] == Str(e.path) && v.fields["sha256"] == Str(e.sha256) && v.fields["size"] == Int(e.size);
  }

  lemma PrintsNumber(n: nat)
    ensures Print(Int(n)) == NatText(n)
  {
  }

  lemma {:induction false} FilesPrint(entries: seq<Entry>, i: nat)
    requires (forall j :: 0 <= j < |entries| ==> EntryOk(entries[j])) && i <= |entries|
    ensures Fragment(EntriesJson(entries)) && PrintItems(EntriesJson(entries), i) == FilesSpelled(entries, i)
    decreases |entries| - i
  {
    hide Print, FileSpelled, EntryOk, EntryJson;
    var v := EntriesJson(entries);
    EntriesAreFragment(entries);
    PrintedItems(v, i);
    if i < |entries| {
      FilePrints(entries[i]);
      FilesPrint(entries, i + 1);
    }
  }

  lemma FileListPrints(entries: seq<Entry>)
    requires forall j :: 0 <= j < |entries| ==> EntryOk(entries[j])
    ensures Fragment(EntriesJson(entries)) && Print(EntriesJson(entries)) == FileList(entries)
  {
    hide FilesSpelled, EntryOk;
    FilesPrint(entries, 0);
  }

  lemma SourcePrints(revision: string)
    requires IsRevision(revision)
    ensures Fragment(SourceJson(revision)) && Print(SourceJson(revision)) == SourceSpelled(revision)
  {
    hide SortedKeys, Field, Quoted, Print, IsRevision, PlainText;
    var v := SourceJson(revision);
    SourceIsFragment(revision);
    SourceKeys();
    assert v.fields.Keys == {"repository", "revision"};
    PrintsTwo(v, "repository", "revision");
    assert v.fields["repository"] == Str("szl-holdings/lyte-services") && v.fields["revision"] == Str(revision);
    PrintsText("szl-holdings/lyte-services");
    PrintsText(revision);
  }

  lemma PayloadPrints(entries: seq<Entry>)
    requires forall j :: 0 <= j < |entries| ==> EntryOk(entries[j])
    requires Fragment(Obj(PayloadFields(entries)))
    ensures Print(Obj(PayloadFields(entries))) == PayloadSpelled(entries)
  {
    hide SortedKeys, FileList, EntriesJson, Field, Quoted, Print, EntryOk, PlainText;
    var v := Obj(PayloadFields(entries));
    PayloadKeys();
    assert v.fields.Keys == {"scope", "algorithm", "files"};
    PrintsThree(v, "algorithm", "files", "scope");
    FileListPrints(entries);
    assert v.fields["algorithm"] == Str("sha256") && v.fields["scope"] == Str("lyte-application-files/v1");
    assert v.fields["files"] == EntriesJson(entries);
    PrintsText("sha256");
    PrintsText("lyte-application-files/v1");
  }

  lemma SignedPayloadPrints(entries: seq<Entry>, digest: string)
    requires forall j :: 0 <= j < |entries| ==> EntryOk(entries[j])
    requires Fragment(Obj(PayloadFields(entries)["sha256" := Str(digest)]))
    ensures Print(Obj(PayloadFields(entries)["sha256" := Str(digest)])) == SignedSpelled(entries, digest)
  {
    hide SortedKeys, FileList, EntriesJson, Field, Quoted, Print, EntryOk, PlainText;
    var v := Obj(PayloadFields(entries)["sha256" := Str(digest)]);
    SignedKeys();
    assert v.fields.Keys == {"scope", "algorithm", "files", "sha256"};
    PrintsFour(v, "algorithm", "files", "scope", "sha256");
    FileListPrints(entries);
    assert v.fields["algorithm"] == Str("sha256") && v.fields["scope"] == Str("lyte-application-files/v1");
    assert v.fields["files"] == EntriesJson(entries) && v.fields["sha256"] == Str(digest);
    PrintsText("sha256");
    PrintsText("lyte-application-files/v1");
    PrintsText(digest);
  }

  lemma RootPrints(revision: string, fields: map<string, Json>, payload: string)
    requires IsRevision(revision) && Fragment(Obj(fields)) && Print(Obj(fields)) == payload
    ensures Fragment(Root(revision, fields)) && Print(Root(revision, fields)) == RootSpelled(revision, payload)
  {
    hide SortedKeys, Field, Quoted, Print, IsRevision, PlainText, SourceJson, SourceSpelled;
    var v := Root(revision, fields);
    RootIsFragment(revision, fields);
    RootKeys();
    assert v.fields.Keys == {"schema", "service", "source", "payload"};
    PrintsFour(v, "payload", "schema", "service", "source");
    SourcePrints(revision);
    assert v.fields["schema"] == Str("szl.lyte-build-receipt/v1") && v.fields["service"] == Str("lyte-signal-lattice");
    assert v.fields["payload"] == Obj(fields) && v.fields["source"] == SourceJson(revision);
    PrintsText("szl.lyte-build-receipt/v1");
    PrintsText("lyte-signal-lattice");
  }

  /**
  A receipt is exactly this text: revision and every file in it, the payload
  digest being that of the same text without the digest.
  */
  lemma ReceiptIsSpelled(sha: Digest, revision: string, entries: seq<Entry>)
    requires DigestLaw(sha) && IsRevision(revision) && ManifestOk(entries)
    ensures ReceiptText(sha, revision, entries)
         == ReceiptSpelled(revision, entries, sha(BasisSpelled(revision, entries)))
  {
    hide Print, PayloadSpelled, SignedSpelled, RootSpelled, PayloadFields, IsRevision, EntryOk, Root;
    var digest := BasisDigest(sha, revision, entries);
    BasisIsFragment(revision, entries);
    DocumentsAreFragment(revision, entries, digest);
    PayloadIsFragment(entries, digest);
    PayloadPrints(entries);
    RootPrints(revision, PayloadFields(entries), PayloadSpelled(entries));
    SignedPayloadPrints(entries, digest);
    RootPrints(revision, PayloadFields(entries)["sha256" := Str(digest)], SignedSpelled(entries, digest));
  }

  // Paths.

  ghost predicate PathLetter(c: char) {
    'a' <= c <= 'z' || 'A' <= c <= 'Z' || '0' <= c <= '9' || c == '.' || c == '_' || c == '/' || c == '-'
  }

  /** s[i..j] is "..", between two slashes or between a slash and an end of the path. */
  ghost predicate ParentAt(s: string, i: int, j: int) {
    && 0 <= i <= j <= |s| && (i == 0 || s[i - 1] == '/') && (j == |s| || s[j] == '/')
    && s[i..j] == ".."
  }

  lemma PathLetters(c: char)
    ensures IsPathChar(c) <==> PathLetter(c)
  {
    var others := "._/-";
    assert others[0] == '.' && others[1] == '_' && others[2] == '/' && others[3] == '-';
  }

  lemma ParentSomewhere(s: string)
    requires HasParent(s)
    ensures exists i, j :: ParentAt(s, i, j)
  {
    var i :| 0 <= i < |s| && DotsAt(s, i);
    assert ParentAt(s, i, i + 2);
  }

  lemma ParentHere(s: string, i: int, j: int)
    requires ParentAt(s, i, j)
    ensures HasParent(s)
  {
    assert |s[i..j]| == 2;
    assert j == i + 2 && s[i] == s[i..j][0] && s[i + 1] == s[i..j][1];
    assert DotsAt(s, i);
  }

  /** A path is safe when it is relative, spelled in letters, digits and . _ / -, and has no parent component. */
  lemma SafeExactly(s: string)
    ensures SafePath(s) <==>
              && s != "" && s[0] != '/' && (forall k :: 0 <= k < |s| ==> PathLetter(s[k]))
              && forall i, j :: !ParentAt(s, i, j)
  {
    hide IsPathChar, PathLetter, HasParent, ParentAt;
    forall k | 0 <= k < |s|
      ensures IsPathChar(s[k]) <==> PathLetter(s[k])
    {
      PathLetters(s[k]);
    }
    if HasParent(s) {
      ParentSomewhere(s);
    }
    forall i, j | ParentAt(s, i, j)
      ensures HasParent(s)
    {
      ParentHere(s, i, j);
    }
  }
}
