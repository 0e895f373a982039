/**
Canonical JSON (RFC 8259, sections 4 to 7) for the fragment build receipts use:
objects, arrays, natural numbers, and strings that need no escaping.
*/
module CanonicalJson {
  import opened Common
  import opened Decimals
  import opened Json

  // Code-point order of strings.

  predicate Leq(a: string, b: string)
    decreases a
  {
    a == "" || (b != "" && (a[0] < b[0] || (a[0] == b[0] && Leq(a[1..], b[1..]))))
  }

  lemma {:induction false} LeqTotal(a: string, b: string)
    ensures Leq(a, b) || Leq(b, a)
    ensures Leq(a, b) && Leq(b, a) ==> a == b
    decreases a
  {
    if a != "" && b != "" && a[0] == b[0] {
      LeqTotal(a[1..], b[1..]);
      assert a == [a[0]] + a[1..] && b == [b[0]] + b[1..];
    }
  }

  lemma {:induction false} LeqTransitive(a: string, b: string, c: string)
    requires Leq(a, b) && Leq(b, c)
    ensures Leq(a, c)
    decreases a
  {
    if a != "" && a[0] == b[0] == c[0] {
      LeqTransitive(a[1..], b[1..], c[1..]);
    }
  }

  predicate IsLeast(k: string, keys: set<string>) {
    k in keys && forall j :: j in keys ==> Leq(k, j)
  }

  lemma {:induction false} LeastExists(keys: set<string>) returns (k: string)
    requires keys != {}
    ensures IsLeast(k, keys)
    decreases keys
  {
    var x :| x in keys;
    LeqTotal(x, x);
    k := x;
    if keys != {x} {
      var r := LeastExists(keys - {x});
      LeqTotal(x, r);
      if Leq(r, x) {
        k := r;
      } else {
        forall j | j in keys
          ensures Leq(x, j)
        {
          if j != x {
            LeqTransitive(x, r, j);
          }
        }
      }
    }
  }

  lemma LeastIsUnique(keys: set<string>)
    ensures forall j, k :: IsLeast(j, keys) && IsLeast(k, keys) ==> j == k
  {
    forall j, k | IsLeast(j, keys) && IsLeast(k, keys)
      ensures j == k
    {
      LeqTotal(j, k);
    }
  }

  function Least(keys: set<string>): (k: string)
    requires keys != {}
    ensures IsLeast(k, keys)
  {
    LeastWitness(keys);
    LeastIsUnique(keys);
    var k :| IsLeast(k, keys);
    k
  }

  lemma LeastWitness(keys: set<string>)
    requires keys != {}
    ensures exists k :: IsLeast(k, keys)
  {
    var k := LeastExists(keys);
  }

  /** The keys of an object, as sort_keys lists them. */
  function SortedKeys(keys: set<string>): seq<string>
    decreases keys
  {
    if keys == {} then [] else [Least(keys)] + SortedKeys(keys - {Least(keys)})
  }

  ghost predicate Lists(s: seq<string>, keys: set<string>) {
    && (forall k :: k in s <==> k in keys)
    && (forall i, j :: 0 <= i < j < |s| ==> s[i] != s[j])
  }

  lemma {:induction false} SortedKeysList(keys: set<string>)
    ensures Lists(SortedKeys(keys), keys)
    ensures forall i, j :: 0 <= i < j < |SortedKeys(keys)| ==> Leq(SortedKeys(keys)[i], SortedKeys(keys)[j])
    decreases keys
  {
    if keys != {} {
      var k := Least(keys);
      var rest := SortedKeys(keys - {k});
      SortedKeysList(keys - {k});
      assert SortedKeys(keys) == [k] + rest;
      forall j | 0 <= j < |rest|
        ensures rest[j] != k && Leq(k, rest[j])
      {
        assert rest[j] in rest;
      }
    }
  }

  // The fragment.

  predicate IsPlain(c: char) {
    ' ' <= c <= '~' && c != '"' && c != '\\'
  }

  predicate PlainText(s: string) {
    forall i :: 0 <= i < |s| ==> IsPlain(s[i])
  }

  predicate Fragment(v: Json) {
    match v
    case Str(s) => PlainText(s)
    case Int(n) => n >= 0
    case Arr(items) => forall i :: 0 <= i < |items| ==> Fragment(items[i])
    case Obj(fields) => forall k :: k in fields ==> PlainText(k) && Fragment(fields[k])
    case _ => false
  }

  // Printing.

  function Quote(s: string): string {
    "\"" + s + "\""
  }

  /** Compact canonical text: keys in code-point order, no white space. */
  function Print(v: Json): string
    requires Fragment(v)
    decreases v, 1, 0
  {
    match v
    case Str(s) => Quote(s)
    case Int(n) => NatText(n)
    case Arr(items) => "[" + PrintItems(v, 0) + "]"
    case Obj(fields) =>
      SortedKeysList(fields.Keys);
      "{" + PrintFields(v, SortedKeys(fields.Keys)) + "}"
  }

  function PrintItems(v: Json, from: nat): string
    requires Fragment(v) && v.Arr? && from <= |v.items|
    decreases v, 0, |v.items| - from
  {
    if from == |v.items| then ""
    else if from + 1 == |v.items| then Print(v.items[from])
    else Print(v.items[from]) + "," + PrintItems(v, from + 1)
  }

  function PrintFields(v: Json, keys: seq<string>): string
    requires Fragment(v) && v.Obj? && forall k :: k in keys ==> k in v.fields
    decreases v, 0, |keys|
  {
    if keys == [] then ""
    else
      var field := Quote(keys[0]) + ":" + Print(v.fields[keys[0]]);
      if |keys| == 1 then field else field + "," + PrintFields(v, keys[1..])
  }

  // Parsing.

  /** Characters up to the closing quote. */
  function ParseText(s: string): (r: Option<(string, string)>)
    ensures r.Some? ==> PlainText(r.value.0) && |r.value.1| < |s|
    decreases s
  {
    if s == "" then None
    else if s[0] == '"' then Some(("", s[1..]))
    else if !IsPlain(s[0]) then None
    else
      var r := ParseText(s[1..]);
      if r.None? then None else Some(([s[0]] + r.value.0, r.value.1))
  }

  function DigitPrefix(s: string): (d: string)
    ensures AllDigits(d) && d <= s
    decreases s
  {
    if s == "" || !IsDigit(s[0]) then "" else [s[0]] + DigitPrefix(s[1..])
  }

  function ParseValue(s: string): (r: Option<(Json, string)>)
    ensures r.Some? ==> Fragment(r.value.0) && |r.value.1| < |s|
    decreases |s|, 1
  {
    if s == "" then None
    else if s[0] == '"' then
      var r := ParseText(s[1..]);
      if r.None? then None else Some((Str(r.value.0), r.value.1))
    else if s[0] == '[' then
      if |s| >= 2 && s[1] == ']' then Some((Arr([]), s[2..]))
      else
        var r := ParseItems(s[1..]);
        if r.None? then None else Some((Arr(r.value.0), r.value.1))
    else if s[0] == '{' then
      if |s| >= 2 && s[1] == '}' then Some((Obj(map[]), s[2..]))
      else
        var r := ParseFields(s[1..], map[]);
        if r.None? then None else Some((Obj(r.value.0), r.value.1))
    else
      var d := DigitPrefix(s);
      if d == "" || (|d| > 1 && d[0] == '0') then None else Some((Int(NatOf(d)), s[|d|..]))
  }

  /** One or more values separated by commas, up to the closing bracket. */
  function ParseItems(s: string): (r: Option<(seq<Json>, string)>)
    ensures r.Some? ==> Fragment(Arr(r.value.0)) && |r.value.1| < |s|
    decreases |s|, 2
  {
    var first := ParseValue(s);
    if first.None? then None
    else
      var (v, rest) := first.value;
      if rest == "" then None
      else if rest[0] == ']' then Some(([v], rest[1..]))
      else if rest[0] == ',' then
        var more := ParseItems(rest[1..]);
        if more.None? then None else Some(([v] + more.value.0, more.value.1))
      else None
  }

  /** One or more fields separated by commas, up to the closing brace; a repeated key is an error. */
  function ParseFields(s: string, read: map<string, Json>): (r: Option<(map<string, Json>, string)>)
    ensures r.Some? && Fragment(Obj(read)) ==> Fragment(Obj(r.value.0))
    ensures r.Some? ==> |r.value.1| < |s|
    decreases |s|, 2
  {
    if s == "" || s[0] != '"' then None
    else
      var key := ParseText(s[1..]);
      if key.None? || key.value.1 == "" || key.value.1[0] != ':' || key.value.0 in read then None
      else
        var first := ParseValue(key.value.1[1..]);
        if first.None? then None
        else
          var (v, rest) := first.value;
          if rest == "" then None
          else if rest[0] == '}' then Some((read[key.value.0 := v], rest[1..]))
          else if rest[0] == ',' then ParseFields(rest[1..], read[key.value.0 := v])
          else None
  }

  // Round trip.

  lemma {:induction false} TextRoundTrip(t: string, rest: string)
    requires PlainText(t)
    ensures ParseText(t + "\"" + rest) == Some((t, rest))
  {
    var s := t + "\"" + rest;
    if t == "" {
      assert s[1..] == rest;
    } else {
      TextRoundTrip(t[1..], rest);
      assert s[1..] == t[1..] + "\"" + rest;
      assert [t[0]] + t[1..] == t;
    }
  }

  lemma {:induction false} DigitsRoundTrip(d: string, rest: string)
    requires AllDigits(d) && (rest == "" || !IsDigit(rest[0]))
    ensures DigitPrefix(d + rest) == d
  {
    if d == "" {
      assert d + rest == rest;
    } else {
      DigitsRoundTrip(d[1..], rest);
      assert (d + rest)[1..] == d[1..] + rest;
      assert [d[0]] + d[1..] == d;
    }
  }

  /** The next character cannot continue a number. */
  predicate Ends(rest: string) {
    rest == "" || !IsDigit(rest[0])
  }

  // One step of the parser.

  lemma ReadArray(s: string, items: seq<Json>, rest: string)
    requires s != "" && s[0] != ']' && ParseItems(s) == Some((items, rest))
    ensures ParseValue("[" + s) == Some((Arr(items), rest))
  {
    hide ParseItems;
    assert ("[" + s)[1..] == s;
  }

  lemma ReadObject(s: string, fields: map<string, Json>, rest: string)
    requires s != "" && s[0] != '}' && ParseFields(s, map[]) == Some((fields, rest))
    ensures ParseValue("{" + s) == Some((Obj(fields), rest))
  {
    hide ParseFields;
    assert ("{" + s)[1..] == s;
  }

  lemma ReadEmpty(rest: string)
    ensures ParseValue("[]" + rest) == Some((Arr([]), rest)) && ParseValue("{}" + rest) == Some((Obj(map[]), rest))
  {
    hide ParseItems, ParseFields;
    assert ("[]" + rest)[2..] == rest && ("{}" + rest)[2..] == rest;
  }

  lemma ReadLastItem(s: string, v: Json, rest: string)
    requires ParseValue(s) == Some((v, "]" + rest))
    ensures ParseItems(s) == Some(([v], rest))
  {
    hide ParseValue;
    assert ("]" + rest)[1..] == rest;
  }

  lemma ReadItem(s: string, v: Json, tail: string, vs: seq<Json>, rest: string)
    requires ParseValue(s) == Some((v, "," + tail)) && ParseItems(tail) == Some((vs, rest))
    ensures ParseItems(s) == Some(([v] + vs, rest))
  {
    hide ParseValue;
    assert ("," + tail)[1..] == tail;
  }

  lemma ReadLastField(k: string, s: string, v: Json, read: map<string, Json>, rest: string)
    requires PlainText(k) && k !in read && ParseValue(s) == Some((v, "}" + rest))
    ensures ParseFields(Quote(k) + ":" + s, read) == Some((read[k := v], rest))
  {
    hide ParseValue;
    TextRoundTrip(k, ":" + s);
    assert (Quote(k) + ":" + s)[1..] == k + "\"" + (":" + s);
    assert (":" + s)[1..] == s && ("}" + rest)[1..] == rest;
  }

  lemma ReadField(k: string, s: string, v: Json, tail: string, read: map<string, Json>, fields: map<string, Json>,
                  rest: string)
    requires PlainText(k) && k !in read && ParseValue(s) == Some((v, "," + tail))
    requires ParseFields(tail, read[k := v]) == Some((fields, rest))
    ensures ParseFields(Quote(k) + ":" + s, read) == Some((fields, rest))
  {
    hide ParseValue, ParseText, PlainText;
    TextRoundTrip(k, ":" + s);
    assert (Quote(k) + ":" + s)[1..] == k + "\"" + (":" + s);
    assert (":" + s)[1..] == s && ("," + tail)[1..] == tail;
  }

  lemma ReadText(t: string, rest: string)
    requires PlainText(t)
    ensures ParseValue(Quote(t) + rest) == Some((Str(t), rest))
  {
    hide ParseItems, ParseFields;
    TextRoundTrip(t, rest);
    assert (Quote(t) + rest)[1..] == t + "\"" + rest;
  }

  lemma ReadNat(n: nat, rest: string)
    requires Ends(rest)
    ensures ParseValue(NatText(n) + rest) == Some((Int(n), rest))
  {
    hide ParseItems, ParseFields, NatText;
    NatTextReads(n);
    NoLeadingZero(n);
    DigitsRoundTrip(NatText(n), rest);
    var s := NatText(n) + rest;
    assert s[|NatText(n)|..] == rest;
    assert s[0] == NatText(n)[0] && IsDigit(s[0]);
  }

  lemma PrintsSomething(v: Json)
    requires Fragment(v)
    ensures Print(v) != "" && Print(v)[0] != ']' && Print(v)[0] != '}'
  {
    if v.Int? {
      NatTextReads(v.value);
    }
  }

  // Whole values.

  /** Parsing printed text, followed by anything that cannot extend it, gives the value and what follows. */
  lemma {:induction false} ValueRoundTrip(v: Json, rest: string)
    requires Fragment(v) && Ends(rest)
    ensures ParseValue(Print(v) + rest) == Some((v, rest))
    decreases v, 2, 0
  {
    hide ParseValue, NatText, PrintItems, PrintFields;
    match v
    case Str(t) => ReadText(t, rest);
    case Int(n) => ReadNat(n, rest);
    case Arr(_) => ArrayRoundTrip(v, rest);
    case Obj(_) => ObjectRoundTrip(v, rest);
  }

  lemma {:induction false} ArrayRoundTrip(v: Json, rest: string)
    requires Fragment(v) && v.Arr?
    ensures ParseValue(Print(v) + rest) == Some((v, rest))
    decreases v, 1, 0
  {
    hide ParseValue, ParseItems, PrintItems;
    PrintedItems(v, 0);
    if v.items == [] {
      assert Print(v) + rest == "[]" + rest;
      ReadEmpty(rest);
    } else {
      ItemsRoundTrip(v, 0, rest);
      PrintsSomething(v.items[0]);
      assert v.items[0..] == v.items;
      assert Print(v) + rest == "[" + (PrintItems(v, 0) + "]" + rest);
      ReadArray(PrintItems(v, 0) + "]" + rest, v.items, rest);
    }
  }

  lemma {:induction false} ObjectRoundTrip(v: Json, rest: string)
    requires Fragment(v) && v.Obj?
    ensures ParseValue(Print(v) + rest) == Some((v, rest))
    decreases v, 1, 0
  {
    hide ParseValue, ParseFields, PrintFields, SortedKeys;
    SortedKeysList(v.fields.Keys);
    var keys := SortedKeys(v.fields.Keys);
    PrintedFields(v, keys);
    if keys == [] {
      assert forall k :: k in v.fields ==> k in keys;
      assert v.fields == map[];
      assert Print(v) + rest == "{}" + rest;
      ReadEmpty(rest);
    } else {
      FieldsRoundTrip(v, keys, map[], rest);
      assert map[] + Picked(v, keys) == v.fields;
      assert Print(v) + rest == "{" + (PrintFields(v, keys) + "}" + rest);
      ReadObject(PrintFields(v, keys) + "}" + rest, v.fields, rest);
    }
  }

  lemma PrintedItems(v: Json, from: nat)
    requires Fragment(v) && v.Arr? && from <= |v.items|
    ensures PrintItems(v, from) ==
              if from == |v.items| then ""
              else if from + 1 == |v.items| then Print(v.items[from])
              else Print(v.items[from]) + "," + PrintItems(v, from + 1)
  {
    hide Print;
  }

  lemma PrintedFields(v: Json, keys: seq<string>)
    requires Fragment(v) && v.Obj? && forall k :: k in keys ==> k in v.fields
    ensures keys == [] ==> PrintFields(v, keys) == ""
    ensures keys != [] ==> PrintFields(v, keys) != "" && PrintFields(v, keys)[0] == '"'
    ensures |keys| == 1 ==> PrintFields(v, keys) == Quote(keys[0]) + ":" + Print(v.fields[keys[0]])
    ensures |keys| > 1 ==>
              PrintFields(v, keys) == Quote(keys[0]) + ":" + Print(v.fields[keys[0]]) + "," + PrintFields(v, keys[1..])
  {
    hide Print;
  }

  lemma {:induction false} ItemsRoundTrip(v: Json, from: nat, rest: string)
    requires Fragment(v) && v.Arr? && from < |v.items|
    ensures ParseItems(PrintItems(v, from) + "]" + rest) == Some((v.items[from..], rest))
    decreases v, 0, |v.items| - from
  {
    hide ParseValue, ParseItems, PrintItems, Print;
    PrintedItems(v, from);
    var s, item := PrintItems(v, from) + "]" + rest, v.items[from];
    if from + 1 == |v.items| {
      ValueRoundTrip(item, "]" + rest);
      assert s == Print(item) + ("]" + rest);
      ReadLastItem(s, item, rest);
      assert v.items[from..] == [item];
    } else {
      var tail := PrintItems(v, from + 1) + "]" + rest;
      ValueRoundTrip(item, "," + tail);
      ItemsRoundTrip(v, from + 1, rest);
      assert s == Print(item) + ("," + tail);
      ReadItem(s, item, tail, v.items[from + 1..], rest);
      assert v.items[from..] == [item] + v.items[from + 1..];
    }
  }

  function Picked(v: Json, keys: seq<string>): map<string, Json>
    requires v.Obj? && forall k :: k in keys ==> k in v.fields
  {
    map k | k in keys :: v.fields[k]
  }

  lemma TailIsNew(keys: seq<string>, k: string)
    requires keys != [] && k in keys[1..]
    requires forall i, j :: 0 <= i < j < |keys| ==> keys[i] != keys[j]
    ensures k in keys && k != keys[0]
  {
    var i :| 0 <= i < |keys[1..]| && keys[1..][i] == k;
    assert keys[i + 1] == k;
  }

  lemma PickedTail(v: Json, keys: seq<string>, read: map<string, Json>)
    requires v.Obj? && keys != [] && forall k :: k in keys ==> k in v.fields
    requires forall i, j :: 0 <= i < j < |keys| ==> keys[i] != keys[j]
    requires forall k :: k in keys ==> k !in read
    ensures keys[0] in keys && forall k :: k in keys[1..] ==> k in keys && k !in read[keys[0] := v.fields[keys[0]]]
    ensures read[keys[0] := v.fields[keys[0]]] + Picked(v, keys[1..]) == read + Picked(v, keys)
  {
    hide Picked;
    var more := keys[1..];
    assert keys == [keys[0]] + more;
    forall k | k in more
      ensures k in keys && k != keys[0]
    {
      TailIsNew(keys, k);
    }
    PickedAll(v, keys, more);
    SumInserted(read, keys[0], v.fields[keys[0]], Picked(v, more));
  }

  lemma SumInserted(a: map<string, Json>, k: string, v: Json, b: map<string, Json>)
    ensures a[k := v] + b == a + (map[k := v] + b)
  {
  }

  lemma PickedAll(v: Json, keys: seq<string>, more: seq<string>)
    requires v.Obj? && keys != [] && keys == [keys[0]] + more && forall k :: k in keys ==> k in v.fields
    requires keys[0] !in more
    ensures Picked(v, keys) == map[keys[0] := v.fields[keys[0]]] + Picked(v, more)
  {
    assert forall k :: k in keys <==> k == keys[0] || k in more;
  }

  lemma {:induction false} FieldsRoundTrip(v: Json, keys: seq<string>, read: map<string, Json>, rest: string)
    requires Fragment(v) && v.Obj? && keys != [] && forall k :: k in keys ==> k in v.fields
    requires forall i, j :: 0 <= i < j < |keys| ==> keys[i] != keys[j]
    requires forall k :: k in keys ==> k !in read
    ensures ParseFields(PrintFields(v, keys) + "}" + rest, read) == Some((read + Picked(v, keys), rest))
    decreases v, 0, |keys|
  {
    hide ParseValue, ParseFields, PrintFields, Print, Quote, Picked;
    PrintedFields(v, keys);
    PickedTail(v, keys, read);
    var k, item := keys[0], v.fields[keys[0]];
    var s := PrintFields(v, keys) + "}" + rest;
    if |keys| == 1 {
      ValueRoundTrip(item, "}" + rest);
      assert s == Quote(k) + ":" + (Print(item) + ("}" + rest));
      ReadLastField(k, Print(item) + ("}" + rest), item, read, rest);
      NothingPicked(v, read[k := item], keys[1..]);
    } else {
      var more := keys[1..];
      var tail := PrintFields(v, more) + "}" + rest;
      ValueRoundTrip(item, "," + tail);
      FieldsRoundTrip(v, more, read[k := item], rest);
      assert s == Quote(k) + ":" + (Print(item) + ("," + tail));
      ReadField(k, Print(item) + ("," + tail), item, tail, read, read + Picked(v, keys), rest);
    }
  }

  lemma NothingPicked(v: Json, read: map<string, Json>, keys: seq<string>)
    requires v.Obj? && keys == []
    ensures read + Picked(v, keys) == read
  {
  }

  /** The stored form: canonical text and one newline. */
  function Encode(v: Json): string
    requires Fragment(v)
  {
    Print(v) + "\n"
  }

  function Decode(raw: string): (r: Option<Json>)
    ensures r.Some? ==> Fragment(r.value)
  {
    var v := ParseValue(raw);
    if v.Some? && v.value.1 == "\n" then Some(v.value.0) else None
  }

  /** Decoding the canonical text of a value gives the value back. */
  lemma DecodeEncode(v: Json)
    requires Fragment(v)
    ensures Decode(Encode(v)) == Some(v)
  {
    ValueRoundTrip(v, "\n");
  }

  /** So canonical text identifies its value. */
  lemma EncodeIsInjective(v: Json, w: Json)
    requires Fragment(v) && Fragment(w)
    ensures Print(v) == Print(w) ==> v == w
  {
    DecodeEncode(v);
    DecodeEncode(w);
  }
}
