/**
A text for every JSON value that no other value shares and that fits on one
line: what canonical printing with an ideal digest provides, and a witness that
the hypothesis of an injective digest can be met.
*/
module JsonText {
  import opened Common
  import opened Decimals
  import opened Json
  import opened CanonicalJson

  /** Numerator and number of decimal places of a finite decimal. */
  ghost function Parts(x: JsonNumber): (p: (int, nat))
    ensures Denotes(x, p.0, p.1)
  {
    assert IsFinite(x);
    var n: int, k: nat :| Denotes(x, n, k);
    (n, k)
  }

  lemma PartsIdentify(x: JsonNumber, y: JsonNumber)
    requires Parts(x) == Parts(y)
    ensures x == y
  {
    var scale := Pow10(Parts(x).1) as real;
    assert x * scale == y * scale && scale >= 1.0;
    assert (x - y) * scale == 0.0;
  }

  // Every text below ends where it says it ends: no text is a proper prefix of another.

  function Unary(n: nat): string {
    if n == 0 then "." else "1" + Unary(n - 1)
  }

  function Size(n: int): nat {
    if n >= 0 then n else -n
  }

  function Sign(n: int): char {
    if n >= 0 then '+' else '-'
  }

  function Signed(n: int): string {
    [Sign(n)] + Unary(Size(n))
  }

  function Spelled(s: string): string {
    if s == "" then "." else "c" + Unary(s[0] as nat) + Spelled(s[1..])
  }

  ghost function Text(v: Json): string
    decreases v, 1, 0
  {
    match v
    case Null => "n"
    case Bool(b) => if b then "t" else "f"
    case Int(n) => "i" + Signed(n)
    case Real(x) => "r" + (Signed(Parts(x).0) + Unary(Parts(x).1))
    case Str(s) => "s" + Spelled(s)
    case Arr(_) => "[" + ItemsText(v, 0)
    case Obj(fields) =>
      SortedKeysList(fields.Keys);
      "{" + FieldsText(v, SortedKeys(fields.Keys))
  }

  ghost function ItemsText(v: Json, from: nat): string
    requires v.Arr? && from <= |v.items|
    decreases v, 0, |v.items| - from
  {
    if from == |v.items| then "]" else "," + (Text(v.items[from]) + ItemsText(v, from + 1))
  }

  ghost function FieldsText(v: Json, keys: seq<string>): string
    requires v.Obj? && forall k :: k in keys ==> k in v.fields
    decreases v, 0, |keys|
  {
    if keys == [] then "}"
    else "," + (Spelled(keys[0]) + (Text(v.fields[keys[0]]) + FieldsText(v, keys[1..])))
  }

  lemma {:induction false} UnaryEnds(m: nat, n: nat, r: string, s: string)
    requires Unary(m) + r == Unary(n) + s
    ensures m == n && r == s
  {
    assert (Unary(m) + r)[0] == Unary(m)[0] && (Unary(n) + s)[0] == Unary(n)[0];
    if m > 0 && n > 0 {
      assert (Unary(m) + r)[1..] == Unary(m - 1) + r && (Unary(n) + s)[1..] == Unary(n - 1) + s;
      UnaryEnds(m - 1, n - 1, r, s);
    } else {
      assert (Unary(m) + r)[1..] == r && (Unary(n) + s)[1..] == s;
    }
  }

  lemma SignedEnds(m: int, n: int, r: string, s: string)
    requires Signed(m) + r == Signed(n) + s
    ensures m == n && r == s
  {
    hide Unary;
    var x, y := Signed(m) + r, Signed(n) + s;
    assert x[0] == Sign(m) && y[0] == Sign(n);
    assert x[1..] == Unary(Size(m)) + r && y[1..] == Unary(Size(n)) + s;
    UnaryEnds(Size(m), Size(n), r, s);
  }

  lemma {:induction false} SpelledEnds(a: string, b: string, r: string, s: string)
    requires Spelled(a) + r == Spelled(b) + s
    ensures a == b && r == s
  {
    hide Unary;
    var x, y := Spelled(a) + r, Spelled(b) + s;
    assert x[0] == Spelled(a)[0] && y[0] == Spelled(b)[0];
    if a != "" && b != "" {
      assert x[1..] == Unary(a[0] as nat) + (Spelled(a[1..]) + r);
      assert y[1..] == Unary(b[0] as nat) + (Spelled(b[1..]) + s);
      UnaryEnds(a[0] as nat, b[0] as nat, Spelled(a[1..]) + r, Spelled(b[1..]) + s);
      SpelledEnds(a[1..], b[1..], r, s);
      assert a == [a[0]] + a[1..] && b == [b[0]] + b[1..];
    } else {
      assert x[1..] == r && y[1..] == s;
    }
  }

  function Tag(v: Json): char {
    match v
    case Null => 'n'
    case Bool(b) => if b then 't' else 'f'
    case Int(_) => 'i'
    case Real(_) => 'r'
    case Str(_) => 's'
    case Arr(_) => '['
    case Obj(_) => '{'
  }


  lemma TextSplits(v: Json)
    ensures Text(v) != "" && Text(v)[0] == Tag(v) && Text(v) == [Tag(v)] + Text(v)[1..]
    ensures v.Null? || v.Bool? ==> Text(v)[1..] == ""
    ensures v.Int? ==> Text(v)[1..] == Signed(v.value)
    ensures v.Real? ==> Text(v)[1..] == Signed(Parts(v.number).0) + Unary(Parts(v.number).1)
    ensures v.Str? ==> Text(v)[1..] == Spelled(v.text)
    ensures v.Arr? ==> Text(v)[1..] == ItemsText(v, 0)
    ensures v.Obj? ==>
              && (forall k :: k in SortedKeys(v.fields.Keys) ==> k in v.fields)
              && Text(v)[1..] == FieldsText(v, SortedKeys(v.fields.Keys))
  {
    hide ItemsText, FieldsText, Signed, Unary, Spelled;
    if v.Obj? {
      SortedKeysList(v.fields.Keys);
    }
  }

  /** A text tells its value and its own end. */
  lemma {:induction false} TextEnds(v: Json, w: Json, r: string, s: string)
    requires Text(v) + r == Text(w) + s
    ensures v == w && r == s
    decreases v, 2, 0
  {
    hide Text, ItemsText, FieldsText, Signed, Unary, Spelled, SortedKeys;
    TextSplits(v);
    TextSplits(w);
    var x, y := Text(v) + r, Text(w) + s;
    assert x[0] == Tag(v) && y[0] == Tag(w);
    assert x[1..] == Text(v)[1..] + r && y[1..] == Text(w)[1..] + s;
    match v
    case Null => assert "" + r == r && "" + s == s;
    case Bool(_) => assert "" + r == r && "" + s == s;
    case Int(n) => SignedEnds(n, w.value, r, s);
    case Real(a) => NumberEnds(a, w.number, r, s);
    case Str(t) => SpelledEnds(t, w.text, r, s);
    case Arr(items) =>
      ItemsEnd(v, w, 0, r, s);
      assert items[0..] == items && w.items[0..] == w.items;
    case Obj(fields) => ObjectEnds(v, w, r, s);
  }

  lemma NumberEnds(a: JsonNumber, b: JsonNumber, r: string, s: string)
    requires Signed(Parts(a).0) + Unary(Parts(a).1) + r == Signed(Parts(b).0) + Unary(Parts(b).1) + s
    ensures a == b && r == s
  {
    hide Signed, Unary;
    var i, k, j, l := Parts(a).0, Parts(a).1, Parts(b).0, Parts(b).1;
    assert Signed(i) + Unary(k) + r == Signed(i) + (Unary(k) + r);
    assert Signed(j) + Unary(l) + s == Signed(j) + (Unary(l) + s);
    SignedEnds(i, j, Unary(k) + r, Unary(l) + s);
    UnaryEnds(k, l, r, s);
    PartsIdentify(a, b);
  }

  lemma {:induction false} ItemsEnd(v: Json, w: Json, from: nat, r: string, s: string)
    requires v.Arr? && w.Arr? && from <= |v.items| && from <= |w.items|
    requires ItemsText(v, from) + r == ItemsText(w, from) + s
    ensures v.items[from..] == w.items[from..] && r == s
    decreases v, 0, |v.items| - from
  {
    hide Text;
    var x, y := ItemsText(v, from) + r, ItemsText(w, from) + s;
    assert x[0] == ItemsText(v, from)[0] && y[0] == ItemsText(w, from)[0];
    if from < |v.items| && from < |w.items| {
      var a, b := v.items[from], w.items[from];
      assert x[1..] == Text(a) + (ItemsText(v, from + 1) + r);
      assert y[1..] == Text(b) + (ItemsText(w, from + 1) + s);
      TextEnds(a, b, ItemsText(v, from + 1) + r, ItemsText(w, from + 1) + s);
      ItemsEnd(v, w, from + 1, r, s);
      assert v.items[from..] == [a] + v.items[from + 1..] && w.items[from..] == [b] + w.items[from + 1..];
    } else {
      assert x[1..] == r && y[1..] == s;
    }
  }

  lemma {:induction false} FieldsEnd(v: Json, w: Json, a: seq<string>, b: seq<string>, r: string, s: string)
    requires v.Obj? && w.Obj? && (forall k :: k in a ==> k in v.fields) && (forall k :: k in b ==> k in w.fields)
    requires FieldsText(v, a) + r == FieldsText(w, b) + s
    ensures a == b && r == s && forall k :: k in a ==> v.fields[k] == w.fields[k]
    decreases v, 0, |a|
  {
    hide Text, Spelled;
    var x, y := FieldsText(v, a) + r, FieldsText(w, b) + s;
    assert x[0] == FieldsText(v, a)[0] && y[0] == FieldsText(w, b)[0];
    if a != [] && b != [] {
      var p, q := FieldsText(v, a[1..]) + r, FieldsText(w, b[1..]) + s;
      assert x[1..] == Spelled(a[0]) + (Text(v.fields[a[0]]) + p);
      assert y[1..] == Spelled(b[0]) + (Text(w.fields[b[0]]) + q);
      SpelledEnds(a[0], b[0], Text(v.fields[a[0]]) + p, Text(w.fields[b[0]]) + q);
      TextEnds(v.fields[a[0]], w.fields[b[0]], p, q);
      FieldsEnd(v, w, a[1..], b[1..], r, s);
      assert a == [a[0]] + a[1..] && b == [b[0]] + b[1..];
    } else {
      assert x[1..] == r && y[1..] == s;
    }
  }

  lemma {:induction false} ObjectEnds(v: Json, w: Json, r: string, s: string)
    requires v.Obj? && w.Obj?
    requires (forall k :: k in SortedKeys(v.fields.Keys) ==> k in v.fields)
    requires (forall k :: k in SortedKeys(w.fields.Keys) ==> k in w.fields)
    requires FieldsText(v, SortedKeys(v.fields.Keys)) + r == FieldsText(w, SortedKeys(w.fields.Keys)) + s
    ensures v == w && r == s
    decreases v, 1, 0
  {
    hide FieldsText, SortedKeys;
    SortedKeysList(v.fields.Keys);
    SortedKeysList(w.fields.Keys);
    FieldsEnd(v, w, SortedKeys(v.fields.Keys), SortedKeys(w.fields.Keys), r, s);
    assert v.fields.Keys == w.fields.Keys;
    assert v.fields == w.fields;
  }

  ghost predicate OneLine(s: string) {
    forall i :: 0 <= i < |s| ==> s[i] != '\n'
  }

  lemma {:induction false} UnaryOneLine(n: nat)
    ensures OneLine(Unary(n))
  {
    if n > 0 {
      UnaryOneLine(n - 1);
    }
  }

  lemma {:induction false} SpelledOneLine(s: string)
    ensures OneLine(Spelled(s))
  {
    if s != "" {
      UnaryOneLine(s[0] as nat);
      SpelledOneLine(s[1..]);
    }
  }

  lemma SignedOneLine(n: int)
    ensures OneLine(Signed(n))
  {
    UnaryOneLine(Size(n));
  }

  lemma {:induction false} TextOneLine(v: Json)
    ensures OneLine(Text(v))
    decreases v, 1, 0
  {
    hide Text, Signed, Unary, Spelled, ItemsText, FieldsText, SortedKeys;
    TextSplits(v);
    match v
    case Null =>
    case Bool(_) =>
    case Int(n) => SignedOneLine(n);
    case Real(x) =>
      SignedOneLine(Parts(x).0);
      UnaryOneLine(Parts(x).1);
    case Str(s) => SpelledOneLine(s);
    case Arr(_) => ItemsOneLine(v, 0);
    case Obj(fields) => FieldsOneLine(v, SortedKeys(fields.Keys));
  }

  lemma {:induction false} ItemsOneLine(v: Json, from: nat)
    requires v.Arr? && from <= |v.items|
    ensures OneLine(ItemsText(v, from))
    decreases v, 0, |v.items| - from
  {
    hide Text;
    if from < |v.items| {
      TextOneLine(v.items[from]);
      ItemsOneLine(v, from + 1);
    }
  }

  lemma {:induction false} FieldsOneLine(v: Json, keys: seq<string>)
    requires v.Obj? && forall k :: k in keys ==> k in v.fields
    ensures OneLine(FieldsText(v, keys))
    decreases v, 0, |keys|
  {
    hide Text, Spelled;
    if keys != [] {
      SpelledOneLine(keys[0]);
      TextOneLine(v.fields[keys[0]]);
      FieldsOneLine(v, keys[1..]);
    }
  }

  /** There is an injective digest, and it can be had on one line. */
  lemma InjectiveDigest() returns (digest: Json -> string)
    ensures Injective(digest) && forall v :: OneLine(digest(v))
  {
    digest := (v: Json) => Text(v);
    forall v, w | digest(v) == digest(w)
      ensures v == w
    {
      TextEnds(v, w, "", "");
    }
    forall v
      ensures OneLine(digest(v))
    {
      TextOneLine(v);
    }
  }
}
