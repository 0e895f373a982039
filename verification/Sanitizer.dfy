/**
Recursive removal of credential fields from attribute trees, and the check that
none are left.  `sensitive` is the predicate on keys.
*/
module Sanitizer {
  import opened Common
  import opened Decimals
  import opened Json

  function KeyPath(path: string, key: string): string {
    if path != "" then path + "." + key else key
  }

  function IndexPath(path: string, index: nat): string {
    path + "[" + NatText(index) + "]"
  }

  /** The tree without its sensitive entries. */
  function Clean(v: Json, sensitive: string -> bool): Json {
    match v
    case Obj(fields) => Obj(map k | k in fields && !sensitive(k) :: Clean(fields[k], sensitive))
    case Arr(items) => Arr(seq(|items|, i requires 0 <= i < |items| => Clean(items[i], sensitive)))
    case _ => v
  }

  /** The paths of the entries removed below `path`. */
  function Removed(v: Json, sensitive: string -> bool, path: string): set<string> {
    match v
    case Obj(fields) =>
      (set k | k in fields && sensitive(k) :: KeyPath(path, k))
      + (set k, p | k in fields && !sensitive(k) && p in Removed(fields[k], sensitive, KeyPath(path, k)) :: p)
    case Arr(items) =>
      set i, p | 0 <= i < |items| && p in Removed(items[i], sensitive, IndexPath(path, i)) :: p
    case _ => {}
  }

  function StripSensitiveAttributes(attributes: map<string, Json>, sensitive: string -> bool): (Json, set<string>) {
    (Clean(Obj(attributes), sensitive), Removed(Obj(attributes), sensitive, ""))
  }

  /** What the entries of some keys leave behind, and which paths they remove. */
  function CleanOf(fields: map<string, Json>, keys: set<string>, sensitive: string -> bool): map<string, Json> {
    map k | k in fields && k in keys && !sensitive(k) :: Clean(fields[k], sensitive)
  }

  function EntryRemoved(fields: map<string, Json>, k: string, sensitive: string -> bool, path: string): set<string>
    requires k in fields
  {
    if sensitive(k) then {KeyPath(path, k)} else Removed(fields[k], sensitive, KeyPath(path, k))
  }

  function RemovedOf(fields: map<string, Json>, keys: set<string>, sensitive: string -> bool,
                     path: string): set<string> {
    set k, p | k in fields && k in keys && p in EntryRemoved(fields, k, sensitive, path) :: p
  }

  lemma NextEntry(fields: map<string, Json>, keys: set<string>, k: string, sensitive: string -> bool, path: string)
    requires k in fields && k !in keys
    ensures RemovedOf(fields, keys + {k}, sensitive, path)
         == RemovedOf(fields, keys, sensitive, path) + EntryRemoved(fields, k, sensitive, path)
    ensures CleanOf(fields, keys + {k}, sensitive)
         == if sensitive(k) then CleanOf(fields, keys, sensitive)
            else CleanOf(fields, keys, sensitive)[k := Clean(fields[k], sensitive)]
  {
    hide Clean, EntryRemoved;
  }

  lemma AllEntries(fields: map<string, Json>, sensitive: string -> bool, path: string)
    ensures CleanOf(fields, {}, sensitive) == map[] && RemovedOf(fields, {}, sensitive, path) == {}
    ensures Obj(CleanOf(fields, fields.Keys, sensitive)) == Clean(Obj(fields), sensitive)
    ensures RemovedOf(fields, fields.Keys, sensitive, path) == Removed(Obj(fields), sensitive, path)
  {
    forall p
      ensures p in RemovedOf(fields, fields.Keys, sensitive, path) <==> p in Removed(Obj(fields), sensitive, path)
    {
      if p in Removed(Obj(fields), sensitive, path) {
        var k :| k in fields && p in EntryRemoved(fields, k, sensitive, path);
      }
    }
  }

  function ItemsRemoved(items: seq<Json>, n: nat, sensitive: string -> bool, path: string): set<string>
    requires n <= |items|
  {
    set i, p | 0 <= i < n && p in Removed(items[i], sensitive, IndexPath(path, i)) :: p
  }

  lemma NextItem(items: seq<Json>, n: nat, sensitive: string -> bool, path: string)
    requires n < |items|
    ensures ItemsRemoved(items, n + 1, sensitive, path)
         == ItemsRemoved(items, n, sensitive, path) + Removed(items[n], sensitive, IndexPath(path, n))
  {
    hide Removed;
  }

  lemma AllItems(items: seq<Json>, kept: seq<Json>, sensitive: string -> bool, path: string)
    requires |kept| == |items| && forall i :: 0 <= i < |items| ==> kept[i] == Clean(items[i], sensitive)
    ensures Arr(kept) == Clean(Arr(items), sensitive)
    ensures ItemsRemoved(items, |items|, sensitive, path) == Removed(Arr(items), sensitive, path)
  {
  }

  /** The source's recursion: one pass over the entries, in any order, or over the items of a list. */
  method Strip(v: Json, sensitive: string -> bool, path: string) returns (clean: Json, stripped: set<string>)
    ensures clean == Clean(v, sensitive) && stripped == Removed(v, sensitive, path)
    decreases v, 1
  {
    match v {
      case Obj(fields) =>
        var kept: map<string, Json>;
        kept, stripped := StripEntries(v, sensitive, path);
        clean := Obj(kept);
      case Arr(items) =>
        var kept: seq<Json>;
        kept, stripped := StripItems(v, sensitive, path);
        clean := Arr(kept);
      case _ =>
        clean, stripped := v, {};
    }
  }

  method StripEntries(v: Json, sensitive: string -> bool, path: string)
    returns (kept: map<string, Json>, stripped: set<string>)
    requires v.Obj?
    ensures Obj(kept) == Clean(v, sensitive) && stripped == Removed(v, sensitive, path)
    decreases v, 0
  {
    hide Clean, CleanOf, RemovedOf, Removed;
    kept, stripped := map[], {};
    var todo := v.fields.Keys;
    AllEntries(v.fields, sensitive, path);
    assert v.fields.Keys - todo == {};
    while todo != {}
      invariant todo <= v.fields.Keys
      invariant kept == CleanOf(v.fields, v.fields.Keys - todo, sensitive)
      invariant stripped == RemovedOf(v.fields, v.fields.Keys - todo, sensitive, path)
      decreases |todo|
    {
      var k :| k in todo;
      NextEntry(v.fields, v.fields.Keys - todo, k, sensitive, path);
      assert v.fields.Keys - todo + {k} == v.fields.Keys - (todo - {k});
      todo := todo - {k};
      if sensitive(k) {
        stripped := stripped + {KeyPath(path, k)};
      } else {
        var nested, below := Strip(v.fields[k], sensitive, KeyPath(path, k));
        kept, stripped := kept[k := nested], stripped + below;
      }
    }
    assert v.fields.Keys - todo == v.fields.Keys;
  }

  method StripItems(v: Json, sensitive: string -> bool, path: string) returns (kept: seq<Json>, stripped: set<string>)
    requires v.Arr?
    ensures Arr(kept) == Clean(v, sensitive) && stripped == Removed(v, sensitive, path)
    decreases v, 0
  {
    hide Clean, Removed;
    kept, stripped := [], {};
    for i := 0 to |v.items|
      invariant |kept| == i && forall j :: 0 <= j < i ==> kept[j] == Clean(v.items[j], sensitive)
      invariant stripped == ItemsRemoved(v.items, i, sensitive, path)
    {
      NextItem(v.items, i, sensitive, path);
      var item, below := Strip(v.items[i], sensitive, IndexPath(path, i));
      kept, stripped := kept + [item], stripped + below;
    }
    AllItems(v.items, kept, sensitive, path);
  }

  /** assert_no_sensitive_keys returns without raising. */
  predicate NoSensitiveKeys(v: Json, sensitive: string -> bool) {
    match v
    case Obj(fields) => forall k :: k in fields ==> !sensitive(k) && NoSensitiveKeys(fields[k], sensitive)
    case Arr(items) => forall i :: 0 <= i < |items| ==> NoSensitiveKeys(items[i], sensitive)
    case _ => true
  }

  // Places in a tree.

  datatype Step = Key(key: string) | Index(index: nat)

  function At(v: Json, place: seq<Step>): Option<Json>
    decreases place
  {
    if place == [] then Some(v)
    else match place[0]
      case Key(k) => if v.Obj? && k in v.fields then At(v.fields[k], place[1..]) else None
      case Index(i) => if v.Arr? && i < |v.items| then At(v.items[i], place[1..]) else None
  }

  predicate Safe(place: seq<Step>, sensitive: string -> bool) {
    forall i :: 0 <= i < |place| && place[i].Key? ==> !sensitive(place[i].key)
  }

  function Render(path: string, place: seq<Step>): string
    decreases place
  {
    if place == [] then path
    else match place[0]
      case Key(k) => Render(KeyPath(path, k), place[1..])
      case Index(i) => Render(IndexPath(path, i), place[1..])
  }

  /** A path grows by a dot and the key, without the dot at the start, and by the bracketed index. */
  ghost function Longer(path: string, step: Step): string {
    match step
    case Key(k) => if path == "" then k else path + "." + k
    case Index(i) => path + ("[" + NatText(i) + "]")
  }

  lemma {:induction false} RenderExtends(path: string, place: seq<Step>, step: Step)
    ensures Render(path, []) == path
    ensures Render(path, place + [step]) == Longer(Render(path, place), step)
    decreases place
  {
    if place == [] {
      assert ([] + [step])[1..] == [] && ([] + [step])[0] == step;
      match step
      case Key(k) =>
      case Index(i) => assert path + "[" + NatText(i) + "]" == path + ("[" + NatText(i) + "]");
    } else {
      assert (place + [step])[1..] == place[1..] + [step];
      match place[0]
      case Key(k) => RenderExtends(KeyPath(path, k), place[1..], step);
      case Index(i) => RenderExtends(IndexPath(path, i), place[1..], step);
    }
  }

  // Properties of the stripped tree.

  lemma {:induction false} CleanPassesCheck(v: Json, sensitive: string -> bool)
    ensures NoSensitiveKeys(Clean(v, sensitive), sensitive)
  {
    match v
    case Obj(fields) =>
      forall k | k in fields && !sensitive(k)
        ensures NoSensitiveKeys(Clean(fields[k], sensitive), sensitive)
      {
        CleanPassesCheck(fields[k], sensitive);
      }
    case Arr(items) =>
      forall i | 0 <= i < |items|
        ensures NoSensitiveKeys(Clean(items[i], sensitive), sensitive)
      {
        CleanPassesCheck(items[i], sensitive);
      }
    case _ =>
  }

  lemma {:induction false} CleanKeepsClean(v: Json, sensitive: string -> bool)
    requires NoSensitiveKeys(v, sensitive)
    ensures Clean(v, sensitive) == v
  {
    match v
    case Obj(fields) =>
      forall k | k in fields
        ensures Clean(fields[k], sensitive) == fields[k]
      {
        CleanKeepsClean(fields[k], sensitive);
      }
      assert (map k | k in fields && !sensitive(k) :: Clean(fields[k], sensitive)) == fields;
    case Arr(items) =>
      forall i | 0 <= i < |items|
        ensures Clean(items[i], sensitive) == items[i]
      {
        CleanKeepsClean(items[i], sensitive);
      }
      assert Clean(v, sensitive).items == items;
    case _ =>
  }

  lemma {:induction false} NothingRemoved(v: Json, sensitive: string -> bool, path: string)
    ensures Removed(v, sensitive, path) == {} <==> NoSensitiveKeys(v, sensitive)
  {
    match v
    case Obj(fields) =>
      forall k | k in fields
        ensures Removed(fields[k], sensitive, KeyPath(path, k)) == {} <==> NoSensitiveKeys(fields[k], sensitive)
      {
        NothingRemoved(fields[k], sensitive, KeyPath(path, k));
      }
      if Removed(v, sensitive, path) == {} {
        forall k | k in fields
          ensures !sensitive(k) && Removed(fields[k], sensitive, KeyPath(path, k)) == {}
        {
          assert sensitive(k) ==> KeyPath(path, k) in Removed(v, sensitive, path);
          assert !sensitive(k) ==> Removed(fields[k], sensitive, KeyPath(path, k)) <= Removed(v, sensitive, path);
        }
      }
    case Arr(items) =>
      forall i | 0 <= i < |items|
        ensures Removed(items[i], sensitive, IndexPath(path, i)) == {} <==> NoSensitiveKeys(items[i], sensitive)
        ensures Removed(items[i], sensitive, IndexPath(path, i)) <= Removed(v, sensitive, path)
      {
        NothingRemoved(items[i], sensitive, IndexPath(path, i));
      }
    case _ =>
  }

  /**
  Stripping yields a tree that passes the check and that stripping leaves alone;
  it changes nothing exactly when it reports nothing.
  */
  lemma StrippingIsComplete(attributes: map<string, Json>, sensitive: string -> bool)
    ensures var (clean, removed) := StripSensitiveAttributes(attributes, sensitive);
            && NoSensitiveKeys(clean, sensitive)
            && Clean(clean, sensitive) == clean && Removed(clean, sensitive, "") == {}
            && (removed == {} <==> clean == Obj(attributes))
  {
    var v := Obj(attributes);
    var clean := Clean(v, sensitive);
    CleanPassesCheck(v, sensitive);
    CleanKeepsClean(clean, sensitive);
    NothingRemoved(clean, sensitive, "");
    NothingRemoved(v, sensitive, "");
    if NoSensitiveKeys(v, sensitive) {
      CleanKeepsClean(v, sensitive);
    }
  }

  /** Places without a sensitive key keep their (stripped) value, and no other place exists any more. */
  lemma {:induction false} StrippingKeepsPlaces(v: Json, sensitive: string -> bool, place: seq<Step>)
    ensures Safe(place, sensitive) ==>
              At(Clean(v, sensitive), place)
              == if At(v, place).Some? then Some(Clean(At(v, place).value, sensitive)) else None
    ensures !Safe(place, sensitive) ==> At(Clean(v, sensitive), place) == None
    decreases place
  {
    if place != [] {
      var rest := place[1..];
      assert Safe(place, sensitive) <==> (place[0].Key? ==> !sensitive(place[0].key)) && Safe(rest, sensitive) by {
        assert forall i :: 0 <= i < |rest| ==> rest[i] == place[i + 1];
        assert forall i :: 1 <= i < |place| ==> place[i] == rest[i - 1];
      }
      match place[0]
      case Key(k) =>
        if v.Obj? && k in v.fields && !sensitive(k) {
          StrippingKeepsPlaces(v.fields[k], sensitive, rest);
        }
      case Index(i) =>
        if v.Arr? && i < |v.items| {
          StrippingKeepsPlaces(v.items[i], sensitive, rest);
        }
    }
  }

  /** place leads, through safe keys only, to an object with the sensitive key. */
  ghost predicate Removes(v: Json, sensitive: string -> bool, place: seq<Step>, key: string) {
    && Safe(place, sensitive) && sensitive(key)
    && At(v, place).Some? && At(v, place).value.Obj? && key in At(v, place).value.fields
  }

  lemma SafeCons(step: Step, rest: seq<Step>, sensitive: string -> bool)
    ensures Safe([step] + rest, sensitive) <==> (step.Key? ==> !sensitive(step.key)) && Safe(rest, sensitive)
  {
    var place := [step] + rest;
    assert place[0] == step && forall i :: 0 <= i < |rest| ==> rest[i] == place[i + 1];
    assert forall i :: 1 <= i < |place| ==> place[i] == rest[i - 1];
  }

  lemma {:induction false} RemovedHasPlace(v: Json, sensitive: string -> bool, path: string, p: string)
    returns (place: seq<Step>, key: string)
    requires p in Removed(v, sensitive, path)
    ensures Removes(v, sensitive, place, key) && p == Render(path, place + [Key(key)])
  {
    match v
    case Obj(fields) =>
      if k :| k in fields && sensitive(k) && p == KeyPath(path, k) {
        place, key := [], k;
        assert [] + [Key(k)] == [Key(k)];
      } else {
        var k :| k in fields && !sensitive(k) && p in Removed(fields[k], sensitive, KeyPath(path, k));
        var rest;
        rest, key := RemovedHasPlace(fields[k], sensitive, KeyPath(path, k), p);
        place := [Key(k)] + rest;
        SafeCons(Key(k), rest, sensitive);
        assert place[1..] == rest && (place + [Key(key)])[1..] == rest + [Key(key)];
      }
    case Arr(items) =>
      var i :| 0 <= i < |items| && p in Removed(items[i], sensitive, IndexPath(path, i));
      var rest;
      rest, key := RemovedHasPlace(items[i], sensitive, IndexPath(path, i), p);
      place := [Index(i)] + rest;
      SafeCons(Index(i), rest, sensitive);
      assert place[1..] == rest && (place + [Key(key)])[1..] == rest + [Key(key)];
  }

  lemma {:induction false} PlaceIsRemoved(v: Json, sensitive: string -> bool, path: string, place: seq<Step>,
                                          key: string)
    requires Removes(v, sensitive, place, key)
    ensures Render(path, place + [Key(key)]) in Removed(v, sensitive, path)
    decreases place
  {
    if place == [] {
      assert place + [Key(key)] == [Key(key)] && [Key(key)][1..] == [];
      assert Render(path, [Key(key)]) == KeyPath(path, key);
    } else {
      var rest := place[1..];
      assert place == [place[0]] + rest;
      SafeCons(place[0], rest, sensitive);
      assert (place + [Key(key)])[1..] == rest + [Key(key)];
      match place[0]
      case Key(k) =>
        PlaceIsRemoved(v.fields[k], sensitive, KeyPath(path, k), rest, key);
        assert Removed(v.fields[k], sensitive, KeyPath(path, k)) <= Removed(v, sensitive, path);
      case Index(i) =>
        PlaceIsRemoved(v.items[i], sensitive, IndexPath(path, i), rest, key);
        assert Removed(v.items[i], sensitive, IndexPath(path, i)) <= Removed(v, sensitive, path);
    }
  }

  /** The reported paths are exactly those of the outermost sensitive entries. */
  lemma ReportedPathsAreExact(v: Json, sensitive: string -> bool, path: string, p: string)
    ensures p in Removed(v, sensitive, path)
       <==> exists place, key :: Removes(v, sensitive, place, key) && p == Render(path, place + [Key(key)])
  {
    if p in Removed(v, sensitive, path) {
      var place, key := RemovedHasPlace(v, sensitive, path, p);
    }
    if exists place, key :: Removes(v, sensitive, place, key) && p == Render(path, place + [Key(key)]) {
      var place, key :| Removes(v, sensitive, place, key) && p == Render(path, place + [Key(key)]);
      PlaceIsRemoved(v, sensitive, path, place, key);
    }
  }
}
