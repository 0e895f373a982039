/** Python's == on decoded JSON, under which True, 1 and 1.0 are equal. */
module JsonEquality {
  import opened Common
  import opened Json

  /** The number a boolean or number compares as. */
  function NumberOf(v: Json): Option<JsonNumber> {
    match v
    case Bool(b) => Some(WholeNumber(if b then 1 else 0))
    case Int(n) => Some(WholeNumber(n))
    case Real(x) => Some(x)
    case _ => None
  }

  predicate PyEq(a: Json, b: Json) {
    match a
    case Null => b.Null?
    case Str(s) => b == a
    case Arr(items) =>
      b.Arr? && |items| == |b.items| && forall i :: 0 <= i < |items| ==> PyEq(items[i], b.items[i])
    case Obj(fields) =>
      b.Obj? && fields.Keys == b.fields.Keys && forall k :: k in fields ==> PyEq(fields[k], b.fields[k])
    case _ => NumberOf(b) == NumberOf(a)
  }

  /** The value with every boolean and number replaced by the number it compares as. */
  function Loose(v: Json): Json {
    match v
    case Arr(items) => Arr(seq(|items|, i requires 0 <= i < |items| => Loose(items[i])))
    case Obj(fields) => Obj(map k | k in fields :: Loose(fields[k]))
    case Null => v
    case Str(_) => v
    case _ => Real(NumberOf(v).value)
  }

  /** Values are equal exactly when they have the same normal form, so equality is an equivalence. */
  lemma {:induction false} PyEqNormalizes(a: Json, b: Json)
    ensures PyEq(a, b) <==> Loose(a) == Loose(b)
  {
    match a
    case Arr(items) =>
      if b.Arr? && |items| == |b.items| {
        forall i | 0 <= i < |items|
          ensures PyEq(items[i], b.items[i]) <==> Loose(a).items[i] == Loose(b).items[i]
        {
          PyEqNormalizes(items[i], b.items[i]);
        }
      }
    case Obj(fields) =>
      if b.Obj? {
        assert Loose(a).fields.Keys == fields.Keys && Loose(b).fields.Keys == b.fields.Keys;
        forall k | k in fields && k in b.fields
          ensures PyEq(fields[k], b.fields[k]) <==> Loose(a).fields[k] == Loose(b).fields[k]
        {
          PyEqNormalizes(fields[k], b.fields[k]);
        }
      }
    case _ =>
  }

  lemma PyEqEquivalence(a: Json, b: Json, c: Json)
    ensures PyEq(a, a)
    ensures PyEq(a, b) ==> PyEq(b, a)
    ensures PyEq(a, b) && PyEq(b, c) ==> PyEq(a, c)
  {
    hide PyEq, Loose;
    PyEqNormalizes(a, a);
    PyEqNormalizes(a, b);
    PyEqNormalizes(b, a);
    PyEqNormalizes(b, c);
    PyEqNormalizes(a, c);
  }

  /** No boolean and no integral number anywhere. */
  predicate Rigid(v: Json) {
    match v
    case Bool(_) => false
    case Int(_) => false
    case Real(x) => x != x.Floor as real
    case Arr(items) => forall i :: 0 <= i < |items| ==> Rigid(items[i])
    case Obj(fields) => forall k :: k in fields ==> Rigid(fields[k])
    case _ => true
  }

  /** An equal value: every boolean and integral number written in another way. */
  function Variant(v: Json): Json {
    match v
    case Bool(b) => Int(if b then 1 else 0)
    case Int(n) => Real(WholeNumber(n))
    case Real(x) => if x == x.Floor as real then Int(x.Floor) else v
    case Arr(items) => Arr(seq(|items|, i requires 0 <= i < |items| => Variant(items[i])))
    case Obj(fields) => Obj(map k | k in fields :: Variant(fields[k]))
    case _ => v
  }

  lemma {:induction false} VariantIsEqual(v: Json)
    ensures PyEq(v, Variant(v))
    ensures !Rigid(v) ==> Variant(v) != v
  {
    match v
    case Arr(items) =>
      forall i | 0 <= i < |items|
        ensures PyEq(items[i], Variant(v).items[i]) && (!Rigid(items[i]) ==> Variant(v).items[i] != items[i])
      {
        VariantIsEqual(items[i]);
      }
    case Obj(fields) =>
      forall k | k in fields
        ensures PyEq(fields[k], Variant(v).fields[k]) && (!Rigid(fields[k]) ==> Variant(v).fields[k] != fields[k])
      {
        VariantIsEqual(fields[k]);
      }
    case _ =>
  }

  lemma {:induction false} RigidIsAlone(v: Json, w: Json)
    requires Rigid(v) && PyEq(v, w)
    ensures w == v
  {
    match v
    case Arr(items) =>
      forall i | 0 <= i < |items|
        ensures w.items[i] == items[i]
      {
        RigidIsAlone(items[i], w.items[i]);
      }
    case Obj(fields) =>
      forall k | k in fields
        ensures w.fields[k] == fields[k]
      {
        RigidIsAlone(fields[k], w.fields[k]);
      }
    case _ =>
  }

  /** A value is equal to no other exactly when it holds no boolean and no integral number. */
  lemma RigidExactly(v: Json)
    ensures Rigid(v) <==> forall w :: PyEq(v, w) ==> w == v
  {
    hide PyEq, Rigid;
    VariantIsEqual(v);
    if Rigid(v) {
      forall w | PyEq(v, w)
        ensures w == v
      {
        RigidIsAlone(v, w);
      }
    } else {
      var w := Variant(v);
      assert PyEq(v, w) && w != v;
    }
  }
}
