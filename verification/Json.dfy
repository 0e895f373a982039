/** Decoded JSON data, shared by the modules that hash, check or sanitize it. */
module Json {
  import opened Common
  import opened Decimals

  /** x is n divided by a power of ten. */
  predicate Denotes(x: real, n: int, k: nat) {
    x * Pow10(k) as real == n as real
  }

  ghost predicate IsFinite(x: real) {
    exists n: int, k: nat :: Denotes(x, n, k)
  }

  function Zero(): (x: real)
    ensures IsFinite(x)
  {
    assert Denotes(0.0, 0, 0);
    0.0
  }

  /** The numbers a document can write are finite decimals; every binary float is one. */
  type JsonNumber = x: real | IsFinite(x) witness Zero()

  function WholeNumber(n: int): (x: JsonNumber)
    ensures x == n as real
  {
    assert Denotes(n as real, n, 0);
    n as real
  }

  datatype Json =
    | Null
    | Bool(flag: bool)
    | Int(value: int)
    | Real(number: JsonNumber)
    | Str(text: string)
    | Arr(items: seq<Json>)
    | Obj(fields: map<string, Json>)

  function TextOrNull(text: Option<string>): Json {
    if text.Some? then Str(text.value) else Null
  }

  /** A digest, or a text, that no two values share. */
  ghost predicate Injective(digest: Json -> string) {
    forall v, w :: digest(v) == digest(w) ==> v == w
  }
}
