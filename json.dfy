/** JavaScript values as they appear in the query objects the list components build. */
module Json {

  datatype Option<+T> = None | Some(value: T)

  /** A JSON-like JavaScript value. Numbers are integers; objects are unordered key maps. */
  datatype Json =
    | Null
    | Bool(b: bool)
    | Num(n: int)
    | Str(s: string)
    | Arr(items: seq<Json>)
    | Obj(fields: map<string, Json>)

  /** JavaScript truthiness: null, false, 0 and "" are falsy; arrays and objects are truthy. */
  predicate Truthy(j: Json) {
    match j
    case Null => false
    case Bool(b) => b
    case Num(n) => n != 0
    case Str(s) => s != ""
    case _ => true
  }

  /** The property read `j.key`; None stands for `undefined`. Only objects have named properties. */
  function Get(j: Json, key: string): (r: Option<Json>)
    ensures r.Some? <==> j.Obj? && key in j.fields
    ensures r.Some? ==> r.value == j.fields[key]
  {
    if j.Obj? && key in j.fields then Some(j.fields[key]) else None
  }

  /** Whether `j.key` is truthy (undefined is falsy). */
  predicate TruthyAt(j: Json, key: string) {
    var v := Get(j, key);
    v.Some? && Truthy(v.value)
  }

  /** The chained property read `j.k0.k1...`; None as soon as one step is undefined. */
  function Path(j: Json, keys: seq<string>): Option<Json>
    decreases |keys|
  {
    if keys == [] then Some(j)
    else
      match Get(j, keys[0])
      case None => None
      case Some(v) => Path(v, keys[1..])
  }

  /** An object literal with a single property, `{ [key]: v }`. */
  function Single(key: string, v: Json): Json {
    Obj(map[key := v])
  }

  /** An array of strings. */
  function StrArr(vs: seq<string>): (r: Json)
    ensures r.Arr? && |r.items| == |vs|
    ensures forall i :: 0 <= i < |vs| ==> r.items[i] == Str(vs[i])
  {
    Arr(seq(|vs|, i requires 0 <= i < |vs| => Str(vs[i])))
  }

  /** A read of `[k] + rest` is a read of `k` followed by a read of `rest`. */
  lemma PathCons(j: Json, k: string, rest: seq<string>)
    ensures Path(j, [k] + rest) == match Get(j, k) case None => None case Some(v) => Path(v, rest)
  {
  }

  /** A two-step property read is two single reads. */
  lemma Path2(j: Json, k0: string, k1: string)
    ensures Path(j, [k0, k1]) ==
            match Get(j, k0)
            case None => None
            case Some(a) => Get(a, k1)
  {
    assert [k0, k1] == [k0] + [k1];
    PathCons(j, k0, [k1]);
    if Get(j, k0).Some? {
      assert [k1] == [k1] + [];
      PathCons(Get(j, k0).value, k1, []);
    }
  }

  /** A three-step property read is three single reads. */
  lemma Path3(j: Json, k0: string, k1: string, k2: string)
    ensures Path(j, [k0, k1, k2]) ==
            match Get(j, k0)
            case None => None
            case Some(a) =>
              match Get(a, k1)
              case None => None
              case Some(b) => Get(b, k2)
  {
    assert [k0, k1, k2] == [k0] + [k1, k2];
    PathCons(j, k0, [k1, k2]);
    if Get(j, k0).Some? {
      Path2(Get(j, k0).value, k1, k2);
    }
  }
}
