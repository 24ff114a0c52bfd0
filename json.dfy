/** JSON values as the provider's parsed reply holds them, with JavaScript's
    truthiness and `typeof` tests. */
module JsonValue {
  import opened Text

  datatype Option<+T> = None | Some(value: T)

  /** An object keeps its keys in enumeration order. Numbers are integers. */
  datatype Json =
    | Null
    | Bool(boolean: bool)
    | Int(number: int)
    | Str(text: string)
    | Arr(elems: seq<Json>)
    | Obj(fields: seq<(string, Json)>)

  /** `!!v`: null, false, 0 and "" are falsy; arrays and objects, even empty, are truthy. */
  predicate Truthy(v: Json)
    ensures Truthy(v) <==> v !in {Null, Bool(false), Int(0), Str("")}
  {
    match v
    case Null => false
    case Bool(b) => b
    case Int(n) => n != 0
    case Str(s) => s != ""
    case Arr(_) => true
    case Obj(_) => true
  }

  /** `typeof v === 'object'`, which holds for null as well as arrays and objects. */
  predicate IsObject(v: Json)
    ensures v.Null? ==> IsObject(v) && !Truthy(v)
    ensures !IsObject(v) ==> Fields(v) == []
  {
    v.Null? || v.Arr? || v.Obj?
  }

  /** The (key, value) pairs a for..in loop visits: an array's indices as
      decimal strings, an object's keys in order, nothing for a scalar. */
  function Fields(v: Json): (fs: seq<(string, Json)>)
    ensures forall i :: 0 <= i < |fs| ==> fs[i].1 < v
  {
    match v
    case Arr(es) => seq(|es|, i requires 0 <= i < |es| => (Decimal(i), es[i]))
    case Obj(fs) => fs
    case _ => []
  }

  /** JavaScript's `a || b`: one of the operands, truthy iff either is. */
  function Or(a: Json, b: Json): (r: Json)
    ensures r == a || r == b
    ensures Truthy(r) <==> Truthy(a) || Truthy(b)
  {
    if Truthy(a) then a else b
  }
}
