/** The values a YAML or JSON loader hands to the Python tools: what
    `isinstance` and `==` can tell apart. A mapping keeps the order of its
    entries, which is the order `items()` visits them in. */
module Values {

  datatype Option<+T> = None | Some(value: T)

  datatype Field = Field(key: string, value: Value)

  datatype Value =
    | Null
    | Bool(b: bool)
    | Int(n: int)
    | Float(r: real)
    | Str(s: string)
    | List(items: seq<Value>)
    | Dict(fields: seq<Field>)

  /** `key in value`, for a mapping. */
  predicate HasKey(fields: seq<Field>, key: string) {
    exists f | f in fields :: f.key == key
  }

  /** `value.get(key)`, for a mapping. */
  function Get(fields: seq<Field>, key: string): (v: Option<Value>)
    ensures v.Some? <==> HasKey(fields, key)
    ensures v.Some? ==> Field(key, v.value) in fields
  {
    if fields == [] then None
    else if fields[0].key == key then Some(fields[0].value)
    else
      var v := Get(fields[1..], key);
      assert forall f | f in fields :: f == fields[0] || f in fields[1..];
      v
  }

  predicate IsScalar(v: Value) {
    !v.List? && !v.Dict?
  }

  /** Python's `==`. Booleans are numbers there: `True == 1 == 1.0`. */
  predicate PyEq(a: Value, b: Value)
    decreases a
  {
    match a
    case Null => b.Null?
    case Bool(_) => Number(b) == Some(if a.b then 1.0 else 0.0)
    case Int(n) => Number(b) == Some(n as real)
    case Float(r) => Number(b) == Some(r)
    case Str(s) => b == Str(s)
    case List(xs) =>
      b.List? && |xs| == |b.items| && forall i | 0 <= i < |xs| :: PyEq(xs[i], b.items[i])
    case Dict(fs) =>
      b.Dict? && |fs| == |b.fields| &&
      forall i | 0 <= i < |fs| ::
        exists j | 0 <= j < |b.fields| :: fs[i].key == b.fields[j].key && PyEq(fs[i].value, b.fields[j].value)
  }

  function Number(v: Value): Option<real> {
    match v
    case Bool(b) => Some(if b then 1.0 else 0.0)
    case Int(n) => Some(n as real)
    case Float(r) => Some(r)
    case _ => None
  }
}
