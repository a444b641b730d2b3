/** The JavaScript values the transport handles, and the few JavaScript
    operators its decision logic relies on: truthiness, `a || b` and
    property reads. */
module Values {

  datatype Option<+T> = None | Some(value: T)

  datatype Result<+T, +E> = Success(value: T) | Failure(error: E)

  /** A point in time, as milliseconds since the epoch (a JavaScript `Date`).
      Ordering instants by `millis` is the ordering of their ISO-8601 texts
      for the years 0000 to 9999, which is how the view sorts its keys. */
  datatype Instant = Instant(millis: int)

  predicate NotAfter(a: Instant, b: Instant) {
    a.millis <= b.millis
  }

  /** An error reported by the document store. */
  datatype Error = NotFound | Failed(reason: string)

  /** A JavaScript value. Numbers are integers here (no NaN, no fractions);
      objects are acyclic and flat at the level the transport looks at them. */
  datatype Value =
    | Undefined
    | Null
    | Bool(b: bool)
    | Num(n: int)
    | Str(s: string)
    | Date(at: Instant)
    | Obj(props: map<string, Value>)

  /** JavaScript truthiness: `undefined`, `null`, `false`, `0` and `""` are
      falsy; every other value, every object and every `Date` included, is truthy. */
  predicate Truthy(v: Value): (r: bool)
    ensures !r <==> v in {Undefined, Null, Bool(false), Num(0), Str("")}
  {
    match v
    case Undefined => false
    case Null => false
    case Bool(b) => b
    case Num(n) => n != 0
    case Str(s) => s != ""
    case Date(_) => true
    case Obj(_) => true
  }

  /** JavaScript `a || b`: the first operand when it is truthy, else the second. */
  function Or(a: Value, b: Value): (r: Value)
    ensures Truthy(r) <==> Truthy(a) || Truthy(b)
    ensures Truthy(a) ==> r == a
    ensures !Truthy(a) ==> r == b
  {
    if Truthy(a) then a else b
  }

  /** JavaScript property read `v[key]`: the property of an object that has
      it, `undefined` for an object that lacks it and for any primitive. */
  function Get(v: Value, key: string): (r: Value)
    ensures r != Undefined ==> v.Obj? && key in v.props && r == v.props[key]
    ensures v.Obj? && key in v.props ==> r == v.props[key]
    ensures !(v.Obj? && key in v.props) ==> r == Undefined
  {
    if v.Obj? && key in v.props then v.props[key] else Undefined
  }
}
