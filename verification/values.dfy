/**
 The slice of JavaScript's value semantics the pipeline orchestrator relies on:
 dynamically typed values, property reads on plain objects (a missing key reads
 as `undefined`), truthiness, the `||` operator, and the outcome of an awaited
 call that may throw.
 */
module JsValues {

  /** A JavaScript value. Numbers are modelled as integers (NaN is not modelled). */
  datatype JsValue =
    | Undefined
    | Null
    | Bool(b: bool)
    | Num(n: int)
    | Str(s: string)
    | Arr(elems: seq<JsValue>)
    | Obj(props: map<string, JsValue>)

  /** A plain object, as a map from own property names to values. */
  type Object = map<string, JsValue>

  /** The empty object literal `{}`. */
  const EmptyObject: JsValue := Obj(map[])

  /** JavaScript truthiness: `undefined`, `null`, `false`, `0` and `""` are falsy. */
  predicate Truthy(v: JsValue) {
    match v
    case Undefined => false
    case Null => false
    case Bool(b) => b
    case Num(n) => n != 0
    case Str(s) => s != ""
    case Arr(_) => true
    case Obj(_) => true
  }

  /** The property read `o.k`: a missing property reads as `undefined`. */
  function Get(o: Object, k: string): JsValue {
    if k in o then o[k] else Undefined
  }

  /** The expression `a || b`: the left operand when it is truthy, else the right one. */
  function Or(a: JsValue, b: JsValue): (v: JsValue)
    ensures Truthy(v) <==> Truthy(a) || Truthy(b)
    ensures v == a || v == b
    ensures Truthy(a) ==> v == a
    ensures !Truthy(a) ==> v == b
  {
    if Truthy(a) then a else b
  }

  datatype Option<+T> = None | Some(value: T)

  /** The settled result of an awaited call: a value, or a thrown error. */
  datatype Result<+T> = Ok(value: T) | Throw(error: JsValue) {

    /** The error this result carries, if any. */
    function Error(): Option<JsValue> {
      match this
      case Ok(_) => None
      case Throw(err) => Some(err)
    }
  }
}
