/** The data the validators work on: the JSON value the vision model's reply
    decodes to, and the two Python built-ins (`float()` and `str()`) applied to
    such values, which the model takes as parameters. */
module Values {

  /** A value produced by `json.loads`. */
  datatype Value =
    | Null
    | Bool(b: bool)
    | Int(i: int)
    | Float(x: real)
    | Str(s: string)
    | List(items: seq<Value>)
    | Obj(fields: map<string, Value>)

  /** An extracted document: a mapping from field name to value. */
  type Record = map<string, Value>

  /** Python truthiness (`if value:`). */
  predicate Truthy(v: Value) {
    match v
    case Null => false
    case Bool(b) => b
    case Int(i) => i != 0
    case Float(x) => x != 0.0
    case Str(s) => s != ""
    case List(items) => items != []
    case Obj(fields) => fields != map[]
  }

  /** What `float(v)` does: return a number, raise `ValueError`/`TypeError`
      (which the amount check catches), or raise anything else (such as the
      `OverflowError` of a huge integer), which only the validator's outer
      handler catches. */
  datatype FloatConversion =
    | Converted(x: real)
    | Unconvertible
    | Raises(message: string)

  /** Python's `float()` and `str()` on JSON values, left abstract: only
      `str()` of a string is fixed by the model (see `PyStr`). */
  datatype Conversions = Conversions(toFloat: Value -> FloatConversion, toStr: Value -> string)

  /** `str(v)`: a string is its own text; other values use `conv.toStr`. */
  function PyStr(conv: Conversions, v: Value): (r: string)
    ensures v.Str? ==> r == v.s
  {
    if v.Str? then v.s else conv.toStr(v)
  }

  /** `float(x)` of a Python float returns it unchanged. */
  ghost predicate FloatOfFloatIsIdentity(conv: Conversions) {
    forall x: real :: conv.toFloat(Float(x)) == Converted(x)
  }
}
