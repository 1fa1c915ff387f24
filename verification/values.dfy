/** Attribute values as the two stores hold them, with Python's truthiness. */
module Values {

  datatype Value = Null | Int(i: int) | Str(s: string) | Bool(b: bool)

  /** Python's `bool(v)`: `None`, `0`, `''` and `False` are falsy. */
  predicate Truthy(v: Value)
  {
    match v
    case Null => false
    case Int(i) => i != 0
    case Str(s) => s != ""
    case Bool(b) => b
  }
}
