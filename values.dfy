/** The Python values held in the widget's configuration dictionary and in
    its column models. */
module Values {

  /** A setting value: a boolean, an integer, a string, `None`, or any other
      object (a list, a dictionary), of which only its truth value matters. */
  datatype Scalar = Boolean(b: bool) | Int(i: int) | Str(s: string) | Null | Other(truthy: bool)

  /** A column model: the dictionary describing one grid column. */
  type ColModel = map<string, Scalar>

  /** A configuration entry: a scalar, or the list of column models. */
  datatype Setting = Plain(v: Scalar) | ColModels(columns: seq<ColModel>)

  type Config = map<string, Setting>

  /** Python's truth value. */
  predicate ScalarTruthy(v: Scalar) {
    match v
    case Boolean(b) => b
    case Int(i) => i != 0
    case Str(s) => s != ""
    case Null => false
    case Other(t) => t
  }

  predicate Truthy(s: Setting) {
    match s
    case Plain(v) => ScalarTruthy(v)
    case ColModels(cs) => cs != []
  }
}
