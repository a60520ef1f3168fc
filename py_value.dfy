/**
 * The Python values that the gallery backend passes around: the records it builds
 * for image files, the dictionaries of folders, and the parsed JSON of a request body.
 */
module PyValue {

  /**
   * A Python float. Finite values are kept as exact reals (rounding is not modelled);
   * the two infinities and NaN are the non-finite values.
   */
  datatype Float = Finite(value: real) | Infinity(negative: bool) | NaN

  /** `not (math.isnan(x) or math.isinf(x))` */
  predicate IsFinite(x: Float)
  {
    x.Finite?
  }

  /**
   * A Python value. `PyObject` stands for any other object (a tuple, a datetime, a set, ...)
   * and carries the text that `str()` gives for it.
   */
  datatype Value =
    | PyNone
    | PyBool(b: bool)
    | PyInt(i: int)
    | PyFloat(x: Float)
    | PyStr(s: string)
    | PyList(items: seq<Value>)
    | PyDict(fields: map<string, Value>)
    | PyObject(text: string)

  /** A dictionary with string keys, such as one file's record. */
  type Record = map<string, Value>

  /** Python truthiness, as `if not v:` tests it (plain objects are truthy). */
  predicate Truthy(v: Value)
  {
    match v
    case PyNone => false
    case PyBool(b) => b
    case PyInt(i) => i != 0
    case PyFloat(x) => !(x.Finite? && x.value == 0.0)
    case PyStr(s) => s != []
    case PyList(items) => items != []
    case PyDict(fields) => fields != map[]
    case PyObject(_) => true
  }

  /** `d.get(key)`: the value under `key`, or `None` when the key is absent. */
  function GetField(d: Record, key: string): Value
  {
    if key in d then d[key] else PyNone
  }
}
