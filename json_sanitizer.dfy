/**
 * `sanitize_json_data`: makes a value safe to hand to `json.dumps` and to the front end,
 * by replacing NaN and the infinities with `None` and any other object with its text.
 */
module JsonSanitizer {
  import opened PyValue

  /** `v` holds no non-finite float and no object that JSON cannot represent, at any depth. */
  predicate JsonSafe(v: Value)
  {
    match v
    case PyFloat(x) => IsFinite(x)
    case PyObject(_) => false
    case PyList(items) => forall i :: 0 <= i < |items| ==> JsonSafe(items[i])
    case PyDict(fields) => forall k :: k in fields ==> JsonSafe(fields[k])
    case _ => true
  }

  /**
   * Dictionaries keep their keys and lists their length; NaN and the infinities become
   * `None`, finite floats, ints, strings, booleans and `None` pass through, and any other
   * object becomes the string `str()` gives for it. The result is always JSON-safe.
   */
  function Sanitize(v: Value): (r: Value)
    ensures JsonSafe(r)
    ensures v.PyDict? <==> r.PyDict?
    ensures v.PyDict? ==> r.fields.Keys == v.fields.Keys
    ensures v.PyList? <==> r.PyList?
    ensures v.PyList? ==> |r.items| == |v.items|
    ensures v.PyFloat? ==> r == if IsFinite(v.x) then v else PyNone
    ensures v.PyNone? || v.PyBool? || v.PyInt? || v.PyStr? ==> r == v
    ensures v.PyObject? ==> r == PyStr(v.text)
  {
    match v
    case PyDict(fields) => PyDict(map k | k in fields :: Sanitize(fields[k]))
    case PyList(items) => PyList(seq(|items|, i requires 0 <= i < |items| => Sanitize(items[i])))
    case PyFloat(x) => if IsFinite(x) then v else PyNone
    case PyObject(text) => PyStr(text)
    case _ => v
  }

  /** Every entry of a dictionary and every element of a list is sanitised in place. */
  lemma SanitizeComponents(v: Value)
    ensures v.PyDict? ==> forall k :: k in v.fields ==> Sanitize(v).fields[k] == Sanitize(v.fields[k])
    ensures v.PyList? ==> forall i :: 0 <= i < |v.items| ==> Sanitize(v).items[i] == Sanitize(v.items[i])
  {
  }

  /** A value that is already JSON-safe is left exactly as it is. */
  lemma {:induction false} SanitizeKeepsSafe(v: Value)
    requires JsonSafe(v)
    ensures Sanitize(v) == v
  {
    match v
    case PyDict(fields) =>
      forall k | k in fields
        ensures Sanitize(fields[k]) == fields[k]
      {
        SanitizeKeepsSafe(fields[k]);
      }
      assert (map k | k in fields :: Sanitize(fields[k])) == fields;
    case PyList(items) =>
      forall i | 0 <= i < |items|
        ensures Sanitize(items[i]) == items[i]
      {
        SanitizeKeepsSafe(items[i]);
      }
      assert seq(|items|, i requires 0 <= i < |items| => Sanitize(items[i])) == items;
    case _ =>
  }

  /** The values `Sanitize` leaves unchanged are exactly the JSON-safe ones. */
  lemma SanitizeFixedPoints(v: Value)
    ensures Sanitize(v) == v <==> JsonSafe(v)
  {
    if JsonSafe(v) {
      SanitizeKeepsSafe(v);
    }
  }

  /** Sanitising twice gives what sanitising once gives. */
  lemma SanitizeIdempotent(v: Value)
    ensures Sanitize(Sanitize(v)) == Sanitize(v)
  {
    SanitizeKeepsSafe(Sanitize(v));
  }
}
