/**
 * The dynamically typed values the Python code handles: None, integers, floats
 * (modelled as exact reals) and strings, with Python's truthiness and the
 * numeric conversions int() and float().
 */
module Values {
  import opened Wrappers

  datatype Value = PyNone | PyInt(i: int) | PyFloat(x: real) | PyStr(s: string)

  /** Python's bool(v): None, zero and the empty string are false. */
  predicate Truthy(v: Value) {
    match v
    case PyNone => false
    case PyInt(i) => i != 0
    case PyFloat(x) => x != 0.0
    case PyStr(s) => s != []
  }

  /** isinstance(v, (int, float)). */
  predicate IsNumber(v: Value) { v.PyInt? || v.PyFloat? }

  /** Python's int(x) on a float: the integer part, rounding toward zero. */
  function TruncToInt(x: real): (r: int)
    ensures 0.0 <= x ==> r as real <= x < r as real + 1.0
    ensures x < 0.0 ==> r as real - 1.0 < x <= r as real
  {
    if x >= 0.0 then x.Floor else -((-x).Floor)
  }

  /** int(v): numbers convert, everything else raises. */
  function ToInt(v: Value): (r: Option<int>)
    ensures r.Some? <==> IsNumber(v)
    ensures v.PyInt? ==> r == Some(v.i)
    ensures v.PyFloat? ==> r == Some(TruncToInt(v.x))
  {
    match v
    case PyInt(i) => Some(i)
    case PyFloat(x) => Some(TruncToInt(x))
    case _ => None
  }

  /** float(v): numbers convert, everything else raises. */
  function ToFloat(v: Value): (r: Option<real>)
    ensures r.Some? <==> IsNumber(v)
    ensures v.PyInt? ==> r == Some(v.i as real)
    ensures v.PyFloat? ==> r == Some(v.x)
  {
    match v
    case PyInt(i) => Some(i as real)
    case PyFloat(x) => Some(x)
    case _ => None
  }

  /** The integer part of a number is zero exactly when the number is below one in size. */
  lemma TruncZero(x: real)
    ensures TruncToInt(x) == 0 <==> -1.0 < x < 1.0
  {
  }
}
