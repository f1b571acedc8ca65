/**
 * Decoded JSON values as the processing code sees them (what `json.load` gives),
 * with Python's subscript, iteration and truthiness on them.
 */
module PyJson {
  /** A decoded JSON value; fractional numbers are not represented. */
  datatype Json =
    | JNull
    | JBool(b: bool)
    | JInt(i: int)
    | JStr(s: string)
    | JList(items: seq<Json>)
    | JObject(fields: map<string, Json>)

  /**
   * The outcome of a Python expression that may raise: a value, a `KeyError`
   * (which the processing loops catch) or a `TypeError` (which they do not).
   */
  datatype PyResult<T> = Ok(value: T) | KeyError | TypeError

  /** `v[key]` with a string key: only a dict can be subscripted by a string. */
  function Get(v: Json, key: string): (r: PyResult<Json>)
    ensures r.Ok? <==> v.JObject? && key in v.fields
    ensures r.Ok? ==> r.value == v.fields[key]
    ensures r.KeyError? <==> v.JObject? && key !in v.fields
  {
    match v
    case JObject(m) => if key in m then Ok(m[key]) else KeyError
    case _ => TypeError
  }

  /** `v[k0][k1]...`: subscripts applied left to right, stopping at the first that raises. */
  function Path(v: Json, keys: seq<string>): (r: PyResult<Json>)
    ensures keys == [] ==> r == Ok(v)
    decreases |keys|
  {
    if keys == [] then Ok(v)
    else match Get(v, keys[0])
      case Ok(w) => Path(w, keys[1..])
      case KeyError => KeyError
      case TypeError => TypeError
  }

  /** Python truthiness. */
  predicate Truthy(v: Json)
  {
    match v
    case JNull => false
    case JBool(b) => b
    case JInt(i) => i != 0
    case JStr(s) => s != ""
    case JList(items) => items != []
    case JObject(m) => m != map[]
  }

  /**
   * The elements a `for` loop over `v` visits, as far as the processing loops
   * can use them. A list gives its items. `None`, a bool and an int are not
   * iterable. A non-empty dict or string gives strings (its keys, its
   * characters), and the first thing the loop body does with an element is
   * subscript it by a string, which raises `TypeError` on a string; the model
   * raises at once. An empty dict or string gives no elements.
   */
  function Iterate(v: Json): (r: PyResult<seq<Json>>)
    ensures !r.KeyError?
    ensures v.JList? ==> r == Ok(v.items)
    ensures v.JNull? || v.JBool? || v.JInt? ==> r.TypeError?
    ensures r.Ok? && r.value != [] ==> v.JList? && r.value == v.items
  {
    match v
    case JList(items) => Ok(items)
    case JObject(m) => if m == map[] then Ok([]) else TypeError
    case JStr(s) => if s == "" then Ok([]) else TypeError
    case _ => TypeError
  }

  /** Following `a + b` is following `a`, then `b` from where `a` led. */
  lemma {:induction false} PathAppend(v: Json, a: seq<string>, b: seq<string>)
    ensures Path(v, a + b) == match Path(v, a)
      case Ok(w) => Path(w, b)
      case KeyError => KeyError
      case TypeError => TypeError
    decreases |a|
  {
    if a == [] {
      assert a + b == b;
    } else {
      assert (a + b)[0] == a[0] && (a + b)[1..] == a[1..] + b;
      match Get(v, a[0])
      case Ok(w) => PathAppend(w, a[1..], b);
      case KeyError =>
      case TypeError =>
    }
  }
}
