/**
 * The dynamically typed values that travel through the system: decoded JSON
 * bodies and JWT payloads, form fields, keyword arguments of the worker's
 * dataclasses and the dictionaries of the generated client models.
 */
module Values {
  import opened Wrappers
  import opened Strings

  newtype byte = x: int | 0 <= x < 256

  /**
   * A Python value as far as the system inspects it. Dictionaries are keyed by
   * strings (every dictionary in the system comes from JSON, a form or keyword
   * arguments); Python compares dictionaries without regard to order, so a map
   * is faithful.
   */
  datatype Value =
    | PyNone
    | PyBool(b: bool)
    | PyInt(i: int)
    | PyStr(s: string)
    | PyBytes(bytes: seq<byte>)
    | PyList(items: seq<Value>)
    | PyDict(entries: map<string, Value>)
    | PyTuple(elems: seq<Value>)

  /** `isinstance(v, int)`: `bool` is a subclass of `int`. */
  function AsInt(v: Value): (r: Option<int>)
    ensures r.Some? <==> (v.PyInt? || v.PyBool?)
    ensures v.PyInt? ==> r == Some(v.i)
  {
    match v
    case PyInt(i) => Some(i)
    case PyBool(b) => Some(if b then 1 else 0)
    case _ => None
  }

  /** Python truthiness (`if v:` / `not v`). */
  predicate Truthy(v: Value) {
    match v
    case PyNone => false
    case PyBool(b) => b
    case PyInt(i) => i != 0
    case PyStr(s) => s != ""
    case PyBytes(bs) => bs != []
    case PyList(xs) => xs != []
    case PyDict(m) => m != map[]
    case PyTuple(xs) => xs != []
  }

  /** `len(v)`: defined for strings, bytes and containers; a TypeError otherwise. */
  function Len(v: Value): (r: Option<nat>)
    ensures r.None? <==> (v.PyNone? || v.PyBool? || v.PyInt?)
    ensures v.PyStr? ==> r == Some(|v.s|)
  {
    match v
    case PyStr(s) => Some(|s|)
    case PyBytes(bs) => Some(|bs|)
    case PyList(xs) => Some(|xs|)
    case PyDict(m) => Some(|m|)
    case PyTuple(xs) => Some(|xs|)
    case _ => None
  }

  /**
   * `str(v)`. Strings, integers, booleans and None are rendered exactly; the
   * text of a container or of bytes is represented by a fixed marker, since no
   * decision of the system depends on it.
   */
  function Str(v: Value): (r: string)
    ensures v.PyStr? ==> r == v.s
    ensures v.PyInt? ==> ParseInt(r) == Ok(v.i)
  {
    match v
    case PyNone => "None"
    case PyBool(b) => if b then "True" else "False"
    case PyInt(i) => ParseIntOfInt(i); IntToString(i)
    case PyStr(s) => s
    case PyBytes(_) => "<bytes>"
    case PyList(_) => "<list>"
    case PyDict(_) => "<dict>"
    case PyTuple(_) => "<tuple>"
  }

  /** `d.get(k)`: `None` when the key is absent. */
  function Get(d: map<string, Value>, k: string): (r: Value)
    ensures k !in d ==> r == PyNone
    ensures k in d ==> r == d[k]
  {
    if k in d then d[k] else PyNone
  }

  /** `d.get(k, default)`. */
  function GetOr(d: map<string, Value>, k: string, default: Value): (r: Value)
    ensures k !in d ==> r == default
    ensures k in d ==> r == d[k]
  {
    if k in d then d[k] else default
  }

  /** What `json.dumps` accepts: everything but bytes (a tuple is written as an array). */
  predicate Serializable(v: Value) {
    match v
    case PyBytes(_) => false
    case PyList(xs) => forall x :: x in xs ==> Serializable(x)
    case PyTuple(xs) => forall x :: x in xs ==> Serializable(x)
    case PyDict(m) => forall k :: k in m ==> Serializable(m[k])
    case _ => true
  }

  /** A value that `json.loads` can give back: no bytes and no tuples. */
  predicate IsJson(v: Value) {
    match v
    case PyBytes(_) => false
    case PyTuple(_) => false
    case PyList(xs) => forall x :: x in xs ==> IsJson(x)
    case PyDict(m) => forall k :: k in m ==> IsJson(m[k])
    case _ => true
  }
}
