/**
 * Values shared by every module of the model: optional values, the Python
 * exceptions the system raises or catches (as data), and the Python values
 * that travel through dictionaries, lists and objects.
 */
module Base {

  datatype Option<+T> = None | Some(value: T)

  /** The exception classes the modelled code raises or catches, with their message text. */
  datatype Error =
    | ValueError(msg: string)
    | RuntimeError(msg: string)
    | TypeError(msg: string)
    | AttributeError(msg: string)
    | Failure(msg: string)  // any other exception raised by a collaborator outside the model

  /** The message `str(e)` of an exception. */
  function Message(e: Error): string
  {
    e.msg
  }

  datatype Result<+T> = Ok(value: T) | Err(error: Error)

  /** A Python value as the modelled code inspects it. */
  datatype Value =
    | PyNone
    | PyBool(b: bool)
    | PyNum(n: real)
    | PyStr(s: string)
    | PyList(items: seq<Value>)
    | PyDict(fields: map<string, Value>)
    | PyObject(attrs: map<string, Value>)  // an instance: its attributes by name

  /** `len(v)`: the size of a string, list or dictionary; any other value raises TypeError. */
  function Len(v: Value): (r: Result<nat>)
    ensures r.Ok? <==> (v.PyStr? || v.PyList? || v.PyDict?)
    ensures v.PyList? ==> r == Ok(|v.items|)
    ensures v.PyStr? ==> r == Ok(|v.s|)
  {
    match v
    case PyStr(s) => Ok(|s|)
    case PyList(items) => Ok(|items|)
    case PyDict(fields) => Ok(|fields|)
    case _ => Err(TypeError("object has no len()"))
  }

  /** `d.get(key, default)` on a dictionary. */
  function Get(d: map<string, Value>, key: string, default: Value): (r: Value)
    ensures key in d ==> r == d[key]
    ensures key !in d ==> r == default
  {
    if key in d then d[key] else default
  }

  /** `getattr(v, name, default)`: only objects carry attributes in this model. */
  function GetAttr(v: Value, name: string, default: Value): (r: Value)
    ensures v.PyObject? && name in v.attrs ==> r == v.attrs[name]
    ensures !(v.PyObject? && name in v.attrs) ==> r == default
  {
    if v.PyObject? && name in v.attrs then v.attrs[name] else default
  }

  /** Two scores mixed with a weight each: `a * x + b * y`. */
  function Weighted(a: real, x: real, b: real, y: real): real
  {
    a * x + b * y
  }

  /**
   * A weighted sum of two scores in [0, 1], with non-negative weights that
   * sum to at most 1, lies in [0, 1].
   */
  lemma WeightedInUnitRange(a: real, x: real, b: real, y: real)
    requires 0.0 <= a && 0.0 <= b && a + b <= 1.0
    requires 0.0 <= x <= 1.0 && 0.0 <= y <= 1.0
    ensures 0.0 <= a * x + b * y <= 1.0
    ensures 0.0 <= Weighted(a, x, b, y) <= 1.0
  {
    MulNonneg(a, x);
    MulNonneg(b, y);
    MulAtMost(a, x);
    MulAtMost(b, y);
    AddBounds(a * x, a, b * y, b);
  }

  lemma AddBounds(p: real, a: real, q: real, b: real)
    requires 0.0 <= p <= a && 0.0 <= q <= b
    ensures 0.0 <= p + q <= a + b
  {
  }

  lemma MulAtMost(a: real, x: real)
    requires 0.0 <= a && x <= 1.0
    ensures a * x <= a
  {
    MulNonneg(a, 1.0 - x);
  }

  lemma MulNonneg(a: real, b: real)
    requires 0.0 <= a && 0.0 <= b
    ensures 0.0 <= a * b
  {
  }

  /** No string occurs twice. */
  predicate Distinct(xs: seq<string>)
  {
    forall i, j :: 0 <= i < j < |xs| ==> xs[i] != xs[j]
  }

  /** A list of distinct strings has as many members as entries. */
  lemma {:induction false} DistinctCard(xs: seq<string>)
    requires Distinct(xs)
    ensures |set x | x in xs| == |xs|
  {
    if xs != [] {
      var rest := xs[1..];
      DistinctCard(rest);
      assert (set x | x in xs) == {xs[0]} + (set x | x in rest);
      assert xs[0] !in rest;
    }
  }

  /** A Python dictionary: its keys in insertion order, and the value of each key. */
  datatype Dict<V> = Dict(keys: seq<string>, vals: map<string, V>)

  ghost predicate WellFormed<V>(d: Dict<V>)
  {
    && (forall i, j :: 0 <= i < j < |d.keys| ==> d.keys[i] != d.keys[j])
    && (forall k :: k in d.vals <==> k in d.keys)
  }

  /** `d[k] = v`: a new key goes last, a key already present keeps its place. */
  function Put<V>(d: Dict<V>, k: string, v: V): Dict<V>
  {
    Dict(if k in d.vals then d.keys else d.keys + [k], d.vals[k := v])
  }
}
