/** Python values as the OCR engine, `json.load` and the other collaborators hand
    them over, and the handful of built-in operations the pipeline applies to
    them. The duck-typed `isinstance` tests of the source become matches on
    `Value`; an exception that escapes a Python expression becomes `Raises`. */
module PyValue {
  import opened Wrappers
  import Strings

  /** One Python value. There is no numpy array: one the engine hands over is
      represented as a list, although the source's `isinstance(..., list)` tests
      reject a numpy array. Dict keys are strings and the entries keep insertion
      order; a key may appear twice in `entries`, which `json.load` never produces,
      and then lookups see its first entry. */
  datatype Value =
    | PyNone
    | Bool(b: bool)
    | Int(i: int)
    | Float(x: real)
    | Str(s: string)
    | List(items: seq<Value>)
    | Tuple(items: seq<Value>)
    | Dict(entries: seq<(string, Value)>)

  /** The outcome of a piece of Python code: a value, or an exception that escaped. */
  datatype Py<+T> = Ok(value: T) | Raises

  /** Python's truth test (`if v:`, `v or w`). */
  predicate Truthy(v: Value) {
    match v
    case PyNone => false
    case Bool(b) => b
    case Int(i) => i != 0
    case Float(x) => x != 0.0
    case Str(s) => s != ""
    case List(xs) => xs != []
    case Tuple(xs) => xs != []
    case Dict(es) => es != []
  }

  /** Python's `a or b`: the first operand when it is truthy, else the second. */
  function Or(a: Value, b: Value): Value {
    if Truthy(a) then a else b
  }

  /** `isinstance(v, (list, tuple))` */
  predicate IsListOrTuple(v: Value) {
    v.List? || v.Tuple?
  }

  /** `len(v)`; `None` where `len` raises a TypeError. */
  function Len(v: Value): Option<nat> {
    match v
    case Str(s) => Some(|s|)
    case List(xs) => Some(|xs|)
    case Tuple(xs) => Some(|xs|)
    case Dict(es) => Some(|es|)
    case _ => None
  }

  /** `v[i]` for a non-negative integer index. A string gives its one-character
      string; a dict (whose keys are strings) raises KeyError; a number or None
      raises TypeError. */
  function Index(v: Value, i: nat): Py<Value> {
    match v
    case Str(s) => if i < |s| then Ok(Str([s[i]])) else Raises
    case List(xs) => if i < |xs| then Ok(xs[i]) else Raises
    case Tuple(xs) => if i < |xs| then Ok(xs[i]) else Raises
    case _ => Raises
  }

  /** The values `for x in v` visits: the items of a list or tuple, the characters
      of a string, the keys of a dict; other values are not iterable. */
  function Iter(v: Value): Py<seq<Value>> {
    match v
    case Str(s) => Ok(seq(|s|, k requires 0 <= k < |s| => Str([s[k]])))
    case List(xs) => Ok(xs)
    case Tuple(xs) => Ok(xs)
    case Dict(es) => Ok(seq(|es|, k requires 0 <= k < |es| => Str(es[k].0)))
    case _ => Raises
  }

  /** The value stored under `key` in a dict's entries, if any. */
  function Lookup(es: seq<(string, Value)>, key: string): (r: Option<Value>)
    ensures r.Some? <==> exists k :: 0 <= k < |es| && es[k].0 == key
    decreases |es|
  {
    if es == [] then None
    else if es[0].0 == key then Some(es[0].1)
    else Lookup(es[1..], key)
  }

  /** `key in v` for a dict `v`. */
  predicate HasKey(v: Value, key: string) {
    v.Dict? && Lookup(v.entries, key).Some?
  }

  /** `v.get(key, default)`: only dicts have `get` (AttributeError otherwise). */
  function Get(v: Value, key: string, default: Value): Py<Value> {
    if !v.Dict? then Raises
    else match Lookup(v.entries, key)
      case Some(x) => Ok(x)
      case None => Ok(default)
  }

  /** `d.get(key, default)` for a value known to be a dict. */
  function DictGet(d: Value, key: string, default: Value): Value
    requires d.Dict?
  {
    match Lookup(d.entries, key)
    case Some(x) => x
    case None => default
  }

  /** `v[key]` for a string key: KeyError when missing, TypeError unless `v` is a dict. */
  function Subscript(v: Value, key: string): Py<Value> {
    if !v.Dict? then Raises
    else match Lookup(v.entries, key)
      case Some(x) => Ok(x)
      case None => Raises
  }

  /** The value of a number (`float(v)` and the operand of `/` or `<`); `None` where
      the source would raise. Strings count as non-numbers here. */
  function Number(v: Value): Option<real> {
    match v
    case Bool(b) => Some(if b then 1.0 else 0.0)
    case Int(i) => Some(i as real)
    case Float(x) => Some(x)
    case _ => None
  }

  /** The values of a sequence of numbers; `None` when one of them is not a number. */
  function Numbers(vs: seq<Value>): (r: Option<seq<real>>)
    ensures r.Some? <==> forall k :: 0 <= k < |vs| ==> Number(vs[k]).Some?
    ensures r.Some? ==> (|r.value| == |vs| && forall k :: 0 <= k < |vs| ==> r.value[k] == Number(vs[k]).value)
    decreases |vs|
  {
    if vs == [] then Some([])
    else match (Number(vs[0]), Numbers(vs[1..]))
      case (Some(x), Some(xs)) => Some([x] + xs)
      case _ => None
  }

  /** Python's `int(x)` of a float: truncation toward zero. */
  function Trunc(x: real): (n: int)
    ensures 0.0 <= x ==> 0 <= n && n as real <= x < n as real + 1.0
    ensures x < 0.0 ==> n <= 0 && n as real - 1.0 < x <= n as real
  {
    if x >= 0.0 then x.Floor else -((-x).Floor)
  }

  lemma TruncMonotone(x: real, y: real)
    requires x <= y
    ensures Trunc(x) <= Trunc(y)
  {
    if x < 0.0 && y < 0.0 {
      assert (-y).Floor <= (-x).Floor;
    }
  }

  /** `int(n)` of an integral float is `n`. */
  lemma TruncOfInt(n: int)
    ensures Trunc(n as real) == n
  {
  }

  /** Python's `str(v)`. Strings, None, booleans and integers are rendered as Python
      renders them; other kinds by a fixed text naming their kind. */
  function PyStr(v: Value): string {
    match v
    case PyNone => "None"
    case Bool(b) => if b then "True" else "False"
    case Int(i) => Strings.IntToString(i)
    case Float(_) => "<float>"
    case Str(s) => s
    case List(_) => "<list>"
    case Tuple(_) => "<tuple>"
    case Dict(_) => "<dict>"
  }
}
