/** Python values as they flow through the audit pipeline: JSON-shaped data,
    dictionaries keyed by strings, and the truthiness rules Python applies to
    them. Every dictionary of the pipeline (the graph state, rated data, parcel
    characteristics, node updates) is an `Object`. */
module Values {

  datatype Value =
    | Null
    | Bool(b: bool)
    | Int(i: int)
    | Float(r: real)
    | Str(s: string)
    | List(items: seq<Value>)
    | Dict(entries: map<string, Value>)

  type Object = map<string, Value>

  /** Python's `bool(v)`: None, False, zero and empty containers are false. */
  predicate Truthy(v: Value) {
    match v
    case Null => false
    case Bool(b) => b
    case Int(i) => i != 0
    case Float(r) => r != 0.0
    case Str(s) => s != []
    case List(xs) => xs != []
    case Dict(m) => m != map[]
  }

  /** `d.get(k, default)`: the default is used only when the key is absent. */
  function GetOr(d: Object, k: string, default: Value): Value {
    if k in d then d[k] else default
  }

  /** `d.get(k)`: an absent key reads as None. */
  function Get(d: Object, k: string): Value {
    GetOr(d, k, Null)
  }

  /** Python's `a or b`. */
  function Or(a: Value, b: Value): Value {
    if Truthy(a) then a else b
  }

  /** A value that `v or {}` turns into a dictionary without raising on the
      next `.get`: a falsy value or a dictionary. */
  predicate DictLike(v: Value) {
    !Truthy(v) || v.Dict?
  }

  /** `v or {}` for a dictionary-like value. */
  function AsDict(v: Value): Object
    requires DictLike(v)
  {
    if v.Dict? then v.entries else map[]
  }

  /** Values on which `len()` is defined. */
  predicate HasLen(v: Value) {
    v.Str? || v.List? || v.Dict?
  }

  /** Values on which `v[:n]` is defined. */
  predicate Sliceable(v: Value) {
    v.Str? || v.List?
  }

  /** Python's `str(v)`. Strings, None and booleans are spelled out; numbers,
      lists and dictionaries go through `render`, the interpreter's own
      formatting, which this model does not reproduce. */
  function PyStr(render: Value -> string, v: Value): string {
    match v
    case Str(s) => s
    case Null => "None"
    case Bool(b) => if b then "True" else "False"
    case _ => render(v)
  }

  /** A list of strings as a Python list value. */
  function StrList(xs: seq<string>): (v: Value)
    ensures v.List? && |v.items| == |xs|
    ensures forall i :: 0 <= i < |xs| ==> v.items[i] == Str(xs[i])
  {
    if xs == [] then List([]) else List([Str(xs[0])] + StrList(xs[1..]).items)
  }

  /** A Python value that is a list whose elements are all strings. */
  predicate IsStrList(v: Value) {
    v.List? && forall i :: 0 <= i < |v.items| ==> v.items[i].Str?
  }

  /** Outcome of a call into code outside the model (the data service, a
      language model): a value, or the exception it raised. */
  datatype Attempt<+T> = Returned(value: T) | Threw(kind: string, message: string)

  /** Outcome of a modelled Python function: a value, or the kind of the
      exception that escapes it (`AttributeError`, `TypeError`, ...). */
  datatype Result<+T> = Ok(value: T) | Raised(kind: string) {
    predicate IsFailure() {
      Raised?
    }

    function PropagateFailure<U>(): Result<U>
      requires Raised?
    {
      Raised(kind)
    }

    function Extract(): T
      requires Ok?
    {
      value
    }
  }

  datatype Option<+T> = None | Some(value: T)

  /** Python's `v + 1`: booleans count as 0 and 1, floats stay floats, and
      anything else raises `TypeError`. */
  function Increment(v: Value): (r: Result<Value>)
    ensures r.Ok? <==> v.Int? || v.Bool? || v.Float?
    ensures v.Int? ==> r == Ok(Int(v.i + 1))
  {
    match v
    case Int(i) => Ok(Int(i + 1))
    case Bool(b) => Ok(Int(if b then 2 else 1))
    case Float(x) => Ok(Float(x + 1.0))
    case _ => Raised("TypeError")
  }

  /** Python's `v >= n` for an integer `n`: numbers compare by value, and
      anything else raises `TypeError`. */
  function AtLeast(v: Value, n: int): (r: Result<bool>)
    ensures r.Ok? <==> v.Int? || v.Bool? || v.Float?
    ensures v.Int? ==> r == Ok(v.i >= n)
  {
    match v
    case Int(i) => Ok(i >= n)
    case Bool(b) => Ok((if b then 1 else 0) >= n)
    case Float(x) => Ok(x >= n as real)
    case _ => Raised("TypeError")
  }
}
