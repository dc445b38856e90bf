/**
 The values that travel through the adapter: decoded JSON request bodies,
 job events and engine configuration, seen as Python dictionaries with
 string keys. Python's truthiness and `dict.setdefault` are defined here
 once, for both front-ends.
 */
module Values {

  datatype Option<+T> = None | Some(value: T)
  {
    function GetOr(default: T): T
    {
      match this
      case Some(v) => v
      case None => default
    }
  }

  datatype Result<+T, +E> = Ok(value: T) | Err(error: E)
  {
    predicate IsFailure()
    {
      Err?
    }

    function PropagateFailure<U>(): Result<U, E>
      requires Err?
    {
      Err(error)
    }

    function Extract(): T
      requires Ok?
    {
      value
    }
  }

  /** A float, kept as the decimal `digits * 10^exp` it was written as.
      The adapter only defaults and copies floats, never computes with them. */
  datatype Decimal = Decimal(digits: int, exp: int)

  /** A JSON value as Python's `json` module (or pydantic's `model_dump`) produces it. */
  datatype Value =
    | Null
    | Bool(b: bool)
    | Int(i: int)
    | Float(x: Decimal)
    | Str(s: string)
    | List(items: seq<Value>)
    | Dict(entries: Object)

  /** The contents of a JSON object, or of a Python dictionary with string keys. */
  type Object = map<string, Value>

  /** Python's `bool(v)`: None, False, zero, and empty strings, lists and
      dictionaries are false; everything else is true. */
  predicate Truthy(v: Value)
    ensures !Truthy(v) <==>
              || v == Null || v == Bool(false) || v == Int(0) || v == Str("")
              || v == List([]) || v == Dict(map[]) || (v.Float? && v.x.digits == 0)
  {
    match v
    case Null => false
    case Bool(b) => b
    case Int(i) => i != 0
    case Float(x) => x.digits != 0
    case Str(s) => s != ""
    case List(items) => items != []
    case Dict(entries) => entries != map[]
  }

  /** The value bound to `key`, if any. */
  function Lookup(d: Object, key: string): Option<Value>
  {
    if key in d then Some(d[key]) else None
  }

  /** Python's `d.get(key, default)`. */
  function Get(d: Object, key: string, default: Value): Value
  {
    Lookup(d, key).GetOr(default)
  }

  /** The dictionary `d.setdefault(key, default)` leaves behind: `key` is
      bound afterwards, to its old value if it had one, and nothing else moves. */
  function SetDefault(d: Object, key: string, default: Value): (r: Object)
    ensures key in r
    ensures r.Keys == d.Keys + {key}
    ensures key in d ==> r == d
    ensures key !in d ==> r[key] == default
    ensures forall k :: k in d ==> r[k] == d[k]
  {
    if key in d then d else d[key := default]
  }

  /** Applying `setdefault` again, with any default, changes nothing. */
  lemma SetDefaultIdempotent(d: Object, key: string, first: Value, second: Value)
    ensures SetDefault(SetDefault(d, key, first), key, second) == SetDefault(d, key, first)
  {
  }

  /** A chain of `setdefault` calls equals merging the supplied dictionary
      over the defaults: supplied values always win. */
  lemma SetDefaultIsMergeUnder(d: Object, key: string, default: Value)
    ensures SetDefault(d, key, default) == map[key := default] + d
  {
  }
}
