/**
 * The Python runtime values that the chat client passes around: decoded JSON
 * (configuration files, saved tabs, SDK responses converted with `to_dict()`)
 * and SDK objects read through their attributes.  Truthiness, subscripting
 * and the exceptions the client can raise are written out explicitly here,
 * because the client's logic depends on them.
 */
module PyValues {

  /** The Python exceptions the modelled code can raise. */
  datatype PyError = IndexError | KeyError | TypeError | ValueError | AttributeError

  /** An outcome that is either a value or a raised exception. */
  datatype Result<+T> = Ok(value: T) | Err(error: PyError) {
    predicate IsFailure() { Err? }
    function PropagateFailure<U>(): Result<U> requires Err? { Err(error) }
    function Extract(): T requires Ok? { value }
  }

  datatype Option<+T> = Nothing | Some(value: T)

  /** Dictionary keys: the strings of JSON objects, and integers. */
  datatype Key = StrKey(s: string) | IntKey(i: int)

  /**
   * A Python value.  `Obj` is an object of some class whose attributes
   * (including dunder attributes such as `__iter__`) are given by `attrs`.
   */
  datatype Value =
    | None
    | Bool(b: bool)
    | Int(i: int)
    | Str(s: string)
    | List(items: seq<Value>)
    | Tuple(items: seq<Value>)
    | Dict(entries: map<Key, Value>)
    | Obj(attrs: map<string, Value>)

  /** `type(v)` */
  datatype PyType = NoneType | BoolType | IntType | StrType | ListType | TupleType | DictType | ObjectType

  function TypeOf(v: Value): PyType
  {
    match v
    case None => NoneType
    case Bool(_) => BoolType
    case Int(_) => IntType
    case Str(_) => StrType
    case List(_) => ListType
    case Tuple(_) => TupleType
    case Dict(_) => DictType
    case Obj(_) => ObjectType
  }

  /** `bool(v)`: empty containers, zero, the empty string, False and None are falsy. */
  predicate Truthy(v: Value)
  {
    match v
    case None => false
    case Bool(b) => b
    case Int(i) => i != 0
    case Str(s) => s != []
    case List(xs) => xs != []
    case Tuple(xs) => xs != []
    case Dict(m) => m != map[]
    case Obj(_) => true
  }

  /** `v[i]` for a non-negative integer index `i`. */
  function Subscript(v: Value, i: nat): (r: Result<Value>)
    ensures (v.List? || v.Tuple?) ==> r == (if i < |v.items| then Ok(v.items[i]) else Err(IndexError))
    ensures v.Str? ==> r == (if i < |v.s| then Ok(Str([v.s[i]])) else Err(IndexError))
    ensures v.Dict? ==> r == (if IntKey(i) in v.entries then Ok(v.entries[IntKey(i)]) else Err(KeyError))
    ensures r.Err? && r.error == TypeError <==> !(v.List? || v.Tuple? || v.Str? || v.Dict?)
  {
    match v
    case List(xs) => if i < |xs| then Ok(xs[i]) else Err(IndexError)
    case Tuple(xs) => if i < |xs| then Ok(xs[i]) else Err(IndexError)
    case Str(s) => if i < |s| then Ok(Str([s[i]])) else Err(IndexError)
    case Dict(m) => if IntKey(i) in m then Ok(m[IntKey(i)]) else Err(KeyError)
    case _ => Err(TypeError)
  }

  /** `v[key]` for a string key: only a dictionary accepts it. */
  function GetItem(v: Value, key: string): (r: Result<Value>)
    ensures r.Ok? <==> v.Dict? && StrKey(key) in v.entries
    ensures r.Ok? ==> r.value == v.entries[StrKey(key)]
    ensures r.Err? ==> r.error == (if v.Dict? then KeyError else TypeError)
  {
    if v.Dict? then
      if StrKey(key) in v.entries then Ok(v.entries[StrKey(key)]) else Err(KeyError)
    else Err(TypeError)
  }

  /** `d.get(key, default)` on a dictionary with string keys. */
  function Get(d: map<string, Value>, key: string, default: Value): Value
  {
    if key in d then d[key] else default
  }

  /** The dictionary built by a literal `{k1: v1, k2: v2}` with string keys. */
  function Pair(k1: string, v1: Value, k2: string, v2: Value): (d: Value)
    requires k1 != k2
    ensures d.Dict? && d.entries.Keys == {StrKey(k1), StrKey(k2)}
    ensures d.entries[StrKey(k1)] == v1 && d.entries[StrKey(k2)] == v2
  {
    Dict(map[StrKey(k1) := v1, StrKey(k2) := v2])
  }

  /** A list of strings, as JSON stores `["Tab 1", "Tab 2"]`. */
  function StrList(names: seq<string>): (v: Value)
    ensures v.List? && |v.items| == |names|
    ensures forall i :: 0 <= i < |names| ==> v.items[i] == Str(names[i])
  {
    List(seq(|names|, i requires 0 <= i < |names| => Str(names[i])))
  }
}
