/** Decoded JSON values, Python keyword-argument dictionaries, and the exceptions the client raises. */
module Json {
  import opened Strings

  datatype Option<+T> = None | Some(value: T)

  datatype Result<+T> = Success(value: T) | Failure(error: Error) {
    predicate IsFailure() {
      Failure?
    }

    function PropagateFailure<U>(): Result<U>
      requires Failure?
    {
      Failure(error)
    }

    function Extract(): T
      requires Success?
    {
      value
    }
  }

  /** The exceptions of the client: Python's built-in ones it raises or lets escape, and its own. */
  datatype Error =
    | ValueError(message: string)
    | KeyError(key: string)
    | IndexError
    | TypeError(message: string)
    | AssertionError(message: string)
    | AttributeError(message: string)
    | RequestException(status: int)          // retryable transport failure
    | CvaClientError(status: int, text: string)
    | CvaServerError(status: int, text: string)

  /** A decoded JSON document. Objects are Python dicts, compared without regard to key order. */
  datatype Value =
    | Null
    | Bool(b: bool)
    | Num(n: int)
    | Str(s: string)
    | Arr(items: seq<Value>)
    | Obj(fields: map<string, Value>)

  /** Python truthiness: `None`, `False`, `0`, and empty strings, lists and dicts are false. */
  predicate Truthy(v: Value) {
    match v
    case Null => false
    case Bool(b) => b
    case Num(n) => n != 0
    case Str(s) => s != ""
    case Arr(items) => items != []
    case Obj(fields) => fields != map[]
  }

  /** `d.get(k, None)` on a dict. */
  function Member(fields: map<string, Value>, k: string): (v: Value)
    ensures k !in fields ==> v == Null
  {
    if k in fields then fields[k] else Null
  }

  /** The name Python gives the type of a decoded value in its error messages. */
  function TypeName(v: Value): string {
    match v
    case Null => "NoneType"
    case Bool(_) => "bool"
    case Num(_) => "int"
    case Str(_) => "str"
    case Arr(_) => "list"
    case Obj(_) => "dict"
  }

  /** `len(v)`: the size of a string, list or dict; `TypeError` for anything else. */
  function Len(v: Value): (r: Result<nat>)
    ensures r.Success? <==> v.Str? || v.Arr? || v.Obj?
  {
    match v
    case Str(s) => Success(|s|)
    case Arr(items) => Success(|items|)
    case Obj(fields) => Success(|fields|)
    case _ => Failure(TypeError("object of type '" + TypeName(v) + "' has no len()"))
  }

  /** `v[0]`: the first character of a string, the first element of a list; a dict of decoded JSON has
      only string keys, so `0` is never one of them. */
  function First(v: Value): (r: Result<Value>)
    ensures r.Success? <==> (v.Str? && v.s != []) || (v.Arr? && v.items != [])
  {
    match v
    case Str(s) => if s == [] then Failure(IndexError) else Success(Str([s[0]]))
    case Arr(items) => if items == [] then Failure(IndexError) else Success(items[0])
    case Obj(_) => Failure(KeyError("0"))
    case _ => Failure(TypeError("'" + TypeName(v) + "' object is not subscriptable"))
  }

  /** `k in v` for a string `k`: a substring of a string, an element of a list, a key of a dict. */
  function In(k: string, v: Value): (r: Result<bool>)
    ensures r.Success? <==> v.Str? || v.Arr? || v.Obj?
  {
    match v
    case Str(s) => Success(Contains(s, k))
    case Arr(items) => Success(Str(k) in items)
    case Obj(fields) => Success(k in fields)
    case _ => Failure(TypeError("argument of type '" + TypeName(v) + "' is not iterable"))
  }

  /** `v[k]` for a string `k`: only a dict holding `k` answers. */
  function Get(v: Value, k: string): (r: Result<Value>)
    ensures r.Success? <==> v.Obj? && k in v.fields
    ensures r.Success? ==> r.value == v.fields[k]
  {
    match v
    case Obj(fields) => if k in fields then Success(fields[k]) else Failure(KeyError(k))
    case Str(_) => Failure(TypeError("string indices must be integers"))
    case Arr(_) => Failure(TypeError("list indices must be integers or slices, not str"))
    case _ => Failure(TypeError("'" + TypeName(v) + "' object is not subscriptable"))
  }

  /** Python's `repr` of a value inside a container: strings are quoted (escapes are not modelled). */
  function Repr(v: Value): string {
    match v
    case Null => "None"
    case Bool(b) => if b then "True" else "False"
    case Num(n) => IntToString(n)
    case Str(s) => "'" + s + "'"
    case Arr(items) => "[" + ReprItems(items) + "]"
    case Obj(_) => "{...}"
  }

  function ReprItems(items: seq<Value>): string {
    if items == [] then ""
    else if |items| == 1 then Repr(items[0])
    else Repr(items[0]) + ", " + ReprItems(items[1..])
  }

  /** Python's `str` of a value, as `"{}".format(v)` produces it. */
  function Show(v: Value): string {
    if v.Str? then v.s else Repr(v)
  }

  /** A Python dict of keyword arguments, in insertion order. */
  type Params = seq<(string, Value)>

  /** The key `k` is bound in `p`. */
  predicate HasKey(p: Params, k: string) {
    exists i :: 0 <= i < |p| && p[i].0 == k
  }

  /** `p.get(k)`: the value bound to `k`, if any. */
  function Lookup(p: Params, k: string): (r: Option<Value>)
    ensures r.Some? <==> HasKey(p, k)
  {
    if p == [] then None
    else if p[0].0 == k then Some(p[0].1)
    else
      var r := Lookup(p[1..], k);
      assert HasKey(p[1..], k) ==> HasKey(p, k) by {
        if HasKey(p[1..], k) {
          var i :| 0 <= i < |p[1..]| && p[1..][i].0 == k;
          assert p[i + 1].0 == k;
        }
      }
      r
  }

  /** `p.get(k, default)`. */
  function LookupOr(p: Params, k: string, default: Value): Value {
    match Lookup(p, k)
    case Some(v) => v
    case None => default
  }

  /** Python's `p[k] = v`: an existing key keeps its position and takes the new value, a new key goes last. */
  function Assign(p: Params, k: string, v: Value): (r: Params)
    ensures Lookup(r, k) == Some(v)
    ensures forall k' :: k' != k ==> Lookup(r, k') == Lookup(p, k')
    ensures |r| == if HasKey(p, k) then |p| else |p| + 1
  {
    if p == [] then [(k, v)]
    else if p[0].0 == k then
      assert HasKey(p, k) by { assert p[0].0 == k; }
      [(k, v)] + p[1..]
    else
      var r := [p[0]] + Assign(p[1..], k, v);
      assert HasKey(p, k) <==> HasKey(p[1..], k) by {
        if HasKey(p, k) {
          var i :| 0 <= i < |p| && p[i].0 == k;
          assert i > 0 && p[1..][i - 1].0 == k;
        }
        if HasKey(p[1..], k) {
          var i :| 0 <= i < |p[1..]| && p[1..][i].0 == k;
          assert p[i + 1].0 == k;
        }
      }
      r
  }
}
