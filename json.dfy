/** Decoded JSON values and the handful of Python operations the code applies
    to them: truthiness, `dict.get`, subscripting, `in`, `.strip()` and the
    text an f-string makes of a value. A Python dict keeps its keys in
    insertion order, so an object carries that order beside its mapping. */
module Json {
  import opened Text

  datatype Value =
    | Null
    | Bool(b: bool)
    | Num(n: int)
    | Str(s: string)
    | Arr(items: seq<Value>)
    | Obj(keys: seq<string>, fields: map<string, Value>)

  const EmptyDict: Value := Obj([], map[])

  /** Dict displays for the literals the code builds (distinct keys, in order). */
  function Dict1(k: string, v: Value): Value {
    Obj([k], map[k := v])
  }

  function Dict2(k1: string, v1: Value, k2: string, v2: Value): Value
    requires k1 != k2
  {
    Obj([k1, k2], map[k1 := v1, k2 := v2])
  }

  function Dict3(k1: string, v1: Value, k2: string, v2: Value, k3: string, v3: Value): Value
    requires k1 != k2 && k1 != k3 && k2 != k3
  {
    Obj([k1, k2, k3], map[k1 := v1, k2 := v2, k3 := v3])
  }

  /** A Python dict: its order lists each key of its mapping exactly once. */
  predicate IsDict(v: Value) {
    && v.Obj?
    && (forall i, j | 0 <= i < j < |v.keys| :: v.keys[i] != v.keys[j])
    && (forall k | k in v.keys :: k in v.fields)
    && (forall k | k in v.fields :: k in v.keys)
  }

  /** `d[k] = v`: a new key goes to the end, an existing key keeps its place. */
  function Put(d: Value, k: string, v: Value): (r: Value)
    requires IsDict(d)
    ensures IsDict(r) && r.fields == d.fields[k := v]
  {
    if k in d.fields then Obj(d.keys, d.fields[k := v]) else Obj(d.keys + [k], d.fields[k := v])
  }

  // ---------------------------------------------------------------------------
  // Python's exceptions, as far as the model needs their text
  // ---------------------------------------------------------------------------

  datatype PyError =
    | KeyError(shown: string)
    | IndexError(message: string)
    | TypeError(message: string)
    | AttributeError(message: string)

  /** `str(e)` */
  function Describe(e: PyError): string {
    match e
    case KeyError(shown) => shown
    case IndexError(m) => m
    case TypeError(m) => m
    case AttributeError(m) => m
  }

  datatype Result<T> = Ok(value: T) | Err(error: PyError) {
    predicate IsFailure() {
      Err?
    }

    function PropagateFailure<U>(): Result<U>
      requires Err?
    {
      Err(error)
    }

    function Extract(): T
      requires Ok?
    {
      value
    }
  }

  function TypeName(v: Value): string {
    match v
    case Null => "NoneType"
    case Bool(_) => "bool"
    case Num(_) => "int"
    case Str(_) => "str"
    case Arr(_) => "list"
    case Obj(_, _) => "dict"
  }

  function NoAttribute(v: Value, attr: string): PyError {
    AttributeError("'" + TypeName(v) + "' object has no attribute '" + attr + "'")
  }

  // ---------------------------------------------------------------------------
  // Operations
  // ---------------------------------------------------------------------------

  /** `bool(v)` */
  predicate Truthy(v: Value) {
    match v
    case Null => false
    case Bool(b) => b
    case Num(n) => n != 0
    case Str(s) => s != ""
    case Arr(items) => items != []
    case Obj(_, fields) => fields != map[]
  }

  /** `v.get(key, default)`: only a dict has `get`. */
  function Get(v: Value, key: string, default: Value): (r: Result<Value>)
    ensures r.Ok? <==> v.Obj?
    ensures v.Obj? && key in v.fields ==> r.value == v.fields[key]
    ensures v.Obj? && key !in v.fields ==> r.value == default
  {
    if v.Obj? then Ok(if key in v.fields then v.fields[key] else default)
    else Err(NoAttribute(v, "get"))
  }

  datatype Key = Name(name: string) | Pos(index: nat)

  /** `v[k]` */
  function Subscript(v: Value, k: Key): (r: Result<Value>)
    ensures r.Ok? <==> (|| (v.Obj? && k.Name? && k.name in v.fields)
                        || (v.Arr? && k.Pos? && k.index < |v.items|)
                        || (v.Str? && k.Pos? && k.index < |v.s|))
    ensures v.Obj? && k.Name? && k.name in v.fields ==> r == Ok(v.fields[k.name])
    ensures v.Arr? && k.Pos? && k.index < |v.items| ==> r == Ok(v.items[k.index])
  {
    match v
    case Obj(_, fields) =>
      (match k
       case Name(n) => if n in fields then Ok(fields[n]) else Err(KeyError("'" + n + "'"))
       case Pos(i) => Err(KeyError(NatText(i))))
    case Arr(items) =>
      (match k
       case Pos(i) => if i < |items| then Ok(items[i]) else Err(IndexError("list index out of range"))
       case Name(_) => Err(TypeError("list indices must be integers or slices, not str")))
    case Str(s) =>
      (match k
       case Pos(i) => if i < |s| then Ok(Str([s[i]])) else Err(IndexError("string index out of range"))
       case Name(_) => Err(TypeError("string indices must be integers")))
    case _ => Err(TypeError("'" + TypeName(v) + "' object is not subscriptable"))
  }

  /** `key in v` for a string `key`: a dict tests its keys, a list its
      elements, a string its substrings; other values are not containers. */
  function Contains(v: Value, key: string): (r: Result<bool>)
    ensures r.Ok? <==> (v.Obj? || v.Arr? || v.Str?)
    ensures v.Obj? ==> r == Ok(key in v.fields)
    ensures v.Arr? ==> r == Ok(Str(key) in v.items)
    ensures v.Str? ==> r == Ok(exists i :: OccursAt(key, v.s, i))
  {
    match v
    case Obj(_, fields) => Ok(key in fields)
    case Arr(items) => Ok(Str(key) in items)
    case Str(s) => InfixAt(key, s); Ok(IsInfix(key, s))
    case _ => Err(TypeError("argument of type '" + TypeName(v) + "' is not iterable"))
  }

  /** `v.strip()`: only a string has `strip`. */
  function StripValue(v: Value): (r: Result<Value>)
    ensures r.Ok? <==> v.Str?
    ensures v.Str? ==> r == Ok(Str(Strip(v.s)))
  {
    if v.Str? then Ok(Str(Strip(v.s))) else Err(NoAttribute(v, "strip"))
  }

  /** The text `f"{v}"` gives: `str(v)`, which shows nested values with `repr`. */
  function Display(v: Value): string {
    match v
    case Str(s) => s
    case _ => ReprOf(v)
  }

  /** `repr(v)`. Quotes inside strings are not escaped. */
  function ReprOf(v: Value): string
    decreases v
  {
    match v
    case Null => "None"
    case Bool(b) => if b then "True" else "False"
    case Num(n) => IntText(n)
    case Str(s) => "'" + s + "'"
    case Arr(items) => "[" + ReprItems(items) + "]"
    case Obj(keys, fields) => "{" + ReprFields(v, keys) + "}"
  }

  function ReprItems(items: seq<Value>): string
    decreases items
  {
    if items == [] then ""
    else ReprOf(items[0]) + (if |items| > 1 then ", " else "") + ReprItems(items[1..])
  }

  function ReprFields(whole: Value, keys: seq<string>): string
    requires whole.Obj?
    decreases whole, |keys|
  {
    if keys == [] then ""
    else
      var k := keys[0];
      var rest := ReprFields(whole, keys[1..]);
      if k in whole.fields then
        "'" + k + "': " + ReprOf(whole.fields[k]) + (if rest != "" then ", " else "") + rest
      else rest
  }
}
