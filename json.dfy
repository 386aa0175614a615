/**
  The JSON values the server receives and sends, and the few Python built-ins
  the core applies to them: truthiness, `d.get(k, default)`, `x or {}`,
  `len`, `int` and `str`.
*/
module Json {
  import opened Wrappers
  import Text

  /** A decoded JSON value (a Python None, bool, int, float, str, list or dict). */
  datatype Value =
    | Null
    | Bool(b: bool)
    | Int(i: int)
    | Float(r: real)
    | Str(s: string)
    | Arr(items: seq<Value>)
    | Obj(fields: map<string, Value>)

  /** The Python exceptions the modelled code can raise. */
  datatype PyError = AttributeError | TypeError | ValueError

  /** A Python call either returns a value or raises. */
  datatype Result<T> = Ok(value: T) | Raised(error: PyError)

  const EmptyObj: Value := Obj(map[])
  const EmptyArr: Value := Arr([])

  /** `bool(v)`: a container is true exactly when it has a length other than 0. */
  predicate Truthy(v: Value)
    ensures v.Null? ==> !Truthy(v)
    ensures v.Str? || v.Arr? || v.Obj? ==> (Truthy(v) <==> Len(v) != Ok(0))
  {
    match v
    case Null => false
    case Bool(b) => b
    case Int(i) => i != 0
    case Float(r) => r != 0.0
    case Str(s) => s != ""
    case Arr(a) => a != []
    case Obj(f) => f != map[]
  }

  /** `v or {}`: a true value itself, and an empty dict for every false one. */
  function OrEmpty(v: Value): (r: Value)
    ensures Truthy(v) ==> r == v
    ensures !Truthy(v) ==> r == EmptyObj
    ensures r.Obj? <==> v.Obj? || !Truthy(v)
  {
    if Truthy(v) then v else EmptyObj
  }

  /** Looking a key up in a dict with a default. */
  function Lookup(m: map<string, Value>, key: string, default: Value): Value {
    if key in m then m[key] else default
  }

  /** `v.get(key, default)`: only a dict has `get`. */
  function Get(v: Value, key: string, default: Value): (r: Result<Value>)
    ensures r.Ok? <==> v.Obj?
    ensures r.Raised? ==> r.error == AttributeError
    ensures v.Obj? && key in v.fields ==> r == Ok(v.fields[key])
    ensures v.Obj? && key !in v.fields ==> r == Ok(default)
  {
    if v.Obj? then Ok(Lookup(v.fields, key, default)) else Raised(AttributeError)
  }

  /** `len(v)`: defined for str, list and dict. */
  function Len(v: Value): (r: Result<nat>)
    ensures r.Ok? <==> v.Str? || v.Arr? || v.Obj?
    ensures r.Raised? ==> r.error == TypeError
    ensures v.Arr? ==> r == Ok(|v.items|)
  {
    match v
    case Str(s) => Ok(|s|)
    case Arr(a) => Ok(|a|)
    case Obj(f) => Ok(|f|)
    case _ => Raised(TypeError)
  }

  /** `int(x)` for a float: truncation toward zero. */
  function Trunc(x: real): (n: int)
    ensures 0.0 <= x ==> n as real <= x < n as real + 1.0
    ensures x < 0.0 ==> n as real - 1.0 < x <= n as real
  {
    if x >= 0.0 then x.Floor else -((-x).Floor)
  }

  /** `int(v)` */
  function ToInt(v: Value): (r: Result<int>)
    ensures v.Int? ==> r == Ok(v.i)
    ensures v.Null? || v.Arr? || v.Obj? ==> r == Raised(TypeError)
    ensures v.Bool? ==> r == Ok(if v.b then 1 else 0)
    ensures v.Float? ==> r == Ok(Trunc(v.r))
    ensures v.Str? ==> r == (if Text.ParseInt(v.s).Some? then Ok(Text.ParseInt(v.s).value) else Raised(ValueError))
  {
    match v
    case Bool(b) => Ok(if b then 1 else 0)
    case Int(i) => Ok(i)
    case Float(x) => Ok(Trunc(x))
    case Str(s) =>
      (match Text.ParseInt(s)
       case Some(n) => Ok(n)
       case None => Raised(ValueError))
    case _ => Raised(TypeError)
  }

  /**
    `str(v)`. The text Python gives a float, a list or a dict is not part of
    this model; `show` stands for it.
  */
  function PyStr(v: Value, show: Value -> string): (r: string)
    ensures v.Null? ==> r == "None"
    ensures v.Str? ==> r == v.s
    ensures v.Int? ==> Text.ParseInt(r) == Some(v.i)
  {
    Text.ParseShowInt(if v.Int? then v.i else 0);
    match v
    case Null => "None"
    case Bool(b) => if b then "True" else "False"
    case Int(i) => Text.ShowInt(i)
    case Str(s) => s
    case _ => show(v)
  }

  /** `int()` accepts the text `str()` gives an integer, so a JSON number sent as a string is read back. */
  lemma ToIntOfShownInt(n: int)
    ensures ToInt(Str(Text.ShowInt(n))) == Ok(n)
    ensures ToInt(Str(PyStr(Int(n), (v: Value) => ""))) == Ok(n)
  {
    Text.ParseShowInt(n);
  }
}
