/**
 * The Python values and built-in operations the advisor's layers rely on:
 * JSON-shaped values, Python exceptions as failure values, and the
 * behaviour of `in`, `[...]`, `.get`, `len`, `float` and `int` on them
 * (including the exceptions they raise on the wrong kind of value).
 */
module Python {

  datatype Option<+T> = None | Some(value: T)

  /** A value or the exception that interrupted its computation. */
  datatype Result<+T, +E> = Ok(value: T) | Err(error: E) {
    predicate IsFailure() { Err? }
    function PropagateFailure<U>(): Result<U, E>
      requires Err?
    {
      Err(error)
    }
    function Extract(): T
      requires Ok?
    {
      value
    }
  }

  /**
   * A decoded JSON value as Python holds it. `JInf` is `float('inf')`,
   * which the preference defaults use and which Python's JSON reader admits.
   */
  datatype Json =
    | JNull
    | JBool(b: bool)
    | JInt(i: int)
    | JFloat(r: real)
    | JInf
    | JStr(s: string)
    | JArr(items: seq<Json>)
    | JObj(fields: map<string, Json>)

  /** The Python exceptions the modelled code can raise. */
  datatype Failure =
    | KeyError(key: string)
    | AttributeError(typeName: string, attr: string)
    | NotContainer(typeName: string)          // `k in v` on a non-container
    | NotIterable(typeName: string)           // `for x in v` on a non-iterable
    | NotSubscriptable(typeName: string)
    | StrIndices                              // `"abc"["k"]`
    | ListIndices                             // `[1]["k"]`
    | NoLen(typeName: string)
    | FloatArg(typeName: string)
    | FloatLiteral(text: string)
    | IntArg(typeName: string)
    | IntLiteral(text: string)
    | InfToInt
    | Unordered(op: string, left: string, right: string)
    | BadOperand(left: string, right: string)
    | NoneFormat
    | DecodeError(message: string)            // json.JSONDecodeError
    | RemoteError(message: string)            // anything raised by the tool session

  function Quote(s: string): string { "'" + s + "'" }

  /** `str(e)` for each exception, in the wording of CPython 3.11. */
  function ErrorText(f: Failure): string {
    match f
    case KeyError(k) => Quote(k)
    case AttributeError(t, a) => Quote(t) + " object has no attribute " + Quote(a)
    case NotContainer(t) => "argument of type " + Quote(t) + " is not iterable"
    case NotIterable(t) => Quote(t) + " object is not iterable"
    case NotSubscriptable(t) => Quote(t) + " object is not subscriptable"
    case StrIndices => "string indices must be integers, not 'str'"
    case ListIndices => "list indices must be integers or slices, not str"
    case NoLen(t) => "object of type " + Quote(t) + " has no len()"
    case FloatArg(t) => "float() argument must be a string or a real number, not " + Quote(t)
    case FloatLiteral(s) => "could not convert string to float: " + Quote(s)
    case IntArg(t) => "int() argument must be a string, a bytes-like object or a real number, not " + Quote(t)
    case IntLiteral(s) => "invalid literal for int() with base 10: " + Quote(s)
    case InfToInt => "cannot convert float infinity to integer"
    case Unordered(op, l, r) => Quote(op) + " not supported between instances of " + Quote(l) + " and " + Quote(r)
    case BadOperand(l, r) => "unsupported operand type(s) for +: " + Quote(l) + " and " + Quote(r)
    case NoneFormat => "unsupported format string passed to NoneType.__format__"
    case DecodeError(m) => m
    case RemoteError(m) => m
  }

  /** The dict `{"error": str(e)}` that every layer returns for a caught exception. */
  function ErrorObject(f: Failure): (r: Json)
    ensures r.JObj? && r.fields.Keys == {"error"}
    ensures r.fields["error"] == JStr(ErrorText(f))
  {
    JObj(map["error" := JStr(ErrorText(f))])
  }

  function TypeName(v: Json): string {
    match v
    case JNull => "NoneType"
    case JBool(_) => "bool"
    case JInt(_) => "int"
    case JFloat(_) => "float"
    case JInf => "float"
    case JStr(_) => "str"
    case JArr(_) => "list"
    case JObj(_) => "dict"
  }

  /** Python truthiness. */
  predicate Truthy(v: Json) {
    match v
    case JNull => false
    case JBool(b) => b
    case JInt(i) => i != 0
    case JFloat(r) => r != 0.0
    case JInf => true
    case JStr(s) => s != ""
    case JArr(xs) => xs != []
    case JObj(m) => m != map[]
  }

  predicate IsPrefix(p: string, s: string) {
    |p| <= |s| && s[..|p|] == p
  }

  /** `sub in s` for strings. */
  predicate HasSubstring(s: string, sub: string) {
    exists i :: 0 <= i <= |s| - |sub| && IsPrefix(sub, s[i..])
  }

  /** `key in v`: a key test on a dict, an element test on a list, a substring test on a string. */
  function Contains(v: Json, key: string): (r: Result<bool, Failure>)
    ensures v.JObj? ==> r == Ok(key in v.fields)
    ensures r.Err? <==> !(v.JObj? || v.JArr? || v.JStr?)
  {
    match v
    case JObj(m) => Ok(key in m)
    case JArr(xs) => Ok(JStr(key) in xs)
    case JStr(s) => Ok(HasSubstring(s, key))
    case _ => Err(NotContainer(TypeName(v)))
  }

  /** The values `in` accepts on its right. */
  predicate IsContainer(v: Json) { v.JObj? || v.JArr? || v.JStr? }

  /** `key in v` on a value already known to accept it. */
  function In(v: Json, key: string): (r: bool)
    requires IsContainer(v)
    ensures Contains(v, key) == Ok(r)
  {
    Contains(v, key).value
  }

  /** `v[key]` with a string key. */
  function Subscript(v: Json, key: string): (r: Result<Json, Failure>)
    ensures r.Ok? <==> v.JObj? && key in v.fields
    ensures r.Ok? ==> r.value == v.fields[key]
  {
    match v
    case JObj(m) => if key in m then Ok(m[key]) else Err(KeyError(key))
    case JArr(_) => Err(ListIndices)
    case JStr(_) => Err(StrIndices)
    case _ => Err(NotSubscriptable(TypeName(v)))
  }

  /** The dict behind `v.get(...)`; any other value has no `get` attribute. */
  function AsDict(v: Json): (r: Result<map<string, Json>, Failure>)
    ensures r.Ok? <==> v.JObj?
    ensures r.Ok? ==> r.value == v.fields
    ensures r.Err? ==> r.error == AttributeError(TypeName(v), "get")
  {
    if v.JObj? then Ok(v.fields) else Err(AttributeError(TypeName(v), "get"))
  }

  /** `d.get(key, default)` on a dict. */
  function Get(m: map<string, Json>, key: string, default: Json): (r: Json)
    ensures key in m ==> r == m[key]
    ensures key !in m ==> r == default
  {
    if key in m then m[key] else default
  }

  /** `d[key]` on a dict. */
  function Lookup(m: map<string, Json>, key: string): (r: Result<Json, Failure>)
    ensures r.Ok? <==> key in m
    ensures r.Ok? ==> r.value == m[key]
  {
    if key in m then Ok(m[key]) else Err(KeyError(key))
  }

  /** `len(v)`. */
  function PyLen(v: Json): (r: Result<nat, Failure>)
    ensures r.Ok? <==> v.JStr? || v.JArr? || v.JObj?
    ensures v.JArr? ==> r == Ok(|v.items|)
  {
    match v
    case JStr(s) => Ok(|s|)
    case JArr(xs) => Ok(|xs|)
    case JObj(m) => Ok(|m|)
    case _ => Err(NoLen(TypeName(v)))
  }

  /** A Python number (bool counts as 0 or 1), as far as comparisons see it. */
  datatype Num = Fin(r: real) | Inf

  function AsNum(v: Json): (r: Option<Num>)
    ensures r.Some? <==> v.JInt? || v.JFloat? || v.JInf? || v.JBool?
  {
    match v
    case JInt(i) => Some(Fin(i as real))
    case JFloat(x) => Some(Fin(x))
    case JInf => Some(Inf)
    case JBool(b) => Some(Fin(if b then 1.0 else 0.0))
    case _ => None
  }

  predicate Above(n: Num, t: real) { n.Inf? || n.r > t }
  predicate AtLeast(n: Num, t: real) { n.Inf? || n.r >= t }
  predicate Below(n: Num, t: real) { n.Fin? && n.r < t }

  /** `abs(n) < t` */
  predicate AbsBelow(n: Num, t: real) { n.Fin? && -t < n.r < t }

  /** Python's `==` between two numbers (`0 == 0.0 == False`). */
  predicate NumEq(a: Json, b: Json) {
    AsNum(a).Some? && AsNum(a) == AsNum(b)
  }

  /** Truncation towards zero, as `int(x)` does for a float. */
  function Trunc(r: real): (n: int)
    ensures r >= 0.0 ==> n == r.Floor
    ensures r < 0.0 ==> n == -((-r).Floor)
  {
    if r >= 0.0 then r.Floor else -((-r).Floor)
  }

  /** `float(v)`; `parseFloat` is CPython's reading of a numeric string (`"inf"` included). */
  function PyFloat(v: Json, parseFloat: string -> Option<Num>): (r: Result<Json, Failure>)
    ensures r.Ok? ==> r.value.JFloat? || r.value.JInf?
    ensures AsNum(v).Some? ==> r.Ok? && NumEq(r.value, v)
    ensures v.JNull? || v.JArr? || v.JObj? ==> r == Err(FloatArg(TypeName(v)))
  {
    match v
    case JInt(i) => Ok(JFloat(i as real))
    case JFloat(_) => Ok(v)
    case JInf => Ok(v)
    case JBool(b) => Ok(JFloat(if b then 1.0 else 0.0))
    case JStr(s) =>
      (match parseFloat(s)
       case Some(Fin(x)) => Ok(JFloat(x))
       case Some(Inf) => Ok(JInf)
       case None => Err(FloatLiteral(s)))
    case _ => Err(FloatArg(TypeName(v)))
  }

  /** `int(v)`; `parseInt` is CPython's reading of an integer literal. */
  function PyInt(v: Json, parseInt: string -> Option<int>): (r: Result<Json, Failure>)
    ensures r.Ok? ==> r.value.JInt?
    ensures v.JInt? ==> r == Ok(v)
    ensures v.JInf? ==> r == Err(InfToInt)
    ensures v.JNull? || v.JArr? || v.JObj? ==> r == Err(IntArg(TypeName(v)))
  {
    match v
    case JInt(_) => Ok(v)
    case JFloat(x) => Ok(JInt(Trunc(x)))
    case JInf => Err(InfToInt)
    case JBool(b) => Ok(JInt(if b then 1 else 0))
    case JStr(s) =>
      (match parseInt(s)
       case Some(n) => Ok(JInt(n))
       case None => Err(IntLiteral(s)))
    case _ => Err(IntArg(TypeName(v)))
  }

  function DigitChar(d: nat): char
    requires d < 10
  {
    "0123456789"[d]
  }

  predicate IsDigit(c: char) { '0' <= c <= '9' }

  /** `str(n)` for a natural number. */
  function NatToString(n: nat): (s: string)
    ensures |s| >= 1
    ensures forall i :: 0 <= i < |s| ==> IsDigit(s[i])
  {
    if n < 10 then [DigitChar(n)] else NatToString(n / 10) + [DigitChar(n % 10)]
  }
}
