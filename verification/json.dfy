/** JavaScript values as they arrive in request bodies and realtime rows,
    with the three ways the application reads them: optional chaining
    (`a?.b`), plain property access (`a.b`, which throws on `null` and
    `undefined`), and the `||` fallback driven by truthiness. */
module Json {
  import opened Wrappers
  import Text

  /** A parsed JSON value. Numbers are restricted to integers. */
  datatype Value =
    | Null
    | Bool(b: bool)
    | Num(n: int)
    | Str(s: string)
    | Arr(items: seq<Value>)
    | Obj(fields: map<string, Value>)

  /** The result of reading a property: `None` is `undefined`. */
  type Field = Option<Value>

  predicate Nullish(f: Field) {
    f.None? || f.value.Null?
  }

  /** JavaScript truthiness: `undefined`, `null`, `false`, `0` and `""`
      are falsy; every array and object is truthy. */
  predicate Truthy(f: Field) {
    match f
    case None => false
    case Some(v) =>
      match v
      case Null => false
      case Bool(b) => b
      case Num(n) => n != 0
      case Str(s) => s != ""
      case Arr(_) => true
      case Obj(_) => true
  }

  /** `a || b`. */
  function Or(a: Field, b: Field): Field {
    if Truthy(a) then a else b
  }

  /** `a || b` where `b` is a literal, so the result is always defined. */
  function OrElse(a: Field, b: Value): Value {
    if Truthy(a) then a.value else b
  }

  /** `r` is what `f || d` gives: the field's own value when it is truthy,
      the default `d` for any falsy or missing value. */
  predicate Defaulted(r: Value, f: Field, d: Value) {
    && (Truthy(f) ==> r == f.value)
    && (!Truthy(f) ==> r == d)
  }

  /** `f?.key`: the property when `f` is an object that has it, else
      `undefined`. */
  function Get(f: Field, key: string): Field {
    if f.Some? && f.value.Obj? && key in f.value.fields then Some(f.value.fields[key]) else None
  }

  /** The message of the TypeError thrown by `f.key` when `f` is nullish. */
  function CannotRead(f: Field, key: string): string {
    "Cannot read properties of " + (if f.None? then "undefined" else "null") + " (reading '" + key + "')"
  }

  /** `f.key`: throws on `null` and `undefined`, else behaves as `f?.key`. */
  function Read(f: Field, key: string): (r: Result<Field, string>)
    ensures r.Failure? <==> Nullish(f)
    ensures r.Success? ==> r.value == Get(f, key)
  {
    if Nullish(f) then Failure(CannotRead(f, key)) else Success(Get(f, key))
  }

  /** The elements `f?.length > 0` and `f.map` see when `f` is an array;
      any other value is read as holding none. */
  function Elements(f: Field): seq<Value> {
    if f.Some? && f.value.Arr? then f.value.items else []
  }

  /** `String(v)`, as a template literal renders a value. */
  function Display(f: Field): string {
    match f
    case None => "undefined"
    case Some(v) => DisplayValue(v)
  }

  function DisplayValue(v: Value): string
    decreases v
  {
    match v
    case Null => "null"
    case Bool(b) => if b then "true" else "false"
    case Num(n) => Text.IntToString(n)
    case Str(s) => s
    case Arr(items) =>
      // Array.prototype.join renders null elements as the empty string.
      Text.Join(seq(|items|, i requires 0 <= i < |items| =>
        if items[i].Null? then "" else DisplayValue(items[i])), ',')
    case Obj(_) => "[object Object]"
  }

  /** `items.map(build)`: the first element whose callback throws aborts
      the whole map. */
  function MapAll<T>(items: seq<Value>, build: Value -> Result<T, string>): (r: Result<seq<T>, string>)
    ensures r.Success? ==> |r.value| == |items|
    ensures r.Success? ==> forall i :: 0 <= i < |items| ==> build(items[i]) == Success(r.value[i])
    ensures r.Failure? <==> exists i :: 0 <= i < |items| && build(items[i]).Failure?
  {
    if |items| == 0 then Success([])
    else
      match build(items[0])
      case Failure(e) => Failure(e)
      case Success(x) =>
        match MapAll(items[1..], build)
        case Failure(e) =>
          assert forall i :: 1 <= i < |items| ==> items[i] == items[1..][i - 1];
          Failure(e)
        case Success(xs) =>
          assert forall i :: 1 <= i < |items| ==> items[i] == items[1..][i - 1];
          Success([x] + xs)
  }
}
