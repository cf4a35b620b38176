/**
 * JavaScript values as the server and the client handle them (JSON bodies, stored
 * documents, decoded tokens), with the operators the source applies to them:
 * truthiness, `||`, `??`, optional property access and `String(v)`.
 * `undefined` is not a value here: an absent property is `None`.
 * Numbers are integers; fractional numbers are not modelled.
 */
module Json {
  import opened Wrappers
  import JsString

  datatype Json =
    | Null
    | Bool(b: bool)
    | Num(n: int)
    | Str(s: string)
    | Arr(elems: seq<Json>)
    | Obj(fields: map<string, Json>)

  /** JavaScript truthiness of a defined value. */
  predicate Truthy(j: Json) {
    match j
    case Null => false
    case Bool(b) => b
    case Num(n) => n != 0
    case Str(s) => s != ""
    case Arr(_) => true
    case Obj(_) => true
  }

  /** Truthiness of a possibly `undefined` value. */
  predicate IsTruthy(o: Option<Json>) {
    o.Some? && Truthy(o.value)
  }

  /** `undefined` or `null`: the values `??` and `?.` skip. */
  predicate IsNullish(o: Option<Json>) {
    o.None? || o.value.Null?
  }

  /** `a || b`. */
  function Or(a: Option<Json>, b: Option<Json>): (r: Option<Json>)
    ensures IsTruthy(a) ==> r == a
    ensures !IsTruthy(a) ==> r == b
  {
    if IsTruthy(a) then a else b
  }

  /** `a ?? b`. */
  function Nullish(a: Option<Json>, b: Option<Json>): (r: Option<Json>)
    ensures !IsNullish(a) ==> r == a
    ensures IsNullish(a) ==> r == b
  {
    if IsNullish(a) then b else a
  }

  /**
   * `o?.k` on plain objects. A property of any other value (a string's `length`, an
   * array index) is not modelled and reads as `undefined`.
   */
  function Get(o: Option<Json>, k: string): (r: Option<Json>)
    ensures r.Some? <==> (o.Some? && o.value.Obj? && k in o.value.fields)
    ensures r.Some? ==> r.value == o.value.fields[k]
  {
    if o.Some? && o.value.Obj? && k in o.value.fields then Some(o.value.fields[k]) else None
  }

  /** `o.k`, which throws a TypeError when `o` is `undefined` or `null`. */
  function Prop(o: Option<Json>, k: string): (r: Result<Option<Json>>)
    ensures r.Err? <==> IsNullish(o)
    ensures r.Ok? ==> r.value == Get(o, k)
  {
    if IsNullish(o) then Err("TypeError: Cannot read properties of " + (if o.None? then "undefined" else "null"))
    else Ok(Get(o, k))
  }

  /** The fields of a plain object, or no fields for any other value (`Object.keys`, spread). */
  function FieldsOf(o: Option<Json>): (m: map<string, Json>)
    ensures o.Some? && o.value.Obj? ==> m == o.value.fields
    ensures !(o.Some? && o.value.Obj?) ==> m == map[]
  {
    if o.Some? && o.value.Obj? then o.value.fields else map[]
  }

  /** `m[k]` on the fields of an object; `None` is `undefined`. */
  function Field(m: map<string, Json>, k: string): (r: Option<Json>)
    ensures r.Some? <==> k in m
    ensures r.Some? ==> r.value == m[k]
  {
    if k in m then Some(m[k]) else None
  }

  /** The object `{...m, [k]: o}` once undefined values are dropped: `undefined` leaves `k` out. */
  function With(m: map<string, Json>, k: string, o: Option<Json>): (r: map<string, Json>)
    ensures Field(r, k) == o
    ensures forall a :: a != k ==> Field(r, a) == Field(m, a)
  {
    if o.Some? then m[k := o.value] else m - {k}
  }

  /**
   * An object literal whose property values may be `undefined`, as the store receives it:
   * the `undefined` properties are dropped.
   */
  function Defined(d: map<string, Option<Json>>): (m: map<string, Json>)
    ensures forall k :: Field(m, k) == (if k in d then d[k] else None)
  {
    map k | k in d && d[k].Some? :: d[k].value
  }

  /** `String(v)` for a defined value. Array elements that are `null` render as empty. */
  function ToStr(j: Json): string
  {
    match j
    case Null => "null"
    case Bool(b) => if b then "true" else "false"
    case Num(n) => JsString.IntToString(n)
    case Str(s) => s
    case Arr(elems) => JoinElems(elems)
    case Obj(_) => "[object Object]"
  }

  function JoinElems(elems: seq<Json>): string
    decreases elems
  {
    if elems == [] then ""
    else
      var head := if elems[0].Null? then "" else ToStr(elems[0]);
      if |elems| == 1 then head else head + "," + JoinElems(elems[1..])
  }

  /** `String(v)`, where `undefined` renders as "undefined" (also what template literals do). */
  function ToJsString(o: Option<Json>): (s: string)
    ensures o.Some? && o.value.Str? ==> s == o.value.s
    ensures o.None? ==> s == "undefined"
  {
    if o.None? then "undefined" else ToStr(o.value)
  }

  /** The string a value is when it is known to be one; `None` when the source would throw calling a string method on it. */
  function AsString(o: Option<Json>): (r: Option<string>)
    ensures r.Some? <==> (o.Some? && o.value.Str?)
  {
    if o.Some? && o.value.Str? then Some(o.value.s) else None
  }
}
