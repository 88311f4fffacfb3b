/**
 * The JavaScript view of a parsed JSON value that the URL-payload loader
 * relies on: truthiness, `typeof … === 'object'`, property reads and the
 * `Number(x)` conversion behind the `Number(x) || d` defaults.
 */
module Json {
  import opened Wrappers

  /** A value produced by JSON.parse. */
  datatype Json =
    | JNull
    | JBool(b: bool)
    | JNumber(n: real)
    | JString(s: string)
    | JArray(items: seq<Json>)
    | JObject(fields: map<string, Json>)

  /**
   * The engine's two number primitives, which this model does not define:
   * StringToNumber (None is NaN; only finite results are modelled) and
   * Number::toString.
   */
  datatype NumberOps = NumberOps(
    stringToNumber: string -> Option<real>,
    numberToString: real -> string)

  /**
   * Reading a named property; None is `undefined`. The loader reads only
   * named keys, which arrays and primitives do not have.
   */
  function Property(v: Json, key: string): (r: Option<Json>)
    ensures r.Some? <==> v.JObject? && key in v.fields
    ensures r.Some? ==> r.value == v.fields[key]
  {
    if v.JObject? && key in v.fields then Some(v.fields[key]) else None
  }

  /**
   * JavaScript truthiness of a property value (None is `undefined`). Every
   * object and array is truthy; undefined and null never are.
   */
  predicate Truthy(v: Option<Json>)
    ensures v.Some? && IsObject(v.value) ==> Truthy(v)
    ensures Truthy(v) ==> v.Some? && !v.value.JNull?
  {
    match v
    case None => false
    case Some(JNull) => false
    case Some(JBool(b)) => b
    case Some(JNumber(n)) => n != 0.0
    case Some(JString(s)) => s != ""
    case Some(JArray(_)) => true
    case Some(JObject(_)) => true
  }

  /** `typeof v === 'object' && v !== null`: arrays and objects, never null or a primitive. */
  predicate IsObject(v: Json)
    ensures IsObject(v) ==> !v.JNull? && !v.JBool? && !v.JNumber? && !v.JString?
  {
    v.JArray? || v.JObject?
  }

  /**
   * Whether String(v), Number(v) or `new Date(v)` throws a TypeError. An
   * object converts through its `toString` method; a key "toString" of its
   * own holds a JSON value, which is never callable, so no primitive can be
   * produced. An array converts through the string forms of its elements,
   * so it throws when one of them does; null elements are not converted.
   */
  predicate ConversionThrows(v: Json)
    decreases v
  {
    match v
    case JObject(fields) => "toString" in fields
    case JArray(items) => exists i :: 0 <= i < |items| && ConversionThrows(items[i])
    case _ => false
  }

  /** String(v): arrays join their elements with commas, null elements as "". */
  function ToJsString(v: Json, ops: NumberOps): string
    requires !ConversionThrows(v)
    decreases v, 1
  {
    match v
    case JNull => "null"
    case JBool(b) => if b then "true" else "false"
    case JNumber(n) => ops.numberToString(n)
    case JString(s) => s
    case JArray(items) => JoinFrom(v, 0, ops)
    case JObject(_) => "[object Object]"
  }

  /** The elements of array `v` from index i on, as Array.prototype.join writes them. */
  function JoinFrom(v: Json, i: nat, ops: NumberOps): string
    requires v.JArray? && i <= |v.items| && !ConversionThrows(v)
    decreases v, 0, |v.items| - i
  {
    if i == |v.items| then ""
    else
      var item := v.items[i];
      var text := if item.JNull? then "" else ToJsString(item, ops);
      if i + 1 == |v.items| then text else text + "," + JoinFrom(v, i + 1, ops)
  }

  /**
   * Number(v) for a value whose conversion does not throw; None is NaN.
   * Arrays and objects convert through their string form: an object as
   * "[object Object]", the empty array as "", an array of one number as
   * that number's text.
   */
  function ToNumber(v: Option<Json>, ops: NumberOps): (r: Option<real>)
    requires v.None? || !ConversionThrows(v.value)
    ensures v.None? ==> r.None?
    ensures v == Some(JNull) || v == Some(JBool(false)) ==> r == Some(0.0)
    ensures v.Some? && v.value.JNumber? ==> r == Some(v.value.n)
    ensures v.Some? && v.value.JObject? ==> r == ops.stringToNumber("[object Object]")
    ensures v == Some(JArray([])) ==> r == ops.stringToNumber("")
    ensures v.Some? && v.value.JArray? && |v.value.items| == 1 && v.value.items[0].JNumber? ==>
      r == ops.stringToNumber(ops.numberToString(v.value.items[0].n))
  {
    match v
    case None => None
    case Some(JNull) => Some(0.0)
    case Some(JBool(b)) => Some(if b then 1.0 else 0.0)
    case Some(JNumber(n)) => Some(n)
    case Some(JString(s)) => ops.stringToNumber(s)
    case Some(JArray(items)) =>
      assert |items| == 1 && !items[0].JNull? ==> JoinFrom(JArray(items), 0, ops) == ToJsString(items[0], ops);
      ops.stringToNumber(ToJsString(JArray(items), ops))
    case Some(JObject(fields)) => ops.stringToNumber(ToJsString(JObject(fields), ops))
  }

  /**
   * `Number(v) || d`: the converted number unless it is falsy (zero or
   * NaN), in which case the default.
   */
  function NumberOr(v: Option<Json>, d: real, ops: NumberOps): (r: real)
    requires v.None? || !ConversionThrows(v.value)
    ensures r == d || ToNumber(v, ops) == Some(r)
    ensures d != 0.0 ==> r != 0.0
    ensures ToNumber(v, ops).Some? && ToNumber(v, ops).value != 0.0 ==> r == ToNumber(v, ops).value
    ensures ToNumber(v, ops).None? || ToNumber(v, ops) == Some(0.0) ==> r == d
  {
    match ToNumber(v, ops)
    case Some(n) => if n != 0.0 then n else d
    case None => d
  }

  /** A JSON number that is not zero is taken as it is; a missing, null or false value gives the default. */
  lemma NumberOrCases(n: real, d: real, ops: NumberOps)
    ensures n != 0.0 ==> NumberOr(Some(JNumber(n)), d, ops) == n
    ensures NumberOr(Some(JNumber(0.0)), d, ops) == d
    ensures NumberOr(None, d, ops) == d
    ensures NumberOr(Some(JNull), d, ops) == d
    ensures NumberOr(Some(JBool(false)), d, ops) == d
    ensures NumberOr(Some(JBool(true)), d, ops) == 1.0
  {
  }
}
