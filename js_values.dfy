/** The result of a step that may throw: its value, or the message of the error it threw. */
module Outcomes {

  datatype Attempt<+T> = Done(value: T) | Threw(message: string)

  datatype Option<+T> = None | Some(value: T)
}

/**
 * The JavaScript values the handler reads out of its request payload, and the
 * few language operations it applies to them: ToBoolean (`if (x)`, `!x`),
 * `a || b`, `x !== false`, property reads `v.k` and `v?.k`, destructuring
 * defaults, `Array.isArray`, and ToString (`String(x)`, template literals).
 */
module JsValues {
  import opened Outcomes

  type Bytes = seq<bv8>

  datatype JsValue =
    | Undefined
    | Null
    | Bool(b: bool)
    | Num(n: real)
    | Str(s: string)
    | Array(elems: seq<JsValue>)
    | Object(props: map<string, JsValue>)

  /** The five falsy values a JSON payload can hold, listed outright. */
  predicate IsFalsyValue(v: JsValue) {
    v == Undefined || v == Null || v == Bool(false) || v == Num(0.0) || v == Str("")
  }

  /** ToBoolean: the test behind `if (v)`, `!v` and `||`. */
  predicate Truthy(v: JsValue)
    ensures Truthy(v) <==> !IsFalsyValue(v)
  {
    match v
    case Undefined => false
    case Null => false
    case Bool(b) => b
    case Num(n) => n != 0.0
    case Str(s) => s != ""
    case Array(_) => true
    case Object(_) => true
  }

  predicate Nullish(v: JsValue) {
    v.Undefined? || v.Null?
  }

  /** `a || b`: the left operand when it is truthy, otherwise the right one. */
  function Or(a: JsValue, b: JsValue): (r: JsValue)
    ensures Truthy(a) ==> r == a
    ensures IsFalsyValue(a) ==> r == b
    ensures Truthy(r) <==> Truthy(a) || Truthy(b)
  {
    if Truthy(a) then a else b
  }

  /**
   * `v !== false`: true for every value except the boolean `false` itself,
   * so unlike truthiness it holds for undefined, null, 0 and ''.
   */
  predicate NotFalse(v: JsValue)
    ensures NotFalse(v) <==> Truthy(v) || (IsFalsyValue(v) && v != Bool(false))
  {
    v != Bool(false)
  }

  /**
   * Reading property `key` of a value that is not null or undefined. Only
   * objects have own properties among the keys this handler reads; none of
   * those keys is inherited by strings, numbers, booleans or arrays.
   */
  function Prop(v: JsValue, key: string): JsValue
    requires !Nullish(v)
  {
    if v.Object? && key in v.props then v.props[key] else Undefined
  }

  /** The TypeError message the runtime gives for `v.key` on null or undefined. */
  function ReadErrorMessage(v: JsValue, key: string): string
    requires Nullish(v)
  {
    "Cannot read properties of " + (if v.Null? then "null" else "undefined")
    + " (reading '" + key + "')"
  }

  /** `v.key`: throws a TypeError on null and undefined, as the language does. */
  function Read(v: JsValue, key: string): (r: Attempt<JsValue>)
    ensures r.Threw? <==> Nullish(v)
    ensures r.Done? ==> r.value == Prop(v, key)
  {
    if Nullish(v) then Threw(ReadErrorMessage(v, key)) else Done(Prop(v, key))
  }

  /** `v?.key`: undefined when `v` is null or undefined, never throws. */
  function OptionalProp(v: JsValue, key: string): (r: JsValue)
    ensures Nullish(v) ==> r == Undefined
    ensures v.Object? && key in v.props ==> r == v.props[key]
    ensures !(v.Object? && key in v.props) ==> r == Undefined
  {
    if Nullish(v) then Undefined else Prop(v, key)
  }

  /** A destructuring default `{ k: x = d }`: applies to undefined only, not to null. */
  function DefaultTo(v: JsValue, d: JsValue): (r: JsValue)
    ensures v != Undefined ==> r == v
    ensures v == Undefined ==> r == d
  {
    if v.Undefined? then d else v
  }

  /** `Array.isArray(v)`. */
  predicate IsArray(v: JsValue) {
    v.Array?
  }

  /** The elements of `parts` separated by `sep` (`Array.prototype.join`). */
  function Join(parts: seq<string>, sep: string): (r: string)
    ensures |parts| == 1 ==> r == parts[0]
    ensures |parts| == 0 ==> r == ""
  {
    if |parts| == 0 then ""
    else if |parts| == 1 then parts[0]
    else Join(parts[..|parts| - 1], sep) + sep + parts[|parts| - 1]
  }

  /**
   * The values of `parts` when every one of them is a value; otherwise the
   * first error among them, in order, as a left-to-right evaluation meets it.
   */
  function Collect<T>(parts: seq<Attempt<T>>): (r: Attempt<seq<T>>)
    ensures r.Done? <==> forall i :: 0 <= i < |parts| ==> parts[i].Done?
    ensures r.Done? ==> |r.value| == |parts| && forall i :: 0 <= i < |parts| ==> r.value[i] == parts[i].value
    ensures r.Threw? ==> exists i :: 0 <= i < |parts| && parts[i] == Threw(r.message)
                                     && forall j :: 0 <= j < i ==> parts[j].Done?
  {
    if parts == [] then Done([])
    else if parts[0].Threw? then Threw(parts[0].message)
    else
      var rest := Collect(parts[1..]);
      if rest.Threw? then
        assert forall j :: 1 <= j < |parts| ==> parts[j] == parts[1..][j - 1];
        Threw(rest.message)
      else
        assert forall j :: 1 <= j < |parts| ==> parts[j] == parts[1..][j - 1];
        Done([parts[0].value] + rest.value)
  }

  /** The TypeError ToPrimitive throws when an object offers no usable conversion. */
  const NotPrimitiveMessage := "Cannot convert object to primitive value"

  /**
   * `String(v)` succeeds on `v`. A JSON object converts through the
   * inherited `Object.prototype.toString` unless it carries its own
   * `toString` key: that value is never callable, the inherited `valueOf`
   * returns the object itself, and ToPrimitive throws. An array converts
   * through `join`, so it fails exactly when one of its elements does.
   */
  predicate Convertible(v: JsValue) {
    match v
    case Object(props) => "toString" !in props
    case Array(elems) => forall i :: 0 <= i < |elems| ==> Convertible(elems[i])
    case _ => true
  }

  /**
   * ToString, as `String(v)` and `${v}` apply it. How the runtime prints a
   * number is not part of this model and comes in as `numberText`. An array
   * prints as its elements joined by commas, with null and undefined
   * elements printed as empty strings.
   */
  function ToString(v: JsValue, numberText: real -> string): (r: Attempt<string>)
    ensures r.Done? <==> Convertible(v)
    ensures r.Threw? ==> r.message == NotPrimitiveMessage
    ensures v.Str? ==> r == Done(v.s)
    ensures v == Undefined ==> r == Done("undefined")
    ensures v == Null ==> r == Done("null")
    ensures v.Bool? ==> r == Done(if v.b then "true" else "false")
    ensures v.Num? ==> r == Done(numberText(v.n))
    ensures v.Object? && "toString" !in v.props ==> r == Done("[object Object]")
    ensures v == Array([]) ==> r == Done("")
    ensures v.Array? && |v.elems| == 1 && Nullish(v.elems[0]) ==> r == Done("")
    ensures v.Array? && |v.elems| == 1 && !Nullish(v.elems[0]) ==> r == ToString(v.elems[0], numberText)
  {
    match v
    case Undefined => Done("undefined")
    case Null => Done("null")
    case Bool(b) => Done(if b then "true" else "false")
    case Num(n) => Done(numberText(n))
    case Str(s) => Done(s)
    case Array(elems) =>
      var parts := seq(|elems|, i requires 0 <= i < |elems| =>
                     if Nullish(elems[i]) then Done("") else ToString(elems[i], numberText));
      assert forall i :: 0 <= i < |elems| ==> (parts[i].Done? <==> Convertible(elems[i]));
      var texts := Collect(parts);
      if texts.Threw? then Threw(texts.message) else Done(Join(texts.value, ","))
    case Object(props) => if "toString" in props then Threw(NotPrimitiveMessage) else Done("[object Object]")
  }
}
