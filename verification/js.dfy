/** JavaScript value semantics that the bridge relies on: optional values,
    thrown errors, the values JSON.parse produces, truthiness, `||` and `??`. */
module Js {

  datatype Option<+T> = None | Some(value: T)

  /** The outcome of a JavaScript call that may throw an Error with a message. */
  datatype Result<+T> = Ok(value: T) | Err(message: string)

  /** A value produced by JSON.parse. Numbers are kept as exact reals: only
      whether a number is zero matters to the modelled code. */
  datatype Value =
    | Null
    | Bool(b: bool)
    | Number(n: real)
    | Str(s: string)
    | Array(items: seq<Value>)
    | Object(fields: map<string, Value>)

  /** JavaScript truthiness of a JSON value (NaN cannot come out of JSON). */
  predicate Truthy(v: Value) {
    match v
    case Null => false
    case Bool(b) => b
    case Number(n) => n != 0.0
    case Str(s) => s != ""
    case Array(_) => true
    case Object(_) => true
  }

  /** Truthiness of an optional string property: `undefined` and `""` are falsy. */
  predicate Present(s: Option<string>) {
    s.Some? && s.value != ""
  }

  /** `a || b` over optional string properties: the first truthy operand. */
  function Or(a: Option<string>, b: Option<string>): (r: Option<string>)
    ensures Present(a) ==> r == a
    ensures !Present(a) ==> r == b
  {
    if Present(a) then a else b
  }

  /** `v.key` for a JSON value: reading a property of `null` throws a TypeError
      (None here), any other value yields the own property or `undefined`.
      Only the five intake keys are ever read, and none of them is inherited
      from a built-in prototype. */
  function Property(v: Value, key: string): (r: Option<Option<Value>>)
    ensures r.None? <==> v.Null?
    ensures r.Some? && r.value.Some? ==> v.Object? && key in v.fields && r.value.value == v.fields[key]
    ensures v.Object? && key in v.fields ==> r == Some(Some(v.fields[key]))
  {
    match v
    case Null => None
    case Object(m) => Some(if key in m then Some(m[key]) else None)
    case _ => Some(None)
  }

  /** `a ?? b`, with `undefined` written as None: `b` exactly when `a` is
      null or undefined. */
  function Coalesce(a: Option<Value>, b: Value): (r: Value)
    ensures a.None? || a.value.Null? ==> r == b
    ensures a.Some? && !a.value.Null? ==> r == a.value
  {
    match a
    case None => b
    case Some(v) => if v.Null? then b else v
  }

  lemma {:induction false} CoalesceIdempotent(a: Option<Value>, b: Value)
    ensures Coalesce(a, Coalesce(a, b)) == Coalesce(a, b)
  {
  }
}
