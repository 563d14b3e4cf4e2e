/**
 * The few JavaScript notions the hooks rely on: optional values (`undefined`
 * or `null`), template-literal interpolation of an optional string, truthiness
 * of a string, and the JSON-like values a Realtime Database snapshot holds.
 */
module Js {

  /** A value that may be absent (`undefined` for an option, `null` for a snapshot key). */
  datatype Maybe<+T> = Nothing | Just(value: T)

  /** `${s}` inside a template literal, for `s: string | undefined`. */
  function Interpolate(s: Maybe<string>): string
  {
    match s
    case Nothing => "undefined"
    case Just(v) => v
  }

  /** A `string | undefined` is truthy exactly when it is defined and non-empty. */
  predicate Truthy(s: Maybe<string>)
  {
    s.Just? && s.value != ""
  }

  /**
   * The values a snapshot's `val()` can return. Numbers are kept as integers;
   * arrays are not modelled.
   */
  datatype Value =
    | Null
    | Bool(b: bool)
    | Num(n: int)
    | Str(s: string)
    | Obj(fields: map<string, Value>)

  /** `typeof v === 'object'`, which holds for `null` as well as for objects. */
  predicate TypeofObject(v: Value)
  {
    v.Null? || v.Obj?
  }

  /** The own properties that `{...v}` copies: none for `null`. */
  function OwnFields(v: Value): map<string, Value>
    requires TypeofObject(v)
  {
    if v.Null? then map[] else v.fields
  }
}
