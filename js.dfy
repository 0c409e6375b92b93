/** The few pieces of JavaScript value semantics that the report screen's
    inline expressions rely on: values that may be `undefined`, truthiness,
    the `||` fallback, relational comparison against `undefined`, optional
    chaining into arrays, `Array.prototype.includes`, and how JSX renders a
    number or `undefined` inside text. */
module Js {
  import Decimal

  /** A value that may be `undefined`; optional chaining (`a?.b`) on a
      missing object yields `None`. */
  datatype Option<+T> = None | Some(value: T)

  /** `!!x` for a number: `undefined` and `0` are falsy. */
  predicate NumberTruthy(x: Option<int>) {
    x.Some? && x.value != 0
  }

  /** `!!s` for a string: `undefined` and `""` are falsy. */
  predicate StringTruthy(s: Option<string>) {
    s.Some? && s.value != ""
  }

  /** `a || b` over numbers: `a` when truthy, otherwise `b` (whatever `b` is). */
  function NumberOr(a: Option<int>, b: Option<int>): Option<int> {
    if NumberTruthy(a) then a else b
  }

  /** `a || b` over strings. */
  function StringOr(a: Option<string>, b: Option<string>): Option<string> {
    if StringTruthy(a) then a else b
  }

  /** `x > k`: a comparison with `undefined` is false. */
  predicate Above(x: Option<int>, k: int) {
    x.Some? && x.value > k
  }

  /** `x < k`: a comparison with `undefined` is false. */
  predicate Below(x: Option<int>, k: int) {
    x.Some? && x.value < k
  }

  /** `xs?.[0]`: `undefined` for a missing or empty array. */
  function First<T>(xs: Option<seq<T>>): Option<T> {
    if xs.Some? && |xs.value| > 0 then Some(xs.value[0]) else None
  }

  /** `xs?.includes(s)`, read as a boolean (`undefined` is falsy). */
  predicate Includes(xs: Option<seq<string>>, s: string) {
    xs.Some? && s in xs.value
  }

  /** `xs?.length > 0`: `undefined > 0` is false. */
  predicate NonEmpty<T>(xs: Option<seq<T>>) {
    xs.Some? && |xs.value| > 0
  }

  /** What JSX puts into the text for `{x}` when `x` is a number or
      `undefined`: the decimal form of the number, or nothing. */
  function RenderNumber(x: Option<int>): string {
    match x
    case None => ""
    case Some(v) => Decimal.IntToString(v)
  }
}
