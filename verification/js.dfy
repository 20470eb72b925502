/** The fragment of JavaScript value semantics that the mail relay handler relies on. */
module Js {
  import opened Wrappers

  /** A JavaScript primitive as the handler compares it: `undefined`, a string or a number.
      Numbers are integers here; the handler only ever writes the literal 465. */
  datatype Value = Undefined | Str(s: string) | Num(n: int)

  /** The JavaScript value of an optional string field or environment variable. */
  function Of(o: Option<string>): Value {
    match o
    case None => Undefined
    case Some(s) => Str(s)
  }

  /** Truthiness of an optional string: `undefined` and the empty string are falsy,
      every other string is truthy. */
  predicate Truthy(o: Option<string>) {
    o.Some? && o.value != ""
  }

  /** Strict equality `===`: values of different types are never equal, and no
      conversion takes place. */
  predicate StrictEquals(a: Value, b: Value) {
    match (a, b)
    case (Undefined, Undefined) => true
    case (Str(x), Str(y)) => x == y
    case (Num(x), Num(y)) => x == y
    case _ => false
  }

  /** `o || fallback` for an optional string and a string fallback. */
  function Or(o: Option<string>, fallback: string): string {
    if Truthy(o) then o.value else fallback
  }

  /** The text a template literal substitutes for `${o}`: `undefined` prints as "undefined". */
  function Interpolate(o: Option<string>): string {
    match o
    case None => "undefined"
    case Some(s) => s
  }

  /** A string and a number are never strictly equal, whatever the string's digits. */
  lemma StringNeverEqualsNumber(o: Option<string>, n: int)
    ensures !StrictEquals(Of(o), Num(n))
  {
  }
}
