/**
 * The slice of JavaScript's dynamic values that the event layer touches:
 * spreadsheet cells, stored event fields and form values. Truthiness, `||`
 * and strict equality follow the ECMAScript rules for these values.
 */
module JsValues {

  datatype Option<+T> = None | Some(value: T)

  /** A JavaScript value as it appears in an event field or a spreadsheet cell. */
  datatype Val =
    | Undefined
    | Null
    | NaN
    | Str(s: string)
    | Num(x: real)

  /** ECMAScript ToBoolean on the values above. */
  predicate Truthy(v: Val)
  {
    match v
    case Str(s) => s != ""
    case Num(x) => x != 0.0
    case _ => false
  }

  /** `a || b`: the first operand when it is truthy, otherwise the second. */
  function Or(a: Val, b: Val): (r: Val)
    ensures Truthy(a) ==> r == a
    ensures !Truthy(a) ==> r == b
    ensures Truthy(r) <==> Truthy(a) || Truthy(b)
  {
    if Truthy(a) then a else b
  }

  /** `a === b`: NaN equals nothing, not even itself. */
  predicate StrictEquals(a: Val, b: Val)
  {
    a == b && !a.NaN?
  }
}
