/** The JavaScript value conventions the reporters are written against: a
    JSON field that may be missing, the truthiness of a string, `||`, and
    what a template literal prints for a missing value. */
module Js {

  /** A JSON field that may be absent. `None` covers a missing key, a JSON
      `null` and, for a field the code expects to be an array, a value that
      is not one. It supports `:-`, so a chain of optional links reads as
      one expression whose first missing link yields `None`. */
  datatype Option<+T> = None | Some(value: T) {
    predicate IsFailure() { None? }

    function PropagateFailure<U>(): Option<U>
      requires None?
    {
      None
    }

    function Extract(): T
      requires Some?
    {
      value
    }

    function GetOr(d: T): T {
      if Some? then value else d
    }
  }

  /** JavaScript truthiness of a string field: present and not empty. */
  predicate Truthy(s: Option<string>) {
    s.Some? && s.value != ""
  }

  /** `a || b` where both operands are string fields. */
  function Or(a: Option<string>, b: Option<string>): Option<string> {
    if Truthy(a) then a else b
  }

  /** `a || 'd'`: the field when it is truthy, the literal `d` otherwise. */
  function OrDefault(a: Option<string>, d: string): string {
    if Truthy(a) then a.value else d
  }

  /** `${v}` in a template literal: a missing value prints as `undefined`. */
  function Text(v: Option<string>): string {
    if v.Some? then v.value else "undefined"
  }
}
