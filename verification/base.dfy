/** Values shared by every part of the model: optional values, HTTP-style
    responses and the truthiness test that Python's `not x` and
    JavaScript's `!x` apply to an optional string. */
module Base {

  datatype Option<+T> = None | Some(value: T)

  /** A route's answer: a success status with a body, or an error status with
      the `error` message the route puts in its JSON body. */
  datatype Response<+T> = Ok(status: int, body: T) | Err(status: int, message: string)

  /** `x` is truthy: present and not the empty string. */
  predicate Truthy(x: Option<string>) {
    x.Some? && x.value != ""
  }

  /** `d.get(key, default)` for an optional request field. */
  function OrDefault(x: Option<string>, default: string): string {
    if x.Some? then x.value else default
  }

  function Min(a: int, b: int): int { if a <= b then a else b }
}
