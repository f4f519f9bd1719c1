/** Values shared by every part of the model: JavaScript's nullable values and
    the result of a remote call whose transport is not modelled. */
module Common {

  /** A JavaScript value that may be `null` (or `undefined`). */
  datatype Option<+T> = None | Some(value: T)

  /** The outcome of one awaited remote call: its response, or a thrown error.
      `message` is the server's `error.response.data.message`, when present. */
  datatype Remote<+T> = Ok(value: T) | Fail(message: Option<string>)

  /** JavaScript truthiness of a nullable string: `null` and `''` are falsy. */
  predicate Truthy(s: Option<string>) {
    s.Some? && s.value != ""
  }

  /** `a || b` for a nullable string `a` and a string fallback `b`. */
  function OrElse(a: Option<string>, b: string): (r: string)
    ensures Truthy(a) ==> r == a.value
    ensures !Truthy(a) ==> r == b
  {
    if Truthy(a) then a.value else b
  }
}
