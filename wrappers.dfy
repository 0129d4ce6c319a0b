/** Optional values (a nullable column, an absent request field) and the
    success-or-error outcome of a call into a service this model cannot see. */
module Wrappers {

  datatype Option<+T> = None | Some(value: T) {
    /** `x ?? d` for a nullable value. */
    function GetOr(default: T): T {
      match this
      case Some(v) => v
      case None => default
    }
  }

  /** The outcome of an external call: a value, or the message of the error it threw. */
  datatype Result<+R> = Success(value: R) | Failure(error: string)

  /** JavaScript truthiness of an optional string: absent, null and "" are all falsy. */
  predicate Truthy(s: Option<string>) {
    s.Some? && s.value != ""
  }

  /** `s || d` on an optional string. */
  function OrDefault(s: Option<string>, d: string): (r: string)
    ensures Truthy(s) ==> r == s.value
    ensures !Truthy(s) ==> r == d
  {
    if Truthy(s) then s.value else d
  }
}
