/** Optional values, results, and JavaScript's `||` fallback on a value that
    is either a string or absent (`undefined`/`null`). */
module Wrappers {

  datatype Option<+T> = None | Some(value: T)

  datatype Result<+R, +E> = Success(value: R) | Failure(error: E)

  /** JavaScript truthiness of a string that may be absent: absent and "" are falsy. */
  predicate Truthy(s: Option<string>) {
    s.Some? && s.value != ""
  }

  /** `s || fallback`: the string itself when it is truthy, the fallback otherwise. */
  function OrElse(s: Option<string>, fallback: string): (r: string)
    ensures Truthy(s) ==> r == s.value
    ensures !Truthy(s) ==> r == fallback
    ensures r == "" <==> !Truthy(s) && fallback == ""
  {
    if Truthy(s) then s.value else fallback
  }
}
