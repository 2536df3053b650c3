/** Optional values, results that may carry a raised error, and the truthiness
    test that both Python (`if not x`) and JavaScript (`!x`) apply to a string. */
module Wrappers {

  datatype Option<T> = None | Some(value: T)

  /** `Err(message)` stands for an exception whose text is `message`. */
  datatype Result<T> = Ok(value: T) | Err(message: string)

  /** A field that was read from a request or a response: absent (`None`,
      `undefined`, `null`) or a string. It is truthy when present and non-empty. */
  predicate Truthy(v: Option<string>)
  {
    v.Some? && v.value != ""
  }

  /** `v || fallback` on an optional string. */
  function OrElse(v: Option<string>, fallback: string): (r: string)
    ensures Truthy(v) ==> r == v.value
    ensures !Truthy(v) ==> r == fallback
    ensures fallback != "" ==> r != ""
  {
    if Truthy(v) then v.value else fallback
  }
}
