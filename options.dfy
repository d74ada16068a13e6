/** Optional values, standing for JavaScript's `null`/`undefined` alternatives. */
module Options {

  datatype Option<T> = None | Some(value: T)
  {
    /** `x || fallback` for an optional value. */
    function GetOr(fallback: T): (r: T)
      ensures Some? ==> r == value
      ensures None? ==> r == fallback
    {
      if Some? then value else fallback
    }
  }

  /** JavaScript truthiness of an optional string: present and not empty. */
  predicate Truthy(s: Option<string>)
  {
    s.Some? && s.value != ""
  }
}
