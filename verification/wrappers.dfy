/** Rust's `Option<T>`: a value that may be missing. */
module Wrappers {

  datatype Option<T> = None | Some(value: T)

  /** Rust's `Option::unwrap_or`: the carried value, or `fallback` when
      there is none. `unwrap_or_default` is this with the type's default. */
  function UnwrapOr<T>(o: Option<T>, fallback: T): (v: T)
    ensures o.Some? ==> v == o.value
    ensures o.None? ==> v == fallback
  {
    if o.Some? then o.value else fallback
  }
}
