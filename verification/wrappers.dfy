/** Option and Result in the shape of Rust's `Option<T>` and `Result<T, E>`,
    both usable with Dafny's `:-` operator, plus `Outcome<E>` for the
    `Result<(), E>` that the validators return. */
module Wrappers {

  datatype Option<+T> = None | Some(value: T) {

    /** Rust's `Option::or`: this value if present, else `other`. */
    function Or(other: Option<T>): Option<T> {
      if Some? then this else other
    }

    /** Rust's `Option::unwrap_or`. */
    function UnwrapOr(default: T): T {
      if Some? then value else default
    }
  }

  datatype Result<+T, +E> = Ok(value: T) | Err(error: E) {

    predicate IsFailure() {
      Err?
    }

    function PropagateFailure<U>(): Result<U, E>
      requires Err?
    {
      Err(error)
    }

    function Extract(): T
      requires Ok?
    {
      value
    }
  }

  /** `Result<(), E>`: a check that passes or fails with an error. */
  datatype Outcome<+E> = Pass | Fail(error: E)

  /** Three-tier resolution `own.or(global).unwrap_or(fallback)`: the value a
      record gives itself, else the global one, else the hardcoded one. */
  function Resolve<T>(own: Option<T>, global: Option<T>, fallback: T): (r: T)
    ensures own.Some? ==> r == own.value
    ensures own.None? && global.Some? ==> r == global.value
    ensures own.None? && global.None? ==> r == fallback
  {
    own.Or(global).UnwrapOr(fallback)
  }
}
