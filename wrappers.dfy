/** Option and Result, used throughout for PHP's null and for raised exceptions. */
module Wrappers {

  datatype Option<+T> = None | Some(value: T) {
    function GetOr(default: T): T {
      match this
      case Some(v) => v
      case None => default
    }

    /** PHP's `a ?? b` on two optional values. */
    function OrElse(other: Option<T>): Option<T> {
      if Some? then this else other
    }
  }

  /** `Err` stands for an exception the source raises (a type error, a failed
      HTTP exchange, a database error); `error` is its message. */
  datatype Result<+T> = Ok(value: T) | Err(error: string)
}
