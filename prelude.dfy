/** Value types shared by the endpoint handlers and the domain-name helpers:
    Rust's Option and Result, and the (name, value) pairs a handler hands to
    `execute_query`. */
module Prelude {

  /** Rust's `Option<T>`. */
  datatype Option<+T> = None | Some(value: T)

  /** Rust's `Result<T, E>`. */
  datatype Result<+T, +E> = Ok(value: T) | Err(error: E)

  /** One query-string pair, as in `vec![("ip", ip)]`. */
  type QueryParam = (string, string)
}
