/** The crate's error enum `Ip2LocationError`. The payloads of the variants
    that wrap foreign errors (reqwest, url, serde_json) are kept as their
    diagnostic text; only `InvalidInput` is produced by the modelled code. */
module Errors {

  /** Rust's `u16`, the type of an HTTP status code. */
  newtype u16 = x: int | 0 <= x < 0x1_0000

  datatype Ip2LocationError =
    | Http(diagnostic: string)
    | Url(diagnostic: string)
    | ApiError(status: u16, message: string)
    | InvalidInput(reason: string)
    | Json(diagnostic: string)
}
