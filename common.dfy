/** Shared vocabulary: optional values, the `anyhow::Result` of the source, and bytes. */
module Common {

  /** An `anyhow::Error`, represented by the message its Display prints. */
  type Error = string

  datatype Option<+T> = None | Some(value: T)

  /** `anyhow::Result<T>`: a value or an error. */
  datatype Result<+T> = Success(value: T) | Failure(error: Error)

  /** `anyhow::Result<()>`. */
  datatype Outcome = Pass | Fail(error: Error)

  /** An element of a `Vec<u8>`. */
  newtype byte = x: int | 0 <= x < 256
}
