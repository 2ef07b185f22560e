/** Small datatypes shared by the models. */
module Basics {

  datatype Option<+T> = None | Some(value: T)

  /** A computed value, or the reason the source refuses the request. */
  datatype Result<+T, +E> = Ok(value: T) | Err(error: E)

  /** SHA-256 is used only to compare contents, and is taken to be injective: a digest is
      represented by what was digested. */
  datatype Digest<+T> = Sha256(content: T)

  function Min(a: int, b: int): int { if a <= b then a else b }

  function Max(a: int, b: int): int { if a <= b then b else a }
}
