/** Small vocabulary shared by every component model. */
module Prelude {

  /** Instants and durations are whole milliseconds. */
  type Time = int

  datatype Option<+T> = None | Some(value: T)

  datatype Result<+T, +E> = Ok(value: T) | Err(error: E)

  function Max(a: int, b: int): int { if a < b then b else a }

  function Min(a: int, b: int): int { if a < b then a else b }

  predicate Distinct<T(==)>(xs: seq<T>) {
    forall i, j :: 0 <= i < j < |xs| ==> xs[i] != xs[j]
  }

  /** `SHA-256` is taken to be injective, so a digest carries the text it was taken of. */
  datatype Digest = Sha256(text: string)
}
