/** Values shared by every module: optional values and instants. */
module Common {

  datatype Option<+T> = None | Some(value: T)

  /** An instant of the one global clock. The zero time of the source is `None`. */
  type Instant = int

  /** The zero time, which no clock reads. */
  const ZERO_TIME: Instant := -1

  function Min(a: int, b: int): int {
    if a <= b then a else b
  }

  function Max(a: int, b: int): int {
    if a <= b then b else a
  }
}
