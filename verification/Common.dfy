/** Small vocabulary shared by every module of the model. */
module Common {

  datatype Option<+T> = None | Some(value: T)

  type byte = b: int | 0 <= b < 256

  /** A time as nanoseconds since the Unix epoch, in the range where Go's UnixNano is defined. */
  const TIME_LIMIT: int := 0x8000_0000_0000_0000

  type Timestamp = t: int | 0 <= t < TIME_LIMIT

  const SECOND: int := 1_000_000_000

  function Max(a: int, b: int): int {
    if a > b then a else b
  }

  function Min(a: int, b: int): int {
    if a < b then a else b
  }
}
