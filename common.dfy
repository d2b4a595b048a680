/** Types shared by every module of the downloader model. */
module Common {
  /** One octet of a response body or a progress file. */
  newtype byte = b: int | 0 <= b < 256

  /** Python's `None` or a value. */
  datatype Option<+T> = None | Some(value: T)

  function Min(a: int, b: int): int
  {
    if a <= b then a else b
  }
}
