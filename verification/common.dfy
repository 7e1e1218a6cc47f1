/** Small shared vocabulary: optional values and integer minimum. */
module Common {

  /** An optional value; `None` plays the role of a null pointer. */
  datatype Option<+T> = None | Some(value: T)

  function Min(a: int, b: int): int
  {
    if a <= b then a else b
  }
}
