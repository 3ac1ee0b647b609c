/** Small shared vocabulary: a JavaScript value that may be `null`. */
module Common {

  /** `None` stands for JavaScript's `null`, `Some(v)` for a present value. */
  datatype Option<+T> = None | Some(value: T)

  function Min(a: int, b: int): int { if a <= b then a else b }

  function Max(a: int, b: int): int { if a >= b then a else b }
}
