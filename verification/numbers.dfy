/** `Math.min` and `Math.max` on integers. */
module Numbers {

  /** The smaller of two integers. */
  function Min(a: int, b: int): int
  {
    if a <= b then a else b
  }

  /** The larger of two integers. */
  function Max(a: int, b: int): int
  {
    if a >= b then a else b
  }
}
