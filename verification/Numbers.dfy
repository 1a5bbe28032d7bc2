/** Small functions on integers. */
module Numbers {
  function Min(a: int, b: int): int {
    if a < b then a else b
  }

  function Max(a: int, b: int): int {
    if a < b then b else a
  }

  function Excess(a: int, b: int): int {
    if a > b then a - b else 0
  }
}
