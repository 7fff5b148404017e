/** The integer helpers that the paging and display limits share: `Math.min` and `Math.max`. */
module Ints {

  function Min(a: int, b: int): int
  {
    if a <= b then a else b
  }

  function Max(a: int, b: int): int
  {
    if a >= b then a else b
  }
}
