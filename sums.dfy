/** Sums over lists of integers: the `reduce((sum, x) => sum + x, 0)` idiom. */
module Sums {

  function Sum(xs: seq<int>): int {
    if xs == [] then 0 else xs[0] + Sum(xs[1..])
  }
}
