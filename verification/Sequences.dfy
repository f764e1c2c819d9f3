module Sequences {
  /** No element occurs twice. */
  predicate Distinct<T(==)>(xs: seq<T>) {
    forall i, j {:trigger xs[i], xs[j]} | 0 <= i < j < |xs| :: xs[i] != xs[j]
  }
}
