/** Bucket bounds, which are also the scores of servers: numbers with a top element. */
module Scores {

  datatype Score = Fin(v: real) | Inf

  // The score of a server whose histogram is empty; every bucket bound is above it.
  const NO_DATA := Fin(-1.0)

  predicate AtMost(a: Score, b: Score) {
    b.Inf? || (a.Fin? && a.v <= b.v)
  }

  predicate Below(a: Score, b: Score) {
    AtMost(a, b) && a != b
  }
}
