/** The model of `Math.random()`: a stream of draws, each in [0, 1). */
module Random {

  predicate IsDraw(u: real) {
    0.0 <= u < 1.0
  }

  predicate AllDraws(draws: seq<real>) {
    forall k :: 0 <= k < |draws| ==> IsDraw(draws[k])
  }
}
