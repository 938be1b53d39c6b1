/**
 * The process-wide pseudo-random generator the demo server draws from
 * (a `*rand.Rand` of Go's math/rand).
 *
 * The generator's algorithm is not modelled. Once seeded it is deterministic:
 * it hands out a fixed stream of values, one after the other. A `Source`
 * therefore holds that stream, as an arbitrary function, and how many values
 * have been consumed so far. Every `Intn` call consumes the next value and
 * reduces it into `[0, bound)`; that bound is all the caller may rely on.
 */
module GoRand {

  /** The answer `Intn(bound)` gives when it is the k-th draw (counting from 0) of `stream`. */
  function IntnAt(stream: nat -> nat, k: nat, bound: int): (r: int)
    requires bound > 0  // Intn panics on a bound that is not positive
    ensures 0 <= r < bound
  {
    stream(k) % bound
  }

  class Source {
    /** The values the seeded generator yields, in order. */
    const stream: nat -> nat
    /** How many values have been drawn: the generator's position in `stream`. */
    var drawn: nat

    /** Seeding: `stream` stands for the generator the seed selects. */
    constructor (stream: nat -> nat)
      ensures this.stream == stream && drawn == 0
    {
      this.stream := stream;
      drawn := 0;
    }

    /** Draws one value in `[0, bound)` and advances the generator by one step. */
    method Intn(bound: int) returns (r: int)
      requires bound > 0
      modifies this
      ensures 0 <= r < bound
      ensures r == IntnAt(stream, old(drawn), bound)
      ensures drawn == old(drawn) + 1
    {
      r := IntnAt(stream, drawn, bound);
      drawn := drawn + 1;
    }
  }
}
