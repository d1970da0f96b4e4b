/**
  The random source a name generator owns.

  The generator itself (a thread-local or seeded PRNG) is outside the model.
  What is kept is its observable contract: a sequence of calls
  `gen_range(0..n)`, each with `n > 0`, each answering a number below `n`,
  each advancing the generator's state. The generator's raw outputs are an
  arbitrary stream, and the k-th call answers the k-th raw output reduced
  into `[0, n)`; because the stream is arbitrary, every sequence of in-range
  answers is possible.
 */
module Random {

  /** The raw outputs of a generator: call number k reads `outputs(k)`. */
  type Stream = nat -> nat

  /** The answer of call number `k` of `gen_range(0..n)`. */
  function Draw(outputs: Stream, k: nat, n: nat): (r: nat)
    requires n > 0
    ensures r < n
  {
    outputs(k) % n
  }

  /** A random generator with mutable state: the number of draws taken so far. */
  class Rng {
    const outputs: Stream
    var drawn: nat

    constructor (outputs: Stream)
      ensures this.outputs == outputs && drawn == 0
    {
      this.outputs := outputs;
      drawn := 0;
    }

    /** `gen_range(0..n)`: a number in `[0, n)`; an empty range is never asked for. */
    method GenRange(n: nat) returns (r: nat)
      requires n > 0
      modifies this
      ensures r < n
      ensures r == Draw(outputs, old(drawn), n)
      ensures drawn == old(drawn) + 1
    {
      r := Draw(outputs, drawn, n);
      drawn := drawn + 1;
    }
  }
}
