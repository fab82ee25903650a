/** Python's random.Random as the controller uses it: one object, seeded, that
    hands out values in [0, 1) in order and is shared with the data function. */
module Randomness {

  type Unit = r: real | 0.0 <= r < 1.0

  /** The generator's output for a seed is a fixed stream; the object keeps
      the seed and how far into the stream it has read. The stream itself
      (Python's Mersenne Twister) is a parameter. */
  class RandomObject {
    const stream: (int, nat) -> Unit
    var seed: int
    var cursor: nat

    constructor (stream: (int, nat) -> Unit, seed: int)
      ensures this.stream == stream && this.seed == seed && cursor == 0
    {
      this.stream := stream;
      this.seed := seed;
      cursor := 0;
    }

    /** random.seed(s): restart the stream of seed s. */
    method Seed(s: int)
      modifies this
      ensures seed == s && cursor == 0
    {
      seed := s;
      cursor := 0;
    }

    /** random.random(): the next value of the stream. */
    method Random() returns (r: Unit)
      modifies this
      ensures r == stream(old(seed), old(cursor))
      ensures seed == old(seed) && cursor == old(cursor) + 1
    {
      r := stream(seed, cursor);
      cursor := cursor + 1;
    }

    /** The draws another user of the object (the data function) makes. */
    method Skip(n: nat)
      modifies this
      ensures seed == old(seed) && cursor == old(cursor) + n
    {
      cursor := cursor + n;
    }
  }
}
