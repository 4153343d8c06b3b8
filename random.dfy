/**
 * A stand-in for Python's `random.Random`.  The game only relies on
 * `randint(a, b)` returning some integer in [a, b]; the generator's own
 * algorithm is not part of this model, and the seed (taken from the operating
 * system in the source) is a parameter.
 */
module PyRandom {

  class Random {
    var state: nat

    constructor (seed: nat)
      ensures state == seed
    {
      state := seed;
    }

    /** randint: an integer between `a` and `b`, both included. */
    method RandInt(a: int, b: int) returns (r: int)
      requires a <= b
      modifies this
      ensures a <= r <= b
    {
      state := (state * 1103515245 + 12345) % 0x8000_0000;
      r := a + state % (b - a + 1);
    }
  }
}
