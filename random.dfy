/** The solver's pseudo-random generator, seen only through the values it yields. */
module Randomness {
  import opened SwarmModel

  /**
   * A seeded generator: NextDouble hands out the values of a fixed stream, in
   * order, each in [0, 1).  `drawn` counts the values taken so far.
   */
  class Random {
    const stream: Stream
    var drawn: nat

    constructor (stream: Stream)
      ensures this.stream == stream && drawn == 0
    {
      this.stream := stream;
      drawn := 0;
    }

    method NextDouble() returns (r: real)
      modifies this
      ensures 0.0 <= r < 1.0
      ensures r == stream(old(drawn)) && drawn == old(drawn) + 1
    {
      r := stream(drawn);
      drawn := drawn + 1;
    }
  }
}
