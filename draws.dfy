/** The random source of the simulator, made explicit.
    The engine draws from Python's global `random.random()`; here a game is
    driven by an injected, infinite stream of draws and a cursor into it, so
    that every outcome is a function of the stream and the starting position. */
module Draws {

  /** A draw lies in [0, 1), the range of `random.random()`. */
  type Draw = r: real | 0.0 <= r < 1.0

  class Random {
    /** The draws, in the order they are taken. */
    const stream: nat -> Draw
    /** How many draws have been taken so far. */
    var pos: nat

    constructor (stream: nat -> Draw)
      ensures this.stream == stream && pos == 0
    {
      this.stream := stream;
      pos := 0;
    }

    /** Takes the next draw. */
    method Next() returns (r: Draw)
      modifies this
      ensures r == stream(old(pos)) && pos == old(pos) + 1
    {
      r := stream(pos);
      pos := pos + 1;
    }
  }
}
