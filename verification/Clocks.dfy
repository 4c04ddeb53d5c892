/** The injected clock: it never runs backwards. Times are in seconds. */
module Clocks {

  class Clock {
    var now: int

    method Now() returns (t: int)
      modifies this
      ensures t == now >= old(now)
    {
      var elapsed: nat :| elapsed >= 0;
      now := now + elapsed;
      t := now;
    }
  }
}
