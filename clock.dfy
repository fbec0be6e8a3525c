/** The wall clock (`Instant.now()`, `InstantUtils.now()`), abstracted as a non-decreasing count. */
module Clocks {

  class Clock {
    var time: nat

    constructor (start: nat)
      ensures time == start
    {
      time := start;
    }

    /** Reads the clock: some instant no earlier than the previous reading. */
    method Now() returns (t: nat)
      modifies this
      ensures old(time) <= t && time == t
    {
      t :| t >= time;
      time := t;
    }
  }
}
