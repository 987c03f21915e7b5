/** A software debouncer: it fires when more than `debounceTime` milliseconds have passed since
    it last fired, on the wrapping millisecond clock of the Arduino core. The clock reading is
    a parameter of `Debounce`. */
module Debouncer {
  import opened Arduino

  /** A C `int`; at most 32 bits wide on the Arduino targets. */
  type CInt = x: int | -0x8000_0000 <= x < 0x8000_0000

  /** `now - last_fired` in `unsigned long` arithmetic: correct across one wrap of the clock. */
  function Elapsed(lastFired: ULong, now: ULong): (e: ULong)
    ensures lastFired <= now ==> e == now - lastFired
    ensures now < lastFired ==> e == ULONG_MODULUS - lastFired + now
  {
    ToULong(now - lastFired)
  }

  /** The test in `debounce()`: the `int` threshold is converted to `unsigned long` for the
      comparison, so a negative threshold becomes 2^32 plus it. A non-negative threshold is an
      ordinary comparison; a negative one fires only after more than 2^31 ms, and -1 never. */
  predicate Fires(lastFired: ULong, debounceTime: CInt, now: ULong)
    ensures 0 <= debounceTime ==> (Fires(lastFired, debounceTime, now) <==> Elapsed(lastFired, now) > debounceTime)
    ensures debounceTime < 0 ==> (Fires(lastFired, debounceTime, now) <==> Elapsed(lastFired, now) > ULONG_MODULUS + debounceTime)
    ensures debounceTime < 0 && Fires(lastFired, debounceTime, now) ==> Elapsed(lastFired, now) > 0x8000_0000
    ensures debounceTime == -1 ==> !Fires(lastFired, debounceTime, now)
  {
    Elapsed(lastFired, now) > ToULong(debounceTime)
  }

  /** Firing at `now` restarts the interval: whatever the threshold, the debouncer cannot fire
      twice at the same clock reading, since no time has elapsed and the converted threshold is
      never negative. */
  lemma NoDoubleFire(lastFired: ULong, debounceTime: CInt, now: ULong)
    requires Fires(lastFired, debounceTime, now)
    ensures !Fires(now, debounceTime, now)
  {
  }

  /** Across a wrap of the clock: fired 10 ms before the wrap, 5 ms after it 15 ms have passed. */
  lemma FiresAcrossWrap()
    ensures Elapsed(ULONG_MODULUS - 10, 5) == 15
    ensures Fires(ULONG_MODULUS - 10, 14, 5) && !Fires(ULONG_MODULUS - 10, 15, 5)
  {
  }

  class Debouncer {
    const debounceTime: CInt
    var lastFired: ULong

    constructor(debounceTime: CInt)
      ensures this.debounceTime == debounceTime && lastFired == 0
    {
      this.debounceTime := debounceTime;
      lastFired := 0;
    }

    /** `debounce()`: reports whether the interval has passed and, if so, restarts it at `now`;
        otherwise nothing changes. */
    method Debounce(now: ULong) returns (fired: bool)
      modifies this
      ensures fired == Fires(old(lastFired), debounceTime, now)
      ensures lastFired == if fired then now else old(lastFired)
      ensures fired ==> !Fires(lastFired, debounceTime, now)
    {
      if Elapsed(lastFired, now) > ToULong(debounceTime) {
        lastFired := now;
        return true;
      }
      return false;
    }
  }
}
