/** The deadline arithmetic of src/rpc_proxy.cpp. */
module Deadlines {
  import opened MessageHeads

  const NANO := 1_000_000_000

  class Timespec {
    var sec: int
    var nsec: int

    constructor (s: int, n: int)
      ensures sec == s && nsec == n
    {
      sec, nsec := s, n;
    }

    ghost function Total(): int
      reads this
    {
      sec * NANO + nsec
    }
  }

  function InNanos(tv: Timeval): int { tv.sec * NANO + tv.usec * 1000 }

  /**
   * tp_tvaddtp: the sum of a timeval and a timespec, also when the result goes into the summand.
   * One carry is all it does, so the result is normalized exactly when the two sub-second parts
   * add up to less than two seconds.
   */
  method AddTimeval(tv: Timeval, tp: Timespec, ttp: Timespec)
    modifies ttp
    ensures ttp.Total() == InNanos(tv) + old(tp.Total())
    ensures ttp.nsec < NANO <==> tv.usec * 1000 + old(tp.nsec) < 2 * NANO
    ensures 0 <= tv.usec < 1_000_000 && 0 <= old(tp.nsec) < NANO ==> 0 <= ttp.nsec < NANO
    ensures tp != ttp ==> tp.sec == old(tp.sec) && tp.nsec == old(tp.nsec)
  {
    ttp.sec := tv.sec + tp.sec;
    ttp.nsec := tv.usec * 1000 + tp.nsec;
    if ttp.nsec >= NANO {
      ttp.sec := ttp.sec + 1;
      ttp.nsec := ttp.nsec - NANO;
    }
  }

  /**
   * The deadline of RPCProxy::wait for a configured timeout is normalized.  It is never too late,
   * and lies the configured time ahead exactly when that is a whole number of seconds: the rest,
   * given in milliseconds, is taken for microseconds.
   */
  method Deadline(ms: nat, now: Timespec)
    requires 0 <= now.nsec < NANO
    modifies now
    ensures 0 <= now.nsec < NANO
    ensures now.Total() == old(now.Total()) + ms / 1000 * NANO + ms % 1000 * 1000
    ensures now.Total() - old(now.Total()) <= ms * (NANO / 1000)
    ensures now.Total() - old(now.Total()) == ms * (NANO / 1000) <==> ms % 1000 == 0
  {
    AddTimeval(Configured(ms), now, now);
  }
}
