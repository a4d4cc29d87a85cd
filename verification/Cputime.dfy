/** The packed estimate of a thread's running time: cputime_estimator_set() and _get() of core/sched.cc.

    Two 64-bit times are stored as 32 bits each: 10 low and 22 high bits are dropped. Reading them back takes the high
    bits from a reference time. Words are numbers below 2^64; an `or` of words without common bits is a sum.
  */
module Cputime {

  const WORD: nat := 0x1_0000_0000_0000_0000
  const HALF: nat := 0x1_0000_0000

  /** Below this many nanoseconds a time is stored, in units of UNIT. */
  const RANGE: nat := 0x400_0000_0000
  const UNIT: nat := 0x400

  type Time = x: int | 0 <= x < WORD

  /** cputime_estimator_set(): the two times in one word. */
  function Pack(runningSince: Time, totalTime: Time): (e: Time)
  {
    var rs := runningSince / UNIT % HALF;
    var tc := totalTime / UNIT % HALF;
    rs + tc * HALF
  }

  /** One half of cputime_estimator_get(): the stored bits completed from a reference; the borrow wraps at 64 bits. */
  function Recover(stored: nat, reference: Time): (t: Time)
    requires stored < RANGE
  {
    var high := reference / RANGE * RANGE;
    var high' := if reference % RANGE < stored then (high - RANGE) % WORD else high;
    high' + stored
  }

  function RunningSince(e: Time, now: Time): (t: Time)
  {
    Recover(e % HALF * UNIT, now)
  }

  function TotalTime(e: Time, total: Time): (t: Time)
  {
    Recover(e / HALF * UNIT, total)
  }

  /** The part of a saved time that can come back. */
  function Coarse(t: Time): (c: Time)
  {
    t / UNIT * UNIT
  }

  lemma Unpack(rs: Time, tc: Time)
    ensures Pack(rs, tc) % HALF * UNIT == Coarse(rs) % RANGE
    ensures Pack(rs, tc) / HALF * UNIT == Coarse(tc) % RANGE
  {
  }

  /** A saved time comes back, low bits cleared, exactly when the reference is less than 2^42 ns past it, counted
      around the 64-bit word. */
  lemma RecoversExactly(saved: Time, reference: Time)
    ensures Recover(Coarse(saved) % RANGE, reference) == Coarse(saved) <==> (reference - Coarse(saved)) % WORD < RANGE
    ensures Coarse(saved) <= reference ==> (reference - Coarse(saved)) % WORD == reference - Coarse(saved)
  {
  }

  /** Round trip of both halves, exact in both directions, for references at or after the saved times. */
  lemma RoundTrip(rs: Time, tc: Time, now: Time, total: Time)
    requires Coarse(rs) <= now && Coarse(tc) <= total
    ensures RunningSince(Pack(rs, tc), now) == Coarse(rs) <==> now < Coarse(rs) + RANGE
    ensures TotalTime(Pack(rs, tc), total) == Coarse(tc) <==> total < Coarse(tc) + RANGE
  {
    Unpack(rs, tc);
    RecoversExactly(rs, now);
    RecoversExactly(tc, total);
  }
}
