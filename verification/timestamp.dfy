/**
 * The simulated hardware timestamp: a 24-bit counter ticking every 32 ns,
 * read off a steady clock whose nanosecond count is passed in.
 */
module Timestamp {
  import opened Types

  /** Nanoseconds per counter tick. */
  const ClockPeriodNs: nat := 32

  /** Largest counter value, (1 << 24) - 1. */
  const CounterMax: nat := 0x100_0000 - 1

  /** Ticks after which the counter wraps, 2^24. */
  const CounterModulus: nat := CounterMax + 1

  /** getSimulatedTimestamp, given the steady-clock count in nanoseconds. */
  function SimulatedTimestamp(ns: nat): (t: u32)
    ensures t <= CounterMax
  {
    (ns / ClockPeriodNs) % CounterModulus
  }

  /** The constants give a 24-bit counter. */
  lemma CounterIs24Bits()
    ensures CounterMax == 16777215 && CounterModulus == 0x100_0000
  {
  }

  /** Two readings in the same 32 ns tick give the same timestamp. */
  lemma SameTick(ns1: nat, ns2: nat)
    requires ns1 / ClockPeriodNs == ns2 / ClockPeriodNs
    ensures SimulatedTimestamp(ns1) == SimulatedTimestamp(ns2)
  {
  }

  /** One tick later the counter has advanced by one, wrapping at 2^24. */
  lemma NextTick(ns: nat)
    ensures SimulatedTimestamp(ns + ClockPeriodNs) == (SimulatedTimestamp(ns) + 1) % CounterModulus
  {
    var k := ns / ClockPeriodNs;
    assert (ns + ClockPeriodNs) / ClockPeriodNs == k + 1;
  }

  /** The counter repeats every 2^24 ticks, about 536.8 ms. */
  lemma WrapPeriod(ns: nat)
    ensures SimulatedTimestamp(ns + CounterModulus * ClockPeriodNs) == SimulatedTimestamp(ns)
  {
    var k := ns / ClockPeriodNs;
    assert (ns + CounterModulus * ClockPeriodNs) / ClockPeriodNs == k + CounterModulus;
  }
}
