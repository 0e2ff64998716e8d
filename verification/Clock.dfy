/** The 32-bit millisecond clock. True time is an unbounded `nat`; the firmware
    only ever sees it modulo 2^32 and subtracts readings with wrap-around. */
module Clock {
  const WRAP: nat := 0x1_0000_0000

  type uint32 = n: nat | n < WRAP

  function Ticks(t: nat): uint32 {
    t % WRAP
  }

  /** `uint32_t(now - since)`. */
  function Elapsed(now: uint32, since: uint32): uint32 {
    (now - since) % WRAP
  }

  /** A wrapped difference never exceeds the true one, so "at least d elapsed"
      is sound however long the loop stalls; it is exact within one wrap. */
  lemma ElapsedBounds(now: nat, since: nat)
    requires since <= now
    ensures Elapsed(Ticks(now), Ticks(since)) <= now - since
    ensures now - since < WRAP ==> Elapsed(Ticks(now), Ticks(since)) == now - since
  {
  }
}
