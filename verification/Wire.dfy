/** The I2C bus with the two expanders on it, and the clock. Transfers may fail:
    a failed write either changed nothing or was applied although it was not
    acknowledged; a read fails or tells the truth; input pins are whatever the
    board imposes at that instant. Every call may take any amount of time. On a
    benign bus, one such environment, every transfer gets through, the pins follow
    their latches and time passes only between calls. */
module Wire {
  import opened Options
  import opened Bits
  import opened Clock
  import opened Expander

  class Bus {
    var bank: Bank
    var now: nat
    const benign: bool
    ghost const start: Bank
    ghost var trace: seq<Event>
    ghost var mon: Monitor
    ghost var faults: nat  // transfers that were not acknowledged

    ghost predicate Valid()
      reads this
    {
      mon == Fold(start, trace) && mon.bank == bank && mon.at <= now && Coherent(mon)
    }

    /** Time only passes, and on a benign bus not inside a call. */
    twostate predicate Later()
      reads this
    {
      old(now) <= now && (benign ==> now == old(now))
    }

    /** Powers up over whatever the expanders retained. */
    constructor (retained: Bank, at: nat, benign: bool)
      ensures Valid() && bank == retained && start == retained && now == at && this.benign == benign
      ensures trace == [] && mon == Start(retained)
    {
      bank, now, this.benign := retained, at, benign;
      start, trace, mon, faults := retained, [], Start(retained), 0;
    }

    ghost method Record(e: Event)
      requires mon == Fold(start, trace) && mon.at <= e.at && Coherent(mon)
      modifies this`trace, this`mon
      ensures trace == old(trace) + [e] && mon == Observe(old(mon), e)
      ensures mon == Fold(start, trace) && Coherent(mon)
    {
      FoldSnoc(start, trace, e);
      ObserveCoherent(mon, e);
      trace, mon := trace + [e], Observe(mon, e);
    }

    method Pass()
      modifies this`now
      ensures Later()
    {
      if !benign {
        var d: nat :| 0 <= d;
        now := now + d;
      }
    }

    /** Time between calls. */
    method Wait(ms: nat)
      requires Valid()
      modifies this`now
      ensures Valid() && now == old(now) + ms
    {
      now := now + ms;
    }

    method Millis() returns (u: uint32)
      modifies this`now
      ensures Later() && u == Ticks(now)
    {
      Pass();
      u := Ticks(now);
    }

    /** A pin level or the outcome of a local setup step, as the board has it. */
    method Sense() returns (high: bool)
      ensures benign ==> high
    {
      high := benign;
      if !high {
        high := *;
      }
    }

    /** Reads a pair of output, polarity or direction registers. */
    method ReadPair(device: Device, pair: Pair) returns (ok: bool, v0: Byte, v1: Byte)
      modifies this`now, this`faults
      ensures Later() && faults == old(faults) + (if ok then 0 else 1) && (benign ==> ok)
      ensures ok ==> (v0, v1) == Get(bank.Of(device), pair)
    {
      Pass();
      ok, v0, v1 := benign, X00, X00;
      if !ok {
        ok := *;
      }
      if ok {
        v0, v1 := Get(bank.Of(device), pair).0, Get(bank.Of(device), pair).1;
      } else {
        faults := faults + 1;
      }
    }

    /** Reads the input register pair: the pins as seen through the polarity registers. */
    method ReadInputs(device: Device) returns (ok: bool, v0: Byte, v1: Byte)
      requires Valid()
      modifies this`now, this`trace, this`mon, this`faults
      ensures Valid() && Later() && old(trace) <= trace && faults == old(faults) + (if ok then 0 else 1)
      ensures benign ==> ok && v1.Xor(bank.Of(device).pol1) == Driven(bank.Of(device))
      ensures ok ==> var read := PinsRead(now, device, v1.Xor(bank.Of(device).pol1));
                     trace == old(trace) + [read] && mon == Observe(old(mon), read)
      ensures !ok ==> mon == old(mon) && trace == old(trace)
    {
      Pass();
      ok, v0, v1 := benign, X00, X00;
      if !ok {
        ok := *;
      }
      if ok {
        var pins0, pins1 := Driven0(bank.Of(device)), Driven(bank.Of(device));
        if !benign {
          pins0, pins1 := *, *;
        }
        v0, v1 := pins0.Xor(bank.Of(device).pol0), pins1.Xor(bank.Of(device).pol1);
        assert v1.Xor(bank.Of(device).pol1) == pins1;
        Record(PinsRead(now, device, pins1));
      } else {
        faults := faults + 1;
      }
    }

    /** Writes one register. An acknowledged write took effect. */
    method WriteRegister(device: Device, reg: Register, value: Byte) returns (ok: bool)
      requires Valid()
      modifies this
      ensures Valid() && Later() && old(trace) <= trace && faults == old(faults) + (if ok then 0 else 1)
      ensures benign ==> ok
      ensures var after := old(bank).With(device, Put(old(bank).Of(device), reg, value));
              || (bank == after && mon == Observe(old(mon), Wrote(now, old(bank), after)))
              || (!ok && bank == old(bank) && mon == old(mon))
    {
      Pass();
      var applied: bool := *;
      ok := benign;
      if !ok {
        ok := *;
      }
      if ok || applied {
        var after := bank.With(device, Put(bank.Of(device), reg, value));
        Record(Wrote(now, bank, after));
        bank := after;
      }
      faults := faults + if ok then 0 else 1;
    }
  }
}
