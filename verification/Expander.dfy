/** The two TCA9535 port expanders, the trace of everything that happens to them,
    and the sequencing rules every register write has to obey.

    A pin is driven high ("driven") when its direction bit is output and its
    latch bit is one. The rules are checked by a monitor that reads the trace from
    left to right; the lemmas at the end say what an accepted trace guarantees
    without mentioning the monitor's own bookkeeping. */
module Expander {
  import opened Options
  import opened Bits

  /** The writable registers of one expander: output latches, polarity
      inversion and direction (configuration; one is input), ports 0 and 1. */
  datatype Registers = Registers(out0: Byte, out1: Byte, pol0: Byte, pol1: Byte, cfg0: Byte, cfg1: Byte)

  datatype Device = Internal | External

  datatype Bank = Bank(internal: Registers, external: Registers) {
    function Of(device: Device): Registers {
      if device == Internal then internal else external
    }

    function With(device: Device, r: Registers): Bank {
      if device == Internal then this.(internal := r) else this.(external := r)
    }
  }

  const BOOST: Byte := X01
  const CE: Byte := X02
  const HIGH_CURRENT: Byte := X04
  const TS_OVERRIDE: Byte := X08
  const BUCK: Byte := X10
  const UNUSED_INPUTS: Byte := XE0
  const DEFINED: Byte := X1F
  const J8: Byte := X01

  const POWER_ON: Registers := Registers(XFF, XFF, X00, X00, XFF, XFF)
  const ALL_OFF: Registers := Registers(X00, X00, X00, X00, XFF, XE0)

  /** The writable registers, numbers 2 to 7 of the device. */
  datatype Register = Output0 | Output1 | Polarity0 | Polarity1 | Config0 | Config1

  function Put(r: Registers, reg: Register, value: Byte): Registers {
    match reg
    case Output0 => r.(out0 := value)
    case Output1 => r.(out1 := value)
    case Polarity0 => r.(pol0 := value)
    case Polarity1 => r.(pol1 := value)
    case Config0 => r.(cfg0 := value)
    case Config1 => r.(cfg1 := value)
  }

  /** The registers behind one address; the device reads them in such pairs. */
  datatype Pair = Outputs | Polarities | Configs

  function Get(r: Registers, pair: Pair): (Byte, Byte) {
    match pair
    case Outputs => (r.out0, r.out1)
    case Polarities => (r.pol0, r.pol1)
    case Configs => (r.cfg0, r.cfg1)
  }

  function Driven0(r: Registers): Byte { r.out0.Minus(r.cfg0) }

  function Driven(r: Registers): Byte { r.out1.Minus(r.cfg1) }

  predicate BoostOn(b: Bank) { Driven(b.internal).b0 }

  predicate CeOn(b: Bank) { Driven(b.internal).b1 }

  predicate BuckOn(b: Bank) { Driven(b.internal).b4 }

  predicate J8On(b: Bank) { Driven(b.external).b0 }

  /** The four switched outputs. */
  datatype Port = Vbus | FiveVoltVbus | VbusSs | FiveVoltSs

  /** The pin behind each output: P10 is J8's 5 V, P11 VBUS, P12 the Jetson's, P13 the backed 5 V. */
  predicate OutputOn(b: Bank, port: Port) {
    match port
    case FiveVoltVbus => J8On(b)
    case Vbus => Driven(b.external).b1
    case VbusSs => Driven(b.external).b2
    case FiveVoltSs => Driven(b.external).b3
  }

  /** CE is actively held low: latch zero, direction output. */
  predicate CeHeldLow(r: Registers) { !r.out1.b1 && !r.cfg1.b1 }

  /** Boost driven with the low-current profile and the real thermistor selected. */
  predicate Supply(r: Registers) {
    && !r.cfg1.b0 && !r.cfg1.b2 && !r.cfg1.b3
    && r.out1.b0 && !r.out1.b2 && !r.out1.b3
  }

  /** Neither the high-current nor the thermistor-override enable is raised. */
  predicate ProfileKept(before: Bank, after: Bank) {
    && (Driven(after.internal).b2 ==> Driven(before.internal).b2)
    && (Driven(after.internal).b3 ==> Driven(before.internal).b3)
  }

  /** Every enable driven in `after` was already driven in `before`. */
  predicate Shrinks(before: Bank, after: Bank) {
    && Driven(after.internal).Within(Driven(before.internal))
    && Driven(after.external).Within(Driven(before.external))
    && Driven0(after.internal).Within(Driven0(before.internal))
    && Driven0(after.external).Within(Driven0(before.external))
  }

  datatype Operation =
    | NoOperation | Reconcile | PrepareCharge | EnableCharge | DisableCharging | PortChange | RestorePor

  /** The latch behind that pin. */
  predicate Latched(b: Bank, port: Port) {
    match port
    case FiveVoltVbus => b.external.out1.b0
    case Vbus => b.external.out1.b1
    case VbusSs => b.external.out1.b2
    case FiveVoltSs => b.external.out1.b3
  }

  /** What an observer of the board sees. `Served` marks one call of service()
      that executes a stage, with the output a port operation is for; `Sampled` is one evaluation of the buck power-good
      wait; the other two are bus transfers that reached a device. */
  datatype Event =
    | Served(at: nat, op: Operation, enabling: bool, port: Port)
    | Sampled(at: nat, good: bool)
    | PinsRead(at: nat, device: Device, pins: Byte)
    | Wrote(at: nat, before: Bank, after: Bank)

  /** Operations that may only take enables away. */
  predicate Lowering(op: Operation, enabling: bool) {
    op == Reconcile || op == RestorePor || op == DisableCharging || (op == PortChange && !enabling)
  }

  /** What an operation may touch. A port operation moves no output but its own, and
      only J8's moves the buck; charging moves no output and not the buck; only
      reconciliation and the return to power-on defaults reach everything. */
  predicate Confined(op: Operation, port: Port, before: Bank, after: Bank) {
    var i, j, d, e := Driven(before.internal), Driven(after.internal), Driven(before.external), Driven(after.external);
    match op
    case Reconcile | RestorePor => true
    case PrepareCharge | EnableCharge | DisableCharging =>
      after.external == before.external && j.b4 == i.b4 && (op == EnableCharge ==> j.b0 == i.b0)
    case PortChange =>
      && j == i.(b4 := j.b4) && (port != FiveVoltVbus ==> j == i)
      && e == (match port
               case FiveVoltVbus => d.(b0 := e.b0)
               case Vbus => d.(b1 := e.b1)
               case VbusSs => d.(b2 := e.b2)
               case FiveVoltSs => d.(b3 := e.b3))
    case NoOperation => after == before
  }

  /** The buck power-good wait: `Good(since, answered)` while every service call
      since `since` sampled it good (the current one only if `answered`). */
  datatype BuckWait = NotGood | Good(since: nat, answered: bool)

  datatype Monitor = Monitor(
    bank: Bank, at: nat, op: Operation, enabling: bool, port: Port,
    ceLow: Option<nat>,      // since when CE was read low and held low ever since
    selected: Option<nat>,   // since when PrepareCharge's supply selection stands
    buckGood: BuckWait, safe: bool)

  function Start(bank: Bank): Monitor {
    Monitor(bank, 0, NoOperation, false, Vbus, None, None, NotGood, true)
  }

  /** The sequencing rules, for a write at time `at` that leaves the registers as `after`. */
  predicate Permitted(m: Monitor, at: nat, after: Bank) {
    && (BoostOn(m.bank) && !BoostOn(after) ==> m.ceLow.Some? && m.ceLow.value + 100 <= at)
    && (!CeOn(m.bank) && CeOn(after) ==>
          m.op == EnableCharge && m.selected.Some? && m.selected.value + 500 <= at && Supply(after.internal))
    && ProfileKept(m.bank, after)
    && (BuckOn(m.bank) && !BuckOn(after) ==> !J8On(m.bank) && !J8On(after))
    && (!J8On(m.bank) && J8On(after) ==>
          m.op == PortChange && m.enabling && m.buckGood.Good? && !m.buckGood.answered
          && m.buckGood.since + 100 <= at && BuckOn(m.bank) && BuckOn(after))
    && (Lowering(m.op, m.enabling) ==> Shrinks(m.bank, after))
    && Confined(m.op, m.port, m.bank, after)
  }

  /** The evidence that survives a write. */
  function AfterWrite(m: Monitor, at: nat, after: Bank): Monitor {
    Monitor(after, at, m.op, m.enabling, m.port,
            if CeHeldLow(after.internal) then m.ceLow else None,
            if !Supply(after.internal) then None
            else if m.selected.None? && m.op == PrepareCharge then Some(at) else m.selected,
            if BuckOn(after) then m.buckGood else NotGood,
            m.safe)
  }

  function Observe(m: Monitor, e: Event): Monitor {
    match e
    case Served(at, op, enabling, port) =>
      var selected := if op == DisableCharging || op == Reconcile || op == RestorePor then None else m.selected;
      var buckGood := if op == PortChange && m.buckGood.Good? && m.buckGood.answered
                      then Good(m.buckGood.since, false) else NotGood;
      m.(at := at, op := op, enabling := enabling, port := port, selected := selected, buckGood := buckGood,
         safe := m.safe && m.at <= at)
    case Sampled(at, good) =>
      var buckGood := if !good || !BuckOn(m.bank) then NotGood
                      else if m.buckGood.Good? then Good(m.buckGood.since, true) else Good(at, true);
      m.(at := at, buckGood := buckGood, safe := m.safe && m.at <= at)
    case PinsRead(at, device, pins) =>
      var low := device == Internal && !pins.b1 && CeHeldLow(m.bank.internal);
      m.(at := at, ceLow := if m.ceLow.None? && low then Some(at) else m.ceLow,
         safe := m.safe && m.at <= at)
    case Wrote(at, before, after) =>
      AfterWrite(m, at, after).(safe := m.safe && m.at <= at && before == m.bank && Permitted(m, at, after))
  }

  /** The monitor after reading the whole trace. */
  function Fold(start: Bank, trace: seq<Event>): Monitor {
    if trace == [] then Start(start)
    else Observe(Fold(start, trace[..|trace| - 1]), trace[|trace| - 1])
  }

  ghost predicate Accepted(start: Bank, trace: seq<Event>) {
    Fold(start, trace).safe
  }

  /** The monitor's view is meaningful: its claims hold of the current registers. */
  predicate Coherent(m: Monitor) {
    && (m.ceLow.Some? ==> m.ceLow.value <= m.at && CeHeldLow(m.bank.internal))
    && (m.selected.Some? ==> m.selected.value <= m.at && Supply(m.bank.internal))
    && (m.buckGood.Good? ==> m.buckGood.since <= m.at && BuckOn(m.bank))
  }

  lemma ObserveCoherent(m: Monitor, e: Event)
    requires Coherent(m) && m.at <= e.at
    ensures Coherent(Observe(m, e))
  {
  }

  lemma FoldSnoc(start: Bank, trace: seq<Event>, e: Event)
    ensures Fold(start, trace + [e]) == Observe(Fold(start, trace), e)
  {
    assert (trace + [e])[..|trace|] == trace;
  }

  /** Acceptance is prefix closed and the folded monitor is coherent. */
  lemma {:induction false} AcceptedPrefix(start: Bank, trace: seq<Event>, n: nat)
    requires Accepted(start, trace) && n <= |trace|
    ensures Accepted(start, trace[..n])
    ensures Coherent(Fold(start, trace[..n]))
    decreases |trace|
  {
    if n < |trace| {
      var front := trace[..|trace| - 1];
      assert front[..n] == trace[..n];
      AcceptedPrefix(start, front, n);
    } else if n > 0 {
      var front := trace[..n - 1];
      assert trace[..n] == trace && front[..n - 1] == front;
      AcceptedPrefix(start, front, n - 1);
      ObserveCoherent(Fold(start, front), trace[n - 1]);
    } else {
      assert trace[..n] == [];
    }
  }

  lemma AcceptedStep(start: Bank, trace: seq<Event>, i: nat)
    requires Accepted(start, trace) && i < |trace|
    ensures Fold(start, trace[..i + 1]) == Observe(Fold(start, trace[..i]), trace[i])
    ensures Fold(start, trace[..i]).safe && Fold(start, trace[..i + 1]).safe
    ensures Coherent(Fold(start, trace[..i]))
  {
    assert trace[..i + 1] == trace[..i] + [trace[i]];
    FoldSnoc(start, trace[..i], trace[i]);
    AcceptedPrefix(start, trace, i);
    AcceptedPrefix(start, trace, i + 1);
  }

  // ---- What an accepted trace guarantees, in terms of the events alone ----

  /** The registers after the trace: those of the last write. */
  function BankAfter(start: Bank, trace: seq<Event>): Bank {
    if trace == [] then start
    else
      var last := trace[|trace| - 1];
      if last.Wrote? then last.after else BankAfter(start, trace[..|trace| - 1])
  }

  /** The operation whose stage is executing after the trace, with its enable flag. */
  function OpAfter(trace: seq<Event>): (Operation, bool) {
    if trace == [] then (NoOperation, false)
    else
      var last := trace[|trace| - 1];
      if last.Served? then (last.op, last.enabling) else OpAfter(trace[..|trace| - 1])
  }

  /** The output of that operation. */
  function PortAfter(trace: seq<Event>): Port {
    if trace == [] then Vbus
    else
      var last := trace[|trace| - 1];
      if last.Served? then last.port else PortAfter(trace[..|trace| - 1])
  }

  lemma {:induction false} FoldAgrees(start: Bank, trace: seq<Event>)
    ensures Fold(start, trace).bank == BankAfter(start, trace) && Fold(start, trace).port == PortAfter(trace)
    ensures (Fold(start, trace).op, Fold(start, trace).enabling) == OpAfter(trace)
  {
    if trace != [] {
      FoldAgrees(start, trace[..|trace| - 1]);
    }
  }

  /** CE was read low on its pin by event j and has been actively held low up to event n. */
  ghost predicate CeLowSince(trace: seq<Event>, j: int, n: int) {
    && 0 <= j < n <= |trace|
    && trace[j].PinsRead? && trace[j].device == Internal && !trace[j].pins.b1
    && forall k | j < k < n && trace[k].Wrote? ::
         CeHeldLow(trace[k].before.internal) && CeHeldLow(trace[k].after.internal)
  }

  lemma {:induction false} CeLowWitness(start: Bank, trace: seq<Event>) returns (j: int)
    requires Accepted(start, trace) && Fold(start, trace).ceLow.Some?
    ensures CeLowSince(trace, j, |trace|) && trace[j].at == Fold(start, trace).ceLow.value
  {
    var n := |trace| - 1;
    var front, last := trace[..n], trace[n];
    AcceptedPrefix(start, trace, n);
    if Fold(start, front).ceLow.Some? {
      j := CeLowWitness(start, front);
      assert forall k | j < k < n :: trace[k] == front[k];
    } else {
      j := n;
    }
  }

  predicate BoostDrop(e: Event) { e.Wrote? && BoostOn(e.before) && !BoostOn(e.after) }

  /** Boost is only ever taken away when CE was read low at least 100 ms of true
      time earlier and has been held low ever since. */
  lemma BoostDropsAfterCeDecay(start: Bank, trace: seq<Event>, i: nat)
    requires Accepted(start, trace) && i < |trace| && BoostDrop(trace[i])
    ensures CeHeldLow(trace[i].before.internal)
    ensures exists j :: CeLowSince(trace, j, i) && trace[j].at + 100 <= trace[i].at
  {
    AcceptedStep(start, trace, i);
    var j := CeLowWitness(start, trace[..i]);
    assert CeLowSince(trace, j, i);
  }

  /** PrepareCharge's write j left boost driven with low current and the real
      thermistor, every later write kept that, and no operation that tears
      charging down executed a stage since. */
  ghost predicate SelectedSince(trace: seq<Event>, j: int, n: int) {
    && 0 <= j < n <= |trace|
    && trace[j].Wrote? && OpAfter(trace[..j]).0 == PrepareCharge && Supply(trace[j].after.internal)
    && forall k | j < k < n ::
         match trace[k]
         case Wrote(_, _, after) => Supply(after.internal)
         case Served(_, op, _, _) => op != DisableCharging && op != Reconcile && op != RestorePor
         case _ => true
  }

  lemma {:induction false} SelectedWitness(start: Bank, trace: seq<Event>) returns (j: int)
    requires Accepted(start, trace) && Fold(start, trace).selected.Some?
    ensures SelectedSince(trace, j, |trace|) && trace[j].at == Fold(start, trace).selected.value
  {
    var n := |trace| - 1;
    var front, last := trace[..n], trace[n];
    AcceptedPrefix(start, trace, n);
    if Fold(start, front).selected.Some? {
      j := SelectedWitness(start, front);
      assert trace[..j] == front[..j];
      assert forall k | j < k < n :: trace[k] == front[k];
    } else {
      j := n;
      FoldAgrees(start, front);
    }
  }

  predicate CeRaise(e: Event) { e.Wrote? && !CeOn(e.before) && CeOn(e.after) }

  /** CE is raised only by EnableCharge, and only onto a supply that PrepareCharge
      selected at least 500 ms of true time earlier and nothing has disturbed. */
  lemma CeRaisedOnlyOnPreparedSupply(start: Bank, trace: seq<Event>, i: nat)
    requires Accepted(start, trace) && i < |trace| && CeRaise(trace[i])
    ensures OpAfter(trace[..i]).0 == EnableCharge
    ensures Supply(trace[i].before.internal) && Supply(trace[i].after.internal)
    ensures exists j :: SelectedSince(trace, j, i) && trace[j].at + 500 <= trace[i].at
  {
    AcceptedStep(start, trace, i);
    FoldAgrees(start, trace[..i]);
    var j := SelectedWitness(start, trace[..i]);
    assert trace[..i][..j] == trace[..j];
    assert SelectedSince(trace, j, i);
  }

  /** No write of any operation raises the high-current or thermistor-override enable. */
  lemma ProfileBitsNeverRaised(start: Bank, trace: seq<Event>, i: nat)
    requires Accepted(start, trace) && i < |trace| && trace[i].Wrote?
    ensures ProfileKept(trace[i].before, trace[i].after)
  {
    AcceptedStep(start, trace, i);
  }

  /** Since sample j the buck's power-good has been sampled good by every service
      call but (possibly) the last, all of them of the port operation, and the
      buck has stayed driven. */
  ghost predicate BuckGoodSince(trace: seq<Event>, j: int, n: int) {
    && 0 <= j < n <= |trace|
    && trace[j].Sampled? && trace[j].good
    && (forall k | j < k < n ::
         match trace[k]
         case Sampled(_, good) => good
         case Wrote(_, before, after) => BuckOn(before) && BuckOn(after)
         case Served(_, op, _, _) => op == PortChange
         case PinsRead(_, _, _) => true)
    && forall k, l | j < k < l < n && trace[k].Served? && trace[l].Served? :: AnsweredIn(trace, k, l)
  }

  ghost predicate AnsweredIn(trace: seq<Event>, k: int, l: int)
    requires 0 <= k <= l <= |trace|
  {
    exists m :: k < m < l && trace[m].Sampled? && trace[m].good
  }

  /** The wait's evidence reaches over one more event. */
  lemma BuckGoodExtends(trace: seq<Event>, j: int, n: int)
    requires 0 <= n < |trace| && BuckGoodSince(trace[..n], j, n)
    requires match trace[n]
      case Sampled(_, good) => good
      case Wrote(_, before, after) => BuckOn(before) && BuckOn(after)
      case Served(_, op, _, _) =>
        op == PortChange && forall k | j < k < n && trace[k].Served? :: AnsweredIn(trace[..n], k, n)
      case PinsRead(_, _, _) => true
    ensures BuckGoodSince(trace, j, n + 1)
  {
    forall k, l | j < k < l < n + 1 && trace[k].Served? && trace[l].Served?
      ensures AnsweredIn(trace, k, l)
    {
      assert AnsweredIn(trace[..n], k, l);
    }
  }

  lemma {:induction false} BuckGoodWitness(start: Bank, trace: seq<Event>) returns (j: int)
    requires Accepted(start, trace) && Fold(start, trace).buckGood.Good?
    ensures BuckGoodSince(trace, j, |trace|) && trace[j].at == Fold(start, trace).buckGood.since
    ensures Fold(start, trace).buckGood.answered ==>
              forall k | j < k < |trace| && trace[k].Served? :: AnsweredIn(trace, k, |trace|)
  {
    var n := |trace| - 1;
    var front, last := trace[..n], trace[n];
    AcceptedPrefix(start, trace, n);
    AcceptedStep(start, trace, n);
    if Fold(start, front).buckGood.Good? {
      j := BuckGoodWitness(start, front);
      BuckGoodExtends(trace, j, n);
      if Fold(start, trace).buckGood.answered {
        forall k | j < k < |trace| && trace[k].Served?
          ensures AnsweredIn(trace, k, |trace|)
        {
          if last.Sampled? {
            assert k < n && trace[n].Sampled? && trace[n].good;
          } else {
            assert AnsweredIn(front, k, n);
          }
        }
      }
    } else {
      j := n;
    }
  }

  predicate J8Raise(e: Event) { e.Wrote? && !J8On(e.before) && J8On(e.after) }

  /** J8 is raised only by a port operation, while its buck is driven and was
      sampled good by every service call over at least 100 ms of true time. */
  lemma J8RaisedOnlyOnGoodBuck(start: Bank, trace: seq<Event>, i: nat)
    requires Accepted(start, trace) && i < |trace| && J8Raise(trace[i])
    ensures OpAfter(trace[..i]) == (PortChange, true)
    ensures BuckOn(trace[i].before) && BuckOn(trace[i].after)
    ensures exists j :: BuckGoodSince(trace, j, i) && trace[j].at + 100 <= trace[i].at
  {
    AcceptedStep(start, trace, i);
    FoldAgrees(start, trace[..i]);
    var j := BuckGoodWitness(start, trace[..i]);
    forall k, l | j < k < l < i && trace[k].Served? && trace[l].Served?
      ensures AnsweredIn(trace, k, l)
    {
      assert AnsweredIn(trace[..i], k, l);
    }
    assert BuckGoodSince(trace, j, i);
  }

  /** No write takes the buck away from a driven J8. */
  lemma BuckKeptUnderJ8(start: Bank, trace: seq<Event>, i: nat)
    requires Accepted(start, trace) && i < |trace| && trace[i].Wrote?
    ensures J8On(trace[i].before) && BuckOn(trace[i].before) ==> BuckOn(trace[i].after)
  {
    AcceptedStep(start, trace, i);
  }

  /** External enables are raised only by a port enable for the output behind them. */
  predicate RaisedByItsOwn(op: Operation, enabling: bool, port: Port, d: Byte, f: Byte) {
    && (f.b0 && !d.b0 ==> op == PortChange && enabling && port == FiveVoltVbus)
    && (f.b1 && !d.b1 ==> op == PortChange && enabling && port == Vbus)
    && (f.b2 && !d.b2 ==> op == PortChange && enabling && port == VbusSs)
    && (f.b3 && !d.b3 ==> op == PortChange && enabling && port == FiveVoltSs)
    && (d.b4 || !f.b4) && (d.b5 || !f.b5) && (d.b6 || !f.b6) && (d.b7 || !f.b7)
  }

  /** And lowered only by a port operation for it, by reconciliation or by the return
      to power-on defaults. */
  predicate LoweredByItsOwn(op: Operation, port: Port, d: Byte, f: Byte) {
    op == Reconcile || op == RestorePor
    || (&& (d.b0 && !f.b0 ==> op == PortChange && port == FiveVoltVbus)
        && (d.b1 && !f.b1 ==> op == PortChange && port == Vbus)
        && (d.b2 && !f.b2 ==> op == PortChange && port == VbusSs)
        && (d.b3 && !f.b3 ==> op == PortChange && port == FiveVoltSs))
  }

  /** J8's converter is raised only for J8, and boost only to prepare charging. */
  predicate ConverterByItsOwn(op: Operation, enabling: bool, port: Port, d: Byte, f: Byte) {
    && (f.b4 && !d.b4 ==> op == PortChange && enabling && port == FiveVoltVbus)
    && (f.b0 && !d.b0 ==> op == PrepareCharge)
  }

  lemma RaiseConfined(op: Operation, enabling: bool, port: Port, before: Bank, after: Bank)
    requires Confined(op, port, before, after)
    requires Lowering(op, enabling) ==> Driven(after.external).Within(Driven(before.external))
    ensures RaisedByItsOwn(op, enabling, port, Driven(before.external), Driven(after.external))
  {
    hide Driven;
  }

  lemma LowerConfined(op: Operation, port: Port, before: Bank, after: Bank)
    requires Confined(op, port, before, after)
    ensures LoweredByItsOwn(op, port, Driven(before.external), Driven(after.external))
  {
    hide Driven;
  }

  lemma ExternalConfined(m: Monitor, at: nat, after: Bank)
    requires Permitted(m, at, after)
    ensures var d, f := Driven(m.bank.external), Driven(after.external);
            RaisedByItsOwn(m.op, m.enabling, m.port, d, f) && LoweredByItsOwn(m.op, m.port, d, f)
  {
    assert Lowering(m.op, m.enabling) ==> Driven(after.external).Within(Driven(m.bank.external));
    assert Confined(m.op, m.port, m.bank, after);
    hide *;
    RaiseConfined(m.op, m.enabling, m.port, m.bank, after);
    LowerConfined(m.op, m.port, m.bank, after);
  }

  lemma InternalConfined(m: Monitor, at: nat, after: Bank)
    requires Permitted(m, at, after)
    ensures ConverterByItsOwn(m.op, m.enabling, m.port, Driven(m.bank.internal), Driven(after.internal))
  {
    assert Lowering(m.op, m.enabling) ==> Driven(after.internal).Within(Driven(m.bank.internal));
    assert Confined(m.op, m.port, m.bank, after);
    hide Driven, Supply, Permitted, Shrinks;
  }

  predicate MovedByItsOwn(trace: seq<Event>, e: Event)
    requires e.Wrote?
  {
    var op, enabling, port := OpAfter(trace).0, OpAfter(trace).1, PortAfter(trace);
    && RaisedByItsOwn(op, enabling, port, Driven(e.before.external), Driven(e.after.external))
    && LoweredByItsOwn(op, port, Driven(e.before.external), Driven(e.after.external))
    && ConverterByItsOwn(op, enabling, port, Driven(e.before.internal), Driven(e.after.internal))
  }

  lemma OutputsMoveByTheirOwn(start: Bank, trace: seq<Event>, i: nat)
    requires Accepted(start, trace) && i < |trace| && trace[i].Wrote?
    ensures MovedByItsOwn(trace[..i], trace[i])
  {
    hide Permitted, Driven, RaisedByItsOwn, LoweredByItsOwn, ConverterByItsOwn;
    AcceptedStep(start, trace, i);
    FoldAgrees(start, trace[..i]);
    ExternalConfined(Fold(start, trace[..i]), trace[i].at, trace[i].after);
    InternalConfined(Fold(start, trace[..i]), trace[i].at, trace[i].after);
  }

  /** An output stands as it is while no port operation for it, no reconciliation and
      no return to power-on defaults executes a stage. */
  lemma {:induction false} OutputStands(start: Bank, trace: seq<Event>, i: nat, port: Port)
    requires Accepted(start, trace) && i <= |trace|
    requires forall k | i <= k < |trace| && trace[k].Wrote? ::
               var op := OpAfter(trace[..k]).0;
               op != Reconcile && op != RestorePor && (op == PortChange ==> PortAfter(trace[..k]) != port)
    ensures OutputOn(BankAfter(start, trace), port) == OutputOn(BankAfter(start, trace[..i]), port)
    decreases |trace|
  {
    var n := |trace| - 1;
    if i <= n {
      AcceptedStep(start, trace, n);
      FoldAgrees(start, trace[..n]);
      assert trace[..n][..i] == trace[..i];
      forall k | i <= k < n && trace[..n][k].Wrote?
        ensures trace[..n][..k] == trace[..k]
      {
      }
      OutputStands(start, trace[..n], i, port);
      if trace[n].Wrote? {
        OutputsMoveByTheirOwn(start, trace, n);
      }
    } else {
      assert trace[..i] == trace;
    }
  }

  predicate Depends(b: Bank) { J8On(b) ==> BuckOn(b) }

  /** Once "J8 driven implies buck driven" holds it holds for ever. */
  lemma {:induction false} DependencyIsInvariant(start: Bank, trace: seq<Event>, i: nat)
    requires Accepted(start, trace) && i <= |trace| && Depends(BankAfter(start, trace[..i]))
    ensures Depends(BankAfter(start, trace))
    decreases |trace|
  {
    var n := |trace| - 1;
    if i <= n {
      AcceptedStep(start, trace, n);
      FoldAgrees(start, trace[..n]);
      assert trace[..n][..i] == trace[..i];
      DependencyIsInvariant(start, trace[..n], i);
    } else {
      assert trace[..i] == trace;
    }
  }

  /** Over any stretch of the trace in which only lowering operations execute, the
      set of driven enables on both expanders only shrinks. */
  lemma {:induction false} LoweringStretchShrinks(start: Bank, trace: seq<Event>, i: nat)
    requires Accepted(start, trace) && i <= |trace|
    requires forall k | i <= k < |trace| && trace[k].Wrote? ::
               Lowering(OpAfter(trace[..k]).0, OpAfter(trace[..k]).1)
    ensures Shrinks(BankAfter(start, trace[..i]), BankAfter(start, trace))
    decreases |trace|
  {
    var n := |trace| - 1;
    if i <= n {
      AcceptedStep(start, trace, n);
      FoldAgrees(start, trace[..n]);
      assert trace[..n][..i] == trace[..i];
      forall k | i <= k < n && trace[..n][k].Wrote?
        ensures Lowering(OpAfter(trace[..n][..k]).0, OpAfter(trace[..n][..k]).1)
      {
        assert trace[..n][..k] == trace[..k];
      }
      LoweringStretchShrinks(start, trace[..n], i);
    } else {
      assert trace[..i] == trace;
    }
  }

  /** Everything the sequencing promises of the write at position i. */
  ghost predicate SequencedAt(start: Bank, trace: seq<Event>, i: nat)
    requires i < |trace| && trace[i].Wrote?
  {
    var e := trace[i];
    && e.before == BankAfter(start, trace[..i])
    && ProfileKept(e.before, e.after)
    && (J8On(e.before) && BuckOn(e.before) ==> BuckOn(e.after))
    && (BoostDrop(e) ==>
          CeHeldLow(e.before.internal) && exists j :: CeLowSince(trace, j, i) && trace[j].at + 100 <= e.at)
    && (CeRaise(e) ==>
          OpAfter(trace[..i]).0 == EnableCharge
          && exists j :: SelectedSince(trace, j, i) && trace[j].at + 500 <= e.at)
    && (J8Raise(e) ==>
          OpAfter(trace[..i]) == (PortChange, true) && BuckOn(e.after)
          && exists j :: BuckGoodSince(trace, j, i) && trace[j].at + 100 <= e.at)
    && (Lowering(OpAfter(trace[..i]).0, OpAfter(trace[..i]).1) ==> Shrinks(e.before, e.after))
    && Confined(OpAfter(trace[..i]).0, PortAfter(trace[..i]), e.before, e.after)
    && MovedByItsOwn(trace[..i], e)
  }

  /** Everything the sequencing promises of a run. */
  ghost predicate Sequenced(start: Bank, trace: seq<Event>) {
    forall i | 0 <= i < |trace| && trace[i].Wrote? :: SequencedAt(start, trace, i)
  }

  lemma WritesSequenced(start: Bank, trace: seq<Event>, i: nat)
    requires Accepted(start, trace) && i < |trace| && trace[i].Wrote?
    ensures SequencedAt(start, trace, i)
  {
    AcceptedStep(start, trace, i);
    FoldAgrees(start, trace[..i]);
    OutputsMoveByTheirOwn(start, trace, i);
    if BoostDrop(trace[i]) { BoostDropsAfterCeDecay(start, trace, i); }
    if CeRaise(trace[i]) { CeRaisedOnlyOnPreparedSupply(start, trace, i); }
    if J8Raise(trace[i]) { J8RaisedOnlyOnGoodBuck(start, trace, i); }
  }

  lemma AcceptedTracesAreSequenced(start: Bank, trace: seq<Event>)
    requires Accepted(start, trace)
    ensures Sequenced(start, trace)
  {
    forall i | 0 <= i < |trace| && trace[i].Wrote?
      ensures SequencedAt(start, trace, i)
    {
      WritesSequenced(start, trace, i);
    }
  }
}
