/** The asynchronous hardware sequencer: at most one bounded stage per service()
    call, preemptible by the two operations that only take power away, working
    from whatever the expanders retained and on a bus where any transfer may fail. */
module BoardHardware {
  import opened Options
  import opened Bits
  import opened Clock
  import opened Expander
  import opened Wire

  datatype Result = Idle | Running | Succeeded | Failed

  /** What the last poll left behind; `vcap` in units of 0.1 mV, `charging` while the
      internal registers and pins read back as charging leaves them. */
  datatype Snapshot = Snapshot(
    atMs: uint32, internalValid: bool, internalAt: uint32, externalValid: bool, externalAt: uint32,
    usbPg: bool, dcPg: bool, backupPg: bool, chargerPg: bool, boostPg: bool, buckPg: bool, ssBuckPg: bool,
    extVbusPg: bool, ext5vVbusPg: bool, extSsPg: bool, ext5vSsPg: bool,
    mainSelected: bool, tsMv: nat, vcap: nat, charging: bool)

  const DECAY_MS: nat := 100
  const TS_SETTLE_MS: nat := 500
  const FRESH_MS: nat := 350
  const PG_MS: nat := 100
  const PG_TIMEOUT_MS: nat := 2000
  const TRIP_V: nat := 210000
  const ARM_V: nat := 100000

  /** The operation being executed and where it stands. */
  datatype Job = Job(
    result: Result, operation: Operation, stage: nat, port: Port, portMask: Byte, portEnabled: bool,
    pgTiming: bool, stageAt: uint32, operationAt: uint32, pgAt: uint32)

  /** The true times behind the wrapped stamps. */
  datatype Times = Times(stageT: nat, opT: nat, pgT: nat, ceOffT: nat, tsT: nat)

  function PortMask(port: Port): Byte {
    match port
    case Vbus => X02
    case FiveVoltVbus => X01
    case VbusSs => X04
    case FiveVoltSs => X08
  }

  predicate TsInWindow(tsMv: nat) { 1300 <= tsMv <= 2350 }

  /** The longest a stage may wait before it moves on or fails. */
  function WaitLimit(op: Operation, stage: nat): nat {
    match op
    case Reconcile | RestorePor | DisableCharging => if stage == 1 then DECAY_MS else 0
    case PrepareCharge => if stage == 1 then DECAY_MS else if stage == 3 || stage == 4 then PG_TIMEOUT_MS else 0
    case PortChange => if stage == 1 || stage == 3 then PG_TIMEOUT_MS else 0
    case _ => 0
  }

  const LAST_STAGE: nat := 10

  /** A monitor change that a few successful reads can make: the registers and
      the rules' other evidence stay, CE may become proven low. */
  ghost predicate OnlyReads(m: Monitor, n: Monitor) {
    && n.bank == m.bank && n.op == m.op && n.enabling == m.enabling && n.port == m.port
    && n.selected == m.selected && n.buckGood == m.buckGood && n.safe == m.safe
    && m.at <= n.at
    && (m.ceLow.Some? ==> n.ceLow == m.ceLow)
  }

  /** The last thing the trace shows is a reading of these pins. */
  ghost predicate PinsSeen(trace: seq<Event>, device: Device, pins: Byte) {
    && trace != [] && trace[|trace| - 1].PinsRead?
    && trace[|trace| - 1].device == device && trace[|trace| - 1].pins == pins
  }

  /** Every pin of the mask was read low, and nothing was written since. */
  ghost predicate SeenLow(trace: seq<Event>, device: Device, mask: Byte) {
    exists pins: Byte :: PinsSeen(trace, device, pins) && pins.Misses(mask)
  }

  /** Every pin of the mask was read high, and nothing was written since. */
  ghost predicate SeenHigh(trace: seq<Event>, device: Device, mask: Byte) {
    exists pins: Byte :: PinsSeen(trace, device, pins) && mask.Within(pins)
  }

  /** Every enable pin of both expanders was read low, and nothing was written since. */
  ghost predicate AllSeenLow(trace: seq<Event>) {
    SeenLow(trace, External, DEFINED) && SeenLow(trace[..|trace| - 1], Internal, DEFINED)
  }

  /** One service() call on a running operation, seen at its start. */
  datatype Call = Call(at: nat, stage: nat, stageT: nat)

  /** What holds between two consecutive calls on the same operation. */
  ghost predicate Follows(op: Operation, opT: nat, c: Call, d: Call) {
    && c.at <= d.at
    && (|| (d.stage > c.stage && c.at <= d.stageT)
        || (d.stage == c.stage && d.stageT == c.stageT
            && (d.at < opT + WRAP ==> c.at < c.stageT + WaitLimit(op, c.stage))))
  }

  /** Time that passes before the next call changes nothing. */
  lemma FollowsLater(op: Operation, opT: nat, c: Call, d: Call, at: nat)
    requires Follows(op, opT, c, d) && d.at <= at
    ensures Follows(op, opT, c, d.(at := at))
  {
  }

  // ---- A board at a moment ----

  /** What the sequencer holds and what the expanders hold. */
  datatype View = View(
    job: Job, bank: Bank, snapshot: Snapshot, monitoring: bool, reconciled: bool, prepared: bool,
    expectedInternal: Byte, expectedExternal: Byte, ceOffAt: uint32, tsSelectedAt: uint32, backup: bool)

  /** Reconciled, everything off behind the operational directions, and known to be. */
  predicate Off(v: View) {
    && v.reconciled && v.bank == Bank(ALL_OFF, ALL_OFF) && v.expectedInternal == X00 && v.expectedExternal == X00
  }

  /** A fresh reading with main selected, exactly one input good and the backed converter up. */
  predicate LiveMain(s: Snapshot, at: uint32) {
    && FreshReading(s, at) && s.mainSelected && s.usbPg != s.dcPg && s.ssBuckPg
  }

  /** The job may still raise an enable. */
  predicate Raising(job: Job) {
    job.result == Running &&
      (|| job.operation == EnableCharge
       || (job.operation == PrepareCharge && job.stage <= 2)
       || (job.operation == PortChange && job.portEnabled && job.stage <= 2))
  }

  predicate Busy(v: View) { v.job.result == Running }

  /** Backup may be armed on live main between 10 and 21 V, and released unless it
      is all there is. */
  predicate BackupGranted(v: View, enabled: bool, now: uint32) {
    && v.monitoring
    && if enabled then LiveMain(v.snapshot, now) && ARM_V <= v.snapshot.vcap <= TRIP_V
       else v.backup ==> LiveMain(v.snapshot, now)
  }

  /** Charger current still decays: a teardown waits in stage 1. */
  predicate Decaying(v: View, now: uint32) { v.job.stage == 1 && Elapsed(now, v.ceOffAt) < DECAY_MS }

  predicate EnablesVbus(v: View) { v.job.operation == PortChange && v.job.portEnabled && v.job.port == Vbus }

  predicate SameJob(v: View, w: View) {
    && w.snapshot == v.snapshot && w.monitoring == v.monitoring
    && w.job.operation == v.job.operation && w.job.port == v.job.port && w.job.portEnabled == v.job.portEnabled
  }

  /** Both expanders hold exactly what the caches say, behind the operational directions. */
  predicate Known(v: View) {
    v.bank == Bank(ALL_OFF.(out1 := v.expectedInternal), ALL_OFF.(out1 := v.expectedExternal))
  }

  /** A known board after its control latch of one expander was set. */
  function Latch(v: View, device: Device, value: Byte): View {
    match device
    case Internal => v.(bank := v.bank.(internal := ALL_OFF.(out1 := value)), expectedInternal := value)
    case External => v.(bank := v.bank.(external := ALL_OFF.(out1 := value)), expectedExternal := value)
  }

  /** CE forced low on whatever the internal expander holds. */
  function CeForced(r: Registers): Registers {
    r.(out1 := r.out1.Minus(CE), cfg1 := r.cfg1.Or(UNUSED_INPUTS).Minus(CE))
  }

  function ForcedCe(v: View, now: uint32): View {
    v.(bank := v.bank.(internal := CeForced(v.bank.internal)), expectedInternal := v.bank.internal.out1.Minus(CE),
       prepared := false, ceOffAt := now)
  }

  function ToStage(v: View, now: uint32, next: nat): View {
    v.(job := v.job.(stage := next, stageAt := now, pgTiming := false))
  }

  function Concluded(v: View): View { v.(job := v.job.(result := Succeeded)) }

  predicate FreshReading(s: Snapshot, now: uint32) { s.internalValid && Elapsed(now, s.internalAt) <= FRESH_MS }

  /** Boost and charger report power-good and the real thermistor is in range. */
  predicate ChargerGood(s: Snapshot) { s.boostPg && s.chargerPg && TsInWindow(s.tsMv) }

  /** The power-good of a port, with its converter where it has one. */
  predicate PortPg(s: Snapshot, port: Port) {
    match port
    case Vbus => s.extVbusPg
    case FiveVoltVbus => s.ext5vVbusPg && s.buckPg
    case VbusSs => s.extSsPg
    case FiveVoltSs => s.ext5vSsPg && s.ssBuckPg
  }

  const PROFILE: Byte := CE.Or(HIGH_CURRENT).Or(TS_OVERRIDE)

  /** A call of service() at `now` on a benign bus, where every transfer gets through
      and the pins follow: what each stage of each operation makes of the board. */
  predicate Calm(v: View, w: View, now: uint32) {
    if !Busy(v) then w == v else
      && SameJob(v, w) && (w.job.result == Failed ==> Undone(w))
      && match v.job.operation
         case Reconcile | RestorePor => CalmReset(v, w, now)
         case DisableCharging => CalmDisable(v, w, now)
         case _ => if EnableFounded(v, now) then CalmEnabling(v, w, now) else w.job.result == Failed
  }

  /** A failed operation on a benign bus leaves its rollback done. */
  predicate Undone(w: View) {
    match w.job.operation
    case PrepareCharge | EnableCharge => CeHeldLow(w.bank.internal)
    case PortChange =>
      w.job.portEnabled ==>
        !Latched(w.bank, w.job.port) && (w.job.port == FiveVoltVbus ==> !w.bank.internal.out1.b4)
    case Reconcile | RestorePor => w.bank.external.out1 == X00 && w.bank.external.cfg1 == UNUSED_INPUTS
    case _ => true
  }

  /** A reset goes through every stage from any registers. */
  predicate CalmReset(v: View, w: View, now: uint32) {
    && (v.job.stage == 0 ==> w == ToStage(ForcedCe(v, now).(reconciled := false), now, 1))
    && (Decaying(v, now) ==> w == v)
    && (v.job.stage == 7 && v.job.operation == Reconcile ==> w.job.result == Succeeded && Off(w))
    && (v.job.stage == LAST_STAGE ==> w.job.result == Succeeded && w.bank == Bank(POWER_ON, POWER_ON))
    && (v.job.stage < LAST_STAGE && !Decaying(v, now) && (v.job.stage == 7 ==> v.job.operation == RestorePor) ==>
          Busy(w) && w.job.stage == v.job.stage + 1)
  }

  predicate CalmDisable(v: View, w: View, now: uint32) {
    if v.job.stage == 0 then w == ToStage(ForcedCe(v, now), now, 1)
    else if Decaying(v, now) then w == v.(prepared := false)
    else w == Concluded(ChargingDown(v)).(prepared := false)
  }

  /** CE and boost low in the latch, the rest as it is read back. */
  function ChargingDown(v: View): View {
    var value := v.bank.internal.out1.Minus(CE.Or(BOOST));
    v.(bank := v.bank.(internal := v.bank.internal.(out1 := value)), expectedInternal := value)
  }

  /** What an enable needs in every one of its calls. */
  predicate EnableFounded(v: View, now: uint32) {
    v.reconciled && (DrawsOnMain(v.job) ==> LiveMain(v.snapshot, now)) && Backable(v, now)
  }

  predicate DrawsOnMain(job: Job) {
    || job.operation == PrepareCharge || job.operation == EnableCharge
    || (job.operation == PortChange && job.portEnabled && (job.port == Vbus || job.port == FiveVoltVbus))
  }

  /** A port behind the backed converter needs that up, from main or from a live backup. */
  predicate Backable(v: View, now: uint32) {
    v.job.operation == PortChange && v.job.portEnabled && (v.job.port == VbusSs || v.job.port == FiveVoltSs) ==>
      && FreshReading(v.snapshot, now) && v.snapshot.ssBuckPg
      && (LiveMain(v.snapshot, now) || (!v.snapshot.mainSelected && v.snapshot.backupPg && v.backup))
  }

  predicate CalmEnabling(v: View, w: View, now: uint32) {
    match v.job.operation
    case PrepareCharge => CalmPrepare(v, w, now)
    case EnableCharge =>
      if v.prepared && Known(v) && ChargerGood(v.snapshot) && v.snapshot.vcap < TRIP_V
         && v.expectedInternal.Misses(PROFILE) && !v.expectedInternal.Misses(BOOST)
      then w == Concluded(Latch(v, Internal, v.expectedInternal.Or(CE)))
      else w.job.result == Failed
    case _ => if v.job.portEnabled then CalmPortOn(v, w, now) else CalmPortOff(v, w, now)
  }

  /** One evaluation of a power-good wait: passed, failed, or still waiting. */
  predicate CalmWait(v: View, w: View, good: bool, now: uint32, passed: View) {
    if good && v.job.pgTiming && Elapsed(now, v.job.pgAt) >= PG_MS then w == passed
    else if Elapsed(now, v.job.stageAt) >= PG_TIMEOUT_MS then w.job.result == Failed
    else w == v.(job := v.job.(pgTiming := good, pgAt := if good && !v.job.pgTiming then now else v.job.pgAt))
  }

  /** The writing stages of a preparation: CE low, the profile selected, boost on. */
  function SupplyStep(v: View, now: uint32): View {
    match v.job.stage
    case 0 => ForcedCe(v, now)
    case 1 => Latch(v, Internal, v.expectedInternal.Minus(PROFILE))
    case _ => Latch(v, Internal, v.expectedInternal.Or(BOOST)).(tsSelectedAt := now)
  }

  predicate CalmPrepare(v: View, w: View, now: uint32) {
    match v.job.stage
    case 0 => if Known(v) then w == ToStage(SupplyStep(v, now), now, 1) else w.job.result == Failed
    case 1 => if Decaying(v, now) then w == v else Known(v) ==> w == ToStage(SupplyStep(v, now), now, 2)
    case 2 => Known(v) ==> w == ToStage(SupplyStep(v, now), now, 3)
    case 3 => CalmWait(v, w, FreshReading(v.snapshot, now) && v.snapshot.boostPg, now, ToStage(v, now, 4))
    case _ =>
      if Elapsed(now, v.tsSelectedAt) < TS_SETTLE_MS then w == v
      else if ChargerGood(v.snapshot) then
        if Known(v) && v.expectedInternal.Misses(PROFILE) then w == Concluded(v).(prepared := true)
        else w.job.result == Failed
      else if Elapsed(now, v.job.stageAt) >= PG_TIMEOUT_MS then w.job.result == Failed
      else w == v
  }

  predicate CalmPortOff(v: View, w: View, now: uint32) {
    if v.job.stage == 0 then
      if !Known(v) then w.job.result == Failed
      else
        var off := Latch(v, External, v.expectedExternal.Minus(PortMask(v.job.port)));
        w == if v.job.port == FiveVoltVbus then ToStage(off, now, 5) else Concluded(off)
    else Known(v) ==> w == Concluded(Latch(v, Internal, v.expectedInternal.Minus(BUCK)))
  }

  predicate CalmPortOn(v: View, w: View, now: uint32) {
    match v.job.stage
    case 0 =>
      if !Known(v) then w.job.result == Failed
      else if v.job.port == FiveVoltVbus
      then w == ToStage(Latch(v, Internal, v.expectedInternal.Or(BUCK)), now, 1)
      else w == ToStage(v, now, 2)
    case 1 => CalmWait(v, w, FreshReading(v.snapshot, now) && v.snapshot.buckPg, now, ToStage(v, now, 2))
    case 2 =>
      Known(v) ==> w == ToStage(Latch(v, External, v.expectedExternal.Or(PortMask(v.job.port))), now, 3)
    case _ =>
      var fresh0 := v.snapshot.externalValid && Elapsed(now, v.snapshot.externalAt) <= FRESH_MS;
      CalmWait(v, w, fresh0 && PortPg(v.snapshot, v.job.port), now, Concluded(v))
  }

  // ---- Why each kind of write obeys the rules ----

  /** The bank after one register write. */
  function Written(b: Bank, device: Device, reg: Register, value: Byte): Bank {
    b.With(device, Put(b.Of(device), reg, value))
  }

  /** Waiting longer never forbids a write. */
  lemma PermittedLater(m: Monitor, t: nat, at: nat, after: Bank)
    requires t <= at && Permitted(m, t, after)
    ensures Permitted(m, at, after)
  {
  }

  /** Both control latches are zero. */
  predicate AllLow(b: Bank) { b.internal.out1 == X00 && b.external.out1 == X00 }

  lemma ShrinksTransitive(a: Bank, b: Bank, c: Bank)
    requires Shrinks(a, b) && Shrinks(b, c)
    ensures Shrinks(a, c)
  {
  }

  lemma ShrinksReflexive(b: Bank)
    ensures Shrinks(b, b)
  {
  }

  /** Writing `value` drives no new pin of this expander. */
  predicate Harmless(r: Registers, reg: Register, value: Byte) {
    && Driven(Put(r, reg, value)).Within(Driven(r))
    && Driven0(Put(r, reg, value)).Within(Driven0(r))
  }

  lemma HarmlessShrinks(b: Bank, device: Device, reg: Register, value: Byte)
    requires Harmless(b.Of(device), reg, value)
    ensures Shrinks(b, Written(b, device, reg, value))
  {
  }

  /** The operations that take charging down, all of them or on the way. */
  predicate Charges(op: Operation) { op == PrepareCharge || op == EnableCharge || op == DisableCharging }

  predicate Resets(op: Operation) { op == Reconcile || op == RestorePor }

  lemma ResetConfined(op: Operation, port: Port, before: Bank, after: Bank)
    requires Resets(op)
    ensures Confined(op, port, before, after)
  {
  }

  lemma ChargeConfined(op: Operation, port: Port, before: Bank, after: Bank)
    requires Charges(op) || Resets(op)
    requires after.external == before.external && Driven(after.internal).b4 == Driven(before.internal).b4
    requires op == EnableCharge ==> Driven(after.internal).b0 == Driven(before.internal).b0
    ensures Confined(op, port, before, after)
  {
  }

  /** Only the port's own pin moves. */
  lemma PortConfined(port: Port, before: Bank, after: Bank)
    requires after.internal == before.internal
    requires Driven(after.external) == Driven(before.external).Minus(PortMask(port))
             || Driven(after.external) == Driven(before.external).Or(PortMask(port))
    ensures Confined(PortChange, port, before, after)
  {
    hide Driven;
  }

  lemma BuckConfined(before: Bank, after: Bank)
    requires after.external == before.external
    requires Driven(after.internal) == Driven(before.internal).Minus(BUCK)
             || Driven(after.internal) == Driven(before.internal).Or(BUCK)
    ensures Confined(PortChange, FiveVoltVbus, before, after)
  {
    hide Driven;
  }

  /** A port's mask is its own pin and its own latch. */
  lemma MaskedPort(b: Bank, port: Port)
    ensures b.external.out1.Misses(PortMask(port)) <==> !Latched(b, port)
    ensures PortMask(port).Within(Driven(b.external)) <==> OutputOn(b, port)
  {
  }

  /** A write that only takes enables away: boost late enough, the buck not under J8. */
  lemma TakingAwayPermitted(m: Monitor, at: nat, after: Bank)
    requires Shrinks(m.bank, after) && Confined(m.op, m.port, m.bank, after)
    requires BoostOn(m.bank) ==> BoostOn(after) || (m.ceLow.Some? && m.ceLow.value + DECAY_MS <= at)
    requires BuckOn(m.bank) ==> BuckOn(after) || !J8On(m.bank)
    ensures Permitted(m, at, after)
  {
  }

  /** A write to the internal expander that takes away exactly the enables of `mask`. */
  lemma MaskingPermitted(m: Monitor, at: nat, after: Bank, mask: Byte)
    requires after.external == m.bank.external
    requires Driven0(after.internal) == Driven0(m.bank.internal)
    requires Driven(after.internal) == Driven(m.bank.internal).Minus(mask)
    requires mask.b0 ==> m.ceLow.Some? && m.ceLow.value + DECAY_MS <= at
    requires mask.b4 ==> !J8On(m.bank)
    requires Confined(m.op, m.port, m.bank, after)
    ensures Permitted(m, at, after) && Shrinks(m.bank, after)
  {
    hide Permitted, Confined;
    assert Shrinks(m.bank, after);
    hide Shrinks;
    TakingAwayPermitted(m, at, after);
  }

  lemma ClearInternalPermitted(m: Monitor, at: nat)
    requires m.bank.external.out1 == X00 && m.ceLow.Some? && m.ceLow.value + DECAY_MS <= at && Resets(m.op)
    ensures var after := Written(m.bank, Internal, Output1, X00);
            Permitted(m, at, after) && Shrinks(m.bank, after)
  {
    hide Permitted, Confined;
    ResetConfined(m.op, m.port, m.bank, Written(m.bank, Internal, Output1, X00));
    TakingAwayPermitted(m, at, Written(m.bank, Internal, Output1, X00));
  }

  /** Clearing latch bits takes away exactly those enables. */
  lemma LatchLowered(r: Registers, mask: Byte)
    ensures Driven(r.(out1 := r.out1.Minus(mask))) == Driven(r).Minus(mask)
  {
  }

  lemma LowerCePermitted(m: Monitor, at: nat)
    requires Charges(m.op) || Resets(m.op)
    ensures var after := Written(m.bank, Internal, Output1, m.bank.internal.out1.Minus(CE));
            Permitted(m, at, after) && Shrinks(m.bank, after)
  {
    hide Permitted, Shrinks, Driven, Confined, Charges, Resets;
    LatchLowered(m.bank.internal, CE);
    ChargeConfined(m.op, m.port, m.bank, Written(m.bank, Internal, Output1, m.bank.internal.out1.Minus(CE)));
    MaskingPermitted(m, at, Written(m.bank, Internal, Output1, m.bank.internal.out1.Minus(CE)), CE);
  }

  lemma CeDirectionDriven(r: Registers)
    requires !r.out1.b1
    ensures var driven := r.(cfg1 := r.cfg1.Or(UNUSED_INPUTS).Minus(CE));
            Driven(driven) == Driven(r).Minus(UNUSED_INPUTS) && CeHeldLow(driven)
  {
  }

  lemma DriveCeLowPermitted(m: Monitor, at: nat)
    requires !m.bank.internal.out1.b1 && (Charges(m.op) || Resets(m.op))
    ensures var after := Written(m.bank, Internal, Config1, m.bank.internal.cfg1.Or(UNUSED_INPUTS).Minus(CE));
            Permitted(m, at, after) && Shrinks(m.bank, after) && CeHeldLow(after.internal)
  {
    hide Permitted, Shrinks, Driven, CeHeldLow, Confined, Charges, Resets;
    CeDirectionDriven(m.bank.internal);
    ChargeConfined(m.op, m.port, m.bank,
                   Written(m.bank, Internal, Config1, m.bank.internal.cfg1.Or(UNUSED_INPUTS).Minus(CE)));
    MaskingPermitted(m, at, Written(m.bank, Internal, Config1, m.bank.internal.cfg1.Or(UNUSED_INPUTS).Minus(CE)),
                     UNUSED_INPUTS);
  }

  lemma ExternalMaskingPermitted(m: Monitor, at: nat, after: Bank, mask: Byte)
    requires after.internal == m.bank.internal
    requires Driven0(after.external) == Driven0(m.bank.external)
    requires Driven(after.external) == Driven(m.bank.external).Minus(mask)
    requires Confined(m.op, m.port, m.bank, after)
    ensures Permitted(m, at, after) && Shrinks(m.bank, after)
  {
    hide Permitted, Confined;
    assert Shrinks(m.bank, after);
    hide Shrinks;
    TakingAwayPermitted(m, at, after);
  }

  lemma LowerPortPermitted(m: Monitor, at: nat, mask: Byte)
    requires m.op == PortChange && mask == PortMask(m.port)
    ensures var after := Written(m.bank, External, Output1, m.bank.external.out1.Minus(mask));
            Permitted(m, at, after) && Shrinks(m.bank, after)
  {
    hide Permitted, Shrinks, Driven, Confined, PortMask;
    LatchLowered(m.bank.external, mask);
    PortConfined(m.port, m.bank, Written(m.bank, External, Output1, m.bank.external.out1.Minus(mask)));
    ExternalMaskingPermitted(m, at, Written(m.bank, External, Output1, m.bank.external.out1.Minus(mask)), mask);
  }

  lemma LowerBuckPermitted(m: Monitor, at: nat)
    requires !J8On(m.bank) && m.op == PortChange && m.port == FiveVoltVbus
    ensures var after := Written(m.bank, Internal, Output1, m.bank.internal.out1.Minus(BUCK));
            && Permitted(m, at, after) && Shrinks(m.bank, after)
            && (Supply(m.bank.internal) ==> Supply(after.internal))
  {
    hide Permitted, Shrinks, Driven, J8On, Confined;
    LatchLowered(m.bank.internal, BUCK);
    BuckConfined(m.bank, Written(m.bank, Internal, Output1, m.bank.internal.out1.Minus(BUCK)));
    MaskingPermitted(m, at, Written(m.bank, Internal, Output1, m.bank.internal.out1.Minus(BUCK)), BUCK);
  }

  lemma SelectProfilePermitted(m: Monitor, at: nat)
    requires Charges(m.op)
    ensures var mask := CE.Or(HIGH_CURRENT).Or(TS_OVERRIDE);
            Permitted(m, at, Written(m.bank, Internal, Output1, m.bank.internal.out1.Minus(mask)))
  {
    hide Permitted, Shrinks, Driven, Confined, Charges;
    var mask := CE.Or(HIGH_CURRENT).Or(TS_OVERRIDE);
    LatchLowered(m.bank.internal, mask);
    ChargeConfined(m.op, m.port, m.bank, Written(m.bank, Internal, Output1, m.bank.internal.out1.Minus(mask)));
    MaskingPermitted(m, at, Written(m.bank, Internal, Output1, m.bank.internal.out1.Minus(mask)), mask);
  }

  lemma DropChargingPermitted(m: Monitor, at: nat)
    requires m.ceLow.Some? && m.ceLow.value + DECAY_MS <= at && m.op == DisableCharging
    ensures var after := Written(m.bank, Internal, Output1, m.bank.internal.out1.Minus(CE.Or(BOOST)));
            Permitted(m, at, after) && Shrinks(m.bank, after)
  {
    hide Permitted, Shrinks, Driven, Confined;
    LatchLowered(m.bank.internal, CE.Or(BOOST));
    ChargeConfined(m.op, m.port, m.bank,
                   Written(m.bank, Internal, Output1, m.bank.internal.out1.Minus(CE.Or(BOOST))));
    MaskingPermitted(m, at, Written(m.bank, Internal, Output1, m.bank.internal.out1.Minus(CE.Or(BOOST))), CE.Or(BOOST));
  }

  /** Setting latch bits behind verified directions drives exactly those pins. */
  lemma LatchRaised(r: Registers, mask: Byte)
    requires r.cfg1 == UNUSED_INPUTS && mask.Within(DEFINED)
    ensures Driven(r.(out1 := r.out1.Or(mask))) == Driven(r).Or(mask)
  {
  }

  /** A write that adds internal enables without touching the external expander. */
  lemma RaisingPermitted(m: Monitor, at: nat, after: Bank, mask: Byte)
    requires after.external == m.bank.external
    requires Driven(after.internal) == Driven(m.bank.internal).Or(mask)
    requires !mask.b2 && !mask.b3 && !Lowering(m.op, m.enabling)
    requires mask.b1 ==> m.op == EnableCharge && m.selected.Some? && m.selected.value + TS_SETTLE_MS <= at
                                && Supply(after.internal)
    requires Confined(m.op, m.port, m.bank, after)
    ensures Permitted(m, at, after)
  {
    hide Confined;
  }

  lemma ExternalRaisingPermitted(m: Monitor, at: nat, after: Bank, mask: Byte)
    requires after.internal == m.bank.internal
    requires Driven(after.external) == Driven(m.bank.external).Or(mask)
    requires m.op == PortChange && m.enabling && Confined(m.op, m.port, m.bank, after)
    requires mask.b0 ==> BuckOn(m.bank) && m.buckGood.Good? && !m.buckGood.answered
                                && m.buckGood.since + PG_MS <= at
    ensures Permitted(m, at, after)
  {
    hide Shrinks, Supply, Confined;
  }

  lemma RaiseBoostPermitted(m: Monitor, at: nat)
    requires m.bank.internal.cfg1 == UNUSED_INPUTS && m.op == PrepareCharge
    requires m.bank.internal.out1.Misses(CE.Or(HIGH_CURRENT).Or(TS_OVERRIDE))
    ensures var after := Written(m.bank, Internal, Output1, m.bank.internal.out1.Or(BOOST));
            Permitted(m, at, after) && Supply(after.internal)
  {
    hide Permitted, Driven, Confined;
    LatchRaised(m.bank.internal, BOOST);
    ChargeConfined(m.op, m.port, m.bank, Written(m.bank, Internal, Output1, m.bank.internal.out1.Or(BOOST)));
    RaisingPermitted(m, at, Written(m.bank, Internal, Output1, m.bank.internal.out1.Or(BOOST)), BOOST);
  }

  lemma RaiseCePermitted(m: Monitor, at: nat)
    requires m.bank.internal.cfg1 == UNUSED_INPUTS && m.op == EnableCharge && Supply(m.bank.internal)
    requires m.selected.Some? && m.selected.value + TS_SETTLE_MS <= at
    ensures var after := Written(m.bank, Internal, Output1, m.bank.internal.out1.Or(CE));
            Permitted(m, at, after) && Supply(after.internal)
  {
    hide Permitted, Driven, Confined;
    LatchRaised(m.bank.internal, CE);
    ChargeConfined(m.op, m.port, m.bank, Written(m.bank, Internal, Output1, m.bank.internal.out1.Or(CE)));
    RaisingPermitted(m, at, Written(m.bank, Internal, Output1, m.bank.internal.out1.Or(CE)), CE);
  }

  lemma RaiseBuckPermitted(m: Monitor, at: nat)
    requires m.bank.internal.cfg1 == UNUSED_INPUTS && m.op == PortChange && m.enabling && m.port == FiveVoltVbus
    ensures var after := Written(m.bank, Internal, Output1, m.bank.internal.out1.Or(BUCK));
            && Permitted(m, at, after) && BuckOn(after)
            && (Supply(m.bank.internal) ==> Supply(after.internal))
  {
    hide Permitted, Driven, Confined;
    LatchRaised(m.bank.internal, BUCK);
    BuckConfined(m.bank, Written(m.bank, Internal, Output1, m.bank.internal.out1.Or(BUCK)));
    RaisingPermitted(m, at, Written(m.bank, Internal, Output1, m.bank.internal.out1.Or(BUCK)), BUCK);
  }

  lemma RaisePortPermitted(m: Monitor, at: nat, mask: Byte)
    requires m.bank.external.cfg1 == UNUSED_INPUTS && m.op == PortChange && m.enabling
    requires mask == PortMask(m.port)
    requires m.port == FiveVoltVbus ==>
               BuckOn(m.bank) && m.buckGood.Good? && !m.buckGood.answered && m.buckGood.since + PG_MS <= at
    ensures Permitted(m, at, Written(m.bank, External, Output1, m.bank.external.out1.Or(mask)))
  {
    hide Permitted, Driven, BuckOn, Confined;
    LatchRaised(m.bank.external, mask);
    PortConfined(m.port, m.bank, Written(m.bank, External, Output1, m.bank.external.out1.Or(mask)));
    ExternalRaisingPermitted(m, at, Written(m.bank, External, Output1, m.bank.external.out1.Or(mask)), mask);
  }

  class BoardHardware {
    const bus: Bus
    var snapshot: Snapshot
    var monitoring: bool
    var reconciled: bool
    var prepared: bool
    var expectedInternal: Byte
    var expectedExternal: Byte
    var ceOffAt: uint32
    var tsSelectedAt: uint32
    var job: Job
    var backupPin: bool  // GPIO42
    ghost var times: Times

    // ---- Invariant ----

    /** Every write so far was permitted. */
    ghost predicate BusOk()
      reads bus
    {
      bus.Valid() && bus.mon.safe
    }

    /** The wrapped stamps are readings of true past times. */
    ghost predicate Clocks()
      reads this, bus
    {
      && job.stageAt == Ticks(times.stageT) && job.operationAt == Ticks(times.opT) && job.pgAt == Ticks(times.pgT)
      && ceOffAt == Ticks(times.ceOffT) && tsSelectedAt == Ticks(times.tsT)
      && times.opT <= times.stageT <= bus.now && times.pgT <= bus.now && times.ceOffT <= bus.now && times.tsT <= bus.now
    }

    /** A standing `prepared_` flag is backed by an undisturbed selection. */
    ghost predicate PreparedOk()
      reads this, bus
    {
      prepared ==> bus.mon.selected.Some? && bus.mon.selected.value + TS_SETTLE_MS <= bus.now
    }

    /** Holds between any two statements. */
    ghost predicate Core()
      reads this, bus
    {
      BusOk() && Clocks() && PreparedOk() && job.portMask == PortMask(job.port)
    }

    ghost predicate CeProven()
      reads this, bus
    {
      bus.mon.ceLow.Some? && bus.mon.ceLow.value <= times.ceOffT && times.opT <= times.ceOffT
    }

    ghost predicate CeDecayed()
      reads bus
    {
      bus.mon.ceLow.Some? && bus.mon.ceLow.value + DECAY_MS <= bus.now
    }

    ghost predicate CachesMatch()
      reads this, bus
    {
      && expectedInternal == bus.bank.internal.out1 && expectedExternal == bus.bank.external.out1
      && bus.bank.internal.cfg1 == UNUSED_INPUTS && bus.bank.external.cfg1 == UNUSED_INPUTS
    }

    // What each waiting stage may rely on.

    ghost predicate ReconcileReady()
      reads this, bus
    {
      && job.stage <= LAST_STAGE
      && (job.stage >= 1 ==> !prepared && !reconciled)
      && (job.stage == 1 ==> CeProven() && times.ceOffT <= times.stageT)
      && (job.stage == 2 ==> CeDecayed())
      && (job.stage >= 8 ==> job.operation == RestorePor)
      && ResetSoFar(bus.bank, job.stage)
    }

    /** What the registers hold when a reset reaches `stage`. */
    static predicate ResetSoFar(b: Bank, stage: nat) {
      && (stage == 2 ==> b.external.out1 == X00)
      && (3 <= stage <= 8 ==> AllLow(b))
      && (3 <= stage <= 7 ==> Configured(b, stage))
      && (stage >= 8 ==> b == Restoring(stage))
    }

    /** The way back to the power-on registers: off, then directions, then latches. */
    static function Restoring(stage: nat): Bank {
      var r := if stage <= 8 then ALL_OFF else if stage == 9 then ALL_OFF.(cfg1 := XFF) else POWER_ON;
      Bank(r, r)
    }

    ghost predicate DisableReady()
      reads this, bus
    {
      job.stage <= 1 && (job.stage == 1 ==> CeProven() && times.ceOffT <= times.stageT)
    }

    ghost predicate PrepareReady()
      reads this, bus
    {
      && job.stage <= 4
      && (job.stage == 1 ==> CeProven() && times.ceOffT <= times.stageT)
      && (job.stage == 2 ==> ProfileSelected())
      && (job.stage >= 1 ==> !prepared)
      && (job.stage >= 3 ==> SupplySelected() && times.tsT <= times.stageT)
    }

    ghost predicate ProfileSelected()
      reads this, bus
    {
      && expectedInternal == bus.bank.internal.out1 && bus.bank.internal.cfg1 == UNUSED_INPUTS
      && bus.bank.internal.out1.Misses(CE.Or(HIGH_CURRENT).Or(TS_OVERRIDE))
    }

    ghost predicate SupplySelected()
      reads this, bus
    {
      bus.mon.selected.Some? && bus.mon.selected.value <= times.tsT && times.opT <= times.tsT
    }

    ghost predicate PortReady()
      reads this, bus
    {
      && job.stage in {0, 1, 2, 3, 5}
      && (job.stage == 1 || job.stage == 2 || job.stage == 5 ==> CachesMatch())
      && (job.stage == 1 ==> job.port == FiveVoltVbus && job.portEnabled && BuckOn(bus.bank))
      && (job.stage == 1 && job.pgTiming ==> BuckTimed())
      && (job.stage == 2 ==> job.portEnabled)
      && (job.stage == 2 && job.port == FiveVoltVbus ==> BuckOn(bus.bank) && BuckQualified())
      && (job.stage == 3 ==> job.portEnabled && PortDriven())
      && (job.stage == 5 ==> job.port == FiveVoltVbus && !job.portEnabled && !bus.bank.external.out1.b0)
    }

    ghost predicate BuckTimed()
      reads this, bus
    {
      bus.mon.buckGood.Good? && bus.mon.buckGood.answered && bus.mon.buckGood.since <= times.pgT
    }

    ghost predicate BuckQualified()
      reads bus
    {
      bus.mon.buckGood.Good? && bus.mon.buckGood.answered && bus.mon.buckGood.since + PG_MS <= bus.now
    }

    ghost predicate StageReady()
      reads this, bus
    {
      match job.operation
      case Reconcile | RestorePor => ReconcileReady()
      case DisableCharging => DisableReady()
      case PrepareCharge => PrepareReady()
      case EnableCharge => job.stage == 0
      case PortChange => PortReady()
      case NoOperation => false
    }

    ghost predicate Valid()
      reads this, bus
    {
      Core() && (job.result == Running ==> monitoring && StageReady()) && (job.result == Succeeded ==> Stands())
    }

    /** What a success made of the registers stands until another operation starts. */
    ghost predicate Stands()
      reads this, bus
    {
      match job.operation
      case Reconcile => bus.bank == Bank(ALL_OFF, ALL_OFF)
      case RestorePor => bus.bank == Bank(POWER_ON, POWER_ON)
      case DisableCharging => bus.bank.internal.out1.Misses(CE.Or(BOOST))
      case EnableCharge => CeOn(bus.bank)
      case PortChange =>
        if job.portEnabled then OutputOn(bus.bank, job.port)
        else !Latched(bus.bank, job.port)
      case _ => true
    }

    lemma SuccessStands()
      requires Valid()
      ensures job.result == Succeeded ==> Stands()
    {
      hide Core, StageReady, Stands;
    }

    /** What one executed stage leaves alone. */
    twostate predicate StageFrame()
      reads this, bus
    {
      && old(bus.trace) <= bus.trace && bus.Later()
      && job.operation == old(job.operation) && job.portEnabled == old(job.portEnabled) && job.port == old(job.port)
      && times.opT == old(times.opT) && job.result != Idle && CleanFailure()
    }

    /** One call's effect on a job: it ended, moved to a later stage, or is still
        within the time its stage may wait. */
    twostate predicate Progressed()
      reads this, bus
    {
      && job.operation == old(job.operation) && times.opT == old(times.opT) && job.portEnabled == old(job.portEnabled)
      && job.port == old(job.port)
      && monitoring == old(monitoring) && snapshot == old(snapshot) && backupPin == old(backupPin)
      && bus.Later() && CleanFailure()
      && (job.result == Running ==>
            Follows(job.operation, times.opT, Call(old(bus.now), old(job.stage), old(times.stageT)),
                    Call(bus.now, job.stage, times.stageT)))
      && job.result != Idle
    }

    constructor (bus: Bus)
      requires bus.Valid() && bus.mon == Start(bus.start)
      ensures Valid() && this.bus == bus && job.result == Idle && job.operation == NoOperation
      ensures !monitoring && !reconciled && !prepared && !backupPin
      ensures !snapshot.internalValid && !snapshot.externalValid
      ensures expectedInternal == X00 && expectedExternal == X00
    {
      this.bus := bus;
      snapshot := Snapshot(0, false, 0, false, 0, false, false, false, false, false, false, false,
                           false, false, false, false, false, 0, 0, false);
      monitoring, reconciled, prepared := false, false, false;
      job := Job(Idle, NoOperation, 0, Vbus, PortMask(Vbus), false, false, 0, 0, 0);
      expectedInternal, expectedExternal := X00, X00;
      ceOffAt, tsSelectedAt := 0, 0;
      backupPin := false;
      times := Times(0, 0, 0, 0, 0);
    }

    /** Time, trace and fault count only grow. */
    twostate predicate Onward()
      reads bus
    {
      && bus.Later() && old(bus.trace) <= bus.trace && old(bus.faults) <= bus.faults
      && (bus.benign ==> bus.faults == old(bus.faults))
    }

    /** What a rollback leaves when every transfer of it got through: a failed
        charge operation holds CE low, a failed port its enable, a failed
        reconciliation everything external. */
    ghost predicate RolledBack()
      reads this, bus
    {
      match job.operation
      case PrepareCharge | EnableCharge => CeHeldLow(bus.bank.internal)
      case PortChange =>
        job.portEnabled ==>
          !Latched(bus.bank, job.port)
          && (bus.benign && job.port == FiveVoltVbus ==> !bus.bank.internal.out1.b4)
      case Reconcile | RestorePor => bus.bank.external.out1 == X00 && bus.bank.external.cfg1 == UNUSED_INPUTS
      case _ => true
    }

    twostate predicate CleanFailure()
      reads this, bus
    {
      && old(bus.faults) <= bus.faults && (bus.benign ==> bus.faults == old(bus.faults))
      && (job.result == Failed && bus.faults == old(bus.faults) ==> RolledBack())
    }

    /** Still the stage that is on record. */
    twostate predicate SameStage()
      reads bus
    {
      bus.mon.op == old(bus.mon.op) && bus.mon.enabling == old(bus.mon.enabling) && bus.mon.port == old(bus.mon.port)
    }

    /** The stage on record is one of the present operation. */
    ghost predicate Marked()
      reads this, bus
    {
      bus.mon.op == job.operation && bus.mon.enabling == job.portEnabled && bus.mon.port == job.port
    }

    /** A step made of permitted transfers. */
    twostate predicate Worked()
      reads bus
    {
      BusOk() && Onward() && SameStage()
    }

    /** A step that at most took enables away. */
    twostate predicate Lowered()
      reads bus
    {
      Worked() && Shrinks(old(bus.bank), bus.bank)
    }

    // ---- Transfers ----

    /** Reads all four register pairs of one expander; `pins` are the pins of its port 1. */
    method ReadExpander(device: Device) returns (ok: bool, r: Registers, pins: Byte)
      requires BusOk()
      modifies bus
      ensures BusOk() && bus.bank == old(bus.bank) && OnlyReads(old(bus.mon), bus.mon)
      ensures Onward()
      ensures ok ==> r == bus.bank.Of(device)
      ensures ok ==> PinsSeen(bus.trace, device, pins) && bus.trace[..|bus.trace| - 1] == old(bus.trace)
      ensures bus.benign ==> ok && pins == Driven(r)
    {
      var in0, in1;
      r, pins := POWER_ON, X00;
      ok, in0, in1 := bus.ReadInputs(device);
      if !ok { return; }
      var o0, o1, p0, p1, c0, c1;
      ok, o0, o1 := bus.ReadPair(device, Outputs);
      if !ok { return; }
      ok, p0, p1 := bus.ReadPair(device, Polarities);
      if !ok { return; }
      ok, c0, c1 := bus.ReadPair(device, Configs);
      if !ok { return; }
      r, pins := Registers(o0, o1, p0, p1, c0, c1), in1.Xor(p1);
    }

    /** One register write, which must obey the sequencing rules. */
    method WriteRegister(device: Device, reg: Register, value: Byte) returns (ok: bool)
      requires BusOk()
      requires Permitted(bus.mon, bus.now, Written(bus.bank, device, reg, value))
      modifies bus
      ensures BusOk() && Onward()
      ensures ok ==> bus.bank == Written(old(bus.bank), device, reg, value)
      ensures bus.benign || bus.faults == old(bus.faults) ==> ok
      ensures bus.bank == Written(old(bus.bank), device, reg, value) || bus.bank == old(bus.bank)
      ensures device == Internal ==> bus.bank.external == old(bus.bank.external)
      ensures device == External ==> bus.bank.internal == old(bus.bank.internal)
      ensures SameStage()
      ensures ok ==> bus.mon == AfterWrite(old(bus.mon), bus.mon.at, bus.bank) && old(bus.now) <= bus.mon.at
      ensures Supply(bus.bank.internal) && old(bus.mon.selected).Some? ==> bus.mon.selected == old(bus.mon.selected)
      ensures CeHeldLow(bus.bank.internal) && old(bus.mon.ceLow).Some? ==> bus.mon.ceLow == old(bus.mon.ceLow)
    {
      hide Permitted, Fold, Driven;
      ok := bus.WriteRegister(device, reg, value);
      PermittedLater(old(bus.mon), old(bus.now), bus.now, Written(old(bus.bank), device, reg, value));
    }

    method VerifyOperational() returns (ok: bool)
      requires BusOk()
      modifies bus
      ensures BusOk() && bus.bank == old(bus.bank) && OnlyReads(old(bus.mon), bus.mon)
      ensures Onward()
      ensures ok ==> CachesMatch()
                     && bus.bank.internal == ALL_OFF.(out1 := expectedInternal)
                     && bus.bank.external == ALL_OFF.(out1 := expectedExternal)
      ensures ok && expectedInternal == X00 && expectedExternal == X00 ==> AllSeenLow(bus.trace)
      ensures bus.benign ==> ok == (bus.bank.internal == ALL_OFF.(out1 := expectedInternal)
                                    && bus.bank.external == ALL_OFF.(out1 := expectedExternal))
    {
      var internal, external, inPins, extPins;
      ok, internal, inPins := ReadExpander(Internal);
      if !ok { return; }
      ok, external, extPins := ReadExpander(External);
      if !ok { return; }
      ok := && Operational(internal, inPins, expectedInternal)
            && Operational(external, extPins, expectedExternal);
      FollowingPins(expectedInternal);
      FollowingPins(expectedExternal);
    }

    /** Pins that follow an operational expander's latches pass the check. */
    static lemma FollowingPins(expected: Byte)
      ensures Operational(ALL_OFF.(out1 := expected), Driven(ALL_OFF.(out1 := expected)), expected)
    {
    }

    static predicate Operational(r: Registers, pins: Byte, expected: Byte) {
      && r.cfg0 == XFF && r.cfg1 == UNUSED_INPUTS && r.pol0 == X00 && r.pol1 == X00
      && r.out0 == X00 && r.out1 == expected && pins.And(DEFINED) == expected.And(DEFINED)
    }

    /** The enable pins were last read as the latch has them. */
    ghost predicate Shown(device: Device, value: Byte)
      reads bus
    {
      exists pins: Byte :: PinsSeen(bus.trace, device, pins) && pins.And(DEFINED) == value.And(DEFINED)
    }

    /** Writes a control latch and reads the whole expander back. */
    method WriteControl(device: Device, value: Byte) returns (ok: bool)
      requires BusOk()
      requires Permitted(bus.mon, bus.now, Written(bus.bank, device, Output1, value))
      modifies this`expectedInternal, this`expectedExternal, bus
      ensures Worked()
      ensures bus.bank == Written(old(bus.bank), device, Output1, value) || (!ok && bus.bank == old(bus.bank))
      ensures Supply(bus.bank.internal) ==> SelectionKept()
      ensures bus.benign && old(Known(Look())) ==> ok && Look() == Latch(old(Look()), device, value)
      ensures bus.benign ==> bus.bank == Written(old(bus.bank), device, Output1, value)
      ensures ok ==> Shown(device, value)
      ensures ok ==>
                && bus.bank.Of(device).cfg1 == UNUSED_INPUTS
                && expectedInternal == (if device == Internal then value else old(expectedInternal))
                && expectedExternal == (if device == External then value else old(expectedExternal))
                && exists at :: old(bus.now) <= at <= bus.now
                     && OnlyReads(AfterWrite(old(bus.mon), at, bus.bank), bus.mon)
    {
      ok := WriteRegister(device, Output1, value);
      if !ok { return; }
      ghost var written := bus.mon;
      if device == Internal { expectedInternal := value; } else { expectedExternal := value; }
      var r, pins;
      ok, r, pins := ReadExpander(device);
      if !ok { return; }
      ok := Operational(r, pins, value);
      FollowingPins(value);
      assert OnlyReads(AfterWrite(old(bus.mon), written.at, bus.bank), bus.mon);
    }

    /** Reads an expander's control latch and then the pins it drives. */
    method ReadControl(device: Device) returns (ok: bool, latch: Byte, pins: Byte)
      requires BusOk()
      modifies bus
      ensures BusOk() && bus.bank == old(bus.bank) && OnlyReads(old(bus.mon), bus.mon)
      ensures Onward()
      ensures ok ==> latch == bus.bank.Of(device).out1
      ensures ok && device == Internal && !pins.b1 && CeHeldLow(bus.bank.internal) ==> bus.mon.ceLow.Some?
      ensures ok ==> PinsSeen(bus.trace, device, pins)
      ensures bus.benign ==> ok && pins == Driven(bus.bank.Of(device))
    {
      var o0, p0, p1, i0, i1;
      pins := X00;
      ok, o0, latch := bus.ReadPair(device, Outputs);
      if ok {
        ok, p0, p1 := bus.ReadPair(device, Polarities);
        if ok {
          ok, i0, i1 := bus.ReadInputs(device);
          pins := i1.Xor(p1);
        }
      }
    }

    /** Checks internal latch and pins against `mask`, refreshing the cache. */
    method VerifyControlLow(mask: Byte) returns (ok: bool)
      requires BusOk()
      modifies this`expectedInternal, bus
      ensures BusOk() && bus.bank == old(bus.bank) && OnlyReads(old(bus.mon), bus.mon)
      ensures Onward()
      ensures ok ==> expectedInternal == bus.bank.internal.out1 && bus.bank.internal.out1.Misses(mask)
                     && SeenLow(bus.trace, Internal, mask)
      ensures ok && mask.b1 && CeHeldLow(bus.bank.internal) ==> bus.mon.ceLow.Some?
      ensures bus.benign ==> ok == bus.bank.internal.out1.Misses(mask) && expectedInternal == bus.bank.internal.out1
    {
      var latch, pins;
      ok, latch, pins := ReadControl(Internal);
      if ok {
        expectedInternal := latch;
        ok := latch.Misses(mask) && pins.Misses(mask);
        MaskCovers(pins, mask);
        DrivenMisses(bus.bank.internal, mask);
      }
    }

    static lemma DrivenMisses(r: Registers, mask: Byte)
      ensures r.out1.Misses(mask) ==> Driven(r).Misses(mask)
    {
    }

    static lemma MaskCovers(pins: Byte, mask: Byte)
      ensures pins.Misses(mask) && mask.b1 ==> !pins.b1
    {
    }

    /** Lowers CE in the latch as it is read back, whatever else is in it. */
    method LowerCeLatch() returns (ok: bool)
      requires BusOk() && (Charges(bus.mon.op) || Resets(bus.mon.op))
      modifies bus
      ensures Lowered()
      ensures ok ==> bus.bank.internal == old(bus.bank.internal).(out1 := old(bus.bank.internal).out1.Minus(CE))
      ensures bus.benign || bus.faults == old(bus.faults) ==> ok
      ensures bus.bank.external == old(bus.bank.external)
    {
      hide Permitted, Shrinks, Fold;
      var o0, o1;
      ok, o0, o1 := bus.ReadPair(Internal, Outputs);
      ShrinksReflexive(bus.bank);
      if ok {
        LowerCePermitted(bus.mon, bus.now);
        ok := WriteRegister(Internal, Output1, o1.Minus(CE));
      }
    }

    /** Makes CE an output and the unused pins inputs, keeping the other directions. */
    method DriveCeDirection() returns (ok: bool)
      requires BusOk() && !bus.bank.internal.out1.b1 && (Charges(bus.mon.op) || Resets(bus.mon.op))
      modifies bus
      ensures Lowered()
      ensures ok ==> CeHeldLow(bus.bank.internal)
      ensures ok ==> bus.bank.internal ==
                     old(bus.bank.internal).(cfg1 := old(bus.bank.internal).cfg1.Or(UNUSED_INPUTS).Minus(CE))
      ensures bus.benign || bus.faults == old(bus.faults) ==> ok
      ensures bus.bank.external == old(bus.bank.external)
    {
      hide Permitted, Shrinks, Fold;
      var c0, c1;
      ShrinksReflexive(bus.bank);
      ok, c0, c1 := bus.ReadPair(Internal, Configs);
      if ok {
        DriveCeLowPermitted(bus.mon, bus.now);
        ok := WriteRegister(Internal, Config1, c1.Or(UNUSED_INPUTS).Minus(CE));
      }
    }

    /** Lowers CE and makes it a driven output. */
    method PullCeLow() returns (ok: bool)
      requires BusOk() && (Charges(bus.mon.op) || Resets(bus.mon.op))
      modifies bus
      ensures Lowered() && bus.bank.external == old(bus.bank.external)
      ensures ok ==> bus.bank.internal == CeForced(old(bus.bank.internal))
      ensures bus.faults == old(bus.faults) ==> ok
    {
      hide Shrinks, Fold, Charges, Resets;
      ok := LowerCeLatch();
      label latched:
      if ok {
        ok := DriveCeDirection();
        ShrinksTransitive(old(bus.bank), old@latched(bus.bank), bus.bank);
      }
    }

    /** Lowers CE, makes it a driven output and proves it low on the pin. */
    method ForceCeLow() returns (ok: bool)
      requires BusOk() && (Charges(bus.mon.op) || Resets(bus.mon.op))
      modifies this`expectedInternal, this`ceOffAt, this`times, bus
      ensures Lowered()
      ensures ok ==>
                bus.mon.ceLow.Some? && bus.mon.ceLow.value <= times.ceOffT && old(bus.now) <= times.ceOffT <= bus.now
      ensures bus.faults == old(bus.faults) ==> CeHeldLow(bus.bank.internal)
      ensures bus.benign ==> ok && (!prepared ==> Look() == ForcedCe(old(Look()), Ticks(bus.now)))
      ensures times == old(times).(ceOffT := times.ceOffT)
      ensures if ok then ceOffAt == Ticks(times.ceOffT) else ceOffAt == old(ceOffAt) && times == old(times)
      ensures bus.bank.external == old(bus.bank.external)
    {
      hide Shrinks, Fold, Charges, Resets;
      ok := PullCeLow();
      if ok {
        ok := VerifyControlLow(CE);
      }
      if ok {
        ceOffAt := bus.Millis();
        times := times.(ceOffT := bus.now);
      }
    }

    /** A write that takes away enables other than boost and the buck. */
    method WriteOff(device: Device, reg: Register, value: Byte) returns (ok: bool)
      requires BusOk() && Harmless(bus.bank.Of(device), reg, value) && Resets(bus.mon.op)
      requires device == Internal ==> !BoostOn(bus.bank) && !BuckOn(bus.bank)
      modifies bus
      ensures Lowered()
      ensures ok ==> bus.bank == Written(old(bus.bank), device, reg, value)
      ensures bus.benign || bus.faults == old(bus.faults) ==> ok
      ensures bus.bank == Written(old(bus.bank), device, reg, value) || bus.bank == old(bus.bank)
      ensures device == External ==>
                (old(bus.mon.ceLow).Some? ==> bus.mon.ceLow == old(bus.mon.ceLow))
                && (old(bus.mon.selected).Some? ==> bus.mon.selected == old(bus.mon.selected))
    {
      HarmlessShrinks(bus.bank, device, reg, value);
      ResetConfined(bus.mon.op, bus.mon.port, bus.bank, Written(bus.bank, device, reg, value));
      TakingAwayPermitted(bus.mon, bus.now, Written(bus.bank, device, reg, value));
      hide Permitted, Shrinks, Fold, Supply, CeHeldLow, BuckOn, BoostOn;
      ShrinksReflexive(bus.bank);
      ok := WriteRegister(device, reg, value);
    }

    /** Clears `mask` in the latch as it is read back and checks it went low. */
    method ClearActual(device: Device, mask: Byte) returns (ok: bool)
      requires BusOk() && bus.mon.op == PortChange
      requires if device == Internal then mask == BUCK && !J8On(bus.bank) && bus.mon.port == FiveVoltVbus
               else mask == PortMask(bus.mon.port)
      modifies this`expectedInternal, this`expectedExternal, bus
      ensures Lowered() && SelectionKept()
      ensures ok || bus.faults == old(bus.faults) ==> bus.bank.Of(device).out1.Misses(mask)
      ensures ok ==> expectedInternal == if device == Internal then bus.bank.internal.out1 else old(expectedInternal)
      ensures ok ==> expectedExternal == if device == External then bus.bank.external.out1 else old(expectedExternal)
      ensures ok ==> SeenLow(bus.trace, device, mask)
      ensures bus.benign ==> ok
      ensures device == Internal ==> bus.bank.external == old(bus.bank.external)
    {
      hide Permitted, Shrinks, Fold, Supply, CeHeldLow, J8On;
      DrivenMisses(bus.bank.Of(device).(out1 := bus.bank.Of(device).out1.Minus(mask)), mask);
      ok := LowerActual(device, mask);
      if ok {
        var latch, pins;
        ok, latch, pins := ReadControl(device);
        if ok {
          if device == Internal { expectedInternal := latch; } else { expectedExternal := latch; }
          ok := latch.Misses(mask) && pins.Misses(mask);
        }
      }
    }

    method LowerActual(device: Device, mask: Byte) returns (ok: bool)
      requires BusOk() && bus.mon.op == PortChange
      requires if device == Internal then mask == BUCK && !J8On(bus.bank) && bus.mon.port == FiveVoltVbus
               else mask == PortMask(bus.mon.port)
      modifies bus
      ensures Lowered() && SelectionKept()
      ensures ok ==> bus.bank == Written(old(bus.bank), device, Output1, old(bus.bank).Of(device).out1.Minus(mask))
      ensures bus.faults == old(bus.faults) ==> ok
      ensures device == Internal ==> bus.bank.external == old(bus.bank.external)
    {
      hide Permitted, Shrinks, Fold, Supply, CeHeldLow, J8On;
      var o0, o1;
      ShrinksReflexive(bus.bank);
      ok, o0, o1 := bus.ReadPair(device, Outputs);
      if ok {
        if device == Internal {
          LowerBuckPermitted(bus.mon, bus.now);
        } else {
          LowerPortPermitted(bus.mon, bus.now, mask);
        }
        ok := WriteRegister(device, Output1, o1.Minus(mask));
      }
    }

    /** The selection evidence, if there is any, is untouched. */
    twostate predicate SelectionKept()
      reads bus
    {
      old(bus.mon.selected).Some? ==> bus.mon.selected == old(bus.mon.selected)
    }

    /** The rollback of a failed operation: never raises anything. */
    method FailOperation()
      requires Core() && Marked()
      modifies this`prepared, this`expectedInternal, this`expectedExternal, this`ceOffAt, this`times, this`job, bus
      ensures Core() && job == old(job).(result := Failed) && Lowered() && (prepared ==> old(prepared))
      ensures times == old(times).(ceOffT := times.ceOffT) && CleanFailure()
      ensures job.operation == DisableCharging || (job.operation == PortChange && !job.portEnabled) ==>
                bus.bank == old(bus.bank)
    {
      hide Permitted, Shrinks, Fold, Supply;
      ShrinksReflexive(bus.bank);
      if job.operation == PrepareCharge || job.operation == EnableCharge {
        prepared := false;
        var ok := ForceCeLow();
      } else if job.operation == PortChange && job.portEnabled {
        RollBackPort();
      } else if job.operation == Reconcile || job.operation == RestorePor {
        ForceExternalOff();
      }
      job := job.(result := Failed);
    }

    method RollBackPort()
      requires BusOk() && job.portMask == PortMask(job.port) && Marked() && job.operation == PortChange
      modifies this`expectedInternal, this`expectedExternal, bus
      ensures Lowered() && SelectionKept()
      ensures bus.faults == old(bus.faults) ==> !Latched(bus.bank, job.port)
      ensures bus.benign && job.port == FiveVoltVbus ==> !bus.bank.internal.out1.b4
    {
      hide Permitted, Shrinks, Fold, Supply, Latched;
      var ok := ClearActual(External, job.portMask);
      if ok && job.port == FiveVoltVbus {
        label cleared:
        ok := ClearActual(Internal, BUCK);
        ShrinksTransitive(old(bus.bank), old@cleared(bus.bank), bus.bank);
      }
      MaskedPort(bus.bank, job.port);
    }

    method ForceExternalOff()
      requires BusOk() && Resets(bus.mon.op)
      modifies bus
      ensures Lowered() && SelectionKept()
      ensures bus.faults == old(bus.faults) ==> bus.bank.external.out1 == X00 && bus.bank.external.cfg1 == UNUSED_INPUTS
    {
      hide Permitted, Shrinks, Fold, Supply;
      var ok := WriteOff(External, Output1, X00);
      if ok {
        label off:
        ok := WriteOff(External, Config1, UNUSED_INPUTS);
        ShrinksTransitive(old(bus.bank), old@off(bus.bank), bus.bank);
      }
    }

    // ---- Starting and stepping operations ----

    method BeginOperation(op: Operation, preempt: bool) returns (ok: bool)
      requires Valid() && op != NoOperation
      modifies this`job, this`times, bus`now
      ensures Core() && bus.Later()
      ensures ok == ((old(job.result) != Running || preempt) && monitoring)
      ensures if ok then job == old(job).(operation := op, result := Running, stage := 0, pgTiming := false,
                                          stageAt := job.stageAt, operationAt := job.operationAt)
                         && old(bus.now) <= times.opT
              else job == old(job) && times == old(times)
      ensures !ok ==> Valid()
    {
      hide Fold;
      if (job.result == Running && !preempt) || !monitoring {
        return false;
      }
      var at := bus.Millis();
      job := job.(operation := op, result := Running, stage := 0, pgTiming := false, stageAt := at, operationAt := at);
      times := times.(opT := bus.now, stageT := bus.now);
      ok := true;
    }

    /** startReconcile, startPrepareCharge and startEnableCharge wait for their
        turn; startDisableCharging and startRestorePor preempt. */
    method StartOperation(op: Operation) returns (ok: bool)
      requires Valid() && op != NoOperation && op != PortChange
      modifies this`job, this`times, bus`now
      ensures Valid() && bus.Later()
      ensures ok == ((old(job.result) != Running || op == DisableCharging || op == RestorePor) && monitoring)
      ensures if ok then job.result == Running && job.operation == op && job.stage == 0 && old(bus.now) <= times.opT
              else job == old(job) && times == old(times)
      ensures job.result == Running ==> monitoring
    {
      hide Fold;
      ok := BeginOperation(op, op == DisableCharging || op == RestorePor);
    }

    method StartPort(port: Port, enabled: bool) returns (ok: bool)
      requires Valid()
      modifies this`job, this`times, bus`now
      ensures Valid() && bus.Later()
      ensures ok == (old(job.result) != Running && monitoring)
      ensures if ok then job.result == Running && job.operation == PortChange && job.stage == 0
                         && old(bus.now) <= times.opT && job.port == port && job.portEnabled == enabled
              else job == old(job) && times == old(times)
    {
      hide Fold;
      ok := BeginOperation(PortChange, false);
      if ok {
        job := job.(port := port, portMask := PortMask(port), portEnabled := enabled);
      }
    }

    /** The end of a stage: fail, succeed, or move on to stage `next`. */
    method Conclude(ok: bool, done: bool, next: nat)
      requires Core() && (!ok ==> Marked())
      modifies this`job, this`times, this`prepared, this`expectedInternal, this`expectedExternal, this`ceOffAt, bus
      ensures Core() && Lowered()
      ensures !ok ==> job == old(job).(result := Failed) && (prepared ==> old(prepared)) && CleanFailure()
      ensures ok ==> bus.bank == old(bus.bank) && bus.mon == old(bus.mon) && bus.trace == old(bus.trace)
                     && prepared == old(prepared)
                     && expectedInternal == old(expectedInternal) && expectedExternal == old(expectedExternal)
      ensures ok && done ==> job == old(job).(result := Succeeded) && times == old(times)
      ensures ok && !done ==> job == old(job).(stage := next, pgTiming := false, stageAt := job.stageAt)
                              && times == old(times).(stageT := times.stageT)
                              && old(bus.now) <= times.stageT
      ensures ok && done ==> Look() == Concluded(old(Look()))
      ensures bus.benign && ok && !done ==> Look() == ToStage(old(Look()), Ticks(bus.now), next)
      ensures times.opT == old(times.opT)
      ensures job.operation == DisableCharging ==> bus.bank == old(bus.bank)
    {
      hide Fold, Shrinks;
      ShrinksReflexive(bus.bank);
      if !ok {
        FailOperation();
      } else if done {
        job := job.(result := Succeeded);
      } else {
        var at := bus.Millis();
        job := job.(stage := next, stageAt := at, pgTiming := false);
        times := times.(stageT := bus.now);
      }
    }

    /** One evaluation of a power-good wait: good for 100 ms, or failed after 2 s. */
    method WaitPg(good: bool) returns (done: bool)
      requires Core() && job.result == Running && Marked()
      modifies this`job, this`times, this`prepared, this`expectedInternal, this`expectedExternal, this`ceOffAt, bus
      ensures Core() && Lowered() && job.result in {Running, Failed} && (prepared ==> old(prepared)) && CleanFailure()
      ensures job == old(job).(result := job.result, pgTiming := job.pgTiming, pgAt := job.pgAt)
      ensures times == old(times).(pgT := times.pgT, ceOffT := times.ceOffT)
      ensures job.result == Running ==>
                && bus.bank == old(bus.bank) && bus.mon == old(bus.mon) && prepared == old(prepared)
                && expectedInternal == old(expectedInternal) && expectedExternal == old(expectedExternal)
                && times.ceOffT == old(times.ceOffT)
                && job.pgTiming == good
                && (good ==> old(bus.now) <= times.pgT || (old(job.pgTiming) && times.pgT == old(times.pgT)))
      ensures done ==> job.result == Running && good && times.pgT + PG_MS <= bus.now
      ensures job.result == Running && !done && bus.now < times.opT + WRAP ==>
                old(bus.now) < times.stageT + PG_TIMEOUT_MS
      ensures bus.benign ==>
                var at := Ticks(bus.now);
                && done == (good && old(job.pgTiming) && Elapsed(at, old(job.pgAt)) >= PG_MS)
                && (!done ==> (job.result == Failed) == (Elapsed(at, old(job.stageAt)) >= PG_TIMEOUT_MS))
                && (job.result == Running ==>
                      job.pgAt == if good && !old(job.pgTiming) then at else old(job.pgAt))
    {
      hide Fold, Shrinks;
      ShrinksReflexive(bus.bank);
      done := TimePg(good);
      if !done {
        var expired := StageExpired();
        if expired {
          label late:
          FailOperation();
          ShrinksTransitive(old(bus.bank), old@late(bus.bank), bus.bank);
        }
      }
    }

    /** A stage that only waits for a power-good: still waiting, past it, or failed. */
    method WaitStage(good: bool, last: bool, next: nat)
      requires Core() && job.result == Running && next != job.stage && Marked()
      modifies this`job, this`times, this`prepared, this`expectedInternal, this`expectedExternal, this`ceOffAt, bus
      ensures Core() && Lowered() && (prepared ==> old(prepared)) && CleanFailure()
      ensures job == old(job).(result := job.result, stage := job.stage, pgTiming := job.pgTiming,
                               pgAt := job.pgAt, stageAt := job.stageAt)
      ensures times.opT == old(times.opT)
      ensures times.tsT == old(times.tsT)
      ensures old(times.stageT) <= times.stageT
      ensures job.result == Failed || (job.result == Succeeded && last)
              || (job.result == Running && !last && job.stage == next)
              || (job.result == Running && job.stage == old(job.stage))
      ensures job.result != Failed ==>
                && bus.bank == old(bus.bank) && bus.mon == old(bus.mon) && prepared == old(prepared)
                && expectedInternal == old(expectedInternal) && expectedExternal == old(expectedExternal)
      ensures job.result == Succeeded ==> good && job.pgTiming && times.pgT + PG_MS <= bus.now
      ensures job.result == Running && job.stage == next ==>
                old(bus.now) <= times.stageT && good && times.pgT + PG_MS <= bus.now
                && (old(bus.now) <= times.pgT || (old(job.pgTiming) && times.pgT == old(times.pgT)))
      ensures job.result == Running && job.stage == old(job.stage) ==>
                && times.stageT == old(times.stageT) && job.pgTiming == good
                && (good ==> old(bus.now) <= times.pgT || (old(job.pgTiming) && times.pgT == old(times.pgT)))
                && (bus.now < times.opT + WRAP ==> old(bus.now) < times.stageT + PG_TIMEOUT_MS)
      ensures bus.benign ==>
                CalmWait(old(Look()), Look(), good, Ticks(bus.now),
                         if last then Concluded(old(Look())) else ToStage(old(Look()), Ticks(bus.now), next))
    {
      hide Fold, Shrinks;
      var done := WaitPg(good);
      if done {
        label waited:
        Conclude(true, last, next);
        ShrinksTransitive(old(bus.bank), old@waited(bus.bank), bus.bank);
      }
    }

    /** Starts, continues or restarts the 100 ms of good samples. */
    method TimePg(good: bool) returns (done: bool)
      requires Core()
      modifies this`job, this`times, bus`now
      ensures Core() && bus.Later()
      ensures job == old(job).(pgTiming := good, pgAt := job.pgAt) && times == old(times).(pgT := times.pgT)
      ensures good ==> old(bus.now) <= times.pgT || (old(job.pgTiming) && times.pgT == old(times.pgT))
      ensures good && old(job.pgTiming) ==> job.pgAt == old(job.pgAt) && times.pgT == old(times.pgT)
      ensures good && !old(job.pgTiming) && bus.benign ==> job.pgAt == Ticks(bus.now)
      ensures !good ==> job.pgAt == old(job.pgAt)
      ensures done ==> good && times.pgT + PG_MS <= bus.now
      ensures done == (good && Elapsed(Ticks(bus.now), job.pgAt) >= PG_MS)
    {
      hide Fold;
      done := false;
      if good && !job.pgTiming {
        var at := bus.Millis();
        job := job.(pgTiming := true, pgAt := at);
        times := times.(pgT := bus.now);
      } else if !good {
        job := job.(pgTiming := false);
      }
      if good {
        var at := bus.Millis();
        ElapsedBounds(bus.now, times.pgT);
        done := Elapsed(at, job.pgAt) >= PG_MS;
      }
    }

    /** Whether CE has been off for the 100 ms the charger current needs to decay. */
    method DecayElapsed() returns (yes: bool)
      requires Core() && CeProven() && times.ceOffT <= times.stageT
      modifies bus`now
      ensures Core() && bus.Later()
      ensures yes ==> CeDecayed()
      ensures yes == (Elapsed(Ticks(bus.now), ceOffAt) >= DECAY_MS)
      ensures !yes && bus.now < times.opT + WRAP ==> old(bus.now) < times.stageT + DECAY_MS
    {
      hide Fold;
      var at := bus.Millis();
      ElapsedBounds(bus.now, times.ceOffT);
      yes := Elapsed(at, ceOffAt) >= DECAY_MS;
    }

    /** Whether the supply has been selected for the 500 ms the thermistor path needs. */
    method SettleElapsed() returns (yes: bool)
      requires Core() && SupplySelected() && times.tsT <= times.stageT
      modifies bus`now
      ensures Core() && bus.Later()
      ensures yes ==> bus.mon.selected.value + TS_SETTLE_MS <= bus.now
      ensures yes == (Elapsed(Ticks(bus.now), tsSelectedAt) >= TS_SETTLE_MS)
      ensures !yes && bus.now < times.opT + WRAP ==> old(bus.now) < times.stageT + TS_SETTLE_MS
    {
      hide Fold;
      var at := bus.Millis();
      ElapsedBounds(bus.now, times.tsT);
      yes := Elapsed(at, tsSelectedAt) >= TS_SETTLE_MS;
    }

    /** Whether the current stage has used up its two seconds. */
    method StageExpired() returns (yes: bool)
      requires Core()
      modifies bus`now
      ensures Core() && bus.Later()
      ensures yes == (Elapsed(Ticks(bus.now), job.stageAt) >= PG_TIMEOUT_MS)
      ensures !yes && bus.now < times.opT + WRAP ==> old(bus.now) < times.stageT + PG_TIMEOUT_MS
    {
      hide Fold;
      var at := bus.Millis();
      ElapsedBounds(bus.now, times.stageT);
      yes := Elapsed(at, job.stageAt) >= PG_TIMEOUT_MS;
    }

    /** Marks the start of a stage in the trace. */
    ghost method Mark()
      requires Core() && (job.operation in {Reconcile, DisableCharging, RestorePor} ==> !prepared)
      modifies bus`trace, bus`mon
      ensures Core() && old(bus.trace) <= bus.trace && bus.mon.bank == bus.bank
      ensures bus.mon.bank == old(bus.mon.bank) && bus.mon.ceLow == old(bus.mon.ceLow)
      ensures Marked()
      ensures job.operation in {PrepareCharge, EnableCharge, PortChange} ==> bus.mon.selected == old(bus.mon.selected)
      ensures job.operation == PortChange && old(bus.mon.buckGood).Good? && old(bus.mon.buckGood).answered ==>
                bus.mon.buckGood == Good(old(bus.mon.buckGood).since, false)
    {
      hide Fold;
      bus.Record(Served(bus.now, job.operation, job.portEnabled, job.port));
    }

    // ---- Reconcile and RestorePor ----

    /** Stage 1: everything the external expander drives goes first. */
    method LowerExternal() returns (ok: bool)
      requires BusOk() && Resets(bus.mon.op)
      modifies this`expectedInternal, bus
      ensures Lowered()
      ensures old(bus.mon.ceLow).Some? ==> bus.mon.ceLow == old(bus.mon.ceLow)
      ensures ok ==> bus.bank.external.out1 == X00
      ensures bus.benign && CeHeldLow(old(bus.bank.internal)) ==> ok
    {
      hide Fold, Shrinks;
      ShrinksReflexive(bus.bank);
      ok := VerifyControlLow(CE);
      if ok {
        HarmlessClear(bus.bank.external);
        ok := WriteOff(External, Output1, X00);
      }
    }

    static lemma HarmlessClear(r: Registers)
      ensures Harmless(r, Output1, X00)
    {
    }

    /** Stage 2: boost, buck and the rest, after CE has decayed. */
    method LowerInternal() returns (ok: bool)
      requires BusOk() && CeDecayed() && bus.bank.external.out1 == X00 && Resets(bus.mon.op)
      modifies bus
      ensures Lowered()
      ensures ok ==> AllLow(bus.bank)
      ensures bus.benign ==> ok
    {
      hide Fold, Shrinks, Permitted;
      ShrinksReflexive(bus.bank);
      ClearInternalPermitted(bus.mon, bus.now);
      ok := WriteRegister(Internal, Output1, X00);
    }

    /** How far the configuration got when `stage` is reached: stages 3 to 6 write
        directions and latches of port 0, then directions and polarity of port 1. */
    static predicate Configured(b: Bank, stage: nat) {
      ConfiguredSide(b.internal, stage) && ConfiguredSide(b.external, stage)
    }

    static predicate ConfiguredSide(r: Registers, stage: nat) {
      && (stage >= 4 ==> r.cfg0 == XFF) && (stage >= 5 ==> r.out0 == X00) && (stage >= 6 ==> r.cfg1 == UNUSED_INPUTS)
      && (stage >= 7 ==> r.pol0 == X00 && r.pol1 == X00)
    }

    static lemma ConfiguredBank(b: Bank)
      requires Configured(b, 7) && AllLow(b)
      ensures b == Bank(ALL_OFF, ALL_OFF)
    {
    }

    /** The same write to both expanders while their control latches are zero. */
    method WriteBoth(reg: Register, value: Byte) returns (ok: bool)
      requires BusOk() && AllLow(bus.bank) && reg != Output1 && Resets(bus.mon.op)
      requires Harmless(bus.bank.internal, reg, value) && Harmless(bus.bank.external, reg, value)
      modifies bus
      ensures Lowered() && AllLow(bus.bank) && (bus.benign ==> ok)
      ensures ok ==> bus.bank == Written(Written(old(bus.bank), Internal, reg, value), External, reg, value)
    {
      hide Fold, Shrinks, Permitted, Harmless;
      ok := WriteOff(Internal, reg, value);
      if ok {
        label first:
        ok := WriteOff(External, reg, value);
        ShrinksTransitive(old(bus.bank), old@first(bus.bank), bus.bank);
      }
    }

    /** Stages 3 to 6 and 8: directions, unused latches and polarity. */
    method ConfigureStage() returns (ok: bool)
      requires BusOk() && AllLow(bus.bank) && job.stage in {3, 4, 5, 6, 8} && Resets(bus.mon.op)
      requires job.stage <= 6 ==> Configured(bus.bank, job.stage)
      modifies bus
      ensures Lowered() && AllLow(bus.bank) && (bus.benign ==> ok)
      ensures ok && job.stage <= 6 ==> Configured(bus.bank, job.stage + 1)
      ensures ok && old(bus.bank) == Restoring(8) && job.stage == 8 ==> bus.bank == Restoring(9)
    {
      hide Fold, Shrinks, Permitted;
      match job.stage
      case 3 => ok := WriteBoth(Config0, XFF);
      case 4 => ok := WriteBoth(Output0, X00);
      case 5 => ok := WriteBoth(Config1, UNUSED_INPUTS);
      case 6 => ok := WritePolarity();
      case _ => ok := WriteBoth(Config1, XFF);
    }

    method WritePolarity() returns (ok: bool)
      requires BusOk() && AllLow(bus.bank) && Configured(bus.bank, 6) && Resets(bus.mon.op)
      modifies bus
      ensures Lowered() && AllLow(bus.bank) && (bus.benign ==> ok) && (ok ==> Configured(bus.bank, 7))
    {
      hide Fold, Shrinks, Permitted;
      ok := WritePolarityPair(Internal);
      if ok {
        label first:
        ok := WritePolarityPair(External);
        ShrinksTransitive(old(bus.bank), old@first(bus.bank), bus.bank);
      }
    }

    method WritePolarityPair(device: Device) returns (ok: bool)
      requires BusOk() && AllLow(bus.bank) && Resets(bus.mon.op)
      modifies bus
      ensures Lowered() && AllLow(bus.bank) && (bus.benign ==> ok)
      ensures ok ==> bus.bank == old(bus.bank).With(device, old(bus.bank).Of(device).(pol0 := X00, pol1 := X00))
    {
      hide Fold, Shrinks, Permitted;
      ok := WriteOff(device, Polarity0, X00);
      if ok {
        label first:
        ok := WriteOff(device, Polarity1, X00);
        ShrinksTransitive(old(bus.bank), old@first(bus.bank), bus.bank);
      }
    }

    /** Every pin of both expanders is an input. */
    static predicate AllInputs(b: Bank) {
      b.internal.cfg0 == XFF && b.internal.cfg1 == XFF && b.external.cfg0 == XFF && b.external.cfg1 == XFF
    }

    method WriteLatchPair(device: Device) returns (ok: bool)
      requires BusOk() && AllInputs(bus.bank) && Resets(bus.mon.op)
      modifies bus
      ensures Lowered() && AllInputs(bus.bank) && (bus.benign ==> ok)
      ensures ok ==> bus.bank == old(bus.bank).With(device, old(bus.bank).Of(device).(out0 := XFF, out1 := XFF))
    {
      hide Fold, Shrinks, Permitted;
      ok := WriteOff(device, Output0, XFF);
      if ok {
        label first:
        ok := WriteOff(device, Output1, XFF);
        ShrinksTransitive(old(bus.bank), old@first(bus.bank), bus.bank);
      }
    }

    /** Stage 9: the high power-on latches, only behind directions read back as inputs. */
    method RestoreLatches() returns (ok: bool)
      requires BusOk() && Resets(bus.mon.op)
      modifies bus
      ensures Lowered()
      ensures old(bus.bank) == Restoring(9) ==> (ok ==> bus.bank == Restoring(10)) && (bus.benign ==> ok)
    {
      hide Fold, Shrinks, Permitted;
      ShrinksReflexive(bus.bank);
      var in0, in1, ext0, ext1;
      ok, in0, in1 := bus.ReadPair(Internal, Configs);
      if ok {
        ok, ext0, ext1 := bus.ReadPair(External, Configs);
      }
      if ok {
        ok := in0 == XFF && in1 == XFF && ext0 == XFF && ext1 == XFF;
      }
      if ok {
        ok := WriteLatchPair(Internal);
        if ok {
          label first:
          ok := WriteLatchPair(External);
          ShrinksTransitive(old(bus.bank), old@first(bus.bank), bus.bank);
        }
      }
    }

    /** Stage 10: the power-on defaults, read back from both expanders. */
    method VerifyPor() returns (ok: bool)
      requires BusOk()
      modifies bus
      ensures Lowered() && bus.bank == old(bus.bank)
      ensures ok ==> bus.bank == Bank(POWER_ON, POWER_ON) && AllSeenLow(bus.trace)
      ensures bus.benign && bus.bank == Bank(POWER_ON, POWER_ON) ==> ok
    {
      hide Fold, Shrinks;
      ShrinksReflexive(bus.bank);
      var internal, external, inPins, extPins;
      ok, internal, inPins := ReadExpander(Internal);
      if ok {
        ok, external, extPins := ReadExpander(External);
        if ok {
          ok := && internal == POWER_ON && external == POWER_ON
                && inPins.Misses(DEFINED) && extPins.Misses(DEFINED);
        }
      }
    }

    ghost function Look(): View
      reads this, bus
    {
      View(job, bus.bank, snapshot, monitoring, reconciled, prepared, expectedInternal, expectedExternal, ceOffAt,
           tsSelectedAt, backupPin)
    }

    method ServiceReconcile()
      requires Valid() && job.result == Running && job.operation in {Reconcile, RestorePor}
      modifies this`job, this`times, this`prepared, this`reconciled, this`expectedInternal, this`expectedExternal,
               this`ceOffAt, bus
      ensures Valid() && Progressed() && old(bus.trace) <= bus.trace && Shrinks(old(bus.bank), bus.bank)
      ensures job.result == Succeeded && job.operation == Reconcile ==> BlankRegisters() && reconciled && !prepared
      ensures job.result == Succeeded && job.operation == RestorePor ==> bus.bank == Bank(POWER_ON, POWER_ON)
      ensures job.result == Succeeded ==> AllSeenLow(bus.trace)
      ensures bus.benign ==> CalmReset(old(Look()), Look(), Ticks(bus.now))
    {
      hide Core, Shrinks, DisableReady, PrepareReady, PortReady, RolledBack, CalmReset;
      ShrinksReflexive(bus.bank);
      if job.stage == 1 {
        var decayed := DecayElapsed();
        if !decayed {
          StillDecaying(Look(), Ticks(bus.now));
          return;
        }
      }
      ResetStage();
    }

    static lemma StillDecaying(v: View, now: uint32)
      requires Decaying(v, now)
      ensures CalmReset(v, v, now)
    {
    }

    /** The present stage of a reset, its waiting done. */
    method ResetStage()
      requires Valid() && job.result == Running && job.operation in {Reconcile, RestorePor}
      requires job.stage == 1 ==> CeDecayed() && Elapsed(Ticks(bus.now), ceOffAt) >= DECAY_MS
      modifies this`job, this`times, this`prepared, this`reconciled, this`expectedInternal, this`expectedExternal,
               this`ceOffAt, bus
      ensures Valid() && StageFrame() && Shrinks(old(bus.bank), bus.bank)
      ensures job.result == Running ==> job.stage == old(job.stage) + 1 && old(bus.now) <= times.stageT
      ensures job.result == Succeeded && job.operation == Reconcile ==> BlankRegisters() && reconciled && !prepared
      ensures job.result == Succeeded && job.operation == RestorePor ==> bus.bank == Bank(POWER_ON, POWER_ON)
      ensures job.result == Succeeded ==> AllSeenLow(bus.trace)
      ensures bus.benign ==> CalmReset(old(Look()), Look(), Ticks(bus.now))
    {
      hide Core, Shrinks, DisableReady, PrepareReady, PortReady, RolledBack;
      if job.stage == 0 {
        Forget();
      }
      RunReconcileStage();
    }

    /** A reconciliation that begins takes nothing for granted. */
    method Forget()
      requires Valid() && job.stage == 0
      modifies this`reconciled, this`prepared
      ensures Valid() && !reconciled && !prepared
    {
      hide Fold;
      reconciled, prepared := false, false;
    }

    method RunReconcileStage()
      requires Valid() && job.result == Running && job.operation in {Reconcile, RestorePor} && !prepared && !reconciled
      requires job.stage == 1 ==> CeDecayed()
      modifies this`job, this`times, this`reconciled, this`prepared, this`expectedInternal, this`expectedExternal,
               this`ceOffAt, bus
      ensures Valid() && StageFrame() && Shrinks(old(bus.bank), bus.bank)
      ensures job.result == Running ==> job.stage == old(job.stage) + 1 && old(bus.now) <= times.stageT
      ensures job.result == Succeeded && job.operation == Reconcile ==> BlankRegisters() && reconciled && !prepared
      ensures job.result == Succeeded && job.operation == RestorePor ==> bus.bank == Bank(POWER_ON, POWER_ON)
      ensures job.result == Succeeded ==> AllSeenLow(bus.trace)
      ensures job.result == Running && job.operation == Reconcile ==> old(job.stage) < 7
      ensures bus.benign ==> job.result != Failed
      ensures job.result == Succeeded ==> old(job.stage) == if job.operation == Reconcile then 7 else LAST_STAGE
      ensures bus.benign && old(job.stage) == 0 ==>
                Look() == ToStage(ForcedCe(old(Look()), Ticks(bus.now)), Ticks(bus.now), 1)
    {
      hide Shrinks, Core, StageReady, RolledBack, ResetSoFar, AllSeenLow, ForcedCe, Stands, Look, ToStage, Concluded;
      ResetReady();
      var ok := ReconcileStage();
      label worked:
      var done := job.stage == 10 || (job.stage == 7 && job.operation == Reconcile);
      Conclude(ok, done, job.stage + 1);
      ShrinksTransitive(old(bus.bank), old@worked(bus.bank), bus.bank);
      ResetStands();
    }

    lemma ResetReady()
      requires Valid() && job.operation in {Reconcile, RestorePor}
      ensures job.result == Running ==> monitoring && ReconcileReady()
    {
      hide Core, Stands, ReconcileReady;
    }

    lemma ResetStands()
      requires Core() && job.operation in {Reconcile, RestorePor}
      requires job.result == Running ==> monitoring && ReconcileReady()
      requires job.result == Succeeded ==> bus.bank == Bank(if job.operation == Reconcile then ALL_OFF else POWER_ON,
                                                            if job.operation == Reconcile then ALL_OFF else POWER_ON)
      ensures Valid()
    {
      hide Core, ReconcileReady;
    }

    /** The bus work of the current stage, and what the next one may rely on. */
    method ReconcileStage() returns (ok: bool)
      requires Core() && job.operation in {Reconcile, RestorePor} && job.stage <= LAST_STAGE && !prepared
      requires job.stage == 1 ==> CeDecayed()
      requires job.stage == 2 ==> CeDecayed()
      requires ResetSoFar(bus.bank, job.stage)
      modifies this`times, this`reconciled, this`expectedInternal, this`expectedExternal, this`ceOffAt, bus
      ensures Core() && Onward() && Shrinks(old(bus.bank), bus.bank) && Marked()
      ensures times == old(times).(ceOffT := times.ceOffT)
      ensures reconciled == (old(reconciled) || (ok && job.stage == 7 && job.operation == Reconcile))
      ensures ok && job.stage == 0 ==> CeProven() && times.ceOffT <= bus.now
      ensures ok && job.stage == 1 ==> CeDecayed()
      ensures ok && job.stage < LAST_STAGE ==> ResetSoFar(bus.bank, job.stage + 1)
      ensures ok && job.stage == 7 ==> BlankRegisters()
      ensures ok && (job.stage == 7 || job.stage == 10) ==> AllSeenLow(bus.trace)
      ensures bus.benign ==> ok
      ensures ok && job.stage == 10 ==> bus.bank == Bank(POWER_ON, POWER_ON)
      ensures bus.benign && job.stage == 0 ==> Look() == ForcedCe(old(Look()), Ticks(bus.now))
    {
      hide Core, Shrinks, Configured;
      ShrinksReflexive(bus.bank);
      Mark();
      if job.stage <= 2 {
        ok := TearDown();
      } else if job.stage == 7 {
        ok := CheckReconciled();
      } else {
        ok := SetUp();
      }
    }

    /** Stages 0 to 2: CE, then everything external, then the rest. */
    method TearDown() returns (ok: bool)
      requires Core() && job.stage <= 2 && !prepared && Resets(bus.mon.op)
      requires job.stage == 1 ==> CeDecayed()
      requires job.stage == 2 ==> CeDecayed() && bus.bank.external.out1 == X00
      modifies this`times, this`expectedInternal, this`ceOffAt, bus
      ensures Core() && Onward() && SameStage() && Shrinks(old(bus.bank), bus.bank) && (bus.benign ==> ok)
      ensures times == old(times).(ceOffT := times.ceOffT)
      ensures ok && job.stage == 0 ==> CeProven() && old(bus.now) <= times.ceOffT <= bus.now
      ensures ok && job.stage == 1 ==> CeDecayed() && bus.bank.external.out1 == X00
      ensures ok && job.stage == 2 ==> AllLow(bus.bank) && Configured(bus.bank, 3)
      ensures bus.benign && job.stage == 0 ==> Look() == ForcedCe(old(Look()), Ticks(bus.now))
    {
      hide Fold, Shrinks, Permitted;
      if job.stage == 0 {
        ok := ForceCeLow();
      } else if job.stage == 1 {
        ok := LowerExternal();
      } else {
        ok := LowerInternal();
      }
    }

    /** Stages 3 to 6, and 8 to 10 of RestorePor. */
    method SetUp() returns (ok: bool)
      requires Core() && !prepared && job.stage in {3, 4, 5, 6, 8, 9, 10} && Resets(bus.mon.op)
      requires job.stage <= 8 ==> AllLow(bus.bank)
      requires job.stage <= 6 ==> Configured(bus.bank, job.stage)
      requires job.stage >= 8 ==> bus.bank == Restoring(job.stage)
      modifies bus
      ensures Core() && Onward() && SameStage() && Shrinks(old(bus.bank), bus.bank)
      ensures ok && job.stage <= 8 ==> AllLow(bus.bank)
      ensures ok && job.stage <= 6 ==> Configured(bus.bank, job.stage + 1)
      ensures ok && job.stage == 10 ==> bus.bank == Bank(POWER_ON, POWER_ON) && AllSeenLow(bus.trace)
      ensures ok && 8 <= job.stage <= 9 ==> bus.bank == Restoring(job.stage + 1)
      ensures bus.benign ==> ok
    {
      hide Fold, Shrinks, Permitted, Configured;
      if job.stage == 9 {
        ok := RestoreLatches();
      } else if job.stage == 10 {
        ok := VerifyPor();
      } else {
        ok := ConfigureStage();
      }
    }

    /** Everything off behind the operational directions, and known to be. */
    ghost predicate BlankRegisters()
      reads this, bus
    {
      bus.bank == Bank(ALL_OFF, ALL_OFF) && expectedInternal == X00 && expectedExternal == X00
    }

    /** Stage 7: both expanders read back as configured. */
    method CheckReconciled() returns (ok: bool)
      requires Core() && AllLow(bus.bank) && Configured(bus.bank, 7) && !prepared
      modifies this`reconciled, this`expectedInternal, this`expectedExternal, bus
      ensures Core() && Onward() && SameStage() && bus.bank == old(bus.bank)
      ensures reconciled == (old(reconciled) || (ok && job.operation == Reconcile))
      ensures ok ==> BlankRegisters() && AllSeenLow(bus.trace)
      ensures bus.benign ==> ok
    {
      hide Fold, Shrinks, Permitted;
      ConfiguredBank(bus.bank);
      expectedInternal, expectedExternal := X00, X00;
      ok := VerifyOperational();
      if ok && job.operation == Reconcile {
        reconciled := true;
      }
    }

    // ---- DisableCharging ----

    /** Charger and boost are off in the latch and were read off on their pins. */
    ghost predicate ChargingOff()
      reads bus
    {
      bus.bank.internal.out1.Misses(CE.Or(BOOST)) && SeenLow(bus.trace, Internal, CE.Or(BOOST))
    }

    method DropCharging() returns (ok: bool)
      requires BusOk() && CeDecayed() && bus.mon.op == DisableCharging
      modifies this`expectedInternal, bus
      ensures Lowered() && bus.bank.external == old(bus.bank.external)
      ensures ok ==> ChargingOff()
      ensures bus.benign ==> ok && Look() == ChargingDown(old(Look()))
    {
      hide Fold, Shrinks, Permitted;
      ShrinksReflexive(bus.bank);
      ok := VerifyControlLow(CE);
      if ok {
        DropChargingPermitted(bus.mon, bus.now);
        ok := WriteRegister(Internal, Output1, expectedInternal.Minus(CE.Or(BOOST)));
        if ok {
          ok := VerifyControlLow(CE.Or(BOOST));
        }
      }
    }

    method DisableStage() returns (ok: bool)
      requires Core() && job.operation == DisableCharging && !prepared && job.stage <= 1
      requires job.stage == 1 ==> CeDecayed()
      modifies this`times, this`expectedInternal, this`ceOffAt, bus
      ensures Core() && Onward() && Shrinks(old(bus.bank), bus.bank) && Marked()
      ensures bus.bank.external == old(bus.bank.external)
      ensures times == old(times).(ceOffT := times.ceOffT)
      ensures ok && job.stage == 0 ==> CeProven() && times.ceOffT <= bus.now
      ensures ok && job.stage == 1 ==> ChargingOff()
      ensures bus.benign ==>
                && ok
                && Look() == if job.stage == 0 then ForcedCe(old(Look()), Ticks(bus.now)) else ChargingDown(old(Look()))
    {
      hide Fold, Shrinks, Permitted;
      Mark();
      if job.stage == 0 {
        ok := ForceCeLow();
      } else {
        ok := DropCharging();
      }
    }

    method RunDisableStage()
      requires Valid() && job.result == Running && job.operation == DisableCharging && !prepared
      requires job.stage == 1 ==> CeDecayed()
      modifies this`job, this`times, this`prepared, this`expectedInternal, this`expectedExternal, this`ceOffAt, bus
      ensures Valid() && StageFrame() && Shrinks(old(bus.bank), bus.bank)
      ensures bus.bank.external == old(bus.bank.external)
      ensures job.result == Running ==> old(job.stage) == 0 && job.stage == 1 && old(bus.now) <= times.stageT
      ensures job.result == Succeeded ==> old(job.stage) == 1 && ChargingOff()
      ensures bus.benign ==>
                Look() == if old(job.stage) == 0
                          then ToStage(ForcedCe(old(Look()), Ticks(bus.now)), Ticks(bus.now), 1)
                          else Concluded(ChargingDown(old(Look())))
    {
      hide Shrinks, Core, ReconcileReady, PrepareReady, PortReady, RolledBack;
      var ok := DisableStage();
      label worked:
      Conclude(ok, job.stage == 1, 1);
      ShrinksTransitive(old(bus.bank), old@worked(bus.bank), bus.bank);
    }

    method Unprepare()
      requires Valid() && job.operation in {DisableCharging, PrepareCharge} && job.stage <= 1
      modifies this`prepared
      ensures Valid() && !prepared
    {
      hide Fold;
      prepared := false;
    }

    method ServiceDisable()
      requires Valid() && job.result == Running && job.operation == DisableCharging
      modifies this`job, this`times, this`prepared, this`expectedInternal, this`expectedExternal, this`ceOffAt, bus
      ensures Valid() && Progressed() && old(bus.trace) <= bus.trace && Shrinks(old(bus.bank), bus.bank)
      ensures bus.bank.external == old(bus.bank.external)
      ensures job.result == Succeeded ==> ChargingOff()
      ensures bus.benign ==> CalmDisable(old(Look()), Look(), Ticks(bus.now))
    {
      hide Core, Shrinks, ReconcileReady, PrepareReady, PortReady, RolledBack, CalmDisable;
      ShrinksReflexive(bus.bank);
      Unprepare();
      DisableUnprepared(old(Look()), Ticks(bus.now));
      if job.stage == 1 {
        var decayed := DecayElapsed();
        if !decayed {
          return;
        }
      }
      TakeDown();
    }

    /** It forgets the preparation first, whatever the stage then does. */
    static lemma DisableUnprepared(v: View, now: uint32)
      ensures forall w :: CalmDisable(v.(prepared := false), w, now) ==> CalmDisable(v, w, now)
      ensures v.job.stage != 0 && Decaying(v, now) ==> CalmDisable(v, v.(prepared := false), now)
    {
    }

    /** The present stage, its waiting done. */
    method TakeDown()
      requires Valid() && job.result == Running && job.operation == DisableCharging && !prepared
      requires job.stage == 1 ==> CeDecayed() && Elapsed(Ticks(bus.now), ceOffAt) >= DECAY_MS
      modifies this`job, this`times, this`prepared, this`expectedInternal, this`expectedExternal, this`ceOffAt, bus
      ensures Valid() && StageFrame() && Shrinks(old(bus.bank), bus.bank)
      ensures bus.bank.external == old(bus.bank.external)
      ensures job.result == Running ==> old(job.stage) == 0 && job.stage == 1 && old(bus.now) <= times.stageT
      ensures job.result == Succeeded ==> old(job.stage) == 1 && ChargingOff()
      ensures bus.benign ==> CalmDisable(old(Look()), Look(), Ticks(bus.now))
    {
      hide Core, Shrinks, ReconcileReady, PrepareReady, PortReady, RolledBack, Follows;
      RunDisableStage();
    }

    // ---- PrepareCharge and EnableCharge ----

    method FreshInternal() returns (current: bool)
      requires Core()
      modifies bus`now
      ensures Core() && bus.Later()
      ensures current == FreshReading(snapshot, Ticks(bus.now))
    {
      hide Fold;
      var at := bus.Millis();
      current := FreshReading(snapshot, at);
    }

    predicate MainLive(at: uint32)
      reads this
    {
      LiveMain(snapshot, at)
    }

    /** Main is live and the mux pin still high: a high mux alone also means Hi-Z. */
    method CurrentMain() returns (present: bool, ghost mux: bool)
      requires Core()
      modifies bus`now
      ensures Core() && bus.Later() && (bus.benign ==> mux)
      ensures present == (MainLive(Ticks(bus.now)) && mux)
    {
      var current := FreshInternal();
      var muxHigh := bus.Sense();
      present := current && snapshot.mainSelected && muxHigh && snapshot.usbPg != snapshot.dcPg && snapshot.ssBuckPg;
      mux := muxHigh;
    }

    /** Stage 1: low current, the real thermistor and CE off, keeping the rest. */
    method SelectProfile() returns (ok: bool)
      requires Core() && !prepared && Charges(bus.mon.op)
      modifies this`expectedInternal, this`expectedExternal, bus
      ensures Core() && Worked()
      ensures ok ==> ProfileSelected()
      ensures bus.benign && old(Known(Look())) && old(bus.mon.ceLow).Some? ==>
                ok && Look() == Latch(old(Look()), Internal, old(expectedInternal).Minus(PROFILE))
    {
      hide Fold, Permitted;
      ok := VerifyControlLow(CE);
      if ok {
        SelectProfilePermitted(bus.mon, bus.now);
        ok := WriteControl(Internal, expectedInternal.Minus(PROFILE));
      }
    }

    /** Stage 2: boost on, with the time since when its supply is selected. */
    method RaiseBoost() returns (ok: bool)
      requires BusOk() && ProfileSelected() && bus.mon.op == PrepareCharge
      modifies this`expectedInternal, this`expectedExternal, bus
      ensures Worked()
      ensures ok ==> bus.mon.selected.Some? && bus.mon.selected.value <= bus.now && BoostOn(bus.bank)
      ensures bus.benign && old(Known(Look())) ==>
                ok && Look() == Latch(old(Look()), Internal, old(expectedInternal).Or(BOOST))
    {
      hide Fold, Permitted;
      RaiseBoostPermitted(bus.mon, bus.now);
      ok := WriteControl(Internal, expectedInternal.Or(BOOST));
    }

    method PrepareStage() returns (ok: bool)
      requires Core() && !prepared && job.stage <= 2 && job.operation == PrepareCharge
      requires job.stage == 1 ==> CeDecayed()
      requires job.stage == 2 ==> ProfileSelected()
      modifies this`times, this`expectedInternal, this`expectedExternal, this`ceOffAt, this`tsSelectedAt, bus
      ensures Core() && Onward() && Marked()
      ensures times == old(times).(ceOffT := times.ceOffT, tsT := times.tsT)
      ensures ok && job.stage == 0 ==> CeProven() && times.ceOffT <= bus.now
      ensures ok && job.stage == 1 ==> ProfileSelected()
      ensures ok && job.stage == 2 ==> SupplySelected() && times.tsT <= bus.now && BoostOn(bus.bank)
      ensures bus.benign && job.stage == 0 && !old(Known(Look())) ==> !ok
      ensures bus.benign && old(Known(Look())) ==> ok && Look() == SupplyStep(old(Look()), Ticks(bus.now))
    {
      hide Core, Shrinks;
      Mark();
      match job.stage
      case 0 => ok := ForceOperational();
      case 1 => ok := SelectProfile();
      case _ => ok := SelectSupply();
    }

    /** Stage 0: CE off on a board that reads back as expected. */
    method ForceOperational() returns (ok: bool)
      requires Core() && !prepared && Charges(bus.mon.op)
      modifies this`times, this`expectedInternal, this`ceOffAt, bus
      ensures Core() && Worked()
      ensures times == old(times).(ceOffT := times.ceOffT)
      ensures ok ==> CeProven() && times.ceOffT <= bus.now
      ensures bus.benign ==>
                ok == old(Known(Look())) && (ok ==> Look() == ForcedCe(old(Look()), Ticks(bus.now)))
    {
      hide Fold, Shrinks, Permitted;
      ok := VerifyOperational();
      if ok {
        ok := ForceCeLow();
      }
    }

    /** Stage 2: boost, and the time from which the thermistor path may settle. */
    method SelectSupply() returns (ok: bool)
      requires Core() && !prepared && ProfileSelected() && bus.mon.op == PrepareCharge
      modifies this`times, this`expectedInternal, this`expectedExternal, this`tsSelectedAt, bus
      ensures Core() && Worked() && times == old(times).(tsT := times.tsT)
      ensures ok ==> SupplySelected() && times.tsT <= bus.now && BoostOn(bus.bank)
      ensures bus.benign && old(Known(Look())) ==>
                && ok
                && Look() == Latch(old(Look()), Internal, old(expectedInternal).Or(BOOST))
                             .(tsSelectedAt := Ticks(bus.now))
    {
      hide Fold, Shrinks, Permitted;
      ok := RaiseBoost();
      if ok {
        tsSelectedAt := bus.Millis();
        times := times.(tsT := bus.now);
      }
    }

    method RunPrepareStage()
      requires Valid() && job.result == Running && job.operation == PrepareCharge && !prepared && job.stage <= 2
      requires job.stage == 1 ==> CeDecayed()
      modifies this`job, this`times, this`prepared, this`expectedInternal, this`expectedExternal,
               this`ceOffAt, this`tsSelectedAt, bus
      ensures Valid() && StageFrame() && !prepared
      ensures job.result in {Running, Failed}
      ensures job.result == Running ==> job.stage == old(job.stage) + 1 && old(bus.now) <= times.stageT
      ensures job.result == Running && job.stage == 3 ==> BoostOn(bus.bank)
      ensures bus.benign && old(job.stage) == 0 && !old(Known(Look())) ==> job.result == Failed
      ensures bus.benign && old(Known(Look())) ==>
                Look() == ToStage(SupplyStep(old(Look()), Ticks(bus.now)), Ticks(bus.now), old(job.stage) + 1)
    {
      hide Shrinks, Core, ReconcileReady, DisableReady, PortReady, RolledBack;
      var ok := PrepareStage();
      Conclude(ok, false, job.stage + 1);
    }

    /** Stage 4: the supply has settled and both readbacks agree. */
    method QualifySupply()
      requires Valid() && job.result == Running && job.operation == PrepareCharge && job.stage == 4
      requires SupplySelected() && bus.mon.selected.value + TS_SETTLE_MS <= bus.now
      modifies this`job, this`times, this`prepared, this`expectedInternal, this`expectedExternal, this`ceOffAt, bus
      ensures Valid() && StageFrame()
      ensures job.result == Failed || (job.result == Succeeded && prepared && SeenLow(bus.trace, Internal, PROFILE))
      ensures Shrinks(old(bus.bank), bus.bank)
      ensures bus.benign ==>
                if old(Known(Look())) && old(expectedInternal).Misses(PROFILE)
                then Look() == Concluded(old(Look())).(prepared := true)
                else job.result == Failed
    {
      hide Core, Shrinks, ReconcileReady, DisableReady, PortReady, RolledBack;
      ShrinksReflexive(bus.bank);
      var ok := CheckSupply();
      label checked:
      if ok {
        MarkPrepared();
      }
      Conclude(ok, true, 5);
      ShrinksTransitive(old(bus.bank), old@checked(bus.bank), bus.bank);
    }

    method CheckSupply() returns (ok: bool)
      requires Core() && job.operation == PrepareCharge && SupplySelected()
      modifies this`expectedInternal, bus
      ensures Core() && Onward() && bus.bank == old(bus.bank) && bus.mon.selected == old(bus.mon.selected) && Marked()
      ensures ok ==> SeenLow(bus.trace, Internal, PROFILE)
      ensures bus.benign ==> ok == (old(Known(Look())) && old(expectedInternal).Misses(PROFILE))
      ensures bus.benign && ok ==> Look() == old(Look())
    {
      hide Fold;
      Mark();
      ok := VerifyOperational();
      if ok {
        ok := VerifyControlLow(PROFILE);
      }
    }

    method MarkPrepared()
      requires Core() && bus.mon.selected.Some? && bus.mon.selected.value + TS_SETTLE_MS <= bus.now
      modifies this`prepared
      ensures Core() && prepared
    {
      hide Fold;
      prepared := true;
    }

    method ServicePrepare()
      requires Valid() && job.result == Running && job.operation == PrepareCharge
      modifies this`job, this`times, this`prepared, this`expectedInternal, this`expectedExternal,
               this`ceOffAt, this`tsSelectedAt, bus
      ensures Valid() && Progressed() && old(bus.trace) <= bus.trace
      ensures job.result == Succeeded ==> prepared && ChargerReady() && SeenLow(bus.trace, Internal, PROFILE)
      ensures old(job.stage) >= 3 ==> Shrinks(old(bus.bank), bus.bank)
      ensures old(job.stage) == 2 && job.result != Failed ==> BoostOn(bus.bank)
      ensures bus.benign ==> CalmPrepare(old(Look()), Look(), Ticks(bus.now))
    {
      hide Fold, Shrinks, ReconcileReady, DisableReady, PortReady;
      match job.stage
      case 3 => AwaitBoost();
      case 4 => AwaitThermistor();
      case _ =>
        if job.stage == 0 {
          Unprepare();
        } else if job.stage == 1 {
          var decayed := DecayElapsed();
          if !decayed {
            return;
          }
        }
        RunPrepareStage();
    }

    /** Stage 3: boost power-good for 100 ms within two seconds. */
    method AwaitBoost()
      requires Valid() && job.result == Running && job.operation == PrepareCharge && job.stage == 3
      modifies this`job, this`times, this`prepared, this`expectedInternal, this`expectedExternal,
               this`ceOffAt, this`tsSelectedAt, bus
      ensures Valid() && Progressed() && old(bus.trace) <= bus.trace && job.result in {Running, Failed}
      ensures Shrinks(old(bus.bank), bus.bank)
      ensures bus.benign ==>
                CalmWait(old(Look()), Look(), FreshReading(snapshot, Ticks(bus.now)) && snapshot.boostPg,
                         Ticks(bus.now), ToStage(old(Look()), Ticks(bus.now), 4))
    {
      hide Core, Shrinks, ReconcileReady, DisableReady, PortReady, RolledBack;
      Mark();
      var current := FreshInternal();
      WaitStage(current && snapshot.boostPg, false, 4);
    }

    /** Stage 4: 500 ms of settling, then real-thermistor and charger power-good qualification. */
    method AwaitThermistor()
      requires Valid() && job.result == Running && job.operation == PrepareCharge && job.stage == 4
      modifies this`job, this`times, this`prepared, this`expectedInternal, this`expectedExternal,
               this`ceOffAt, this`tsSelectedAt, bus
      ensures Valid() && Progressed() && old(bus.trace) <= bus.trace
      ensures job.result == Succeeded ==> prepared && ChargerReady() && SeenLow(bus.trace, Internal, PROFILE)
      ensures Shrinks(old(bus.bank), bus.bank)
      ensures bus.benign ==> CalmPrepare(old(Look()), Look(), Ticks(bus.now))
    {
      hide Core, Shrinks, ReconcileReady, DisableReady, PortReady, RolledBack;
      ShrinksReflexive(bus.bank);
      var settled := SettleElapsed();
      if settled {
        if ChargerReady() {
          QualifySupply();
        } else {
          var expired := StageExpired();
          if expired {
            Mark();
            FailOperation();
          }
        }
      }
    }

    method ServiceEnable()
      requires Valid() && job.result == Running && job.operation == EnableCharge
      modifies this`job, this`times, this`prepared, this`expectedInternal, this`expectedExternal, this`ceOffAt, bus
      ensures Valid() && Progressed() && old(bus.trace) <= bus.trace && job.result in {Succeeded, Failed}
      ensures job.result == Succeeded ==> old(prepared) && CeOn(bus.bank) && ChargerReady() && snapshot.vcap < TRIP_V
      ensures job.result == Succeeded ==> SeenHigh(bus.trace, Internal, CE)
      ensures prepared ==> old(prepared)
      ensures bus.benign ==>
                if old(Chargeable())
                then Look() == Concluded(Latch(old(Look()), Internal, old(expectedInternal).Or(CE)))
                else job.result == Failed
    {
      hide Core, Shrinks, ReconcileReady, DisableReady, PrepareReady, PortReady, RolledBack;
      var ok := EnableStage();
      Conclude(ok, true, 1);
    }

    /** All that the last step to charging asks for. */
    ghost predicate Chargeable()
      reads this, bus
    {
      && prepared && Known(Look()) && ChargerReady() && snapshot.vcap < TRIP_V
      && expectedInternal.Misses(PROFILE) && !expectedInternal.Misses(BOOST)
    }

    method EnableStage() returns (ok: bool)
      requires Core() && job.operation == EnableCharge
      modifies this`expectedInternal, this`expectedExternal, bus
      ensures Core() && Onward() && Marked()
      ensures ok ==> prepared && ChargerReady() && snapshot.vcap < TRIP_V && CeOn(bus.bank)
      ensures ok ==> SeenHigh(bus.trace, Internal, CE)
      ensures bus.benign ==>
                ok == old(Chargeable())
                && (ok ==> Look() == Latch(old(Look()), Internal, old(expectedInternal).Or(CE)))
    {
      hide Core;
      Mark();
      ok := && prepared && ChargerReady() && snapshot.vcap < TRIP_V
            && expectedInternal.Misses(PROFILE) && !expectedInternal.Misses(BOOST);
      if ok {
        ok := RaiseCe();
      }
    }

    /** Pins that show a latch show each enable of it on, and each other off. */
    lemma ShownPins(value: Byte, mask: Byte)
      requires mask.Within(DEFINED)
      ensures forall device :: Shown(device, value) && mask.Within(value) ==> SeenHigh(bus.trace, device, mask)
      ensures forall device :: Shown(device, value) && value.Misses(mask) ==> SeenLow(bus.trace, device, mask)
    {
      forall device | Shown(device, value)
        ensures mask.Within(value) ==> SeenHigh(bus.trace, device, mask)
        ensures value.Misses(mask) ==> SeenLow(bus.trace, device, mask)
      {
        var pins: Byte :| PinsSeen(bus.trace, device, pins) && pins.And(DEFINED) == value.And(DEFINED);
        MaskedPins(pins, value, mask);
      }
    }

    static lemma MaskedPins(pins: Byte, value: Byte, mask: Byte)
      requires mask.Within(DEFINED) && pins.And(DEFINED) == value.And(DEFINED)
      ensures mask.Within(value) ==> mask.Within(pins)
      ensures value.Misses(mask) ==> pins.Misses(mask)
    {
    }

    /** CE on, onto a supply whose selection still stands. */
    method RaiseCe() returns (ok: bool)
      requires Core() && prepared && bus.mon.op == EnableCharge
      modifies this`expectedInternal, this`expectedExternal, bus
      ensures Core() && Worked()
      ensures ok ==> CeOn(bus.bank) && SeenHigh(bus.trace, Internal, CE)
      ensures bus.benign ==>
                ok == old(Known(Look()))
                && (ok ==> Look() == Latch(old(Look()), Internal, old(expectedInternal).Or(CE)))
    {
      hide Fold, Permitted;
      ok := VerifyOperational();
      if ok {
        RaiseCePermitted(bus.mon, bus.now);
        ghost var value := expectedInternal.Or(CE);
        ok := WriteControl(Internal, expectedInternal.Or(CE));
        ShownPins(value, CE);
      }
    }

    // ---- PortChange ----

    /** J8's converter on, ahead of the port. */
    method RaiseBuck() returns (ok: bool)
      requires Core() && CachesMatch() && bus.mon.op == PortChange && bus.mon.enabling && bus.mon.port == FiveVoltVbus
      modifies this`expectedInternal, this`expectedExternal, bus
      ensures Core() && Worked()
      ensures ok ==> CachesMatch() && BuckOn(bus.bank)
      ensures bus.benign && old(Known(Look())) ==>
                ok && Look() == Latch(old(Look()), Internal, old(expectedInternal).Or(BUCK))
    {
      hide Fold, Permitted;
      RaiseBuckPermitted(bus.mon, bus.now);
      ok := WriteControl(Internal, expectedInternal.Or(BUCK));
    }

    method RaisePort() returns (ok: bool)
      requires Core() && CachesMatch() && Marked() && job.operation == PortChange && job.portEnabled
      requires job.port == FiveVoltVbus ==>
                 BuckOn(bus.bank) && bus.mon.buckGood.Good? && !bus.mon.buckGood.answered
                 && bus.mon.buckGood.since + PG_MS <= bus.now
      modifies this`expectedInternal, this`expectedExternal, bus
      ensures Core() && Worked()
      ensures ok ==> PortDriven()
      ensures bus.benign && old(Known(Look())) ==>
                ok && Look() == Latch(old(Look()), External, old(expectedExternal).Or(PortMask(job.port)))
    {
      hide Fold, Permitted;
      RaisePortPermitted(bus.mon, bus.now, job.portMask);
      ok := WriteControl(External, expectedExternal.Or(job.portMask));
      MaskedPort(bus.bank, job.port);
    }

    /** The requested enable is driven. */
    ghost predicate PortDriven()
      reads this, bus
    {
      OutputOn(bus.bank, job.port)
    }

    method LowerPort() returns (ok: bool)
      requires Core() && CachesMatch() && Marked() && job.operation == PortChange
      modifies this`expectedInternal, this`expectedExternal, bus
      ensures Core() && Lowered()
      ensures ok ==> CachesMatch() && !Latched(bus.bank, job.port) && SeenLow(bus.trace, External, PortMask(job.port))
      ensures bus.benign && old(Known(Look())) ==>
                ok && Look() == Latch(old(Look()), External, old(expectedExternal).Minus(PortMask(job.port)))
    {
      hide Fold, Permitted, Shrinks, Latched;
      ShrinksReflexive(bus.bank);
      LowerPortPermitted(bus.mon, bus.now, job.portMask);
      ghost var value := expectedExternal.Minus(job.portMask);
      ok := WriteControl(External, expectedExternal.Minus(job.portMask));
      ShownPins(value, job.portMask);
      MaskedPort(bus.bank, job.port);
    }

    /** J8's converter off, after the port. */
    method LowerBuck() returns (ok: bool)
      requires Core() && CachesMatch() && !bus.bank.external.out1.b0 && Marked()
      requires job.operation == PortChange && job.port == FiveVoltVbus
      modifies this`expectedInternal, this`expectedExternal, bus
      ensures Core() && Lowered()
      ensures ok ==> !Latched(bus.bank, job.port) && !bus.bank.internal.out1.b4 && SeenLow(bus.trace, Internal, BUCK)
      ensures bus.benign && old(Known(Look())) ==>
                ok && Look() == Latch(old(Look()), Internal, old(expectedInternal).Minus(BUCK))
    {
      hide Fold, Permitted, Shrinks;
      ShrinksReflexive(bus.bank);
      LowerBuckPermitted(bus.mon, bus.now);
      ghost var value := expectedInternal.Minus(BUCK);
      ok := WriteControl(Internal, expectedInternal.Minus(BUCK));
      ShownPins(value, BUCK);
    }

    /** One evaluation of the buck's power-good, on record. */
    ghost method Sample(good: bool)
      requires Core()
      modifies bus`trace, bus`mon
      ensures Core() && old(bus.trace) <= bus.trace && bus.mon.bank == bus.bank
      ensures SameStage()
      ensures good && BuckOn(bus.bank) ==>
                var since := if old(bus.mon.buckGood).Good? then old(bus.mon.buckGood).since else bus.now;
                bus.mon.buckGood == Good(since, true)
      ensures bus.mon.buckGood.Good? ==> bus.mon.buckGood.since <= bus.now
    {
      hide Fold;
      bus.Record(Sampled(bus.now, good));
    }

    /** Stage 0: off takes the port away; on starts with the converter for J8. */
    method FirstPortStage() returns (ok: bool)
      requires Core() && job.operation == PortChange
      modifies this`expectedInternal, this`expectedExternal, bus
      ensures Core() && Onward() && Marked()
      ensures !job.portEnabled ==> Shrinks(old(bus.bank), bus.bank)
      ensures ok ==> CachesMatch()
      ensures ok && !job.portEnabled ==> !Latched(bus.bank, job.port)
                                         && SeenLow(bus.trace, External, PortMask(job.port))
      ensures ok && !job.portEnabled && job.port == FiveVoltVbus ==> !bus.bank.external.out1.b0
      ensures ok && job.portEnabled && job.port == FiveVoltVbus ==> BuckOn(bus.bank)
      ensures bus.benign ==>
                ok == old(Known(Look()))
                && (ok ==> Look() == if !job.portEnabled
                                     then Latch(old(Look()), External, old(expectedExternal).Minus(PortMask(job.port)))
                                     else if job.port == FiveVoltVbus
                                     then Latch(old(Look()), Internal, old(expectedInternal).Or(BUCK))
                                     else old(Look()))
    {
      hide Fold, Permitted, Shrinks;
      ShrinksReflexive(bus.bank);
      Mark();
      ok := VerifyOperational();
      if ok {
        if !job.portEnabled {
          ok := LowerPort();
        } else if job.port == FiveVoltVbus {
          ok := RaiseBuck();
        }
      }
    }

    method BeginPort()
      requires Valid() && job.result == Running && job.operation == PortChange && job.stage == 0
      modifies this`job, this`times, this`prepared, this`expectedInternal, this`expectedExternal, this`ceOffAt, bus
      ensures Valid() && StageFrame() && PortFrame()
      ensures job.result == Running ==> job.stage > 0 && old(bus.now) <= times.stageT
      ensures !job.portEnabled ==> Shrinks(old(bus.bank), bus.bank)
      ensures job.result == Succeeded ==> !job.portEnabled && !Latched(bus.bank, job.port) && job.port != FiveVoltVbus
                                          && SeenLow(bus.trace, External, PortMask(job.port))
      ensures bus.benign ==>
                if job.portEnabled then CalmPortOn(old(Look()), Look(), Ticks(bus.now))
                else CalmPortOff(old(Look()), Look(), Ticks(bus.now))
    {
      hide Core, Shrinks, ReconcileReady, DisableReady, PrepareReady, RolledBack, CalmWait, SeenLow;
      var ok := FirstPortStage();
      label worked:
      Conclude(ok, !job.portEnabled && job.port != FiveVoltVbus,
               if !job.portEnabled then 5 else if job.port == FiveVoltVbus then 1 else 2);
      if !job.portEnabled {
        ShrinksTransitive(old(bus.bank), old@worked(bus.bank), bus.bank);
      }
    }

    /** The request being served does not change under way. */
    twostate predicate PortFrame()
      reads this
    {
      job.port == old(job.port) && job.portMask == old(job.portMask) && (prepared ==> old(prepared))
    }

    /** Stage 1: the converter's power-good for 100 ms within two seconds. */
    method AwaitBuck()
      requires Valid() && job.result == Running && job.operation == PortChange && job.stage == 1
      modifies this`job, this`times, this`prepared, this`expectedInternal, this`expectedExternal, this`ceOffAt, bus
      ensures Valid() && Progressed() && PortFrame() && old(bus.trace) <= bus.trace
      ensures job.result in {Running, Failed} && job.portEnabled
      ensures bus.benign ==>
                CalmWait(old(Look()), Look(), FreshReading(snapshot, Ticks(bus.now)) && snapshot.buckPg,
                         Ticks(bus.now), ToStage(old(Look()), Ticks(bus.now), 2))
    {
      hide Core, Shrinks, ReconcileReady, DisableReady, PrepareReady, RolledBack, Stands;
      var current := FreshInternal();
      Mark();
      Sample(current && snapshot.buckPg);
      WaitStage(current && snapshot.buckPg, false, 2);
    }

    /** Stage 2: the port itself. */
    method DrivePort()
      requires Valid() && job.result == Running && job.operation == PortChange && job.stage == 2
      modifies this`job, this`times, this`prepared, this`expectedInternal, this`expectedExternal, this`ceOffAt, bus
      ensures Valid() && StageFrame() && PortFrame()
      ensures job.result == Failed || (job.result == Running && job.stage == 3 && old(bus.now) <= times.stageT)
      ensures job.portEnabled && (job.result == Running ==> PortDriven())
      ensures bus.benign && old(Known(Look())) ==>
                Look() == ToStage(Latch(old(Look()), External, old(expectedExternal).Or(PortMask(job.port))),
                                  Ticks(bus.now), 3)
    {
      hide Core, Shrinks, ReconcileReady, DisableReady, PrepareReady, RolledBack;
      Mark();
      var ok := RaisePort();
      Conclude(ok, false, 3);
      assert ok ==> PortReady();
    }

    /** Stage 3: the port's own power-good. */
    method AwaitPort()
      requires Valid() && job.result == Running && job.operation == PortChange && job.stage == 3
      modifies this`job, this`times, this`prepared, this`expectedInternal, this`expectedExternal, this`ceOffAt, bus
      ensures Valid() && Progressed() && PortFrame() && old(bus.trace) <= bus.trace
      ensures job.portEnabled && Shrinks(old(bus.bank), bus.bank)
      ensures job.result == Succeeded ==> PortDriven() && PortQualified()
      ensures bus.benign ==>
                CalmWait(old(Look()), Look(), PortFound(Ticks(bus.now)), Ticks(bus.now), Concluded(old(Look())))
    {
      hide Core, Shrinks, ReconcileReady, DisableReady, PrepareReady, RolledBack;
      var good := FreshPortGood();
      Mark();
      WaitStage(good, true, 4);
    }

    method FreshPortGood() returns (good: bool)
      requires Core()
      modifies bus`now
      ensures Core() && bus.Later() && (good ==> PortGood() && snapshot.externalValid)
      ensures good == PortFound(Ticks(bus.now))
    {
      hide Core;
      var current := FreshExternal();
      good := current && PortGood();
    }

    /** The last reading is fresh and finds the port good. */
    predicate PortFound(at: uint32)
      reads this
    {
      snapshot.externalValid && Elapsed(at, snapshot.externalAt) <= FRESH_MS && PortGood()
    }

    /** The power-good of the requested port, with its converter where it has one. */
    predicate PortGood()
      reads this
    {
      PortPg(snapshot, job.port)
    }

    /** It is good and every evaluation of the wait has found it good for 100 ms. */
    ghost predicate PortQualified()
      reads this, bus
    {
      && snapshot.externalValid && job.pgTiming && times.pgT + 100 <= bus.now
      && (job.port == Vbus ==> snapshot.extVbusPg)
      && (job.port == FiveVoltVbus ==> snapshot.ext5vVbusPg && snapshot.buckPg)
      && (job.port == VbusSs ==> snapshot.extSsPg)
      && (job.port == FiveVoltSs ==> snapshot.ext5vSsPg && snapshot.ssBuckPg)
    }

    method FreshExternal() returns (current: bool)
      requires Core()
      modifies bus`now
      ensures Core() && bus.Later()
      ensures current == (snapshot.externalValid && Elapsed(Ticks(bus.now), snapshot.externalAt) <= FRESH_MS)
    {
      hide Fold;
      var at := bus.Millis();
      current := snapshot.externalValid && Elapsed(at, snapshot.externalAt) <= FRESH_MS;
    }

    /** Stage 5: the converter behind J8, once J8 is off. */
    method DropBuck()
      requires Valid() && job.result == Running && job.operation == PortChange && job.stage == 5
      modifies this`job, this`times, this`prepared, this`expectedInternal, this`expectedExternal, this`ceOffAt, bus
      ensures Valid() && StageFrame() && PortFrame() && Shrinks(old(bus.bank), bus.bank)
      ensures job.result in {Succeeded, Failed} && !job.portEnabled && job.port == FiveVoltVbus
      ensures job.result == Succeeded ==> !Latched(bus.bank, job.port) && !bus.bank.internal.out1.b4
                                          && SeenLow(bus.trace, Internal, BUCK)
      ensures bus.benign && old(Known(Look())) ==>
                Look() == Concluded(Latch(old(Look()), Internal, old(expectedInternal).Minus(BUCK)))
    {
      hide Core, Shrinks, ReconcileReady, DisableReady, PrepareReady, RolledBack;
      ShrinksReflexive(bus.bank);
      Mark();
      var ok := !expectedExternal.b0;
      if ok {
        ok := LowerBuck();
      }
      label worked:
      Conclude(ok, true, 6);
      ShrinksTransitive(old(bus.bank), old@worked(bus.bank), bus.bank);
    }

    /** A backed port needs the backed converter and either main or a live backup. */
    method BackedSourceOk() returns (ok: bool)
      requires Valid()
      modifies bus`now
      ensures Valid() && bus.Later()
      ensures ok ==> snapshot.internalValid && snapshot.ssBuckPg
      ensures bus.benign ==>
                ok == (&& FreshReading(snapshot, Ticks(bus.now)) && snapshot.ssBuckPg
                       && (MainLive(Ticks(bus.now)) || (!snapshot.mainSelected && snapshot.backupPg && backupPin)))
    {
      hide Core, RolledBack;
      var current := FreshInternal();
      var main, mux := CurrentMain();
      var asDriven := bus.Sense();
      var backupHigh := asDriven == backupPin;
      ok := && current && snapshot.ssBuckPg
            && (main || (!snapshot.mainSelected && snapshot.backupPg && backupHigh));
    }

    method ServicePort()
      requires Valid() && job.result == Running && job.operation == PortChange
      modifies this`job, this`times, this`prepared, this`expectedInternal, this`expectedExternal, this`ceOffAt, bus
      ensures Valid() && Progressed() && PortFrame() && old(bus.trace) <= bus.trace
      ensures !job.portEnabled || old(job.stage) >= 3 ==> Shrinks(old(bus.bank), bus.bank)
      ensures job.result == Succeeded ==> Achieved()
      ensures job.portEnabled && old(job.stage) == 2 && job.result != Failed ==> PortDriven()
      ensures bus.benign ==>
                if Backable(old(Look()), Ticks(bus.now)) then CalmEnabling(old(Look()), Look(), Ticks(bus.now))
                else job.result == Failed
    {
      hide Core, Shrinks, StageReady, RolledBack, PortQualified;
      var backed := true;
      if job.portEnabled && job.port in {VbusSs, FiveVoltSs} {
        backed := BackedSourceOk();
      }
      if backed {
        StepPort();
      } else {
        Mark();
        FailOperation();
      }
    }

    method StepPort()
      requires Valid() && job.result == Running && job.operation == PortChange
      modifies this`job, this`times, this`prepared, this`expectedInternal, this`expectedExternal, this`ceOffAt, bus
      ensures Valid() && Progressed() && PortFrame() && old(bus.trace) <= bus.trace
      ensures !job.portEnabled || old(job.stage) >= 3 ==> Shrinks(old(bus.bank), bus.bank)
      ensures job.result == Succeeded ==> Achieved()
      ensures job.portEnabled && old(job.stage) == 2 && job.result != Failed ==> PortDriven()
      ensures bus.benign ==> CalmEnabling(old(Look()), Look(), Ticks(bus.now))
    {
      hide Core, Shrinks, ReconcileReady, DisableReady, PrepareReady, RolledBack, PortQualified;
      match job.stage
      case 0 => BeginPort();
      case 1 => AwaitBuck();
      case 2 => DrivePort();
      case 3 => AwaitPort();
      case _ => DropBuck();
    }

    /** Boost and charger report power-good and the real thermistor is in range. */
    predicate ChargerReady()
      reads this
    {
      ChargerGood(snapshot)
    }

    /** The reading behind a charge operation: boost, charger and the real thermistor. */
    predicate ChargerQualified()
      reads this
    {
      snapshot.boostPg && snapshot.chargerPg && 1300 <= snapshot.tsMv <= 2350
    }

    /** What an enable needs was there within the call: a reconciled board, and for
        charging and the unbacked outputs main on exactly one good input, read at most
        350 ms before, with the backed converter up. */
    twostate predicate Founded()
      reads this, bus
    {
      && old(reconciled)
      && (job.operation != PortChange || (job.portEnabled && (job.port == Vbus || job.port == FiveVoltVbus)) ==>
            exists at :: old(bus.now) <= at <= bus.now && MainRead(Ticks(at)))
    }

    predicate MainRead(at: uint32)
      reads this
    {
      && snapshot.internalValid && (at - snapshot.internalAt) % 0x1_0000_0000 <= 350
      && snapshot.mainSelected && snapshot.usbPg != snapshot.dcPg && snapshot.ssBuckPg
    }

    /** What it means for the current operation to have succeeded. */
    ghost predicate Achieved()
      reads this, bus
    {
      match job.operation
      case Reconcile => BlankRegisters() && reconciled && !prepared && AllSeenLow(bus.trace)
      case RestorePor => bus.bank == Bank(POWER_ON, POWER_ON) && AllSeenLow(bus.trace)
      case DisableCharging => ChargingOff()
      case PrepareCharge => prepared && ChargerQualified() && SeenLow(bus.trace, Internal, PROFILE)
      case EnableCharge =>
        CeOn(bus.bank) && ChargerQualified() && snapshot.vcap < 210000 && SeenHigh(bus.trace, Internal, CE)
      case PortChange =>
        if job.portEnabled then PortDriven() && PortQualified()
        else !Latched(bus.bank, job.port)
             && (if job.port == FiveVoltVbus
                 then !bus.bank.internal.out1.b4 && SeenLow(bus.trace, Internal, BUCK)
                 else SeenLow(bus.trace, External, PortMask(job.port)))
      case NoOperation => false
    }

    /** The operation draws on main, not on the backed converter. */
    predicate NeedsMain()
      reads this
    {
      DrawsOnMain(job)
    }

    /** Enables may only start on a reconciled board, and unbacked ones only on live main. */
    method EnableAllowed() returns (ok: bool)
      requires Valid()
      modifies bus`now
      ensures Valid() && bus.Later() && (ok ==> reconciled && (NeedsMain() ==> MainLive(Ticks(bus.now))))
      ensures bus.benign ==> ok == (reconciled && (NeedsMain() ==> MainLive(Ticks(bus.now))))
    {
      hide Core, RolledBack;
      ok := reconciled;
      if ok && NeedsMain() {
        ghost var mux;
        ok, mux := CurrentMain();
      }
    }

    // ---- What the driven set may still do ----

    /** The running operation may still raise an enable. */
    predicate RaiseAhead()
      reads this
    {
      Raising(job)
    }

    /** Its next stage raises one that is not driven. */
    ghost predicate RaiseNow()
      reads this, bus
    {
      job.result == Running &&
        (|| (job.operation == EnableCharge && !CeOn(bus.bank))
         || (job.operation == PrepareCharge && job.stage == 2 && !BoostOn(bus.bank))
         || (job.operation == PortChange && job.portEnabled && job.stage == 2 && !PortDriven()))
    }

    static lemma Growth(a: Bank, b: Bank, port: Port)
      ensures !BoostOn(a) && BoostOn(b) ==> !Shrinks(a, b)
      ensures !CeOn(a) && CeOn(b) ==> !Shrinks(a, b)
      ensures !OutputOn(a, port) && OutputOn(b, port) ==> !Shrinks(a, b)
    {
    }

    /** One call of service(): at most one stage of the running operation. The driven
        set shrinks unless an enable is still to be raised; the stage that raises
        one does so or fails; taking charging down leaves the outputs alone. */
    method Service()
      requires Valid()
      modifies this`job, this`times, this`prepared, this`reconciled, this`expectedInternal, this`expectedExternal,
               this`ceOffAt, this`tsSelectedAt, bus
      ensures Valid() && old(bus.trace) <= bus.trace
      ensures old(job.result) != Running ==> unchanged(this) && unchanged(bus)
      ensures old(job.result) == Running ==> Progressed()
      ensures !old(RaiseAhead()) ==> Shrinks(old(bus.bank), bus.bank) && !RaiseAhead()
      ensures old(RaiseNow()) && job.result != Failed ==> !Shrinks(old(bus.bank), bus.bank)
      ensures old(job.result) == Running && job.result == Succeeded ==> Achieved()
      ensures old(job.operation) == DisableCharging ==> bus.bank.external == old(bus.bank.external)
      ensures old(job.result) == Running && job.result != Failed
              && job.operation in {PrepareCharge, EnableCharge, PortChange} ==>
                Founded()
      ensures bus.benign ==> Calm(old(Look()), Look(), Ticks(bus.now))
    {
      hide Core, Shrinks, ReconcileReady, DisableReady, PrepareReady, PortReady, RolledBack,
           CalmReset, CalmDisable, CalmEnabling, EnableFounded, Undone;
      ShrinksReflexive(bus.bank);
      MaskKnown();
      if job.result == Running {
        if job.operation == Reconcile || job.operation == RestorePor {
          ServiceReconcile();
        } else if job.operation == DisableCharging {
          ServiceDisable();
        } else {
          ServiceEnabling();
        }
        FailureUndone();
      }
    }

    method ServiceEnabling()
      requires Valid() && job.result == Running && job.operation in {PrepareCharge, EnableCharge, PortChange}
      modifies this`job, this`times, this`prepared, this`expectedInternal, this`expectedExternal,
               this`ceOffAt, this`tsSelectedAt, bus
      ensures Valid() && Progressed() && old(bus.trace) <= bus.trace
      ensures !old(RaiseAhead()) ==> Shrinks(old(bus.bank), bus.bank)
      ensures old(RaiseNow()) && job.result != Failed ==> !Shrinks(old(bus.bank), bus.bank)
      ensures job.result == Succeeded ==> Achieved()
      ensures job.result != Failed ==> Founded()
      ensures bus.benign ==>
                if EnableFounded(old(Look()), Ticks(bus.now)) then CalmEnabling(old(Look()), Look(), Ticks(bus.now))
                else job.result == Failed
    {
      hide Core, Shrinks, ReconcileReady, DisableReady, PrepareReady, PortReady, RolledBack;
      var allowed := EnableAllowed();
      if !allowed {
        Mark();
        FailOperation();
      } else {
        ServiceAllowed();
      }
    }

    method ServiceAllowed()
      requires Valid() && job.result == Running && job.operation in {PrepareCharge, EnableCharge, PortChange}
      modifies this`job, this`times, this`prepared, this`expectedInternal, this`expectedExternal,
               this`ceOffAt, this`tsSelectedAt, bus
      ensures Valid() && Progressed() && old(bus.trace) <= bus.trace
      ensures !old(RaiseAhead()) ==> Shrinks(old(bus.bank), bus.bank)
      ensures old(RaiseNow()) && job.result != Failed ==> !Shrinks(old(bus.bank), bus.bank)
      ensures job.result == Succeeded ==> Achieved()
      ensures bus.benign ==>
                if Backable(old(Look()), Ticks(bus.now)) then CalmEnabling(old(Look()), Look(), Ticks(bus.now))
                else job.result == Failed
    {
      hide Core, Shrinks, ReconcileReady, DisableReady, PrepareReady, PortReady, RolledBack;
      if job.operation == PrepareCharge {
        ServicePrepare();
      } else if job.operation == EnableCharge {
        ServiceEnable();
      } else {
        ServicePort();
      }
      Growth(old(bus.bank), bus.bank, job.port);
    }

    lemma FailureUndone()
      requires bus.benign && job.result == Failed ==> RolledBack()
      ensures bus.benign && job.result == Failed ==> Undone(Look())
    {
    }

    lemma MaskKnown()
      requires Valid()
      ensures job.portMask == PortMask(job.port)
    {
      hide Fold, StageReady;
    }

    lemma RunningStage()
      requires Valid()
      ensures job.result == Running ==> job.stage <= LAST_STAGE && times.opT <= times.stageT <= bus.now
    {
      hide Fold, BusOk, PreparedOk;
    }

    /** All writes so far obeyed the sequencing rules. */
    lemma RunSequenced()
      requires Valid()
      ensures Sequenced(bus.start, bus.trace)
    {
      hide Fold, StageReady, Sequenced;
      AcceptedTracesAreSequenced(bus.start, bus.trace);
    }

    lemma RunBank()
      requires Valid()
      ensures bus.bank == BankAfter(bus.start, bus.trace)
    {
      hide StageReady;
      FoldAgrees(bus.start, bus.trace);
    }

    // ---- The rest of the interface ----

    /** Time between calls. */
    method Wait(ms: nat)
      requires Valid()
      modifies bus`now
      ensures Valid() && bus.now == old(bus.now) + ms
    {
      hide Fold;
      bus.Wait(ms);
    }

    method Millis() returns (u: uint32)
      requires Valid()
      modifies bus`now
      ensures Valid() && bus.Later() && u == Ticks(bus.now)
    {
      hide Fold;
      u := bus.Millis();
    }

    method BeginMonitoring() returns (ok: bool)
      requires Valid()
      modifies this`monitoring, this`backupPin
      ensures Valid() && (ok ==> !old(monitoring) && monitoring) && (old(monitoring) ==> monitoring && !ok)
      ensures bus.benign ==> monitoring
      ensures backupPin == (old(monitoring) && old(backupPin))
    {
      hide Fold;
      if monitoring {
        return false;
      }
      backupPin := false;
      ok := bus.Sense();
      monitoring := ok;
    }

    /** Takes over whatever a poll delivered, fresh or stale. */
    method Poll(polled: Snapshot)
      requires Valid()
      modifies this`snapshot
      ensures Valid() && snapshot == polled
    {
      hide Fold;
      snapshot := polled;
    }

    method BackupAllowed(enabled: bool) returns (ok: bool)
      requires Valid()
      modifies bus`now
      ensures Valid() && bus.Later()
      ensures ok ==>
                && (enabled || backupPin ==> MainLive(Ticks(bus.now)))
                && (enabled ==> ARM_V <= snapshot.vcap <= TRIP_V)
      ensures bus.benign ==> ok == BackupGranted(Look(), enabled, Ticks(bus.now))
    {
      hide Fold;
      var main, mux := CurrentMain();
      ok := && monitoring && (enabled ==> main && ARM_V <= snapshot.vcap <= TRIP_V)
            && (!enabled && backupPin ==> main);
    }

    /** Arms backup only under live main and 10 to 21 V; never releases the sole source. */
    method SetBackup(enabled: bool) returns (ok: bool)
      requires Valid()
      modifies this`backupPin, bus`now
      ensures Valid() && bus.Later()
      ensures ok ==> backupPin == enabled
      ensures backupPin != old(backupPin) ==>
                backupPin == enabled && MainRead(Ticks(bus.now)) && (enabled ==> 100000 <= snapshot.vcap <= 210000)
      ensures bus.benign ==>
                && ok == BackupGranted(old(Look()), enabled, Ticks(bus.now))
                && backupPin == if ok then enabled else old(backupPin)
    {
      hide Core, StageReady;
      ok := BackupAllowed(enabled);
      if ok {
        DrivePin(enabled);
        ok := bus.Sense();
      }
    }

    method DrivePin(level: bool)
      requires Valid()
      modifies this`backupPin
      ensures Valid() && backupPin == level
    {
      hide Fold;
      backupPin := level;
    }

    method ReleaseBackupForShutdown() returns (ok: bool)
      requires Valid()
      modifies this`backupPin
      ensures Valid() && !backupPin
    {
      hide Fold;
      backupPin := false;
      ok := bus.Sense();
    }
  }

  /** What any caller may do next. */
  datatype Command =
    | Monitoring | Polling(snapshot: Snapshot) | Starting(op: Operation) | Switching(port: Port, enabled: bool)
    | Servicing | Backup(enabled: bool) | Releasing | Waiting(ms: nat)

  predicate Startable(v: View, op: Operation) {
    v.monitoring && (!Busy(v) || op == DisableCharging || op == RestorePor)
  }

  predicate Launched(v: View, w: View, op: Operation) {
    w == v.(job := w.job) && Busy(w) && w.job.operation == op && w.job.stage == 0
  }

  /** What each command does to the board. */
  predicate Honoured(c: Command, v: View, w: View) {
    match c
    case Monitoring =>
      w == v.(monitoring := w.monitoring, backup := v.monitoring && v.backup) && (v.monitoring ==> w.monitoring)
    case Polling(snapshot) => w == v.(snapshot := snapshot)
    case Starting(op) => if Startable(v, op) then Launched(v, w, op) else w == v
    case Switching(port, enabled) =>
      if v.monitoring && !Busy(v) then Launched(v, w, PortChange) && w.job.port == port && w.job.portEnabled == enabled
      else w == v
    case Servicing =>
      if !Busy(v) then w == v
      else SameJob(v, w) && w.job.result != Idle && (!Raising(v.job) ==> Shrinks(v.bank, w.bank) && !Raising(w.job))
    case Backup(enabled) => w == v || w == v.(backup := enabled)
    case Releasing => w == v.(backup := false)
    case Waiting(_) => w == v
  }

  /** One command of a run: the board before and after it, when it began and ended,
      and which events it added to the trace. */
  datatype Moment = Moment(command: Command, before: View, after: View, began: nat, ended: nat, first: nat, next: nat)

  /** Only service() touches the trace, time passes as told, and on a benign bus
      reconciliation, the teardown of charging and a port enable go through. */
  predicate Kept(m: Moment, benign: bool) {
    && Honoured(m.command, m.before, m.after) && m.began <= m.ended && m.first <= m.next
    && (!m.command.Servicing? ==> m.next == m.first)
    && (m.command.Waiting? ==> m.ended == m.began + m.command.ms)
    && (benign && !m.command.Waiting? ==> m.ended == m.began)
    && (benign && m.command.Servicing? ==> Calm(m.before, m.after, Ticks(m.ended)))
    && (benign && m.command.Backup? && BackupGranted(m.before, m.command.enabled, Ticks(m.ended)) ==>
          m.after.backup == m.command.enabled)
    && (benign && m.command.Backup? && !BackupGranted(m.before, m.command.enabled, Ticks(m.ended)) ==>
          m.after == m.before)
  }

  /** A run answers its commands one after the other. */
  ghost predicate Answers(history: seq<Moment>, commands: seq<Command>, benign: bool) {
    && |history| == |commands|
    && (forall i | 0 <= i < |history| :: history[i].command == commands[i] && Kept(history[i], benign))
    && (forall i | 0 < i < |history| :: Continues(history[i - 1], history[i]))
  }

  predicate Continues(m: Moment, n: Moment) {
    n.before == m.after && n.began == m.ended && n.first == m.next
  }

  /** Every run: from any retained registers, any commands in any order, any
      transfer outcomes and any delays are answered in turn and keep the sequencing
      promises. */
  method AnyRun(retained: Bank, at: nat, benign: bool, commands: seq<Command>)
      returns (board: BoardHardware, ghost history: seq<Moment>)
    requires forall c | c in commands && c.Starting? :: c.op != NoOperation && c.op != PortChange
    ensures board.bus.start == retained && board.bus.bank == BankAfter(retained, board.bus.trace)
    ensures Sequenced(retained, board.bus.trace)
    ensures Answers(history, commands, benign)
    ensures history != [] ==>
              && history[0].first == 0 && history[0].began == at && history[0].before.bank == retained
              && history[0].before.job.result == Idle && !history[0].before.monitoring
              && history[|history| - 1].after == board.Look() && history[|history| - 1].next == |board.bus.trace|
              && history[|history| - 1].ended == board.bus.now
  {
    hide Fold, BoardHardware.Valid, Kept, Answers, Expander.Sequenced;
    NothingAnswered(benign);
    var bus := new Bus(retained, at, benign);
    board := new BoardHardware(bus);
    history := [];
    ghost var fresh0 := board.Look();
    for i := 0 to |commands|
      invariant board.Valid() && board.bus == bus && bus.start == retained && bus.benign == benign
      invariant fresh(bus) && fresh(board)
      invariant |history| == i && Answers(history, commands[..i], benign)
      invariant if i == 0 then board.Look() == fresh0 && bus.trace == [] && bus.now == at
                else history[0].first == 0 && history[0].before == fresh0 && history[0].began == at
                     && EndsAt(history[i - 1], board)
    {
      ghost var moment := Execute(board, commands[i]);
      AnswersSnoc(history, commands[..i], moment, benign);
      assert commands[..i + 1] == commands[..i] + [commands[i]];
      history := history + [moment];
    }
    assert commands[..|commands|] == commands;
    board.RunSequenced();
    board.RunBank();
  }

  ghost predicate EndsAt(m: Moment, board: BoardHardware)
    reads board, board.bus
  {
    m.after == board.Look() && m.ended == board.bus.now && m.next == |board.bus.trace|
  }

  lemma NothingAnswered(benign: bool)
    ensures Answers([], [], benign)
  {
  }

  lemma AnswersSnoc(history: seq<Moment>, commands: seq<Command>, m: Moment, benign: bool)
    requires Answers(history, commands, benign) && Kept(m, benign)
    requires history != [] ==> Continues(history[|history| - 1], m)
    ensures Answers(history + [m], commands + [m.command], benign)
  {
    hide Kept, Continues;
  }

  method Execute(board: BoardHardware, command: Command) returns (ghost m: Moment)
    requires board.Valid() && (command.Starting? ==> command.op != NoOperation && command.op != PortChange)
    modifies board, board.bus
    ensures board.Valid() && EndsAt(m, board) && Kept(m, board.bus.benign)
    ensures m.command == command && m.before == old(board.Look())
    ensures m.began == old(board.bus.now) && m.first == old(|board.bus.trace|)
  {
    hide BoardHardware.Valid, Shrinks, Calm, BackupGranted;
    ghost var before, began, first := board.Look(), board.bus.now, |board.bus.trace|;
    var ok;
    match command {
      case Monitoring => ok := board.BeginMonitoring();
      case Polling(snapshot) => board.Poll(snapshot);
      case Starting(op) => ok := board.StartOperation(op);
      case Switching(port, enabled) => ok := board.StartPort(port, enabled);
      case Servicing => board.Service();
      case Backup(enabled) => ok := board.SetBackup(enabled);
      case Releasing => ok := board.ReleaseBackupForShutdown();
      case Waiting(ms) => board.Wait(ms);
    }
    m := Moment(command, before, board.Look(), began, board.bus.now, first, |board.bus.trace|);
  }

  // ---- Every operation ends ----

  /** The most that may pass from the first call in a stage to the first in a later one. */
  function StageCost(op: Operation, stage: nat, gap: nat): nat {
    if WaitLimit(op, stage) == 0 then gap else WaitLimit(op, stage) + 2 * gap
  }

  /** The most that may pass before stage `n` is first seen. */
  function Spent(op: Operation, n: nat, gap: nat): nat {
    if n == 0 then 0 else Spent(op, n - 1, gap) + StageCost(op, n - 1, gap)
  }

  lemma {:induction false} SpentGrows(op: Operation, m: nat, n: nat, gap: nat)
    requires m <= n
    ensures Spent(op, m, gap) <= Spent(op, n, gap)
    decreases n
  {
    if m < n {
      SpentGrows(op, m, n - 1, gap);
    }
  }

  /** `calls` are consecutive service() calls at most `gap` apart, all on one
      operation started at opT. */
  ghost predicate Serviced(op: Operation, opT: nat, calls: seq<Call>, gap: nat) {
    && |calls| > 0 && calls[0].stage == 0 && opT <= calls[0].stageT <= calls[0].at <= opT + gap
    && (forall i | 0 <= i < |calls| :: calls[i].stage <= LAST_STAGE && calls[i].stageT <= calls[i].at)
    && (forall i | 0 < i < |calls| ::
          Follows(op, opT, calls[i - 1], calls[i]) && calls[i].at <= calls[i - 1].at + gap)
  }

  lemma StageBounded(op: Operation, stage: nat, gap: nat)
    ensures StageCost(op, stage, gap) <= PG_TIMEOUT_MS + 2 * gap
  {
  }

  lemma {:induction false} SpentBounded(op: Operation, n: nat, gap: nat)
    requires gap < WRAP / 32
    ensures Spent(op, n, gap) <= n * (PG_TIMEOUT_MS + 2 * gap)
    ensures n <= LAST_STAGE ==> Spent(op, n, gap) + StageCost(op, n, gap) + 2 * gap < WRAP
  {
    hide StageCost;
    StageBounded(op, n, gap);
    if n > 0 {
      StageBounded(op, n - 1, gap);
      SpentBounded(op, n - 1, gap);
      assert (n - 1) * (PG_TIMEOUT_MS + 2 * gap) + (PG_TIMEOUT_MS + 2 * gap) == n * (PG_TIMEOUT_MS + 2 * gap);
    }
    if n <= LAST_STAGE {
      Product(n, PG_TIMEOUT_MS + 2 * gap);
    }
  }

  lemma Product(n: nat, c: nat)
    requires n <= LAST_STAGE
    ensures n * c <= LAST_STAGE * c
  {
  }

  /** When the last call's stage was first seen. */
  lemma {:induction false} StageEntry(op: Operation, opT: nat, calls: seq<Call>, gap: nat) returns (entry: nat)
    requires Serviced(op, opT, calls, gap) && gap < WRAP / 32
    ensures var last := calls[|calls| - 1];
            && last.stageT <= entry <= opT + gap + Spent(op, last.stage, gap)
            && last.at + gap <= entry + StageCost(op, last.stage, gap)
  {
    var n := |calls| - 1;
    if n == 0 {
      entry := calls[0].at;
    } else {
      var p, c := calls[n - 1], calls[n];
      var before := StageEntry(op, opT, calls[..n], gap);
      entry := EntryStep(op, opT, p, c, before, gap);
    }
  }

  lemma EntryStep(op: Operation, opT: nat, p: Call, c: Call, before: nat, gap: nat) returns (entry: nat)
    requires Follows(op, opT, p, c) && c.at <= p.at + gap && gap < WRAP / 32
    requires p.stage <= LAST_STAGE && c.stage <= LAST_STAGE && p.stageT <= p.at && c.stageT <= c.at
    requires p.stageT <= before <= opT + gap + Spent(op, p.stage, gap)
    requires p.at + gap <= before + StageCost(op, p.stage, gap)
    ensures c.stageT <= entry <= opT + gap + Spent(op, c.stage, gap)
    ensures c.at + gap <= entry + StageCost(op, c.stage, gap)
  {
    SpentBounded(op, p.stage, gap);
    if c.stage > p.stage {
      entry := c.at;
      SpentGrows(op, p.stage + 1, c.stage, gap);
    } else {
      entry := before;
    }
  }

  /** The longest an operation may run with service calls at most `gap` apart. */
  function Longest(op: Operation, gap: nat): nat {
    match op
    case Reconcile | RestorePor | DisableCharging => 100 + 12 * gap
    case PrepareCharge => 4100 + 14 * gap
    case PortChange => 4000 + 13 * gap
    case _ => 11 * gap
  }

  lemma SpentTotal(op: Operation, gap: nat)
    ensures Spent(op, LAST_STAGE + 1, gap) == Longest(op, gap)
  {
    SpentUnrolled(op, gap);
    hide Spent;
  }

  lemma SpentUnrolled(op: Operation, gap: nat)
    ensures Spent(op, LAST_STAGE + 1, gap) ==
            StageCost(op, 0, gap) + StageCost(op, 1, gap) + StageCost(op, 2, gap) + StageCost(op, 3, gap)
            + StageCost(op, 4, gap) + StageCost(op, 5, gap) + StageCost(op, 6, gap) + StageCost(op, 7, gap)
            + StageCost(op, 8, gap) + StageCost(op, 9, gap) + StageCost(op, 10, gap)
  {
    hide StageCost;
    assert Spent(op, 1, gap) == Spent(op, 0, gap) + StageCost(op, 0, gap);
    assert Spent(op, 2, gap) == StageCost(op, 0, gap) + StageCost(op, 1, gap);
    assert Spent(op, 4, gap) == Spent(op, 2, gap) + StageCost(op, 2, gap) + StageCost(op, 3, gap);
    assert Spent(op, 6, gap) == Spent(op, 4, gap) + StageCost(op, 4, gap) + StageCost(op, 5, gap);
    assert Spent(op, 8, gap) == Spent(op, 6, gap) + StageCost(op, 6, gap) + StageCost(op, 7, gap);
    assert Spent(op, 10, gap) == Spent(op, 8, gap) + StageCost(op, 8, gap) + StageCost(op, 9, gap);
  }

  /** No started operation is still running later than this, whatever the bus and
      the power-goods do: a flapping power-good cannot extend its two seconds. */
  lemma EveryOperationEnds(op: Operation, opT: nat, calls: seq<Call>, gap: nat)
    requires Serviced(op, opT, calls, gap) && gap < WRAP / 32
    ensures calls[|calls| - 1].at <= opT + Longest(op, gap)
  {
    var last := calls[|calls| - 1];
    var entry := StageEntry(op, opT, calls, gap);
    SpentGrows(op, last.stage + 1, LAST_STAGE + 1, gap);
    SpentTotal(op, gap);
  }

  /** One service() call of a run: when it began and returned, and the board around it. */
  datatype ServiceCall = ServiceCall(at: nat, done: nat, before: View, after: View)

  /** The call found an operation running and left the same one, no earlier in its stages. */
  predicate Took(c: ServiceCall) {
    && Busy(c.before) && c.at <= c.done
    && c.after.job.operation == c.before.job.operation && c.after.job.result != Idle
    && (Busy(c.after) ==> c.before.job.stage <= c.after.job.stage <= LAST_STAGE)
  }

  /** The first call comes at most `gap` after the start, and each at most `gap`
      after the one before. */
  ghost predicate Paced(opT: nat, calls: seq<ServiceCall>, gap: nat) {
    && (calls != [] ==> calls[0].at <= opT + gap)
    && forall i | 0 < i < |calls| :: calls[i].at <= calls[i - 1].at + gap
  }

  /** Consecutive service() calls on one operation from board `v` at `start`, each
      after its pause and poll and finding the operation running. */
  ghost predicate Consecutive(calls: seq<ServiceCall>, pauses: seq<(nat, Snapshot)>, v: View, start: nat) {
    && |calls| <= |pauses|
    && (calls != [] ==> calls[0].before == v.(snapshot := pauses[0].1) && calls[0].at == start + pauses[0].0)
    && (forall i | 0 <= i < |calls| :: Took(calls[i]))
    && forall i | 0 < i < |calls| ::
         && calls[i].before == calls[i - 1].after.(snapshot := pauses[i].1)
         && calls[i].at == calls[i - 1].done + pauses[i].0
  }

  /** Where the run stands: the board after the last call, and when that returned. */
  function Latest(calls: seq<ServiceCall>, v: View, start: nat): (View, nat) {
    if calls == [] then (v, start) else (calls[|calls| - 1].after, calls[|calls| - 1].done)
  }

  // ---- On a good bus with good readings, every operation succeeds ----

  /** Every call got all its transfers through. */
  ghost predicate Undisturbed(calls: seq<ServiceCall>) {
    forall i | 0 <= i < |calls| ::
      calls[i].done == calls[i].at && Calm(calls[i].before, calls[i].after, Ticks(calls[i].at))
  }

  /** The readings a call finds are fresh and in order for its operation. */
  predicate Favourable(v: View, now: uint32) {
    match v.job.operation
    case PrepareCharge => EnableFounded(v, now) && v.snapshot.boostPg && ChargerGood(v.snapshot)
    case EnableCharge => EnableFounded(v, now) && ChargerGood(v.snapshot) && v.snapshot.vcap < TRIP_V
    case PortChange =>
      && EnableFounded(v, now)
      && (v.job.portEnabled ==>
            && v.snapshot.externalValid && Elapsed(now, v.snapshot.externalAt) <= FRESH_MS
            && PortPg(v.snapshot, v.job.port))
    case _ => true
  }

  /** A wait for a power-good that has been good so far, at its last call. */
  predicate OnTime(job: Job, at: nat, gap: nat) {
    if job.pgTiming
    then Elapsed(Ticks(at), job.pgAt) < PG_MS && Elapsed(Ticks(at), job.stageAt) <= Elapsed(Ticks(at), job.pgAt) + gap
    else Elapsed(Ticks(at), job.stageAt) == 0
  }

  /** Where a favoured operation stands after a call at `at`; at stage 0 it may start. */
  predicate OnCourse(v: View, at: nat, gap: nat) {
    match v.job.operation
    case PrepareCharge =>
      && Known(v) && v.job.stage <= 4 && (v.job.stage >= 2 ==> v.expectedInternal.Misses(PROFILE))
      && (v.job.stage == 3 ==> OnTime(v.job, at, gap))
    case EnableCharge =>
      Known(v) && v.prepared && v.expectedInternal.Misses(PROFILE) && !v.expectedInternal.Misses(BOOST)
    case PortChange =>
      && Known(v) && (v.job.stage in if v.job.portEnabled then {0, 1, 2, 3} else {0, 5})
      && (v.job.stage == 1 ==> v.job.port == FiveVoltVbus)
      && (v.job.stage == 1 || v.job.stage == 3 ==> OnTime(v.job, at, gap))
    case NoOperation => false
    case DisableCharging => true
    case _ => v.job.stage <= LAST_STAGE
  }

  lemma ElapsedOn(at: nat, later: nat, since: uint32)
    requires at <= later && Elapsed(Ticks(at), since) + (later - at) < WRAP
    ensures Elapsed(Ticks(later), since) == Elapsed(Ticks(at), since) + (later - at)
  {
  }

  /** One evaluation of a wait whose power-good is good: passed, or still timely. */
  lemma WaitOnCourse(v: View, w: View, at: nat, later: nat, gap: nat, passed: View)
    requires OnTime(v.job, at, gap) && at <= later <= at + gap && gap <= 900
    requires CalmWait(v, w, true, Ticks(later), passed)
    ensures w == passed || (w == v.(job := v.job.(pgTiming := w.job.pgTiming, pgAt := w.job.pgAt))
                            && OnTime(w.job, later, gap))
  {
    ElapsedOn(at, later, v.job.stageAt);
    if v.job.pgTiming {
      ElapsedOn(at, later, v.job.pgAt);
    }
  }

  lemma PrepareOnCourse(v: View, w: View, at: nat, later: nat, gap: nat)
    requires v.job.operation == PrepareCharge && OnCourse(v, at, gap) && Favourable(v, Ticks(later))
    requires at <= later <= at + gap && gap <= 900 && Busy(v) && CalmPrepare(v, w, Ticks(later))
    ensures w.job.result in {Running, Succeeded} && w.job.operation == v.job.operation
    ensures OnCourse(w, later, gap)
  {
    hide CalmWait, OnTime;
    if v.job.stage == 3 {
      WaitOnCourse(v, w, at, later, gap, ToStage(v, Ticks(later), 4));
    } else if v.job.stage == 2 {
      JustEntered(w, later, gap);
    }
  }

  lemma JustEntered(v: View, at: nat, gap: nat)
    ensures !v.job.pgTiming && v.job.stageAt == Ticks(at) ==> OnTime(v.job, at, gap)
  {
  }

  lemma PortOnOnCourse(v: View, w: View, at: nat, later: nat, gap: nat)
    requires v.job.operation == PortChange && v.job.portEnabled && OnCourse(v, at, gap)
    requires Favourable(v, Ticks(later)) && Busy(v) && CalmPortOn(v, w, Ticks(later))
    requires at <= later <= at + gap && gap <= 900
    ensures w.job.result in {Running, Succeeded} && (Busy(w) ==> OnCourse(w, later, gap))
  {
    if v.job.stage == 1 || v.job.stage == 3 {
      hide CalmWait, OnTime, Known;
      WaitOnCourse(v, w, at, later, gap, if v.job.stage == 1 then ToStage(v, Ticks(later), 2) else Concluded(v));
    } else {
      hide CalmWait, OnTime;
      JustEntered(w, later, gap);
    }
  }

  /** One favoured call neither fails nor leaves its course. */
  lemma StaysOnCourse(v: View, w: View, at: nat, later: nat, gap: nat)
    requires OnCourse(v, at, gap) && Favourable(v, Ticks(later)) && at <= later <= at + gap && gap <= 900
    requires Busy(v) && Calm(v, w, Ticks(later))
    ensures w.job.result in {Running, Succeeded}
    ensures Busy(w) ==> OnCourse(w, later, gap)
  {
    hide CalmWait, OnTime, CalmPrepare, CalmPortOn;
    match v.job.operation
    case PrepareCharge => PrepareOnCourse(v, w, at, later, gap);
    case PortChange => if v.job.portEnabled { PortOnOnCourse(v, w, at, later, gap); }
    case _ =>
  }

  /** The calls were favoured, from a board on course and with short enough gaps. */
  ghost predicate Favoured(calls: seq<ServiceCall>, v: View, start: nat, gap: nat) {
    && OnCourse(v, start, gap) && gap <= 900 && Paced(start, calls, gap)
    && forall i | 0 <= i < |calls| :: Favourable(calls[i].before, Ticks(calls[i].at))
  }

  /** A favoured run of any length has not failed. */
  lemma {:induction false} FavouredRunsGoOn(calls: seq<ServiceCall>, pauses: seq<(nat, Snapshot)>, v: View, start: nat,
                                            gap: nat)
    requires Consecutive(calls, pauses, v, start) && Undisturbed(calls) && Favoured(calls, v, start, gap) && calls != []
    ensures var c := calls[|calls| - 1];
            c.after.job.result in {Running, Succeeded} && (Busy(c.after) ==> OnCourse(c.after, c.at, gap))
  {
    hide Calm, OnCourse, Favourable;
    var n := |calls| - 1;
    var c := calls[n];
    assert Took(c) && Favourable(c.before, Ticks(c.at)) && Calm(c.before, c.after, Ticks(c.at));
    if n == 0 {
      SnapshotsAside(v, c.before.snapshot, start, gap);
      StaysOnCourse(c.before, c.after, start, c.at, gap);
    } else {
      var front := calls[..n];
      assert front[n - 1] == calls[n - 1];
      FavouredRunsGoOn(front, pauses, v, start, gap);
      SnapshotsAside(calls[n - 1].after, c.before.snapshot, calls[n - 1].at, gap);
      StaysOnCourse(c.before, c.after, calls[n - 1].at, c.at, gap);
    }
  }

  lemma SnapshotsAside(v: View, s: Snapshot, at: nat, gap: nat)
    requires OnCourse(v, at, gap)
    ensures OnCourse(v.(snapshot := s), at, gap)
  {
  }

  /** The same for the sequencer itself, serviced again and again with any pauses
      and polls between: a call that still finds the operation running, when calls
      came at most `gap` apart, came no later than that; and on a bus where every
      transfer gets through, an operation with the readings it needs does not fail. */
  method ServiceRepeatedly(board: BoardHardware, pauses: seq<(nat, Snapshot)>, ghost gap: nat)
      returns (ghost calls: seq<ServiceCall>)
    requires board.Valid() && board.job.result == Running && board.job.stage == 0 && gap < WRAP / 32
    modifies board, board.bus
    ensures board.Valid() && board.times.opT == old(board.times.opT) && board.job.operation == old(board.job.operation)
    ensures Consecutive(calls, pauses, old(board.Look()), old(board.bus.now))
    ensures (board.Look(), board.bus.now) == Latest(calls, old(board.Look()), old(board.bus.now))
    ensures |calls| < |pauses| ==> board.job.result != Running
    ensures calls != [] && Paced(board.times.opT, calls, gap) ==>
              calls[|calls| - 1].at <= board.times.opT + Longest(board.job.operation, gap)
    ensures board.job.result == Succeeded ==> board.Achieved()
    ensures board.bus.benign ==> Undisturbed(calls)
    ensures board.bus.benign && Favoured(calls, old(board.Look()), old(board.bus.now), gap) ==>
              board.job.result in {Running, Succeeded}
  {
    hide BoardHardware.Valid, Follows, BoardHardware.Achieved, Took, Serviced, Paced, Consecutive, Undisturbed,
         Favoured;
    calls := [];
    ghost var seen: seq<Call> := [];
    ghost var op, opT, first, start := board.job.operation, board.times.opT, board.Look(), board.bus.now;
    NoCallsYet(op, opT, pauses, first, start, gap);
    var i := 0;
    while i < |pauses| && board.job.result == Running
      invariant i <= |pauses| && board.Valid() && board.job.operation == op && board.times.opT == opT
      invariant |calls| == i == |seen| && Consecutive(calls, pauses, first, start)
      invariant (board.Look(), board.bus.now) == Latest(calls, first, start)
      invariant Observed(op, opT, calls, seen, gap) && (board.bus.benign ==> Undisturbed(calls))
      invariant i > 0 && board.job.result == Running ==>
                  Follows(op, opT, seen[i - 1], Call(board.bus.now, board.job.stage, board.times.stageT))
      invariant board.job.result == Succeeded ==> board.Achieved()
      decreases |pauses| - i
    {
      ghost var ready := Call(board.bus.now, board.job.stage, board.times.stageT);
      ghost var call, view := ServiceOnce(board, pauses[i].0, pauses[i].1);
      ObservedSnoc(op, opT, calls, seen, ready, call, view, gap);
      ConsecutiveSnoc(calls, pauses, first, start, call);
      if board.bus.benign {
        UndisturbedSnoc(calls, call);
      }
      calls, seen := calls + [call], seen + [view];
      i := i + 1;
    }
    if calls != [] {
      if Paced(opT, calls, gap) {
        EveryOperationEnds(op, opT, seen, gap);
      }
      if board.bus.benign && Favoured(calls, first, start, gap) {
        FavouredRunsGoOn(calls, pauses, first, start, gap);
      }
    }
  }

  /** A pause, a poll and a service() call. */
  method ServiceOnce(board: BoardHardware, pause: nat, polled: Snapshot)
      returns (ghost call: ServiceCall, ghost view: Call)
    requires board.Valid() && board.job.result == Running
    modifies board, board.bus
    ensures board.Valid() && board.times.opT == old(board.times.opT) && board.job.operation == old(board.job.operation)
    ensures call == ServiceCall(old(board.bus.now) + pause, board.bus.now, old(board.Look()).(snapshot := polled),
                                board.Look())
    ensures Took(call) && (board.bus.benign ==> call.done == call.at && Calm(call.before, call.after, Ticks(call.at)))
    ensures view == Call(call.at, old(board.job.stage), old(board.times.stageT))
    ensures board.times.opT <= view.stageT <= view.at && view.stage <= LAST_STAGE
    ensures board.job.result == Running ==>
              Follows(board.job.operation, board.times.opT, view,
                      Call(board.bus.now, board.job.stage, board.times.stageT))
    ensures board.job.result == Succeeded ==> board.Achieved()
  {
    hide BoardHardware.Valid, BoardHardware.Achieved, Calm;
    board.Wait(pause);
    board.Poll(polled);
    board.RunningStage();
    ghost var before := board.Look();
    view := Call(board.bus.now, board.job.stage, board.times.stageT);
    board.Service();
    board.RunningStage();
    call := ServiceCall(view.at, board.bus.now, before, board.Look());
  }

  lemma UndisturbedSnoc(calls: seq<ServiceCall>, call: ServiceCall)
    requires Undisturbed(calls)
    ensures call.done == call.at && Calm(call.before, call.after, Ticks(call.at)) ==> Undisturbed(calls + [call])
  {
    hide Calm;
  }

  /** What the time bound needs of the calls so far. */
  ghost predicate Observed(op: Operation, opT: nat, calls: seq<ServiceCall>, seen: seq<Call>, gap: nat) {
    && |seen| == |calls| && (forall k | 0 <= k < |calls| :: seen[k].at == calls[k].at)
    && (calls != [] && Paced(opT, calls, gap) ==> Serviced(op, opT, seen, gap))
  }

  lemma NoCallsYet(op: Operation, opT: nat, pauses: seq<(nat, Snapshot)>, v: View, start: nat, gap: nat)
    ensures Consecutive([], pauses, v, start) && Observed(op, opT, [], [], gap) && Undisturbed([])
  {
  }

  lemma ConsecutiveSnoc(calls: seq<ServiceCall>, pauses: seq<(nat, Snapshot)>, v: View, start: nat, call: ServiceCall)
    requires Consecutive(calls, pauses, v, start) && |calls| < |pauses| && Took(call)
    requires call.before == Latest(calls, v, start).0.(snapshot := pauses[|calls|].1)
    requires call.at == Latest(calls, v, start).1 + pauses[|calls|].0
    ensures Consecutive(calls + [call], pauses, v, start)
  {
    hide Took;
  }

  lemma ObservedSnoc(op: Operation, opT: nat, calls: seq<ServiceCall>, seen: seq<Call>, ready: Call,
                     call: ServiceCall, view: Call, gap: nat)
    requires Observed(op, opT, calls, seen, gap)
    requires calls != [] ==> Follows(op, opT, seen[|seen| - 1], ready)
    requires calls == [] ==> view.stage == 0
    requires view == Call(call.at, ready.stage, ready.stageT) && ready.at <= view.at
    requires opT <= view.stageT <= view.at && view.stage <= LAST_STAGE
    ensures Observed(op, opT, calls + [call], seen + [view], gap)
  {
    hide Serviced;
    var all := calls + [call];
    if calls != [] {
      FollowsLater(op, opT, seen[|seen| - 1], ready, view.at);
    }
    if Paced(opT, all, gap) {
      assert calls != [] ==> all[|calls|].at <= all[|calls| - 1].at + gap;
      PacedFront(opT, calls, all, gap);
      ServicedSnoc(op, opT, seen, view, gap);
    }
  }

  lemma PacedFront(opT: nat, front: seq<ServiceCall>, calls: seq<ServiceCall>, gap: nat)
    requires |front| < |calls| && front == calls[..|front|] && Paced(opT, calls, gap)
    ensures Paced(opT, front, gap)
  {
  }

  lemma ServicedSnoc(op: Operation, opT: nat, calls: seq<Call>, call: Call, gap: nat)
    requires calls != [] ==> Serviced(op, opT, calls, gap) && Follows(op, opT, calls[|calls| - 1], call)
    requires calls != [] ==> call.at <= calls[|calls| - 1].at + gap
    requires calls == [] ==> call.stage == 0 && call.at <= opT + gap
    requires opT <= call.stageT <= call.at && call.stage <= LAST_STAGE
    ensures Serviced(op, opT, calls + [call], gap)
  {
    hide Follows;
  }
}
