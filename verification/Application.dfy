/** The loop around policy and hardware: tick, dispatch of the pending action, one
    hardware stage, and the clean-up of a shutdown, in that order. */
module Application {
  import opened Options
  import opened Bits
  import opened Clock
  import opened Voltages
  import opened Expander
  import opened Wire
  import opened BoardHardware
  import opened PowerPolicy
  import opened PolicyFacts
  import PolicyRuns

  const FRESH: nat := 350
  const BACKUP_TIMEOUT_MS: nat := 2000
  const PING_MS: nat := 2000
  const FINAL_CLEANUP_MS: nat := 750

  /** The action being executed: its id, when it was taken up, and its step. */
  datatype Active = Active(id: uint32, at: uint32, stage: nat)

  /** The shutdown clean-up, and whether and since when the charger is expected on. */
  datatype Cleanup = Cleanup(stage: nat, shed: bool, chargeExpected: bool, chargeEnabledAt: uint32)

  /** A port request in progress; zero is none. */
  datatype PortRequest = PortRequest(request: uint32, port: Port, enabled: bool)

  datatype Report = Report(request: uint32, port: Port, enabled: bool, ok: bool)

  /** The last ping sent; zero is none. */
  datatype Ping = Ping(id: uint32, at: uint32)

  /** What the USB power-delivery controller answers in one loop: its budget at the
      health check, a poll with a started negotiation, the negotiation, and its
      budget when an action needs it. */
  datatype Delivery = Delivery(healthy: bool, polls: bool, result: Result, budget: bool)

  /** True times: when shutdown began, its first tick, when power cutting began, when
      the backup was released, and when the last loop ended; `paced` while loops are
      at most `gap` apart. */
  datatype Watch = Watch(shutT: nat, firstT: Option<nat>, cutT: nat, releasedT: nat, lastT: nat, paced: bool)

  /** The registers when shutdown began, and whether an operation was under way
      that could still raise an enable. */
  datatype Onset = Onset(bank: Bank, armed: bool)

  /** What the loop, the policy and the board hold at a moment. */
  datatype Scene = Scene(
    s: State, act: Active, clean: Cleanup, ext: PortRequest, ping: Ping, dcBudget: bool, released: bool, board: View)

  /** A shutdown request that has not been taken up yet. */
  predicate Unserved(s: State, active: uint32) {
    && s.phase == ShutdownWait && s.pending == Pending(RequestJetsonShutdown, s.nextId) && active < s.nextId
    && s.outcome == Unreported && s.pendingAt == s.at.shutdown
  }

  predicate CutPending(s: State) {
    s.phase == PowerOff && s.pending == Pending(CutPower, s.nextId) && s.outcome == Unreported
  }

  /** A tick this late after a reboot request finds it expired but not yet due for the cut. */
  predicate TooLate(s: State, now: uint32) {
    5000 <= Elapsed(now, s.at.shutdown) < 60000
  }

  /** The first tick of the shutdown came 5 to 60 s after it began. */
  predicate Late(w: Watch) {
    w.firstT.Some? && 5000 <= Elapsed(Ticks(w.firstT.value), Ticks(w.shutT)) < 60000
  }

  /** A shutdown that has seen no tick yet waits unserved; from the first tick on its
      request has lapsed exactly if that tick was late. */
  predicate Clocked(s: State, act: Active, lapsed: bool, w: Watch, now: nat) {
    if w.firstT.None? then Unserved(s, act.id) && !lapsed
    else w.shutT <= w.firstT.value <= now && (lapsed <==> Late(w))
  }

  /** How the policy, the action being executed and the recorded times fit together;
      `served` says that shutdown was taken up. */
  ghost predicate Phased(s: State, act: Active, served: bool, lapsed: bool, watch: Watch, now: nat) {
    && Sound(s) && act.id <= s.nextId
    && (served || lapsed ==> InShutdown(s))
    && (InShutdown(s) ==>
          s.at.shutdown == Ticks(watch.shutT) && watch.shutT <= now && Clocked(s, act, lapsed, watch, now))
    && (s.phase == PowerOff ==>
          && CutPending(s) && watch.shutT + SHUTDOWN_MS <= now
          && (act.id == s.nextId ==> served && act.at == Ticks(watch.cutT) && watch.cutT <= now))
    && (s.phase == ShutdownWait && served ==> act.id == s.nextId)
    && (s.phase == ShutdownWait && !served ==> if lapsed then s.pending == IDLE else Unserved(s, act.id))
  }

  function LapsedBy(s: State, active: uint32, lapsed: bool, now: uint32): bool {
    lapsed || (Unserved(s, active) && TooLate(s, now))
  }

  /** A step into shutdown. */
  predicate Enters(s: State, t: State) { InShutdown(t) && !InShutdown(s) }

  function RebootAt(s: State, t: State, watch: Watch, at: nat): Watch {
    if Enters(s, t) then watch.(shutT := at, firstT := None) else watch
  }

  function TickAt(s: State, t: State, watch: Watch, at: nat): Watch {
    if !InShutdown(t) then watch
    else if !InShutdown(s) then watch.(shutT := at, firstT := Some(at))
    else if watch.firstT.None? then watch.(firstT := Some(at)) else watch
  }

  /** A tick: it enters shutdown, lets a late request lapse, or begins the cut. */
  lemma TickPhased(s: State, act: Active, served: bool, lapsed: bool, watch: Watch, now: nat, at: nat, input: Inputs)
    requires Phased(s, act, served, lapsed, watch, now) && now <= at
    requires s.phase == PowerOff ==> act.id == s.nextId
    requires InShutdown(s) && watch.firstT.Some? ==> !Unserved(s, act.id)
    ensures var t, w := Tick(s, Ticks(at), input), TickAt(s, Tick(s, Ticks(at), input), watch, at);
            && Phased(t, act, served, LapsedBy(s, act.id, lapsed, Ticks(at)), w, at)
            && (InShutdown(s) ==> InShutdown(t) && w.shutT == watch.shutT) && (InShutdown(t) ==> w.firstT.Some?)
            && (InShutdown(t) && !InShutdown(s) ==>
                  Unserved(t, act.id) && w.shutT == at && input.statusValid && !input.mainPresent)
            && (s.phase == Phase.Running ==> t.phase == Phase.Running || InShutdown(t))
            && (!InShutdown(t) ==> Stands(s, t) && act.id <= s.nextId <= t.nextId)
            && (InShutdown(t) ==> !OneOperation(t.pending.kind))
            && (LapsedBy(s, act.id, lapsed, Ticks(at)) && !served ==>
                  t.pending.kind == NoAction || t.pending.kind == CutPower)
            && (t.phase == PowerOff ==> InShutdown(s)) && (s.phase == PowerOff ==> t.phase == PowerOff)
            && (InShutdown(t) ==> t.at.shutdown == Ticks(w.shutT) && w.shutT <= at)
            && (t.phase == PowerOff ==> w.shutT + SHUTDOWN_MS <= at && (act.id == t.nextId <==> s.phase == PowerOff))
            && (t.phase == ShutdownWait ==> Elapsed(Ticks(at), t.at.shutdown) < SHUTDOWN_MS)
            && (Unserved(s, act.id) ==>
                  !served && if TooLate(s, Ticks(at)) then t.pending == IDLE
                             else t.pending.kind == RequestJetsonShutdown || t.pending.kind == CutPower)
  {
    hide Tick, Remaining, PolicyRuns.Ok;
    TickSound(s, at, input);
    PendingInShutdown(s);
    if s.phase == ShutdownWait {
      TickWaits(s, Ticks(at), input);
      ElapsedBounds(at, watch.shutT);
    } else if s.phase == PowerOff {
      TickCut(s, Ticks(at), input);
    } else {
      TickEnters(s, at, input);
      if !InShutdown(Tick(s, Ticks(at), input)) {
        TickStands(s, Ticks(at), input);
      }
      if s.phase == Phase.Running {
        TickRunning(s, Ticks(at), input);
      }
    }
  }

  lemma PhasedLater(s: State, act: Active, served: bool, lapsed: bool, watch: Watch, now: nat, later: nat)
    requires Phased(s, act, served, lapsed, watch, now) && now <= later
    ensures Phased(s, act, served, lapsed, watch, later)
    ensures s.phase == PowerOff ==> s.pending.kind == CutPower
  {
    hide Sound;
  }

  /** A reboot request between loops. */
  lemma RebootPhased(s: State, act: Active, served: bool, lapsed: bool, watch: Watch, now: nat)
    requires Phased(s, act, served, lapsed, watch, now)
    ensures var t := RequestReboot(s, Ticks(now));
            && Phased(t, act, served, lapsed, RebootAt(s, t, watch, now), now)
            && (RebootAccepted(s) <==> !InShutdown(s))
            && if RebootAccepted(s) then !served && Unserved(t, act.id) else t == s
  {
    hide RebootAccepted, StartShutdown, Remaining, PolicyRuns.Ok;
    RebootSound(s, now);
    if !RebootAccepted(s) {
      RebootRefused(s, Ticks(now));
    }
  }

  /** Taking up the pending action. */
  lemma DispatchPhased(s: State, t: State, act: Active, act': Active, served: bool, served': bool, lapsed: bool,
                       watch: Watch, watch': Watch, now: nat, now': nat)
    requires Phased(s, act, served, lapsed, watch, now) && now <= now' && (InShutdown(s) ==> watch.firstT.Some?)
    requires Sound(t) && t == s.(outcome := t.outcome) && (s.pending.kind == CutPower ==> t == s)
    requires if s.pending.kind == NoAction then act' == act else act'.id == s.nextId
    requires served' == (served || s.pending.kind == RequestJetsonShutdown || s.pending.kind == CutPower)
    requires watch' == watch.(cutT := watch'.cutT, releasedT := watch'.releasedT)
    requires s.pending.kind == CutPower ==> act'.at == Ticks(watch'.cutT) && watch'.cutT <= now'
    ensures Phased(t, act', served', lapsed, watch', now') && (t.phase == PowerOff ==> act'.id == t.nextId)
    ensures InShutdown(t) ==> !Unserved(t, act'.id) && (served' || lapsed)
  {
    hide Remaining;
    PendingInShutdown(s);
  }

  /** Outside shutdown the pending action is never one of its two. */
  lemma PendingInShutdown(s: State)
    requires Sound(s)
    ensures InShutdown(s) <== s.pending.kind == RequestJetsonShutdown || s.pending.kind == CutPower
    ensures s.phase == ShutdownWait ==> s.pending.kind == RequestJetsonShutdown || s.pending.kind == NoAction
    ensures s.pending.kind == PrepareCharging || s.pending.kind == EnableCharging || s.pending.kind == EnableJetson
            ==> !InShutdown(s) && s.phase != Phase.Running
    ensures s.pending.kind == StopCharging || s.pending.kind == ArmBackup || s.pending.kind == PingJetson ==>
              !InShutdown(s)
    ensures s.pending.kind != NoAction ==> s.pending.id == s.nextId
  {
  }

  lemma PendingPhase(s: State, act: Active, served: bool, lapsed: bool, watch: Watch, now: nat)
    requires Phased(s, act, served, lapsed, watch, now)
    ensures Sound(s) && (served ==> InShutdown(s)) && act.id <= s.nextId
    ensures act.id == s.nextId && (s.pending.kind == RequestJetsonShutdown || s.pending.kind == CutPower) ==> served
    ensures s.phase == ShutdownWait && served ==> act.id == s.nextId
    ensures s.pending.kind == CutPower && act.id == s.nextId ==> act.at == Ticks(watch.cutT) && watch.cutT <= now
    ensures s.pending.kind == CutPower <==> s.phase == PowerOff
    ensures s.pending.kind == RequestJetsonShutdown ==> s.phase == ShutdownWait
    ensures s.pending.kind == PrepareCharging || s.pending.kind == EnableCharging || s.pending.kind == EnableJetson
            ==> !InShutdown(s) && s.phase != Phase.Running
    ensures s.pending.kind == StopCharging || s.pending.kind == ArmBackup || s.pending.kind == PingJetson ==>
              !InShutdown(s)
    ensures s.pending.kind != NoAction ==> s.pending.id == s.nextId
  {
    PendingInShutdown(s);
    PowerOffCuts(s);
  }

  lemma PowerOffCuts(s: State)
    requires Sound(s)
    ensures s.pending.kind == CutPower ==> s.phase == PowerOff
    ensures s.pending.kind == RequestJetsonShutdown ==> s.phase == ShutdownWait
  {
  }

  lemma RebootRefused(s: State, now: uint32)
    requires !RebootAccepted(s)
    ensures RequestReboot(s, now) == s
  {
  }

  /** The backup is released no earlier than 60 s after shutdown began and, with
      loops at most `gap` apart, before 60.75 s and four gaps have passed. */
  predicate InTime(w: Watch, gap: nat) {
    && w.shutT + 60000 <= w.releasedT
    && (w.paced ==> w.releasedT < w.shutT + 60750 + 4 * gap)
  }

  /** A loop has ended by when, with loops at most `gap` apart, the backup must be released. */
  predicate OutOfTime(w: Watch, gap: nat) {
    w.shutT + 60750 + 3 * gap <= w.lastT
  }

  /** With loops at most `gap` apart, the wait, the cut and the release each end in time. */
  ghost predicate Timely(s: State, released: bool, w: Watch, gap: nat) {
    && gap < WRAP / 16
    && (released ==> s.phase == PowerOff && InTime(w, gap))
    && (w.paced ==>
          && (s.phase == ShutdownWait ==> w.lastT < w.shutT + SHUTDOWN_MS + gap)
          && (s.phase == PowerOff ==> w.cutT < w.shutT + SHUTDOWN_MS + 2 * gap)
          && (s.phase == PowerOff && !released ==> w.lastT < w.cutT + FINAL_CLEANUP_MS + gap))
  }

  function Ended(w: Watch, gap: nat, at: nat): Watch {
    w.(paced := w.paced && at <= w.lastT + gap, lastT := at)
  }

  /** What the time bounds need of one loop's decision, ticking at tickT, dispatching
      at nowT and done at `at`. */
  predicate Steps(s: State, t: State, w: Watch, w': Watch, released: bool, tickT: nat, nowT: nat, at: nat) {
    && w' == w.(shutT := w'.shutT, firstT := w'.firstT, cutT := w'.cutT, releasedT := w'.releasedT)
    && (InShutdown(s) ==> InShutdown(t) && w'.shutT == w.shutT)
    && (t.phase == ShutdownWait ==>
          && w'.shutT <= tickT && t.at.shutdown == Ticks(w'.shutT) && Elapsed(Ticks(tickT), t.at.shutdown) < SHUTDOWN_MS
          && (s.phase != ShutdownWait ==> w'.shutT == tickT))
    && (t.phase == PowerOff ==> InShutdown(s) && w'.cutT == if s.phase == PowerOff then w.cutT else nowT)
    && (t.phase == PowerOff && !released ==>
          w'.cutT <= nowT && Elapsed(Ticks(nowT), Ticks(w'.cutT)) < FINAL_CLEANUP_MS)
    && (released ==> t.phase == PowerOff && w'.shutT + SHUTDOWN_MS <= w'.releasedT <= at)
  }

  /** One loop from the end of the last one (w.lastT) to `at`. */
  lemma TimelyStep(s: State, t: State, released: bool, w: Watch, w': Watch, gap: nat, tickT: nat, nowT: nat,
                   decidedT: nat, at: nat)
    requires Timely(s, false, w, gap) && w.lastT <= tickT <= nowT <= decidedT <= at
    requires Steps(s, t, w, w', released, tickT, nowT, decidedT)
    ensures Timely(t, released, Ended(w', gap, at), gap)
  {
    if at <= w.lastT + gap && w.paced {
      if t.phase == ShutdownWait {
        ElapsedBounds(tickT, w'.shutT);
      }
      if t.phase == PowerOff && !released {
        ElapsedBounds(nowT, w'.cutT);
      }
    }
  }

  /** A running board has no shutdown, and of the actions that wait for their
      operation at most StopCharging. */
  lemma LaunchPhase(s: State, act: Active, served: bool, lapsed: bool, watch: Watch, now: nat)
    requires Phased(s, act, served, lapsed, watch, now) && s.phase == Phase.Running
    ensures !served && s.pending.kind != EnableCharging && s.pending.kind != EnableJetson
  {
    PendingPhase(s, act, served, lapsed, watch, now);
  }

  lemma EndedPhased(s: State, act: Active, served: bool, lapsed: bool, w: Watch, gap: nat, now: nat)
    requires Phased(s, act, served, lapsed, w, now)
    ensures Phased(s, act, served, lapsed, Ended(w, gap, now), now)
  {
    hide Sound;
  }

  /** The actions that are one hardware operation each. */
  predicate OneOperation(kind: Action) { kind == EnableCharging || kind == StopCharging || kind == EnableJetson }

  // ---- What the loop reads ----

  /** What the host said since the last tick. */
  datatype Heard = Heard(ack: bool, ready: bool, pong: bool)

  predicate MainIn(s: Snapshot, now: uint32) {
    s.internalValid && Elapsed(now, s.internalAt) <= FRESH && s.mainSelected && (s.usbPg || s.dcPg)
  }

  /** Exactly one good input, and a budget for it: negotiated over USB or configured for DC. */
  predicate BudgetIn(s: Snapshot, now: uint32, negotiated: bool, configured: bool) {
    MainIn(s, now) && if s.usbPg && !s.dcPg then negotiated else s.dcPg && !s.usbPg && configured
  }

  /** The controls must read as charging from the first sample taken after CE was enabled. */
  predicate ChargeFault(s: Snapshot, clean: Cleanup, budget: bool) {
    || !s.internalValid || !s.boostPg || !s.chargerPg || !TsInWindow(s.tsMv)
    || (clean.chargeExpected && !budget)
    || (clean.chargeExpected && Elapsed(s.internalAt, clean.chargeEnabledAt) < WRAP / 2 && !s.charging)
  }

  /** What the policy is told, each part as of the moment it was evaluated. */
  function Seen(c: Scene, pd: Delivery, heard: Heard, statusAt: uint32, mainAt: uint32, budgetAt: uint32): Inputs {
    var s := c.board.snapshot;
    Inputs((!s.mainSelected || s.internalValid) && Elapsed(statusAt, s.atMs) <= FRESH, MainIn(s, mainAt),
           Volts(s.vcap), s.boostPg, ChargeFault(s, c.clean, BudgetIn(s, budgetAt, pd.healthy, c.dcBudget)),
           heard.ack, heard.ready, heard.pong)
  }

  /** A low mux pin shows the loss of main even when the expander cannot be read;
      present main takes a fresh good reading. */
  lemma LowMuxShowsLoss(c: Scene, pd: Delivery, heard: Heard, statusAt: uint32, mainAt: uint32, budgetAt: uint32)
    ensures var s, input := c.board.snapshot, Seen(c, pd, heard, statusAt, mainAt, budgetAt);
            && (!s.mainSelected && Elapsed(statusAt, s.atMs) <= FRESH ==> input.statusValid && !input.mainPresent)
            && (input.statusValid && !s.internalValid ==> !input.mainPresent)
            && (input.mainPresent ==> Elapsed(mainAt, s.internalAt) <= FRESH && (s.usbPg || s.dcPg))
  {
  }

  // ---- What a dispatch does ----

  function Noted(clean: Cleanup, kind: Action, ok: bool, now: uint32): Cleanup {
    if ok && kind == EnableCharging then clean.(chargeExpected := true, chargeEnabledAt := now)
    else if ok && kind == StopCharging then clean.(chargeExpected := false) else clean
  }

  /** The policy is told the result of the action being executed. */
  function Done(c: Scene, ok: bool, now: uint32): Scene {
    c.(s := Complete(c.s, c.act.id, ok), clean := Noted(c.clean, c.s.pending.kind, ok, now))
  }

  /** A first dispatch takes the action up under its id. */
  function TakenUp(act: Active, p: Pending, now: uint32): Active {
    if p.id != act.id then Active(p.id, now, 0) else act
  }

  function NextPing(ping: Ping, now: uint32): Ping { Ping(NextId(ping.id), now) }

  /** A ping that is due is sent. */
  function Pinged(c: Scene, silent: bool, now: uint32): Scene {
    if c.s.boot.jetsonEnabled && !silent && Elapsed(now, c.ping.at) >= 2000 then c.(ping := NextPing(c.ping, now))
    else c
  }

  predicate Begins(c: Scene, b: Scene, op: Operation, now: uint32) {
    if Startable(c.board, op) then Launched(c.board, b.board, op) && b == c.(board := b.board)
    else b == Done(c, false, now)
  }

  /** Reconciliation, then a budget, then preparation. */
  predicate Prepares(c: Scene, b: Scene, first: bool, pd: Delivery, now: uint32) {
    var s := c.board.snapshot;
    if first then Begins(c, b, Reconcile, now)
    else if c.act.stage == 0 && !Busy(c.board) then
      var d := c.(dcBudget := MainIn(s, now) && s.dcPg && !s.usbPg);
      if c.board.job.result != Succeeded then b == Done(c, false, now)
      else if d.dcBudget then Begins(d.(act := d.act.(stage := 2)), b, PrepareCharge, now)
      else if MainIn(s, now) && s.usbPg && pd.polls then b == d.(act := d.act.(stage := 1))
      else b == Done(d, false, now)
    else if c.act.stage == 1 then
      if pd.result == Succeeded && BudgetIn(s, now, pd.budget, c.dcBudget) then
        Begins(c.(act := c.act.(stage := 2)), b, PrepareCharge, now)
      else b == if pd.result == Succeeded || pd.result == Failed then Done(c, false, now) else c
    else b == if c.act.stage == 2 && !Busy(c.board) then Done(c, c.board.job.result == Succeeded, now) else c
  }

  /** Actions that are one hardware operation each. */
  predicate Operates(c: Scene, b: Scene, first: bool, pd: Delivery, now: uint32) {
    var kind := c.s.pending.kind;
    if !first then b == if Busy(c.board) then c else Done(c, c.board.job.result == Succeeded, now)
    else if kind == StopCharging then Begins(c.(ext := c.ext.(request := 0)), b, DisableCharging, now)
    else if !BudgetIn(c.board.snapshot, now, pd.budget, c.dcBudget) then b == Done(c, false, now)
    else if kind == EnableCharging then Begins(c, b, EnableCharge, now)
    else if Startable(c.board, PortChange) then
      && Launched(c.board, b.board, PortChange) && b.board.job.port == VbusSs && b.board.job.portEnabled
      && b == c.(board := b.board)
    else b == Done(c, false, now)
  }

  /** The first step of such an action: whether its operation started. */
  predicate Opens(c: Scene, b: Scene, ok: bool, kind: Action, pd: Delivery, now: uint32) {
    var e := if kind == StopCharging then Unasked(c) else c;
    var op := if kind == StopCharging then DisableCharging else if kind == EnableCharging then EnableCharge
              else PortChange;
    && ok == ((kind != StopCharging ==> BudgetIn(c.board.snapshot, now, pd.budget, c.dcBudget))
              && Startable(c.board, op))
    && if ok then
         && Launched(c.board, b.board, op) && b == e.(board := b.board)
         && (kind == EnableJetson ==> b.board.job.port == VbusSs && b.board.job.portEnabled)
       else b == e
  }

  lemma Opened(c: Scene, m: Scene, b: Scene, ok: bool, kind: Action, pd: Delivery, now: uint32)
    requires Opens(c, m, ok, kind, pd, now) && b == (if ok then m else Done(m, false, now))
    requires OneOperation(kind) && kind == c.s.pending.kind
    ensures Operates(c, b, true, pd, now)
  {
    hide Done, BudgetIn;
  }

  /** Backup is armed at the first dispatch and then has two seconds to come up. */
  predicate Arms(c: Scene, b: Scene, first: bool, now: uint32) {
    var d := if first then c.(board := c.board.(backup := true)) else c;
    if first && !BackupGranted(c.board, true, now) then b == Done(c, false, now)
    else if c.board.snapshot.internalValid && c.board.snapshot.backupPg then b == Done(d, true, now)
    else b == if Elapsed(now, c.act.at) >= 2000 then Done(d, false, now) else d
  }

  /** An operation that preempts whatever a monitored board does. */
  predicate Preempts(c: Scene, b: Scene, op: Operation) {
    if c.board.monitoring then Launched(c.board, b.board, op) && b == c.(board := b.board) else b == c
  }

  function Unasked(c: Scene): Scene { c.(ext := c.ext.(request := 0)) }

  /** Shutdown is taken up: a port request is refused, charging is taken down, and the
      clean-up begins. */
  predicate TakesUp(c: Scene, b: Scene, first: bool, now: uint32) {
    if first then
      && b.s == Complete(c.s, c.act.id, true)
      && Preempts(Unasked(c).(clean := c.clean.(stage := 1)), b.(s := c.s), DisableCharging)
    else b == Done(c, true, now)
  }

  /** Power is cut: the registers go back to their defaults, and when that is over, or
      750 ms have passed, the backup is released. */
  predicate Cuts(c: Scene, b: Scene, first: bool, now: uint32) {
    var u := b.(released := c.released, board := b.board.(backup := c.board.backup));
    && (if first then Preempts(Unasked(c), u, RestorePor) else u == c)
    && b.released == (!Busy(b.board) || Elapsed(now, c.act.at) >= 750)
    && b.board.backup == (c.board.backup && !b.released)
  }

  /** One dispatch, at one instant. */
  predicate Dispatched(a: Scene, b: Scene, pd: Delivery, now: uint32) {
    var p := a.s.pending;
    var first, c := p.id != a.act.id, a.(act := TakenUp(a.act, p, now));
    match p.kind
    case NoAction => b == if a.ext.request != 0 && !Busy(a.board) then a.(ext := a.ext.(request := 0)) else a
    case PrepareCharging => Prepares(c, b, first, pd, now)
    case EnableCharging | StopCharging | EnableJetson => Operates(c, b, first, pd, now)
    case PingJetson => b == Done(c.(ping := NextPing(c.ping, now)), true, now)
    case ArmBackup => Arms(c, b, first, now)
    case RequestJetsonShutdown => TakesUp(c, b, first, now)
    case CutPower => Cuts(c, b, first, now)
  }

  function Polled(v: View, polled: Option<Snapshot>): View {
    if polled.Some? then v.(snapshot := polled.value) else v
  }

  /** When the parts of one tick's input were evaluated, and the tick itself. */
  datatype Moments = Moments(statusT: nat, mainT: nat, budgetT: nat, tickT: nat)

  /** The policy after a poll and one tick on what was seen at those moments. */
  function TickedAt(a: Scene, polled: Option<Snapshot>, pd: Delivery, heard: Heard, m: Moments): State {
    var p := a.(board := Polled(a.board, polled));
    Tick(p.s, Ticks(m.tickT), Seen(p, pd, heard, Ticks(m.statusT), Ticks(m.mainT), Ticks(m.budgetT)))
  }

  /** A loop ticks the policy once; otherwise it only reports results to it. */
  predicate TickedOnce(a: Scene, t: State, polled: Option<Snapshot>, pd: Delivery, heard: Heard, m: Moments) {
    m.statusT <= m.mainT <= m.budgetT <= m.tickT && t == TickedAt(a, polled, pd, heard, m).(outcome := t.outcome)
  }

  /** Poll and tick, at one instant. */
  function Ticked(a: Scene, polled: Option<Snapshot>, pd: Delivery, heard: Heard, now: uint32): Scene {
    var p := a.(board := Polled(a.board, polled));
    p.(s := Tick(p.s, now, Seen(p, pd, heard, now, now, now)))
  }

  /** Poll, tick and dispatch, at one instant. */
  predicate Decided(a: Scene, m: Scene, polled: Option<Snapshot>, pd: Delivery, heard: Heard, now: uint32) {
    Dispatched(Ticked(a, polled, pd, heard, now), m, pd, now)
  }

  /** One output goes off, if the board is monitored; the clean-up goes on anyway. */
  predicate SwitchesOff(c: Scene, b: Scene, port: Port) {
    var d := c.(clean := c.clean.(stage := c.clean.stage + 1));
    if c.board.monitoring then
      && Launched(c.board, b.board, PortChange) && b.board.job.port == port && !b.board.job.portEnabled
      && b == d.(board := b.board)
    else b == d
  }

  /** One step of the clean-up: charging is down, the unbacked outputs go one after
      the other if main was lost, and that is all. */
  predicate StepsOn(c: Scene, b: Scene) {
    match c.clean.stage
    case 1 =>
      b == c.(clean := c.clean.(stage := 2,
                                chargeExpected := c.clean.chargeExpected && c.board.job.result != Succeeded))
    case 2 => if c.clean.shed then SwitchesOff(c, b, Vbus) else b == c
    case 3 => SwitchesOff(c, b, FiveVoltVbus)
    case 4 => b == c.(clean := c.clean.(stage := 5))
    case _ => b == c
  }

  /** The clean-up's part of a loop: in the shutdown's wait, while the board runs nothing. */
  predicate CleansUp(c: Scene, b: Scene, lost: bool) {
    if c.s.phase != ShutdownWait then b == c
    else
      var d := c.(clean := c.clean.(shed := c.clean.shed || lost));
      if Busy(d.board) then b == d else StepsOn(d, b)
  }

  /** One hardware stage, then the clean-up. */
  ghost predicate Worked(m: Scene, b: Scene, lost: bool, now: uint32) {
    exists w: View :: Calm(m.board, w, now) && CleansUp(m.(board := w), b, lost)
  }

  /** Before a shutdown is taken up the clean-up does nothing. */
  lemma WorkedEarly(m: Scene, b: Scene, lost: bool, now: uint32)
    requires Worked(m, b, lost, now) && (m.s.phase == ShutdownWait ==> m.clean.stage == 0)
    ensures Calm(m.board, b.board, now)
    ensures b == m.(board := b.board,
                    clean := if m.s.phase == ShutdownWait then m.clean.(shed := b.clean.shed) else m.clean)
  {
    hide Calm;
    var w: View :| Calm(m.board, w, now) && CleansUp(m.(board := w), b, lost);
  }

  /** The loss of main, as the loop sees it at one instant. */
  predicate LossSeen(a: Scene, polled: Option<Snapshot>, pd: Delivery, heard: Heard, now: uint32) {
    var input := Seen(a.(board := Polled(a.board, polled)), pd, heard, now, now, now);
    input.statusValid && !input.mainPresent
  }

  /** One loop on a benign bus, at one instant. */
  ghost predicate Looped(a: Scene, m: Scene, b: Scene, polled: Option<Snapshot>, pd: Delivery, heard: Heard,
                         now: uint32)
  {
    && Decided(a, m, polled, pd, heard, now)
    && if m.released then b == m else Worked(m, b, LossSeen(a, polled, pd, heard, now), now)
  }

  /** A loop that ends with nothing for the clean-up to do. */
  lemma LoopedEarly(a: Scene, m: Scene, b: Scene, polled: Option<Snapshot>, pd: Delivery, heard: Heard, now: uint32)
    requires Looped(a, m, b, polled, pd, heard, now) && !m.released
    requires m.s.phase == ShutdownWait ==> m.clean.stage == 0
    ensures Calm(m.board, b.board, now)
    ensures b == m.(board := b.board,
                    clean := if m.s.phase == ShutdownWait then m.clean.(shed := b.clean.shed) else m.clean)
  {
    hide Calm, Decided, Worked;
    WorkedEarly(m, b, LossSeen(a, polled, pd, heard, now), now);
  }

  /** The dispatch of a shutdown's own actions. */
  lemma ShutdownDispatched(a: Scene, b: Scene, pd: Delivery, now: uint32)
    requires a.s.pending.kind == RequestJetsonShutdown || a.s.pending.kind == CutPower
    requires var p := a.s.pending;
             var c := a.(act := TakenUp(a.act, p, now));
             if p.kind == CutPower then Cuts(c, b, p.id != a.act.id, now) else TakesUp(c, b, p.id != a.act.id, now)
    ensures Dispatched(a, b, pd, now)
  {
    hide Cuts, TakesUp;
  }

  /** They start no port operation and make no claim about the registers. */
  lemma OutputsAside(kind: Action, before: Job, after: Job, bank: Bank)
    requires kind == RequestJetsonShutdown || kind == CutPower
    ensures after == before || after.operation != PortChange ==> JetsonOnly(before, after, kind)
    ensures forall lent :: Justified(kind, lent, bank)
  {
  }

  // ---- What may still be driven in a shutdown ----

  /** The driven set has only shrunk since shutdown was taken up, and since it began
      unless its first tick came late to an operation that could still raise an enable. */
  ghost predicate Guards(onset: Option<Onset>, entry: Option<Bank>, lapsed: bool, shutdown: bool, bank: Bank,
                         raising: bool)
  {
    && (onset.Some? <==> shutdown)
    && (entry.Some? ==> shutdown && Shrinks(entry.value, bank) && !raising)
    && (onset.Some? && !(lapsed && onset.value.armed) ==> Shrinks(onset.value.bank, bank))
    && (onset.Some? && lapsed && !onset.value.armed ==> !raising)
    && (onset.Some? && entry.None? && !lapsed ==> onset.value == Onset(bank, raising))
  }

  /** One hardware stage. */
  lemma GuardsServiced(onset: Option<Onset>, entry: Option<Bank>, lapsed: bool, shutdown: bool,
                       bank: Bank, raising: bool, bank': Bank, raising': bool)
    requires Guards(onset, entry, lapsed, shutdown, bank, raising) && (shutdown ==> entry.Some? || lapsed)
    requires !raising ==> Shrinks(bank, bank') && !raising'
    ensures Guards(onset, entry, lapsed, shutdown, bank', raising')
  {
    hide Shrinks;
    if entry.Some? {
      ShrinksTransitive(entry.value, bank, bank');
    }
    if onset.Some? && !raising && Shrinks(onset.value.bank, bank) {
      ShrinksTransitive(onset.value.bank, bank, bank');
    }
  }

  /** A tick or a reboot request: shutdown may begin, and its request may lapse. */
  lemma GuardsTicked(onset: Option<Onset>, entry: Option<Bank>, lapsed: bool, lapsed': bool, was: bool, shutdown: bool,
                     bank: Bank, raising: bool)
    requires Guards(onset, entry, lapsed, was, bank, raising) && (was ==> shutdown) && (lapsed ==> lapsed')
    requires lapsed' && !lapsed ==> was && entry.None?
    ensures Guards(if shutdown && !was then Some(Onset(bank, raising)) else onset, entry, lapsed', shutdown, bank,
                   raising)
    ensures entry.Some? ==> was
  {
    hide Shrinks;
    ShrinksReflexive(bank);
  }

  /** Shutdown is taken up, and nothing that raises an enable is left running. */
  lemma GuardsTaken(onset: Option<Onset>, entry: Option<Bank>, lapsed: bool, bank: Bank, raising: bool)
    requires Guards(onset, entry, lapsed, true, bank, raising)
    ensures Guards(onset, if entry.None? then Some(bank) else entry, lapsed, true, bank, false)
    ensures entry.Some? ==> !raising
  {
    hide Shrinks;
    ShrinksReflexive(bank);
  }

  /** In a shutdown that was taken up, only operations that raise nothing start. */
  lemma GuardsQuiet(onset: Option<Onset>, entry: Option<Bank>, lapsed: bool, bank: Bank, raising: bool)
    requires Guards(onset, entry, lapsed, true, bank, false) && entry.Some? && !raising
    ensures Guards(onset, entry, lapsed, true, bank, raising)
  {
  }

  /** Before shutdown anything may start. */
  lemma GuardsBefore(onset: Option<Onset>, entry: Option<Bank>, lapsed: bool, bank: Bank, raising: bool, raising': bool)
    requires Guards(onset, entry, lapsed, false, bank, raising)
    ensures Guards(onset, entry, lapsed, false, bank, raising')
  {
  }

  /** A dispatch starts a port operation only to enable the Jetson's. */
  predicate JetsonOnly(before: Job, after: Job, kind: Action) {
    after != before && after.operation == PortChange ==>
      kind == EnableJetson && after.port == VbusSs && after.portEnabled
  }

  /** After the dispatch an operation only goes on, unless the clean-up of a shutdown
      that lost main takes an unbacked output away. */
  predicate CleansOnly(m: Job, b: Job, shed: bool, waiting: bool) {
    || (b.operation == m.operation && b.port == m.port && b.portEnabled == m.portEnabled)
    || (b.operation == PortChange && (b.port == Vbus || b.port == FiveVoltVbus) && !b.portEnabled && shed && waiting)
  }

  /** How a loop may start a port operation: by the dispatch or by the clean-up. */
  predicate PortMoves(a: Scene, m: Scene, b: Scene) {
    && JetsonOnly(a.board.job, m.board.job, m.s.pending.kind)
    && CleansOnly(m.board.job, b.board.job, b.clean.shed, b.s.phase == ShutdownWait)
  }

  /** What one loop does to the outputs and to the clean-up: unbacked outputs are due
      to go once it heard in the shutdown's wait that main is lost; until then a
      shutdown that was taken up leaves every output alone. */
  predicate Tidied(a: Scene, m: Scene, b: Scene, lost: bool) {
    && PortMoves(a, m, b) && a.clean.stage <= b.clean.stage
    && b.clean.shed == (a.clean.shed || (lost && b.s.phase == ShutdownWait))
    && (a.clean.stage > 0 && b.s.phase == ShutdownWait && !b.clean.shed ==>
          b.board.bank.external == a.board.bank.external)
  }

  /** Until main is lost, a shutdown that was taken up leaves every output as it found it. */
  ghost predicate Spares(onset: Option<Onset>, entry: Option<Bank>, lapsed: bool, waiting: bool, clean: Cleanup,
                         bank: Bank, job: Job)
  {
    && (clean.stage > 0 ==> entry.Some?) && (clean.stage >= 3 ==> clean.shed)
    && (entry.Some? && !lapsed ==> onset.Some? && entry.value == onset.value.bank)
    && (entry.Some? && waiting && !clean.shed ==>
          (job.result == Result.Running ==> job.operation == DisableCharging) && bank.external == entry.value.external)
  }

  /** A tick or a reboot request. */
  lemma SparesTicked(onset: Option<Onset>, onset': Option<Onset>, entry: Option<Bank>, lapsed: bool, lapsed': bool,
                     waiting: bool, waiting': bool, clean: Cleanup, bank: Bank, job: Job)
    requires Spares(onset, entry, lapsed, waiting, clean, bank, job)
    requires entry.Some? ==> onset' == onset && lapsed' == lapsed && (waiting' ==> waiting)
    ensures Spares(onset', entry, lapsed', waiting', clean, bank, job)
  {
  }

  /** Shutdown is taken up: charging is being taken down, and nothing else runs. */
  lemma SparesTaken(onset: Option<Onset>, entry: Option<Bank>, lapsed: bool, waiting: bool, clean: Cleanup, bank: Bank,
                    raising: bool, job: Job, clean': Cleanup, job': Job)
    requires Guards(onset, entry, lapsed, true, bank, raising)
    requires Spares(onset, entry, lapsed, waiting, clean, bank, job)
    requires clean'.shed == clean.shed && clean'.stage == (if waiting && entry.None? then 1 else clean.stage)
    requires waiting ==> if entry.None? then job'.result == Result.Running ==> job'.operation == DisableCharging
                         else job' == job
    ensures Spares(onset, if entry.None? then Some(bank) else entry, lapsed, waiting, clean', bank, job')
    ensures clean.stage <= clean'.stage
  {
    hide Shrinks;
  }

  /** One hardware stage. */
  lemma SparesServiced(onset: Option<Onset>, entry: Option<Bank>, lapsed: bool, waiting: bool, clean: Cleanup,
                       bank: Bank, job: Job, bank': Bank, job': Job)
    requires Spares(onset, entry, lapsed, waiting, clean, bank, job) && job'.operation == job.operation
    requires job.result != Result.Running ==> bank' == bank && job' == job
    requires job.operation == DisableCharging ==> bank'.external == bank.external
    ensures Spares(onset, entry, lapsed, waiting, clean, bank', job')
  {
  }

  /** One step of the clean-up. */
  lemma SparesCleaned(onset: Option<Onset>, entry: Option<Bank>, lapsed: bool, clean: Cleanup, bank: Bank, job: Job,
                      clean': Cleanup, job': Job)
    requires Spares(onset, entry, lapsed, true, clean, bank, job) && (clean'.stage > 0 ==> clean.stage > 0)
    requires clean'.stage >= 3 ==> clean'.shed
    requires clean.shed ==> clean'.shed
    requires job' == job || clean'.shed
    ensures Spares(onset, entry, lapsed, true, clean', bank, job')
  {
  }

  /** Outside shutdown there is nothing to spare. */
  lemma SparesBefore(onset: Option<Onset>, entry: Option<Bank>, lapsed: bool, clean: Cleanup, bank: Bank, job: Job,
                     clean': Cleanup, bank': Bank, job': Job, waiting: bool)
    requires Spares(onset, entry, lapsed, waiting, clean, bank, job) && entry.None? && clean'.stage == clean.stage
    ensures Spares(onset, entry, lapsed, false, clean', bank', job')
  {
  }

  /** How a loop answers a port request that it finds open: by what became of its
      operation once the board is idle and nothing else is due, and with a refusal when
      charging is taken down, a shutdown taken up or power cut. It is answered once. */
  predicate Replied(due: PortRequest, act: Active, job: Job, p: Pending, reported: seq<Report>, ext: PortRequest) {
    if due.request != 0 && (Preempting(p, act) || (p.kind == NoAction && job.result != Result.Running)) then
      && ext == due.(request := 0)
      && reported == [Report(due.request, due.port, due.enabled, p.kind == NoAction && job.result == Succeeded)]
    else reported == [] && ext == due
  }

  /** What one loop reports: to the host, and to the policy it has just ticked. */
  ghost predicate Tells(a: Scene, t: State, polled: Option<Snapshot>, pd: Delivery, heard: Heard, m: Moments,
                        reported: seq<Report>, ext: PortRequest)
  {
    && Replied(a.ext, a.act, a.board.job, t.pending, reported, ext)
    && (reported != [] ==> BorneOut(reported[0], a.board.bank))
    && (TickedAt(a, polled, pd, heard, m).outcome == Unreported && t.outcome == Reported(true) ==>
          Justified(t.pending.kind, a.ext.request != 0, a.board.bank))
  }

  /** The first dispatch of an action that preempts every operation. */
  predicate Preempting(p: Pending, act: Active) {
    p.id != act.id && (p.kind == StopCharging || p.kind == RequestJetsonShutdown || p.kind == CutPower)
  }

  /** The registers bear a reported success out. */
  predicate BorneOut(r: Report, bank: Bank) {
    r.ok ==> if r.enabled then OutputOn(bank, r.port) else !Latched(bank, r.port)
  }

  /** The same for the result of an action: the charger is on, the Jetson's port is
      on, charging is off. `lent` when a port's result stands in for that of the stop. */
  predicate Justified(kind: Action, lent: bool, bank: Bank) {
    match kind
    case EnableCharging => CeOn(bank)
    case EnableJetson => OutputOn(bank, VbusSs)
    case StopCharging => lent || bank.internal.out1.Misses(CE.Or(BOOST))
    case _ => true
  }

  /** The policy was told that main is lost. */
  predicate Lost(a: Scene, polled: Option<Snapshot>, pd: Delivery, heard: Heard, m: Moments) {
    var input := Seen(a.(board := Polled(a.board, polled)), pd, heard, Ticks(m.statusT), Ticks(m.mainT),
                      Ticks(m.budgetT));
    input.statusValid && !input.mainPresent
  }

  class Loop {
    const board: BoardHardware
    const manager: Manager
    var act: Active
    var clean: Cleanup
    var ext: PortRequest
    var ping: Ping
    var dcBudget: bool
    var released: bool
    ghost const gap: nat
    ghost var onset: Option<Onset>  // how shutdown began
    ghost var entry: Option<Bank>   // the registers when it was taken up
    ghost var lapsed: bool          // its request expired unserved
    ghost var watch: Watch
    ghost var reports: seq<Report>

    ghost function Look(): Scene
      reads this, manager, board, board.bus
    {
      Scene(manager.s, act, clean, ext, ping, dcBudget, released, board.Look())
    }

    lemma ActionShown()
      ensures Look().act == act && Look().ext == ext && Look().s == manager.s && Look().board == board.Look()
    {
      hide BoardHardware.Look;
    }

    lemma Shown()
      ensures Look().released == released && Look().s == manager.s && Look().board.bank == board.bus.bank
      ensures Look().clean == clean && Look().board.job == board.job
    {
    }

    // ---- Invariant ----

    ghost predicate Guarded()
      reads this, manager, board, board.bus
    {
      Guards(onset, entry, lapsed, InShutdown(manager.s), board.bus.bank, board.RaiseAhead())
    }

    /** When the present shutdown saw its first tick, if this is one at tickT. */
    ghost function FirstTick(tickT: nat): Option<nat>
      reads this, manager
    {
      if InShutdown(manager.s) && watch.firstT.Some? then watch.firstT else Some(tickT)
    }

    /** A port request waits for exactly the operation it started. */
    ghost predicate ExternalOk()
      reads this, manager, board
    {
      ext.request != 0 ==>
        && entry.None? && (manager.s.phase == Phase.Running || InShutdown(manager.s))
        && board.job.operation == PortChange && board.job.port == ext.port && board.job.portEnabled == ext.enabled
    }

    /** The board is still at the operation of the action that waits for its result,
        so that this result is the one reported. The one exception: a port request
        accepted while StopCharging is pending lends it the port's result. */
    ghost predicate OwnOperation()
      reads this, manager, board
    {
      var s := manager.s;
      act.id == s.nextId && OneOperation(s.pending.kind) && s.outcome == Unreported ==>
        || (s.pending.kind == StopCharging && ext.request != 0)
        || (board.job.operation == OperationOf(s.pending.kind)
            && (s.pending.kind == EnableJetson ==> board.job.port == VbusSs && board.job.portEnabled))
    }

    /** While the policy expects the charger on, so does the loop, and watches it. */
    ghost predicate Watching()
      reads this, manager
    {
      Expects(manager.s) ==> clean.chargeExpected
    }

    ghost predicate Sparing()
      reads this, manager, board, board.bus
    {
      Spares(onset, entry, lapsed, manager.s.phase == ShutdownWait, clean, board.bus.bank, board.job)
    }

    ghost predicate Timed()
      reads this, manager, board.bus
    {
      Phased(manager.s, act, entry.Some?, lapsed, watch, board.bus.now)
    }

    /** Holds at any point of the loop. */
    ghost predicate Base()
      reads this, manager, board, board.bus
    {
      && board.Valid() && Guarded() && ExternalOk() && OwnOperation() && Timed() && Sparing() && Watching()
      && (released ==> manager.s.phase == PowerOff && act.id == manager.s.nextId && !board.backupPin)
    }

    /** Holds once the pending action was taken up. */
    ghost predicate Settled()
      reads this, manager, board, board.bus
    {
      && Base() && (manager.s.phase == PowerOff ==> act.id == manager.s.nextId)
      && (InShutdown(manager.s) && watch.firstT.Some? ==> !Unserved(manager.s, act.id))
    }

    /** Holds between loops. */
    ghost predicate Valid()
      reads this, manager, board, board.bus
    {
      Settled() && Timely(manager.s, released, watch, gap) && watch.lastT <= board.bus.now
    }

    constructor (board: BoardHardware, gap: nat)
      requires board.Valid() && board.job.result == Result.Idle && !board.backupPin && gap < WRAP / 16
      ensures Valid() && this.board == board && this.gap == gap && fresh(manager)
      ensures reports == [] && onset == None && watch == Watch(0, None, 0, 0, board.bus.now, true)
      ensures Look() == Scene(Begin(0, 0), Active(0, 0, 0), Cleanup(0, false, false, 0), PortRequest(0, Vbus, false),
                              Ping(0, 0), false, false, board.Look())
    {
      this.board, this.gap := board, gap;
      manager := new Manager();
      act, clean, ext := Active(0, 0, 0), Cleanup(0, false, false, 0), PortRequest(0, Vbus, false);
      ping, dcBudget, released := Ping(0, 0), false, false;
      onset, entry, lapsed, reports := None, None, false, [];
      watch := Watch(0, None, 0, 0, board.bus.now, true);
      new;
      manager.Start(0);
      BeginSound(0);
      Unexpecting(manager.s);
    }

    static lemma Unexpecting(s: State)
      ensures s == Begin(0, 0) ==> !Expects(s)
    {
    }

    // ---- The tick ----

    method TickManager(input: Inputs)
      requires Settled() && !released
      modifies this`watch, this`lapsed, this`onset, manager, board.bus`now
      ensures Base() && board.bus.Later() && (InShutdown(manager.s) ==> watch.firstT.Some?)
      ensures manager.s == Tick(old(manager.s), Ticks(board.bus.now), input)
      ensures lapsed == LapsedBy(old(manager.s), act.id, old(lapsed), Ticks(board.bus.now))
      ensures watch == TickAt(old(manager.s), manager.s, old(watch), board.bus.now)
      ensures onset == if Enters(old(manager.s), manager.s) then Some(Onset(board.bus.bank, board.RaiseAhead()))
                       else old(onset)
      ensures InShutdown(manager.s) && !old(InShutdown(manager.s)) ==>
                input.statusValid && !input.mainPresent && Unserved(manager.s, act.id)
      ensures old(Unserved(manager.s, act.id)) ==>
                entry.None? && if TooLate(old(manager.s), Ticks(board.bus.now)) then manager.s.pending == IDLE
                               else manager.s.pending.kind in {RequestJetsonShutdown, CutPower}
      ensures old(InShutdown(manager.s)) ==> InShutdown(manager.s) && watch.shutT == old(watch).shutT
      ensures lapsed && entry.None? ==> manager.s.pending.kind in {NoAction, CutPower}
      ensures manager.s.phase == PowerOff ==> old(InShutdown(manager.s))
      ensures old(manager.s.phase) == PowerOff ==> manager.s.phase == PowerOff
      ensures InShutdown(manager.s) ==> manager.s.at.shutdown == Ticks(watch.shutT) && watch.shutT <= board.bus.now
      ensures manager.s.phase == PowerOff ==>
                watch.shutT + SHUTDOWN_MS <= board.bus.now
                && (act.id == manager.s.nextId <==> old(manager.s.phase) == PowerOff)
      ensures manager.s.phase == ShutdownWait ==> Elapsed(Ticks(board.bus.now), manager.s.at.shutdown) < SHUTDOWN_MS
    {
      hide BoardHardware.Valid, Phased, Tick, Guards, Spares, Expects;
      TickWatched(input);
      var at := board.Millis();
      TickPhased(manager.s, act, entry.Some?, lapsed, watch, old(board.bus.now), board.bus.now, input);
      lapsed := LapsedBy(manager.s, act.id, lapsed, at);
      ghost var before := manager.s;
      manager.OnTick(at, input);
      watch := TickAt(before, manager.s, watch, board.bus.now);
      GuardsTicked(onset, entry, old(lapsed), lapsed, InShutdown(before), InShutdown(manager.s), board.bus.bank,
                   board.RaiseAhead());
      MarkOnset(before);
      SparesTicked(old(onset), onset, entry, old(lapsed), lapsed, before.phase == ShutdownWait,
                   manager.s.phase == ShutdownWait, clean, board.bus.bank, board.job);
    }

    lemma TickWatched(input: Inputs)
      requires Timed() && Watching()
      ensures forall at: uint32 :: Expects(Tick(manager.s, at, input)) ==> clean.chargeExpected
    {
      hide Tick, Sound, Expects, Phased;
      PendingPhase(manager.s, act, entry.Some?, lapsed, watch, board.bus.now);
      forall at: uint32
        ensures Expects(Tick(manager.s, at, input)) ==> Expects(manager.s)
      {
        TickExpects(manager.s, at, input);
      }
    }

    lemma RebootWatched()
      requires Timed() && Watching()
      ensures forall at: uint32 :: Expects(PowerPolicy.RequestReboot(manager.s, at)) ==> clean.chargeExpected
    {
      hide PowerPolicy.RequestReboot, Sound, Expects, Phased;
      PendingPhase(manager.s, act, entry.Some?, lapsed, watch, board.bus.now);
      forall at: uint32
        ensures Expects(PowerPolicy.RequestReboot(manager.s, at)) ==> Expects(manager.s)
      {
        RebootExpects(manager.s, at);
      }
    }

    /** Records how shutdown began. */
    ghost method MarkOnset(before: State)
      modifies this`onset
      ensures onset == if Enters(before, manager.s) then Some(Onset(board.bus.bank, board.RaiseAhead()))
                       else old(onset)
    {
      if Enters(before, manager.s) {
        onset := Some(Onset(board.bus.bank, board.RaiseAhead()));
      }
    }

    // ---- Dispatch of the pending action ----

    method ActionDone(ok: bool)
      requires board.Valid() && Sound(manager.s) && Watching()
      modifies manager, this`clean, board.bus`now
      ensures board.Valid() && Sound(manager.s) && Watching() && board.bus.Later() && Told(ok)
      ensures manager.s == old(manager.s).(outcome := manager.s.outcome)
      ensures clean == Noted(old(clean), old(manager.s.pending).kind, ok, Ticks(board.bus.now))
      ensures Look() == Done(old(Look()), ok, Ticks(board.bus.now))
    {
      hide Sound, BoardHardware.Valid;
      Unexpected(manager.s);
      if ok && manager.s.pending.kind == EnableCharging {
        var at := board.Millis();
        clean := clean.(chargeExpected := true, chargeEnabledAt := at);
      }
      if ok && manager.s.pending.kind == StopCharging {
        clean := clean.(chargeExpected := false);
      }
      CompleteSound(manager.s, act.id, ok);
      var taken := manager.CompleteAction(act.id, ok);
    }

    /** The policy was told the result of the action being executed. */
    twostate predicate Told(ok: bool)
      reads this, manager
    {
      manager.s == Complete(old(manager.s), act.id, ok)
    }

    /** The answer to a port request that was accepted earlier. */
    method PortResult(ok: bool)
      modifies this`ext, this`reports
      ensures ext == old(ext).(request := 0)
      ensures reports == if old(ext).request == 0 then old(reports)
                         else old(reports) + [Report(old(ext).request, ext.port, ext.enabled, ok)]
    {
      if ext.request != 0 {
        reports := reports + [Report(ext.request, ext.port, ext.enabled, ok)];
        ext := ext.(request := 0);
      }
    }

    method SendPing()
      requires board.Valid()
      modifies this`ping, board.bus`now
      ensures board.Valid() && board.bus.Later() && ping == NextPing(old(ping), Ticks(board.bus.now))
    {
      hide BoardHardware.Valid;
      var at := board.Millis();
      ping := NextPing(ping, at);
    }

    /** What taking up an action leaves alone: it starts operations, but writes nothing itself. */
    twostate predicate Acted()
      reads this, manager, board, board.bus
    {
      && board.Valid() && Sound(manager.s) && Watching() && manager.s == old(manager.s).(outcome := manager.s.outcome)
      && board.bus.bank == old(board.bus.bank) && board.bus.trace == old(board.bus.trace)
      && board.bus.Later()
      && act == old(act).(stage := act.stage)
      && clean == old(clean).(chargeExpected := clean.chargeExpected, chargeEnabledAt := clean.chargeEnabledAt)
    }

    method SourceBudget(negotiated: bool) returns (valid: bool)
      requires board.Valid()
      modifies board.bus`now
      ensures board.Valid() && board.bus.Later()
      ensures valid == BudgetIn(board.snapshot, Ticks(board.bus.now), negotiated, dcBudget)
    {
      hide BoardHardware.Valid;
      var main := MainPresent();
      var s := board.snapshot;
      valid := main && if s.usbPg && !s.dcPg then negotiated else s.dcPg && !s.usbPg && dcBudget;
    }

    /** Reconcile, then a validated budget, then preparation: preparation starts only
        after a successful reconciliation, and only its success is reported as one. */
    method DoPrepare(first: bool, pd: Delivery)
      requires board.Valid() && Sound(manager.s) && Watching() && (first ==> act.stage == 0)
      modifies this`act, this`clean, this`dcBudget, manager, board`job, board`times, board.bus`now
      ensures Acted() && old(act).stage <= act.stage
      ensures first && board.monitoring && old(board.job).result != Result.Running ==>
                Started(Reconcile) && manager.s == old(manager.s)
      ensures old(act).stage == 0 < act.stage ==> !first && old(board.job).result == Result.Succeeded
      ensures act.stage == 2 && old(act).stage < 2 ==> Started(PrepareCharge) || Told(false)
      ensures board.job != old(board.job) ==>
                manager.s == old(manager.s)
                && if first then Started(Reconcile) else Started(PrepareCharge) && act.stage == 2 && old(act).stage < 2
      ensures old(act).stage == 2 && !first && board.job.result != Result.Running ==>
                Told(board.job.result == Result.Succeeded)
      ensures manager.s == old(manager.s) || Told(false) || (Told(true) && old(act).stage == 2)
      ensures board.bus.benign ==> Prepares(old(Look()), Look(), first, pd, Ticks(board.bus.now))
    {
      hide BoardHardware.Valid, Sound;
      if first {
        var ok := board.StartOperation(Reconcile);
        if !ok {
          ActionDone(false);
        }
      } else if act.stage == 0 && board.job.result != Result.Running {
        FindBudget(pd);
      } else if act.stage == 1 {
        var budget := SourceBudget(pd.budget);
        if pd.result == Succeeded && budget {
          StartPreparation();
        } else if pd.result == Succeeded || pd.result == Failed {
          ActionDone(false);
        }
      } else if act.stage == 2 && board.job.result != Result.Running {
        ActionDone(board.job.result == Result.Succeeded);
      }
    }

    /** After reconciliation: a DC input has its configured budget, a USB input negotiates one. */
    method FindBudget(pd: Delivery)
      requires board.Valid() && Sound(manager.s) && Watching() && act.stage == 0 && board.job.result != Result.Running
      modifies this`act, this`clean, this`dcBudget, manager, board`job, board`times, board.bus`now
      ensures Acted() && old(act).stage <= act.stage
      ensures act.stage > 0 ==> old(board.job).result == Result.Succeeded
      ensures act.stage == 2 ==> Started(PrepareCharge) || Told(false)
      ensures board.job != old(board.job) ==> manager.s == old(manager.s) && Started(PrepareCharge) && act.stage == 2
      ensures manager.s == old(manager.s) || Told(false)
      ensures board.bus.benign ==> Prepares(old(Look()), Look(), false, pd, Ticks(board.bus.now))
    {
      hide BoardHardware.Valid, Sound;
      if board.job.result != Result.Succeeded {
        ActionDone(false);
      } else {
        MeasureDc();
        if dcBudget {
          StartPreparation();
        } else {
          Negotiate(pd);
        }
      }
    }

    /** A DC input alone has the configured budget. */
    method MeasureDc()
      requires board.Valid()
      modifies this`dcBudget, board.bus`now
      ensures board.Valid() && board.bus.Later() && Look() == old(Look()).(dcBudget := dcBudget)
      ensures dcBudget == (MainIn(board.snapshot, Ticks(board.bus.now)) && board.snapshot.dcPg && !board.snapshot.usbPg)
    {
      hide BoardHardware.Valid;
      var main := MainPresent();
      dcBudget := main && board.snapshot.dcPg && !board.snapshot.usbPg;
    }

    /** A USB input starts to negotiate, if the controller can be polled. */
    method Negotiate(pd: Delivery)
      requires board.Valid() && Sound(manager.s) && Watching() && act.stage == 0
      modifies this`act, this`clean, manager, board.bus`now
      ensures Acted() && act.stage <= 1 && (manager.s == old(manager.s) || (Told(false) && act.stage == 0))
      ensures board.bus.benign ==>
                if MainIn(board.snapshot, Ticks(board.bus.now)) && board.snapshot.usbPg && pd.polls
                then Look() == old(Look()).(act := act) && act.stage == 1
                else Look() == Done(old(Look()), false, Ticks(board.bus.now))
    {
      hide BoardHardware.Valid, Sound;
      var main := MainPresent();
      if main && board.snapshot.usbPg && pd.polls {
        act := act.(stage := 1);
      } else {
        ActionDone(false);
      }
    }

    method StartPreparation()
      requires board.Valid() && Sound(manager.s) && Watching()
      modifies this`act, this`clean, manager, board`job, board`times, board.bus`now
      ensures Acted() && act.stage == 2
      ensures if Started(PrepareCharge) && board.job != old(board.job) then manager.s == old(manager.s)
              else board.job == old(board.job)
                   && (Told(false) || (Started(PrepareCharge) && manager.s == old(manager.s)))
      ensures board.bus.benign ==>
                Begins(old(Look()).(act := act), Look(), PrepareCharge, Ticks(board.bus.now))
    {
      hide BoardHardware.Valid, Sound;
      act := act.(stage := 2);
      var ok := board.StartOperation(PrepareCharge);
      if !ok {
        ActionDone(false);
      }
    }

    ghost predicate Started(op: Operation)
      reads board
    {
      board.job.result == Result.Running && board.job.operation == op
    }

    /** The operation behind an action is under way; the Jetson's port is VBUS_SS. */
    ghost predicate Begun(kind: Action)
      reads board
    {
      Started(OperationOf(kind)) && (kind == EnableJetson ==> board.job.port == VbusSs && board.job.portEnabled)
    }

    /** The operation behind an action. */
    static function OperationOf(kind: Action): Operation {
      if kind == EnableCharging then EnableCharge else if kind == StopCharging then DisableCharging else PortChange
    }

    /** Actions that are one hardware operation each: started once, and reported by
        the result found when nothing runs any more. */
    method DoOperation(first: bool, kind: Action, pd: Delivery)
      requires board.Valid() && Sound(manager.s) && Watching() && OneOperation(kind)
      requires kind == manager.s.pending.kind
      modifies this`clean, this`ext, this`reports, manager, board`job, board`times, board.bus`now
      ensures Acted() && act == old(act)
      ensures if first && kind == StopCharging then PortRefused() else PortKept()
      ensures !first ==> board.job == old(board.job)
      ensures !first && board.job.result == Result.Running ==> manager.s == old(manager.s)
      ensures !first && board.job.result != Result.Running ==> Told(board.job.result == Result.Succeeded)
      ensures first ==> (Begun(kind) && manager.s == old(manager.s)) || (board.job == old(board.job) && Told(false))
      ensures first && kind == StopCharging ==>
                if board.monitoring then Started(DisableCharging) else Told(false)
      ensures board.bus.benign ==> Operates(old(Look()), Look(), first, pd, Ticks(board.bus.now))
    {
      hide BoardHardware.Valid, Sound;
      if first {
        BeginAction(kind, pd);
      } else if board.job.result != Result.Running {
        ActionDone(board.job.result == Result.Succeeded);
      }
    }

    /** Once started, the operation runs at least until the next loop. */
    method BeginAction(kind: Action, pd: Delivery)
      requires board.Valid() && Sound(manager.s) && Watching() && OneOperation(kind)
      requires kind == manager.s.pending.kind
      modifies this`clean, this`ext, this`reports, manager, board`job, board`times, board.bus`now
      ensures Acted() && act == old(act) && if kind == StopCharging then PortRefused() else PortKept()
      ensures (Begun(kind) && manager.s == old(manager.s)) || (board.job == old(board.job) && Told(false))
      ensures kind == StopCharging ==>
                if board.monitoring then Started(DisableCharging) else Told(false)
      ensures board.bus.benign ==> Operates(old(Look()), Look(), true, pd, Ticks(board.bus.now))
    {
      hide BoardHardware.Valid, Sound, Expects, Operates, Opens, Loop.Look;
      ActionShown();
      var ok := StartAction(kind, pd);
      ghost var tried := Look();
      if !ok {
        ActionDone(false);
      }
      if board.bus.benign {
        Opened(old(Look()), tried, Look(), ok, kind, pd, Ticks(board.bus.now));
      }
    }

    method StartAction(kind: Action, pd: Delivery) returns (ok: bool)
      requires board.Valid() && OneOperation(kind)
      modifies this`ext, this`reports, board`job, board`times, board.bus`now
      ensures board.Valid() && board.bus.Later()
      ensures if kind == StopCharging then PortRefused() else PortKept()
      ensures if ok then Begun(kind) && board.job.stage == 0 else board.job == old(board.job)
      ensures kind == StopCharging ==> ok == board.monitoring
      ensures board.bus.benign ==> Opens(old(Look()), Look(), ok, kind, pd, Ticks(board.bus.now))
    {
      hide BoardHardware.Valid;
      if kind == StopCharging {
        PortResult(false);
        ok := board.StartOperation(DisableCharging);
      } else {
        ok := SourceBudget(pd.budget);
        if ok && kind == EnableCharging {
          ok := board.StartOperation(EnableCharge);
        } else if ok {
          ok := board.StartPort(VbusSs, true);
        }
      }
    }

    method DoArm(first: bool, now: uint32)
      requires board.Valid() && Sound(manager.s) && Watching()
      modifies this`clean, manager, board`backupPin, board.bus`now
      ensures Acted() && act == old(act) && (old(board.backupPin) ==> board.backupPin)
      ensures !first ==> board.backupPin == old(board.backupPin)
      ensures manager.s == old(manager.s) || Told(false)
              || (Told(true) && board.snapshot.internalValid && board.snapshot.backupPg && (first ==> board.backupPin))
      ensures Elapsed(now, act.at) >= BACKUP_TIMEOUT_MS ==> Told(false) || Told(true)
      ensures board.bus.benign && now == old(Ticks(board.bus.now)) ==> Arms(old(Look()), Look(), first, now)
    {
      hide BoardHardware.Valid, Sound;
      var ok := true;
      if first {
        ok := board.SetBackup(true);
      }
      if !ok {
        ActionDone(false);
      } else if board.snapshot.internalValid && board.snapshot.backupPg {
        ActionDone(true);
      } else if Elapsed(now, act.at) >= BACKUP_TIMEOUT_MS {
        ActionDone(false);
      }
    }

    /** A port request in progress is refused, and its operation preempted. */
    method Preempt(op: Operation)
      requires board.Valid() && op in {DisableCharging, RestorePor}
      modifies this`ext, this`reports, board`job, board`times, board.bus`now
      ensures board.Valid() && board.bus.Later() && PortRefused() && Preempts(Unasked(old(Look())), Look(), op)
      ensures !board.RaiseAhead() && (board.job == old(board.job) || Started(op))
      ensures board.job.result == Result.Running || board.monitoring ==> Started(op)
    {
      hide BoardHardware.Valid;
      Watched();
      PortResult(false);
      var ok := board.StartOperation(op);
    }

    /** No port request is open any more; one that was is reported as failed. */
    twostate predicate PortRefused()
      reads this
    {
      && ext == old(ext).(request := 0)
      && reports == if old(ext).request == 0 then old(reports)
                    else old(reports) + [Report(old(ext).request, old(ext).port, old(ext).enabled, false)]
    }

    twostate predicate PortKept()
      reads this
    {
      ext == old(ext) && reports == old(reports)
    }

    /** Shutdown is taken up: charging is taken down first, preempting anything. */
    method DoRequest(first: bool)
      requires board.Valid() && Sound(manager.s) && Watching() && manager.s.pending.kind == RequestJetsonShutdown
      modifies this`clean, this`ext, this`reports, manager, board`job, board`times, board.bus`now
      ensures board.Valid() && Sound(manager.s) && Watching()
      ensures manager.s == old(manager.s).(outcome := manager.s.outcome)
      ensures board.bus.Later()
      ensures Told(true) && (first && board.monitoring ==> Started(DisableCharging))
      ensures if first then !board.RaiseAhead() && clean.stage == 1
              else board.job == old(board.job) && clean.stage == old(clean).stage
      ensures if first then PortRefused() else PortKept()
      ensures first && board.job.result == Result.Running ==> Started(DisableCharging)
      ensures board.job == old(board.job) || Started(DisableCharging)
      ensures clean.shed == old(clean).shed
      ensures board.bus.benign ==> TakesUp(old(Look()), Look(), first, Ticks(board.bus.now))
    {
      hide BoardHardware.Valid, Sound;
      if first {
        Preempt(DisableCharging);
        clean := clean.(stage := 1);
      }
      ActionDone(true);
    }

    /** A board that is not monitored runs nothing. */
    lemma Watched()
      requires board.Valid()
      ensures board.job.result == Result.Running ==> board.monitoring
    {
      hide BoardHardware.Core, BoardHardware.StageReady;
    }

    /** Power is cut: the expanders go back to their defaults within 750 ms, then
        the backup is released once, whatever came of that. */
    method DoCut(first: bool, now: uint32)
      requires board.Valid()
      modifies this`ext, this`reports, this`released, this`watch, board`job, board`times, board`backupPin, board.bus`now
      ensures board.Valid() && board.bus.Later()
      ensures watch == old(watch).(releasedT := watch.releasedT)
      ensures released && !old(released) ==> old(board.bus.now) <= watch.releasedT <= board.bus.now
      ensures if first then !board.RaiseAhead() else board.job == old(board.job)
      ensures if first then PortRefused() else PortKept()
      ensures first && board.monitoring ==> Started(RestorePor)
      ensures board.job == old(board.job) || Started(RestorePor)
      ensures old(released) ==> released && board.backupPin == old(board.backupPin)
      ensures !old(released) ==>
                && (released <==> board.job.result != Result.Running || Elapsed(now, act.at) >= FINAL_CLEANUP_MS)
                && board.backupPin == (old(board.backupPin) && !released)
      ensures board.bus.benign && !old(released) ==> Cuts(old(Look()), Look(), first, now)
    {
      hide BoardHardware.Valid;
      if first {
        Preempt(RestorePor);
      }
      if !released && (board.job.result != Result.Running || Elapsed(now, act.at) >= FINAL_CLEANUP_MS) {
        released := true;
        watch := watch.(releasedT := board.bus.now);
        var ok := board.ReleaseBackupForShutdown();
      }
    }

    /** The port requests answered since. */
    ghost function New(before: seq<Report>): seq<Report>
      reads this
    {
      if |before| <= |reports| then reports[|before|..] else []
    }

    /** A success is reported only when the registers bear it out. */
    twostate predicate Truthful()
      reads this, manager, board.bus
    {
      old(manager.s.outcome) == Unreported && manager.s.outcome == Reported(true) ==>
        Justified(manager.s.pending.kind, old(ext).request != 0, board.bus.bank)
    }

    /** What the registers hold after the operation of an action succeeded. */
    lemma Succeeds(action: Pending, now: uint32)
      requires Performable(action, now)
      ensures action.kind in
                {PrepareCharging, EnableCharging, StopCharging, ArmBackup, EnableJetson, PingJetson}
      ensures board.job.result == Result.Succeeded && act.id == action.id && OneOperation(action.kind)
              && manager.s.outcome == Unreported ==>
                Justified(action.kind, ext.request != 0, board.bus.bank)
    {
      board.SuccessStands();
      hide BoardHardware.Valid, Sound, Guards;
    }

    static lemma RefusalsBorneOut(bank: Bank)
      ensures forall r: Report :: !r.ok ==> BorneOut(r, bank)
    {
    }

    /** And after that of a port request. */
    lemma PortSucceeds()
      requires board.Valid() && ExternalOk()
      ensures ext.request != 0 ==>
                BorneOut(Report(ext.request, ext.port, ext.enabled, board.job.result == Result.Succeeded),
                         board.bus.bank)
    {
      board.SuccessStands();
      hide BoardHardware.Valid;
    }

    // ---- One dispatch ----

    /** The registers at the moment shutdown is taken up. */
    ghost function EntryAfter(): Option<Bank>
      reads this, manager, board, board.bus
    {
      if entry.None? && (manager.s.pending.kind == RequestJetsonShutdown || manager.s.pending.kind == CutPower)
      then Some(board.bus.bank) else entry
    }

    method ServiceAction(pd: Delivery) returns (ghost nowT: nat)
      requires Base() && !released && (InShutdown(manager.s) ==> watch.firstT.Some?)
      modifies this, manager, board`job, board`times, board`backupPin, board.bus`now
      ensures Settled() && board.bus.Later() && (InShutdown(manager.s) ==> watch.firstT.Some?)
      ensures entry == old(EntryAfter()) && lapsed == old(lapsed) && onset == old(onset)
      ensures manager.s == old(manager.s).(outcome := manager.s.outcome)
      ensures old(board.backupPin) && !board.backupPin ==> released
      ensures CutTimed(nowT) && old(board.bus.now) <= nowT <= board.bus.now
      ensures old(manager.s.pending).kind == NoAction ==> board.job == old(board.job)
      ensures clean.shed == old(clean).shed && old(clean).stage <= clean.stage
      ensures JetsonOnly(old(board.job), board.job, manager.s.pending.kind)
      ensures Replied(old(ext), old(act), old(board.job), manager.s.pending, New(old(reports)), ext)
      ensures old(reports) <= reports && forall r | r in New(old(reports)) :: BorneOut(r, board.bus.bank)
      ensures Truthful()
      ensures board.bus.benign ==> Dispatched(old(Look()), Look(), pd, Ticks(board.bus.now))
    {
      hide BoardHardware.Valid, Sound, Base, Loop.Settled, Justified, BorneOut, Loop.Look, JetsonOnly, Dispatched;
      ActionShown();
      var now := ReadClock();
      nowT := board.bus.now;
      ActionShown();
      var action := manager.s.pending;
      if action.kind == NoAction {
        AnswerPort();
        NothingDispatched(old(Look()), Look(), pd, now);
      } else {
        RefusalsBorneOut(board.bus.bank);
        Perform(action, now, nowT, pd);
      }
    }

    method ReadClock() returns (now: uint32)
      requires Base()
      modifies board.bus`now
      ensures Base() && board.bus.Later() && now == Ticks(board.bus.now) && Look() == old(Look())
    {
      hide BoardHardware.Valid, Sound, Phased, Guards, Spares, Expects;
      now := board.Millis();
      PhasedLater(manager.s, act, entry.Some?, lapsed, watch, old(board.bus.now), board.bus.now);
    }

    static lemma NothingDispatched(a: Scene, b: Scene, pd: Delivery, now: uint32)
      requires a.s.pending.kind == NoAction
      requires b == if a.ext.request != 0 && !Busy(a.board) then Unasked(a) else a
      ensures Dispatched(a, b, pd, now) && JetsonOnly(a.board.job, b.board.job, a.s.pending.kind)
    {
    }

    /** With nothing to dispatch, an idle board means that a port request is through. */
    method AnswerPort()
      requires Base() && manager.s.pending.kind == NoAction && !released
      requires InShutdown(manager.s) ==> watch.firstT.Some?
      modifies this`ext, this`reports
      ensures Settled() && manager.s.phase != PowerOff
      ensures Replied(old(ext), old(act), old(board.job), manager.s.pending, New(old(reports)), ext)
      ensures old(reports) <= reports && forall r | r in New(old(reports)) :: BorneOut(r, board.bus.bank)
      ensures Look() == if old(ext).request != 0 && board.job.result != Result.Running then Unasked(old(Look()))
                        else old(Look())
    {
      hide BoardHardware.Valid, Sound, Phased, Guards, Spares, BorneOut, Expects;
      PendingPhase(manager.s, act, entry.Some?, lapsed, watch, board.bus.now);
      DispatchPhased(manager.s, manager.s, act, act, entry.Some?, entry.Some?, lapsed, watch, watch, board.bus.now,
                     board.bus.now);
      if ext.request != 0 && board.job.result != Result.Running {
        PortSucceeds();
        PortResult(board.job.result == Result.Succeeded);
      }
    }

    /** The cut is timed from its first dispatch, and the release comes with it or
        with a later one within 750 ms. */
    twostate predicate CutTimed(nowT: nat)
      reads this, manager, board, board.bus
    {
      && watch == old(watch).(cutT := watch.cutT, releasedT := watch.releasedT)
      && (manager.s.phase == PowerOff ==>
            watch.cutT == if old(act.id) == manager.s.nextId then old(watch).cutT else nowT)
      && (manager.s.phase == PowerOff && !released ==>
            watch.cutT <= nowT && Elapsed(Ticks(nowT), Ticks(watch.cutT)) < FINAL_CLEANUP_MS)
      && (released ==> manager.s.phase == PowerOff && nowT <= watch.releasedT <= board.bus.now)
    }

    /** What taking up the pending action keeps and does. */
    twostate predicate Acts(action: Pending, nowT: nat)
      reads this, manager, board, board.bus
    {
      && Settled() && board.bus.Later() && (InShutdown(manager.s) ==> watch.firstT.Some?)
      && entry == old(EntryAfter()) && lapsed == old(lapsed) && onset == old(onset)
      && manager.s == old(manager.s).(outcome := manager.s.outcome)
      && (old(board.backupPin) && !board.backupPin ==> released)
      && CutTimed(nowT) && clean.shed == old(clean).shed && old(clean).stage <= clean.stage
      && JetsonOnly(old(board.job), board.job, manager.s.pending.kind)
      && (if Preempting(action, old(act)) then PortRefused() else PortKept()) && Truthful()
    }

    /** The pending action can be taken up, for the first time or again. */
    ghost predicate Due(action: Pending, nowT: nat)
      reads this, manager, board, board.bus
    {
      && Base() && !released && action == manager.s.pending && action.kind != NoAction && nowT == board.bus.now
      && (InShutdown(manager.s) ==> watch.firstT.Some?)
    }

    method Perform(action: Pending, now: uint32, ghost nowT: nat, pd: Delivery)
      requires Due(action, nowT) && now == Ticks(nowT)
      modifies this, manager, board`job, board`times, board`backupPin, board.bus`now
      ensures Acts(action, nowT)
      ensures board.bus.benign ==> Dispatched(old(Look()), Look(), pd, Ticks(board.bus.now))
    {
      hide Base, Dispatched, Loop.Acts, Loop.Look;
      if action.kind == RequestJetsonShutdown || action.kind == CutPower {
        PerformLast(action, now, nowT, pd);
      } else {
        PerformFirst(action, now, nowT, pd);
      }
    }

    /** The two actions of a shutdown. */
    method PerformLast(action: Pending, now: uint32, ghost nowT: nat, pd: Delivery)
      requires Due(action, nowT) && now == Ticks(nowT)
      requires action.kind == RequestJetsonShutdown || action.kind == CutPower
      modifies this, manager, board`job, board`times, board`backupPin, board.bus`now
      ensures Acts(action, nowT)
      ensures board.bus.benign ==> Dispatched(old(Look()), Look(), pd, Ticks(board.bus.now))
    {
      hide BoardHardware.Valid, Sound, Phased, Guarded, ExternalOk, OwnOperation, Spares, Cuts, TakesUp, Dispatched,
           Expects, Justified, JetsonOnly, Loop.Look, BoardHardware.Look;
      PendingPhase(manager.s, act, entry.Some?, lapsed, watch, board.bus.now);
      ActionShown();
      PerformShutdown(action, now, nowT);
      OutputsAside(action.kind, old(board.job), board.job, board.bus.bank);
      if board.bus.benign {
        ShutdownDispatched(old(Look()), Look(), pd, now);
      }
      DispatchPhased(old(manager.s), manager.s, old(act), act, old(entry).Some?, entry.Some?, lapsed, old(watch), watch,
                     old(board.bus.now), board.bus.now);
    }

    /** The actions before one. */
    method PerformFirst(action: Pending, now: uint32, ghost nowT: nat, pd: Delivery)
      requires Due(action, nowT) && now == Ticks(nowT)
      requires action.kind != RequestJetsonShutdown && action.kind != CutPower
      modifies this, manager, board`job, board`times, board`backupPin, board.bus`now
      ensures Acts(action, nowT)
      ensures board.bus.benign ==> Dispatched(old(Look()), Look(), pd, Ticks(board.bus.now))
    {
      hide BoardHardware.Valid, Sound, Phased, Guarded, ExternalOk, OwnOperation, Spares, Dispatched, JetsonOnly,
           Expects, Justified, Loop.Look;
      PendingPhase(manager.s, act, entry.Some?, lapsed, watch, board.bus.now);
      PerformNormal(action, now, pd);
      SparesBefore(onset, entry, lapsed, old(clean), board.bus.bank, old(board.job), clean, board.bus.bank, board.job,
                   old(manager.s.phase) == ShutdownWait);
      DispatchPhased(old(manager.s), manager.s, old(act), act, old(entry).Some?, entry.Some?, lapsed, old(watch), watch,
                     old(board.bus.now), board.bus.now);
    }

    /** An action of a board that is not shutting down is due. */
    ghost predicate Performable(action: Pending, now: uint32)
      reads this, manager, board, board.bus
    {
      && board.Valid() && Sound(manager.s) && Watching() && !released && action == manager.s.pending
      && action.id == manager.s.nextId && now == Ticks(board.bus.now)
      && action.kind !in {NoAction, RequestJetsonShutdown, CutPower} && !InShutdown(manager.s)
      && (action.kind in {PrepareCharging, EnableCharging, EnableJetson} ==> manager.s.phase != Phase.Running)
      && Guarded() && ExternalOk() && OwnOperation()
    }

    /** What its dispatch keeps, and what it does to an open port request. */
    twostate predicate Performed(action: Pending, now: uint32)
      reads this, manager, board, board.bus
    {
      && board.Valid() && Sound(manager.s) && Watching() && manager.s == old(manager.s).(outcome := manager.s.outcome)
      && Guarded() && ExternalOk() && OwnOperation() && board.bus.Later()
      && act == TakenUp(old(act), action, now).(stage := act.stage)
      && clean.stage == old(clean).stage && clean.shed == old(clean).shed
      && JetsonOnly(old(board.job), board.job, action.kind) && (old(board.backupPin) ==> board.backupPin)
      && (if Preempting(action, old(act)) then PortRefused() else PortKept()) && Truthful()
    }

    method PerformNormal(action: Pending, now: uint32, pd: Delivery)
      requires Performable(action, now)
      modifies this`act, this`clean, this`ext, this`ping, this`dcBudget, this`reports, manager, board`job, board`times,
               board`backupPin, board.bus`now
      ensures Performed(action, now)
      ensures board.bus.benign ==> Dispatched(old(Look()), Look(), pd, now)
    {
      hide Loop.Performable, Loop.Performed, Dispatched;
      Succeeds(action, now);
      if action.kind == PrepareCharging {
        PerformPrepare(action, now, pd);
      } else if OneOperation(action.kind) {
        PerformOperation(action, now, pd);
      } else {
        PerformOther(action, now, pd);
      }
    }

    /** The action is under way. */
    method Take(action: Pending, now: uint32)
      modifies this`act
      ensures act == TakenUp(old(act), action, now) && Look() == old(Look()).(act := act)
    {
      act := TakenUp(act, action, now);
    }

    method PerformPrepare(action: Pending, now: uint32, pd: Delivery)
      requires Performable(action, now) && action.kind == PrepareCharging
      modifies this`act, this`clean, this`ext, this`ping, this`dcBudget, this`reports, manager, board`job, board`times,
               board`backupPin, board.bus`now
      ensures Performed(action, now)
      ensures board.bus.benign ==> Dispatched(old(Look()), Look(), pd, now)
    {
      hide BoardHardware.Valid, Sound, Shrinks, Prepares;
      var first := action.id != act.id;
      act := TakenUp(act, action, now);
      DoPrepare(first, pd);
    }

    method PerformOperation(action: Pending, now: uint32, pd: Delivery)
      requires Performable(action, now) && OneOperation(action.kind)
      requires board.job.result == Result.Succeeded && act.id == action.id && manager.s.outcome == Unreported ==>
                 Justified(action.kind, ext.request != 0, board.bus.bank)
      modifies this`act, this`clean, this`ext, this`ping, this`dcBudget, this`reports, manager, board`job, board`times,
               board`backupPin, board.bus`now
      ensures Performed(action, now)
      ensures board.bus.benign ==> Dispatched(old(Look()), Look(), pd, now)
    {
      hide BoardHardware.Valid, Sound, Shrinks, Operates, Justified, Loop.Look, BoardHardware.Look;
      var first := action.id != act.id;
      ActionShown();
      Take(action, now);
      DoOperation(first, action.kind, pd);
    }

    method PerformOther(action: Pending, now: uint32, pd: Delivery)
      requires Performable(action, now) && (action.kind == ArmBackup || action.kind == PingJetson)
      modifies this`act, this`clean, this`ext, this`ping, this`dcBudget, this`reports, manager, board`job, board`times,
               board`backupPin, board.bus`now
      ensures Performed(action, now)
      ensures board.bus.benign ==> Dispatched(old(Look()), Look(), pd, now)
    {
      hide BoardHardware.Valid, Sound, Shrinks, Arms;
      var first := action.id != act.id;
      act := TakenUp(act, action, now);
      DoOther(first, action.kind, now);
    }

    /** The two actions that start nothing on the expanders. */
    method DoOther(first: bool, kind: Action, now: uint32)
      requires board.Valid() && Sound(manager.s) && Watching() && kind == manager.s.pending.kind
      modifies this`clean, this`ping, manager, board`backupPin, board.bus`now
      ensures Acted() && act == old(act) && (old(board.backupPin) ==> board.backupPin)
      ensures board.bus.benign && kind == PingJetson && now == old(Ticks(board.bus.now)) ==>
                Look() == Done(old(Look()).(ping := NextPing(old(ping), now)), true, now)
      ensures board.bus.benign && kind == ArmBackup && now == old(Ticks(board.bus.now)) ==>
                Arms(old(Look()), Look(), first, now)
    {
      hide BoardHardware.Valid, Sound;
      if kind == ArmBackup {
        DoArm(first, now);
      } else if kind == PingJetson {
        SendPing();
        ActionDone(true);
      }
    }

    /** The action is under way, and with it its part of the shutdown on record. */
    method TakeUp(action: Pending, now: uint32, ghost nowT: nat)
      requires action == manager.s.pending
      modifies this`act, this`watch, this`entry
      ensures Look() == old(Look()).(act := TakenUp(old(act), action, now)) && act == TakenUp(old(act), action, now)
      ensures watch == if action.id != old(act).id && action.kind == CutPower then old(watch).(cutT := nowT)
                       else old(watch)
      ensures entry == old(EntryAfter())
    {
      watch := if action.id != act.id && action.kind == CutPower then watch.(cutT := nowT) else watch;
      entry := EntryAfter();
      act := TakenUp(act, action, now);
    }

    method PerformShutdown(action: Pending, now: uint32, ghost nowT: nat)
      requires board.Valid() && Sound(manager.s) && Watching() && !released && action == manager.s.pending
      requires action.id == manager.s.nextId
      requires action.kind in {RequestJetsonShutdown, CutPower} && InShutdown(manager.s)
      requires Guarded() && ExternalOk() && (action.id == act.id ==> entry.Some?) && now == Ticks(nowT)
      requires Sparing() && if action.kind == CutPower then manager.s.phase == PowerOff
                            else manager.s.phase == ShutdownWait && (entry.Some? ==> action.id == act.id)
      requires nowT == board.bus.now
      modifies this`act, this`clean, this`ext, this`released, this`entry, this`watch, this`reports, manager,
               board`job, board`times, board`backupPin, board.bus`now
      ensures board.Valid() && Sound(manager.s) && Watching()
      ensures manager.s == old(manager.s).(outcome := manager.s.outcome)
      ensures action.kind == CutPower ==> manager.s == old(manager.s)
      ensures Guarded() && ExternalOk() && OwnOperation() && board.bus.Later()
      ensures act == TakenUp(old(act), action, now).(stage := act.stage)
      ensures entry == old(EntryAfter())
      ensures watch == old(watch).(cutT := watch.cutT, releasedT := watch.releasedT)
      ensures watch.cutT == if action.kind == CutPower && old(act.id) != action.id then nowT else old(watch).cutT
      ensures released ==> action.kind == CutPower && !board.backupPin && nowT <= watch.releasedT <= board.bus.now
      ensures action.kind == CutPower && !released ==> Elapsed(now, act.at) < FINAL_CLEANUP_MS
      ensures !released ==> board.backupPin == old(board.backupPin)
      ensures Sparing() && clean.shed == old(clean).shed && old(clean).stage <= clean.stage
      ensures board.job == old(board.job) || board.job.operation != PortChange
      ensures if action.id != old(act).id then PortRefused() else PortKept()
      ensures board.bus.benign ==>
                var c := old(Look()).(act := TakenUp(old(act), action, now));
                if action.kind == CutPower then Cuts(c, Look(), action.id != old(act).id, now)
                else TakesUp(c, Look(), action.id != old(act).id, now)
    {
      hide BoardHardware.Valid, Sound, Guards, Spares, Cuts, TakesUp, Loop.Look, BoardHardware.Look, Expects;
      GuardsTaken(onset, entry, lapsed, board.bus.bank, board.RaiseAhead());
      var first := action.id != act.id;
      TakeUp(action, now, nowT);
      if action.kind == CutPower {
        DoCut(first, now);
      } else {
        DoRequest(first);
      }
      SparesTaken(onset, old(entry), lapsed, manager.s.phase == ShutdownWait, old(clean), board.bus.bank,
                  old(board.RaiseAhead()), old(board.job), clean, board.job);
      GuardsQuiet(onset, entry, lapsed, board.bus.bank, board.RaiseAhead());
    }

    // ---- Hardware and clean-up ----

    /** The hardware goes on with what it was doing. */
    twostate predicate SameOperation()
      reads board
    {
      && board.job.operation == old(board.job).operation && board.job.port == old(board.job).port
      && board.job.portEnabled == old(board.job).portEnabled
    }

    /** One hardware stage. */
    method ServiceBoard()
      requires Settled() && !released && (InShutdown(manager.s) ==> watch.firstT.Some?)
      modifies board`job, board`times, board`prepared, board`reconciled, board`expectedInternal, board`expectedExternal,
               board`ceOffAt, board`tsSelectedAt, board.bus
      ensures Settled() && board.bus.Later()
      ensures entry.Some? ==> Shrinks(old(board.bus.bank), board.bus.bank)
      ensures old(board.RaiseNow()) && board.job.result != Failed ==> !Shrinks(old(board.bus.bank), board.bus.bank)
      ensures SameOperation() && Look() == old(Look()).(board := board.Look())
      ensures board.bus.benign ==> Calm(old(board.Look()), board.Look(), Ticks(board.bus.now))
    {
      hide BoardHardware.Valid, Phased, Shrinks, Calm, Spares;
      Served();
      board.Service();
      GuardsServiced(onset, entry, lapsed, InShutdown(manager.s), old(board.bus.bank), old(board.RaiseAhead()),
                     board.bus.bank, board.RaiseAhead());
      SparesServiced(onset, entry, lapsed, manager.s.phase == ShutdownWait, clean, old(board.bus.bank), old(board.job),
                     board.bus.bank, board.job);
      PhasedLater(manager.s, act, entry.Some?, lapsed, watch, old(board.bus.now), board.bus.now);
    }

    /** One hardware stage, then the clean-up. */
    method Work(mainLost: bool)
      requires Settled() && !released && (InShutdown(manager.s) ==> watch.firstT.Some?)
      modifies this`clean, board`job, board`times, board`prepared, board`reconciled, board`expectedInternal,
               board`expectedExternal, board`ceOffAt, board`tsSelectedAt, board.bus
      ensures Settled() && board.bus.Later()
      ensures entry.Some? ==> Shrinks(old(board.bus.bank), board.bus.bank)
      ensures entry.None? ==>
                SameOperation() && (old(board.RaiseNow()) && board.job.result != Failed ==>
                                      !Shrinks(old(board.bus.bank), board.bus.bank))
      ensures ShedBy(old(clean).shed, mainLost) && old(clean).stage <= clean.stage
      ensures CleansOnly(old(board.job), board.job, clean.shed, manager.s.phase == ShutdownWait)
      ensures old(clean).stage > 0 && manager.s.phase == ShutdownWait && !clean.shed ==>
                board.bus.bank.external == old(board.bus.bank.external)
      ensures board.bus.benign ==> Worked(old(Look()), Look(), mainLost, Ticks(board.bus.now))
    {
      hide BoardHardware.Valid, Base, Shrinks, Sound, Calm, BoardHardware.Look, CleansUp;
      Spared();
      ServiceBoard();
      CleanUp(mainLost);
      Spared();
    }

    /** A shutdown whose first tick was dispatched is taken up or lapsed. */
    lemma Served()
      requires Settled() && (InShutdown(manager.s) ==> watch.firstT.Some?)
      ensures InShutdown(manager.s) ==> entry.Some? || lapsed
      ensures entry.Some? ==> !board.RaiseAhead()
      ensures released ==> entry.Some? && manager.s.phase == PowerOff
    {
      hide BoardHardware.Valid, Shrinks, Sound;
    }

    /** Unbacked outputs go only once main was lost; until then every output is as it
        was when shutdown was taken up. */
    lemma Spared()
      requires Settled()
      ensures clean.stage >= 3 ==> clean.shed
      ensures manager.s.phase == ShutdownWait && clean.stage > 0 && !clean.shed ==>
                entry.Some? && board.bus.bank.external == entry.value.external
    {
      hide BoardHardware.Valid, Shrinks, Sound, Phased, Guards;
    }

    ghost predicate Dropping(port: Port)
      reads board
    {
      Started(PortChange) && board.job.port == port && !board.job.portEnabled
    }

    /** After charging was taken down: the unbacked ports, if main was ever lost. */
    method CleanUp(mainLost: bool)
      requires Settled() && !released
      modifies this`clean, board`job, board`times, board.bus`now
      ensures Settled() && board.bus.Later() && (entry.None? || old(clean).stage == 0 ==> board.job == old(board.job))
      ensures clean.shed == (old(clean).shed || (mainLost && manager.s.phase == ShutdownWait))
      ensures clean.stage == old(clean).stage || clean.stage == old(clean).stage + 1
      ensures manager.s.phase != ShutdownWait || old(clean).stage == 0 ==>
                Look() == old(Look()).(clean := old(clean).(shed := clean.shed))
      ensures board.job != old(board.job) ==>
                && board.job.result == Result.Running && clean.stage in {3, 4} && clean.shed
                && manager.s.phase == ShutdownWait && Dropping(if clean.stage == 3 then Vbus else FiveVoltVbus)
      ensures clean.stage >= 3 ==> clean.shed
      ensures manager.s.phase == ShutdownWait && old(board.job).result != Result.Running && board.monitoring
              && clean.shed ==>
                && (old(clean).stage == 1 ==> clean.stage == 2)
                && (old(clean).stage == 2 ==> clean.stage == 3 && Dropping(Vbus))
                && (old(clean).stage == 3 ==> clean.stage == 4 && Dropping(FiveVoltVbus))
      ensures CleansUp(old(Look()), Look(), mainLost)
    {
      hide BoardHardware.Valid, Loop.Base;
      Spared();
      if manager.s.phase == ShutdownWait {
        Shed(mainLost);
        if board.job.result != Result.Running {
          GoOn();
        }
      }
    }

    method Shed(mainLost: bool)
      requires Settled()
      modifies this`clean
      ensures Settled() && clean == old(clean).(shed := old(clean).shed || mainLost)
    {
      hide BoardHardware.Valid, Phased, Guards;
      if mainLost {
        clean := clean.(shed := true);
      }
    }

    method GoOn()
      requires Settled() && manager.s.phase == ShutdownWait && board.job.result != Result.Running
      modifies this`clean, board`job, board`times, board.bus`now
      ensures Settled() && board.bus.Later() && CleanedUp() && StepsOn(old(Look()), Look())
      ensures entry.None? || old(clean).stage == 0 ==> board.job == old(board.job) && clean == old(clean)
    {
      hide BoardHardware.Valid, Phased, Guards;
      PendingPhase(manager.s, act, entry.Some?, lapsed, watch, board.bus.now);
      NextCleanUp();
      SparesCleaned(onset, entry, lapsed, old(clean), board.bus.bank, old(board.job), clean, board.job);
      if entry.Some? {
        GuardsQuiet(onset, entry, lapsed, board.bus.bank, board.RaiseAhead());
      }
      PhasedLater(manager.s, act, entry.Some?, lapsed, watch, old(board.bus.now), board.bus.now);
    }

    /** One step of the clean-up on a board that runs nothing. */
    twostate predicate CleanedUp()
      reads this, board
    {
      && clean.shed == old(clean).shed && (clean.stage == old(clean).stage || clean.stage == old(clean).stage + 1)
      && (clean.stage > 0 ==> old(clean).stage > 0)
      && (|| board.job == old(board.job)
          || (old(clean).stage == 2 && clean.stage == 3 && clean.shed && Dropping(Vbus))
          || (old(clean).stage == 3 && clean.stage == 4 && Dropping(FiveVoltVbus)))
      && (old(clean).stage == 2 && clean.stage == 3 ==> clean.shed)
      && (old(clean).stage == 0 ==> board.job == old(board.job) && clean == old(clean))
      && (board.monitoring && clean.shed ==>
            && (old(clean).stage == 1 ==> clean.stage == 2)
            && (old(clean).stage == 2 ==> clean.stage == 3 && Dropping(Vbus))
            && (old(clean).stage == 3 ==> clean.stage == 4 && Dropping(FiveVoltVbus)))
    }

    method NextCleanUp()
      requires board.Valid() && board.job.result != Result.Running
      modifies this`clean, board`job, board`times, board.bus`now
      ensures board.Valid() && board.bus.Later() && !board.RaiseAhead() && CleanedUp() && StepsOn(old(Look()), Look())
    {
      hide BoardHardware.Valid;
      if clean.stage == 1 {
        clean := clean.(stage := 2, chargeExpected := clean.chargeExpected && board.job.result != Result.Succeeded);
      } else if clean.stage == 2 && clean.shed {
        var ok := board.StartPort(Vbus, false);
        clean := clean.(stage := 3);
      } else if clean.stage == 3 {
        var ok := board.StartPort(FiveVoltVbus, false);
        clean := clean.(stage := 4);
      } else if clean.stage == 4 {
        clean := clean.(stage := 5);
      }
    }

    // ---- One loop ----

    method MainPresent() returns (present: bool)
      requires board.Valid()
      modifies board.bus`now
      ensures board.Valid() && board.bus.Later() && present == MainIn(board.snapshot, Ticks(board.bus.now))
    {
      hide BoardHardware.Valid;
      var t := board.Millis();
      var s := board.snapshot;
      present := s.internalValid && Elapsed(t, s.internalAt) <= FRESH && s.mainSelected && (s.usbPg || s.dcPg);
    }

    /** What the policy is told, with the moments at which it was evaluated. */
    method Observe(pd: Delivery, heard: Heard)
      returns (input: Inputs, ghost statusT: nat, ghost mainT: nat, ghost budgetT: nat)
      requires board.Valid()
      modifies board.bus`now
      ensures board.Valid() && board.bus.Later() && old(board.bus.now) <= statusT <= mainT <= budgetT == board.bus.now
      ensures input == Seen(Look(), pd, heard, Ticks(statusT), Ticks(mainT), Ticks(budgetT))
    {
      hide BoardHardware.Valid;
      var s := board.snapshot;
      var t := board.Millis();
      statusT := board.bus.now;
      var main := MainPresent();
      mainT := board.bus.now;
      var budget := SourceBudget(pd.healthy);
      budgetT := board.bus.now;
      var fault := !s.internalValid || !s.boostPg || !s.chargerPg || s.tsMv < 1300 || s.tsMv > 2350;
      if clean.chargeExpected && !budget {
        fault := true;
      }
      if clean.chargeExpected && Elapsed(s.internalAt, clean.chargeEnabledAt) < WRAP / 2 {
        fault := fault || !s.charging;
      }
      input := Inputs((!s.mainSelected || s.internalValid) && Elapsed(t, s.atMs) <= FRESH, main, Volts(s.vcap),
                      s.boostPg, fault, heard.ack, heard.ready, heard.pong);
    }

    /** Poll, tick, dispatch, one hardware stage and the clean-up, until the backup
        is released. */
    method Iterate(polled: Option<Snapshot>, pd: Delivery, heard: Heard) returns (ghost when: Moments, ghost mid: Scene)
      requires Valid()
      modifies this, manager, board, board.bus
      ensures Valid() && board.bus.Later()
      ensures if old(released) then Finished() else Turned(when.tickT)
      ensures entry.Some? ==> Shrinks(old(board.bus.bank), board.bus.bank)
      ensures !old(released) ==>
                && TickedOnce(old(Look()), manager.s, polled, pd, heard, when)
                && old(reports) <= reports
                && Tells(old(Look()), manager.s, polled, pd, heard, when, New(old(reports)), ext)
                && Tidied(old(Look()), mid, Look(), Lost(old(Look()), polled, pd, heard, when))
      ensures board.bus.benign && !old(released) ==>
                Looped(old(Look()), mid, Look(), polled, pd, heard, Ticks(board.bus.now))
    {
      hide BoardHardware.Valid, Base, Shrinks, Sound, Timely, Looped, BoardHardware.Look, Loop.Turned, Loop.Settled,
           TickedOnce, Lost, Tidied, Tells;
      when, mid := Moments(0, 0, 0, 0), Look();
      ShrinksReflexive(board.bus.bank);
      if released {
        Rest();
      } else {
        when, mid := Turn(polled, pd, heard);
      }
    }

    /** Unbacked outputs are due to go once main was lost in the shutdown's wait. */
    predicate ShedBy(shed: bool, lost: bool)
      reads this, manager
    {
      clean.shed == (shed || (lost && manager.s.phase == ShutdownWait))
    }

    /** What one loop does to a shutdown and to the driven set: the first tick of a
        shutdown is on record and has it taken up or lapsed; a lapsed one goes on with
        its operation, and the stage that raises an enable raises it or fails. */
    twostate predicate Turned(tickT: nat)
      reads this, manager, board, board.bus
    {
      && old(board.bus.now) <= tickT <= board.bus.now
      && (InShutdown(manager.s) ==>
            && (entry.Some? || lapsed)
            && watch.firstT == old(FirstTick(tickT)))
      && (old(InShutdown(manager.s)) ==>
            InShutdown(manager.s) && watch.shutT == old(watch).shutT && onset == old(onset))
      && (InShutdown(manager.s) && !old(InShutdown(manager.s)) ==>
            onset.Some? && onset.value.bank == old(board.bus.bank))
      && (old(entry).Some? ==> entry == old(entry))
      && (old(board.backupPin) && !board.backupPin ==> released)
      && (lapsed && entry.None? ==>
            && SameOperation()
            && (old(board.RaiseNow()) && board.job.result != Failed ==> !Shrinks(old(board.bus.bank), board.bus.bank)))
    }

    method Turn(polled: Option<Snapshot>, pd: Delivery, heard: Heard) returns (ghost when: Moments, ghost mid: Scene)
      requires Valid() && !released
      modifies this, manager, board, board.bus
      ensures Valid() && board.bus.Later() && Turned(when.tickT)
      ensures entry.Some? ==> Shrinks(old(board.bus.bank), board.bus.bank)
      ensures TickedOnce(old(Look()), manager.s, polled, pd, heard, when)
      ensures old(reports) <= reports
      ensures Tells(old(Look()), manager.s, polled, pd, heard, when, New(old(reports)), ext)
      ensures Tidied(old(Look()), mid, Look(), Lost(old(Look()), polled, pd, heard, when))
      ensures board.bus.benign ==> Looped(old(Look()), mid, Look(), polled, pd, heard, Ticks(board.bus.now))
    {
      hide BoardHardware.Valid, Base, Shrinks, Sound, Timely, Looped, BoardHardware.Look, Loop.Settled, Steps,
           TickedOnce, Lost, Tidied, BoardHardware.RaiseNow, Unserved, Late, Tells;
      ghost var nowT, decidedT;
      when, mid, nowT, decidedT := Pass(polled, pd, heard);
      EndLoop(old(manager.s), old(watch), when.tickT, nowT, decidedT);
    }

    /** The decision and the work of one loop. */
    method Pass(polled: Option<Snapshot>, pd: Delivery, heard: Heard)
      returns (ghost when: Moments, ghost mid: Scene, ghost nowT: nat, ghost decidedT: nat)
      requires Settled() && !released
      modifies this, manager, board, board.bus
      ensures Settled() && board.bus.Later() && Turned(when.tickT)
      ensures entry.Some? ==> Shrinks(old(board.bus.bank), board.bus.bank)
      ensures when.tickT <= nowT <= decidedT <= board.bus.now
      ensures Steps(old(manager.s), manager.s, old(watch), watch, released, when.tickT, nowT, decidedT)
      ensures TickedOnce(old(Look()), manager.s, polled, pd, heard, when)
      ensures old(reports) <= reports
      ensures Tells(old(Look()), manager.s, polled, pd, heard, when, New(old(reports)), ext)
      ensures Tidied(old(Look()), mid, Look(), Lost(old(Look()), polled, pd, heard, when))
      ensures board.bus.benign ==> Looped(old(Look()), mid, Look(), polled, pd, heard, Ticks(board.bus.now))
    {
      hide BoardHardware.Valid, Base, Shrinks, Sound, TooLate, Timely, Decided, Worked, Late, BoardHardware.Look,
           Unserved, BoardHardware.RaiseNow, Loop.Settled, Steps, TickedOnce, Lost, JetsonOnly, CleansOnly,
           InShutdown, Tells, LossSeen, Loop.Look;
      ShrinksReflexive(board.bus.bank);
      Shown();
      var mainLost;
      mainLost, when, nowT := Decide(polled, pd, heard);
      mid := Look();
      Shown();
      decidedT := board.bus.now;
      Served();
      if released {
        NothingMoves(board.job);
      } else {
        Work(mainLost);
      }
      Shown();
    }

    static lemma NothingMoves(job: Job)
      ensures forall shed, waiting :: CleansOnly(job, job, shed, waiting)
    {
    }

    /** The loop ends on time or is on record as late. */
    ghost method EndLoop(s: State, w: Watch, tickT: nat, nowT: nat, decidedT: nat)
      requires Settled() && Timely(s, false, w, gap) && w.lastT <= tickT <= nowT <= decidedT <= board.bus.now
      requires Steps(s, manager.s, w, watch, released, tickT, nowT, decidedT)
      modifies this`watch
      ensures Valid() && watch == Ended(old(watch), gap, board.bus.now) && Look() == old(Look())
    {
      hide BoardHardware.Valid, Phased, Guards, Timely;
      TimelyStep(s, manager.s, released, w, watch, gap, tickT, nowT, decidedT, board.bus.now);
      EndedPhased(manager.s, act, entry.Some?, lapsed, watch, gap, board.bus.now);
      watch := Ended(watch, gap, board.bus.now);
    }

    method Rest()
      requires Valid() && released
      modifies board.bus`now
      ensures Valid() && board.bus.Later() && Look() == old(Look())
    {
      hide BoardHardware.Valid, Phased, Guards, Timely;
      var t := board.Millis();
      PhasedLater(manager.s, act, entry.Some?, lapsed, watch, old(board.bus.now), board.bus.now);
    }

    /** After the release no hardware is touched any more. */
    twostate predicate Finished()
      reads this, manager, board, board.bus
    {
      && released && board.bus.trace == old(board.bus.trace) && Look() == old(Look())
      && entry == old(entry) && onset == old(onset) && lapsed == old(lapsed) && watch == old(watch)
      && reports == old(reports)
    }

    /** Poll and tick: the policy learns what the board and the host said. */
    method Tell(polled: Option<Snapshot>, pd: Delivery, heard: Heard) returns (mainLost: bool, ghost when: Moments)
      requires Settled() && !released
      modifies this`watch, this`lapsed, this`onset, manager, board`snapshot, board.bus`now
      ensures Base() && board.bus.Later() && (InShutdown(manager.s) ==> watch.firstT.Some?)
      ensures watch == TickAt(old(manager.s), manager.s, old(watch), board.bus.now)
      ensures onset == if Enters(old(manager.s), manager.s) then Some(Onset(board.bus.bank, board.RaiseAhead()))
                       else old(onset)
      ensures old(InShutdown(manager.s)) ==> InShutdown(manager.s) && watch.shutT == old(watch).shutT
      ensures lapsed && entry.None? ==> manager.s.pending.kind in {NoAction, CutPower}
      ensures manager.s.phase == PowerOff ==>
                && old(InShutdown(manager.s)) && watch.shutT + SHUTDOWN_MS <= board.bus.now
                && (act.id == manager.s.nextId <==> old(manager.s.phase) == PowerOff)
      ensures old(manager.s.phase) == PowerOff ==> manager.s.phase == PowerOff
      ensures manager.s.phase == ShutdownWait ==>
                && Elapsed(Ticks(board.bus.now), manager.s.at.shutdown) < SHUTDOWN_MS
                && manager.s.at.shutdown == Ticks(watch.shutT) && watch.shutT <= board.bus.now
      ensures board.bus.benign ==> Look() == Ticked(old(Look()), polled, pd, heard, Ticks(board.bus.now))
      ensures old(board.bus.now) <= when.statusT && when.tickT == board.bus.now
      ensures mainLost == Lost(old(Look()), polled, pd, heard, when) && clean == old(clean)
      ensures board.bus.benign ==> mainLost == LossSeen(old(Look()), polled, pd, heard, Ticks(board.bus.now))
      ensures TickedOnce(old(Look()), manager.s, polled, pd, heard, when)
      ensures manager.s == TickedAt(old(Look()), polled, pd, heard, when)
    {
      hide BoardHardware.Valid, Phased, Guards, Sound, Tick, Seen;
      if polled.Some? {
        board.Poll(polled.value);
      }
      var input;
      ghost var statusT, mainT, budgetT;
      input, statusT, mainT, budgetT := Observe(pd, heard);
      PhasedLater(manager.s, act, entry.Some?, lapsed, watch, old(board.bus.now), board.bus.now);
      mainLost := input.statusValid && !input.mainPresent;
      TickManager(input);
      when := Moments(statusT, mainT, budgetT, board.bus.now);
    }

    /** Poll, tick and dispatch: nothing is written yet. */
    method Decide(polled: Option<Snapshot>, pd: Delivery, heard: Heard)
      returns (mainLost: bool, ghost when: Moments, ghost nowT: nat)
      requires Settled() && !released
      modifies this, manager, board`snapshot, board`job, board`times, board`backupPin, board.bus`now
      ensures Settled() && board.bus.Later() && old(board.bus.now) <= when.tickT <= nowT <= board.bus.now
      ensures InShutdown(manager.s) ==>
                watch.firstT == old(FirstTick(when.tickT))
      ensures old(entry).Some? ==> entry == old(entry)
      ensures old(InShutdown(manager.s)) ==>
                InShutdown(manager.s) && watch.shutT == old(watch).shutT && onset == old(onset)
      ensures InShutdown(manager.s) && !old(InShutdown(manager.s)) ==>
                onset == Some(Onset(old(board.bus.bank), onset.value.armed))
      ensures old(board.backupPin) && !board.backupPin ==> released
      ensures Steps(old(manager.s), manager.s, old(watch), watch, released, when.tickT, nowT, board.bus.now)
      ensures lapsed && entry.None? ==> board.job == old(board.job) && board.RaiseNow() == old(board.RaiseNow())
      ensures mainLost == Lost(old(Look()), polled, pd, heard, when)
      ensures board.bus.benign ==> mainLost == LossSeen(old(Look()), polled, pd, heard, Ticks(board.bus.now))
      ensures clean.shed == old(clean).shed && old(clean).stage <= clean.stage
      ensures board.bus.bank == old(board.bus.bank)
      ensures JetsonOnly(old(board.job), board.job, manager.s.pending.kind)
      ensures TickedOnce(old(Look()), manager.s, polled, pd, heard, when)
      ensures old(reports) <= reports
      ensures Tells(old(Look()), manager.s, polled, pd, heard, when, New(old(reports)), ext)
      ensures board.bus.benign ==> Decided(old(Look()), Look(), polled, pd, heard, Ticks(board.bus.now))
    {
      hide BoardHardware.Valid, Phased, Guards, Sound, Dispatched, Ticked, Base, TickedAt, JetsonOnly, Replied,
           Justified, BorneOut;
      mainLost, when := Tell(polled, pd, heard);
      nowT := ServiceAction(pd);
    }

    /** What holds of every run so far. The driven set has only shrunk since shutdown
        began, unless its first tick came 5 to 60 s late to an operation that could
        still raise an enable; the backup is released in time and with paced loops
        no later than 60.75 s and three gaps after shutdown began. */
    lemma RunStands()
      requires Valid()
      ensures InShutdown(manager.s) <==> onset.Some?
      ensures onset.Some? && !(Late(watch) && onset.value.armed) ==> Shrinks(onset.value.bank, board.bus.bank)
      ensures onset.Some? && (entry.Some? || !onset.value.armed) ==> !board.RaiseAhead()
      ensures released ==> !board.backupPin && InTime(watch, gap)
      ensures manager.s.phase == ShutdownWait && !Late(watch) && !clean.shed ==>
                board.bus.bank.external == onset.value.bank.external
      ensures InShutdown(manager.s) && watch.paced && OutOfTime(watch, gap) ==> released
      ensures manager.s.charge.expected ==> clean.chargeExpected
      ensures Sequenced(board.bus.start, board.bus.trace)
    {
      board.RunSequenced();
      hide BoardHardware.Valid, Shrinks, Sound, Sequenced;
    }

    /** The result an action is about to be given is that of its own operation,
        except when a port request was accepted while StopCharging was waiting. */
    lemma ResultIsOwn()
      requires Base() && act.id == manager.s.nextId && manager.s.outcome == Unreported
      requires OneOperation(manager.s.pending.kind)
      ensures board.job.operation == OperationOf(manager.s.pending.kind)
              <==> !(manager.s.pending.kind == StopCharging && ext.request != 0)
    {
      hide BoardHardware.Valid, Guards;
      PendingPhase(manager.s, act, entry.Some?, lapsed, watch, board.bus.now);
      hide Phased;
    }

    // ---- Between loops ----

    method Millis() returns (t: uint32)
      requires Valid()
      modifies board.bus`now
      ensures Valid() && board.bus.Later() && t == Ticks(board.bus.now) && Look() == old(Look())
    {
      hide BoardHardware.Valid, Phased, Guards, Timely;
      t := board.Millis();
      PhasedLater(manager.s, act, entry.Some?, lapsed, watch, old(board.bus.now), board.bus.now);
    }

    method Wait(ms: nat)
      requires Valid()
      modifies board.bus`now
      ensures Valid() && board.bus.now == old(board.bus.now) + ms && Look() == old(Look())
    {
      hide BoardHardware.Valid, Phased, Guards, Timely;
      board.Wait(ms);
      PhasedLater(manager.s, act, entry.Some?, lapsed, watch, old(board.bus.now), board.bus.now);
    }

    /** A ping every two seconds to an enabled Jetson that was not told to shut down. */
    method KeepAlive(now: uint32, silent: bool)
      requires Valid()
      modifies this`ping, board.bus`now
      ensures Valid() && board.bus.Later()
      ensures ping == if manager.s.boot.jetsonEnabled && !silent && Elapsed(now, old(ping).at) >= PING_MS
                      then NextPing(old(ping), Ticks(board.bus.now)) else old(ping)
      ensures Look() == old(Look()).(ping := ping)
      ensures board.bus.benign && now == Ticks(board.bus.now) ==> Look() == Pinged(old(Look()), silent, now)
    {
      hide BoardHardware.Valid, Phased, Guards, Timely;
      if manager.s.boot.jetsonEnabled && !silent && Elapsed(now, ping.at) >= PING_MS {
        SendPing();
      }
      PhasedLater(manager.s, act, entry.Some?, lapsed, watch, old(board.bus.now), board.bus.now);
    }

    /** A reboot request starts the same shutdown, once. */
    method RequestReboot() returns (accepted: bool)
      requires Valid()
      modifies this`watch, this`onset, manager, board.bus`now
      ensures Valid() && board.bus.Later() && accepted == !old(InShutdown(manager.s))
      ensures Look() == old(Look()).(s := PowerPolicy.RequestReboot(old(manager.s), Ticks(board.bus.now)))
      ensures if accepted
              then Unserved(manager.s, act.id) && watch == old(watch).(shutT := board.bus.now, firstT := None)
                   && onset == Some(Onset(board.bus.bank, board.RaiseAhead()))
              else manager.s == old(manager.s) && watch == old(watch) && onset == old(onset)
    {
      hide BoardHardware.Valid, Phased, Guards, Sound, PowerPolicy.RequestReboot, Spares, Expects;
      RebootWatched();
      var at := board.Millis();
      PhasedLater(manager.s, act, entry.Some?, lapsed, watch, old(board.bus.now), board.bus.now);
      RebootPhased(manager.s, act, entry.Some?, lapsed, watch, board.bus.now);
      ghost var before := manager.s;
      accepted := manager.RequestFullReboot(at);
      watch := RebootAt(before, manager.s, watch, board.bus.now);
      GuardsTicked(onset, entry, lapsed, lapsed, InShutdown(before), InShutdown(manager.s), board.bus.bank,
                   board.RaiseAhead());
      MarkOnset(before);
      SparesTicked(old(onset), onset, entry, lapsed, lapsed, before.phase == ShutdownWait,
                   manager.s.phase == ShutdownWait, clean, board.bus.bank, board.job);
    }

    method AskMain() returns (present: bool)
      requires Valid()
      modifies board.bus`now
      ensures Valid() && board.bus.Later() && Look() == old(Look())
      ensures present == MainIn(board.snapshot, Ticks(board.bus.now))
    {
      hide BoardHardware.Valid, Phased, Guards, Timely;
      present := MainPresent();
      PhasedLater(manager.s, act, entry.Some?, lapsed, watch, old(board.bus.now), board.bus.now);
    }

    method AskBudget(negotiated: bool) returns (valid: bool)
      requires Valid()
      modifies board.bus`now
      ensures Valid() && board.bus.Later() && Look() == old(Look())
      ensures valid == BudgetIn(board.snapshot, Ticks(board.bus.now), negotiated, dcBudget)
    {
      hide BoardHardware.Valid, Phased, Guards, Timely;
      valid := SourceBudget(negotiated);
      PhasedLater(manager.s, act, entry.Some?, lapsed, watch, old(board.bus.now), board.bus.now);
    }

    /** Whether a port request is accepted, with the moments at which main and the
        budget are looked at: exactly on a running, idle, monitored board with main
        present and, to enable, a budget for its one good input. */
    method RequestPort(id: uint32, port: Port, enabled: bool, negotiated: bool)
      returns (code: string, ghost mainT: nat, ghost budgetT: nat)
      requires Valid() && id != 0
      modifies this`ext, board`job, board`times, board.bus`now
      ensures Valid() && board.bus.Later() && old(board.bus.now) <= mainT <= budgetT <= board.bus.now
      ensures code == PortCode(old(Look()), enabled, negotiated, Ticks(mainT), Ticks(budgetT))
      ensures if code == "ACCEPTED"
              then ext == PortRequest(id, port, enabled) && Launched(old(board.Look()), board.Look(), PortChange)
                   && board.job.port == port && board.job.portEnabled == enabled
                   && Look() == old(Look()).(ext := ext, board := board.Look())
              else Look() == old(Look())
    {
      hide Loop.Valid;
      mainT, budgetT := board.bus.now, board.bus.now;
      if manager.s.phase != Phase.Running {
        return "NOT_READY", mainT, budgetT;
      }
      if board.job.result == Result.Running || ext.request != 0 {
        return "BUSY", mainT, budgetT;
      }
      var main := AskMain();
      mainT, budgetT := board.bus.now, board.bus.now;
      if !main {
        return "SHUTTING_DOWN", mainT, budgetT;
      }
      if enabled {
        var budget := AskBudget(negotiated);
        budgetT := board.bus.now;
        if !budget {
          return "NOT_READY", mainT, budgetT;
        }
      }
      code := LaunchPort(id, port, enabled);
    }

    method LaunchPort(id: uint32, port: Port, enabled: bool) returns (code: string)
      requires Valid() && id != 0 && manager.s.phase == Phase.Running && board.job.result != Result.Running
      requires ext.request == 0
      modifies this`ext, board`job, board`times, board.bus`now
      ensures Valid() && board.bus.Later() && code == if board.monitoring then "ACCEPTED" else "HARDWARE_ERROR"
      ensures if board.monitoring
              then ext == PortRequest(id, port, enabled) && Launched(old(board.Look()), board.Look(), PortChange)
                   && board.job.port == port && board.job.portEnabled == enabled
              else ext == old(ext) && board.job == old(board.job)
    {
      hide BoardHardware.Valid, Phased, Guards, Sound, Timely, Spares;
      LaunchPhase(manager.s, act, entry.Some?, lapsed, watch, board.bus.now);
      var ok := board.StartPort(port, enabled);
      PhasedLater(manager.s, act, entry.Some?, lapsed, watch, old(board.bus.now), board.bus.now);
      GuardsBefore(onset, entry, lapsed, board.bus.bank, old(board.RaiseAhead()), board.RaiseAhead());
      SparesBefore(onset, entry, lapsed, clean, board.bus.bank, old(board.job), clean, board.bus.bank, board.job,
                   false);
      code := if ok then "ACCEPTED" else "HARDWARE_ERROR";
      if ok {
        ext := PortRequest(id, port, enabled);
      }
    }
  }

  function PortCode(c: Scene, enabled: bool, negotiated: bool, mainAt: uint32, budgetAt: uint32): string {
    if c.s.phase != Phase.Running then "NOT_READY"
    else if Busy(c.board) || c.ext.request != 0 then "BUSY"
    else if !MainIn(c.board.snapshot, mainAt) then "SHUTTING_DOWN"
    else if enabled && !BudgetIn(c.board.snapshot, budgetAt, negotiated, c.dcBudget) then "NOT_READY"
    else if !c.board.monitoring then "HARDWARE_ERROR" else "ACCEPTED"
  }
}
