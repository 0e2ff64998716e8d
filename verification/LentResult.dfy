/** How StopCharging comes to be answered with a port's result: a port request is
    accepted in the window between the end of the teardown and its report. */
module LentResult {
  import opened Options
  import opened Bits
  import opened Clock
  import opened Voltages
  import opened Expander
  import opened Wire
  import opened PowerPolicy
  import PolicyRuns
  import opened Application
  import Board = BoardHardware

  // ---- The policy gets there ----

  /** Running, with the stop of charging issued and not reported. */
  predicate StopPending(s: State) {
    && s.begun && s.phase == Phase.Running && s.pending == Pending(StopCharging, s.nextId) && s.outcome == Unreported
    && !s.charge.expected && s.charge.stopAttempted && s.boot.backupAttempted
  }

  /** A reading with main present, the boost converter up, and perhaps a charger fault. */
  function Reading(vcap: int, fault: bool): Inputs {
    Inputs(true, true, Volts(vcap), true, fault, false, false, false)
  }

  const PREPARED: State :=
    Begin(0, 0).(phase := ChargePrepare, at := Stamps(11000, 0, 0, 0), pending := Pending(EnableCharging, 2),
                 pendingAt := 11000, nextId := 2, charge := Charge(true, true, false, false, false, false))

  const CHARGED: State :=
    PREPARED.(phase := Charging, at := Stamps(11000, 12000, 12000, 0), pending := IDLE, progress := Volts(0),
              charge := Charge(true, true, true, false, false, false))

  const ARMING: State :=
    CHARGED.(phase := JetsonStarting, pending := Pending(ArmBackup, 3), pendingAt := 13000, nextId := 3,
             charge := Charge(true, true, true, true, false, false), boot := Boot(true, false, false, false, false))

  const ENABLING: State :=
    ARMING.(pending := Pending(EnableJetson, 4), pendingAt := 14000, nextId := 4,
            boot := Boot(true, true, true, false, false))

  const PINGED: State :=
    ENABLING.(pending := Pending(PingJetson, 5), pendingAt := 15000, nextId := 5,
              boot := Boot(true, true, true, true, true))

  const MAINTAINED: State := PINGED.(phase := Phase.Running, pending := IDLE)

  lemma Prepared()
    ensures Tick(Complete(Tick(Begin(0, 0), 10000, Reading(0, true)), 1, true), 11000, Reading(0, false)) == PREPARED
  {
  }

  lemma Charged()
    ensures Tick(Complete(PREPARED, 2, true), 12000, Reading(0, false)) == CHARGED
    ensures Tick(CHARGED, 13000, Reading(200001, false)) == ARMING
  {
  }

  lemma Armed()
    ensures Tick(Complete(ARMING, 3, true), 14000, Reading(200001, false)) == ENABLING
    ensures Tick(Complete(ENABLING, 4, true), 15000, Reading(200001, false)) == PINGED
  {
  }

  lemma Started()
    ensures Tick(Complete(PINGED, 5, true), 16000, Reading(200001, false)) == MAINTAINED
  {
  }

  lemma Faulted()
    ensures StopPending(Tick(MAINTAINED, 17000, Reading(200001, true)))
  {
  }

  /** Charging to above 20 V, the backup, the Jetson and its ping, then a charger fault. */
  const STARTUP: seq<PolicyRuns.Event> :=
    [PolicyRuns.Ticked(10000, Reading(0, true)), PolicyRuns.Completed(1, true),
     PolicyRuns.Ticked(11000, Reading(0, false)), PolicyRuns.Completed(2, true),
     PolicyRuns.Ticked(12000, Reading(0, false)),
     PolicyRuns.Ticked(13000, Reading(200001, false)), PolicyRuns.Completed(3, true),
     PolicyRuns.Ticked(14000, Reading(200001, false)), PolicyRuns.Completed(4, true),
     PolicyRuns.Ticked(15000, Reading(200001, false)), PolicyRuns.Completed(5, true),
     PolicyRuns.Ticked(16000, Reading(200001, false)), PolicyRuns.Ticked(17000, Reading(200001, true))]

  function After(n: nat): State
    requires n <= |STARTUP|
  {
    PolicyRuns.Run(Begin(0, 0), STARTUP[..n])
  }

  lemma NextEvent(n: nat)
    requires n < |STARTUP|
    ensures After(n + 1) == PolicyRuns.Apply(After(n), STARTUP[n])
  {
    assert STARTUP[..n + 1][..n] == STARTUP[..n];
  }

  lemma PreparedAfter()
    ensures After(3) == PREPARED
  {
    hide Tick, Complete;
    assert After(0) == Begin(0, 0);
    NextEvent(0);
    NextEvent(1);
    NextEvent(2);
    Prepared();
    hide After;
  }

  lemma ChargedAfter()
    ensures After(6) == ARMING
  {
    hide Tick, Complete, After;
    PreparedAfter();
    NextEvent(3);
    NextEvent(4);
    NextEvent(5);
    Charged();
  }

  lemma MaintainedAfter()
    ensures After(12) == MAINTAINED
  {
    hide Tick, Complete, After;
    ChargedAfter();
    NextEvent(6);
    NextEvent(7);
    NextEvent(8);
    NextEvent(9);
    NextEvent(10);
    NextEvent(11);
    Armed();
    Started();
  }

  /** The policy reaches that state. */
  lemma StopPendingReached()
    ensures StopPending(PolicyRuns.Run(Begin(0, 0), STARTUP))
  {
    MaintainedAfter();
    NextEvent(12);
    Faulted();
    assert STARTUP[..13] == STARTUP;
    hide Tick, StopPending;
  }

  // ---- The loop is there ----

  /** A reading with main on USB; `backed` while the backed converter is up. */
  function Main(now: uint32, backed: bool): Board.Snapshot {
    Board.Snapshot(now, true, now, true, now, true, false, true, false, false, false, backed,
                   false, false, false, false, true, 2000, 201000, false)
  }

  /** The stop was taken up, and its teardown is one call from its end. */
  predicate Window(c: Scene, now: uint32) {
    && Waiting(c, now) && c.ext.request == 0 && Board.Busy(c.board) && c.board.job.operation == DisableCharging
    && c.board.job.stage == 1 && !Board.Decaying(c.board, now)
  }

  predicate Waiting(c: Scene, now: uint32) {
    && StopPending(c.s) && c.act.id == c.s.nextId && !c.released && c.board.monitoring
    && Elapsed(now, c.s.pendingAt) < ACTION_TIMEOUT_MS
  }

  lemma TickWaits(s: State, now: uint32, input: Inputs)
    requires StopPending(s) && Elapsed(now, s.pendingAt) < ACTION_TIMEOUT_MS
    requires input.statusValid && input.mainPresent && VoltageValid(input.vcap) && !input.jetsonPong
    ensures Tick(s, now, input) == s
  {
  }

  /** A loop in which main stays and the host said nothing. */
  ghost predicate Passes(c: Scene, told: Scene, d: Scene, backed: bool, pd: Delivery, now: uint32) {
    Looped(c, told, d, Some(Main(now, backed)), pd, Heard(false, false, false), now)
  }

  lemma Observed(c: Scene, backed: bool, pd: Delivery, now: uint32)
    requires Waiting(c, now)
    ensures Ticked(c, Some(Main(now, backed)), pd, Heard(false, false, false), now)
            == c.(board := c.board.(snapshot := Main(now, backed)))
  {
    var p := c.(board := c.board.(snapshot := Main(now, backed)));
    TickWaits(c.s, now, Seen(p, pd, Heard(false, false, false), now, now, now));
    hide Tick;
  }

  /** The teardown ends well, and nobody has told the policy yet. */
  lemma TeardownEnds(c: Scene, told: Scene, d: Scene, pd: Delivery, now: uint32)
    requires Passes(c, told, d, true, pd, now) && Window(c, now)
    ensures d == c.(board := d.board) && Waiting(d, now) && d.board.snapshot == Main(now, true)
    ensures d.board.job.operation == DisableCharging && d.board.job.result == Board.Result.Succeeded
    ensures PortCode(d, true, true, now, now) == "ACCEPTED"
  {
    Observed(c, true, pd, now);
    hide Ticked, Tick, Worked;
    LoopedEarly(c, told, d, Some(Main(now, true)), pd, Heard(false, false, false), now);
  }

  /** The port fails without the backed converter. */
  lemma PortFails(c: Scene, told: Scene, d: Scene, pd: Delivery, now: uint32)
    requires Passes(c, told, d, false, pd, now) && Waiting(c, now) && Board.Busy(c.board) && Board.EnablesVbus(c.board)
    ensures d == c.(board := d.board) && Waiting(d, now) && Board.EnablesVbus(d.board)
    ensures d.board.job.result == Board.Result.Failed
  {
    Observed(c, false, pd, now);
    hide Ticked, Tick, Worked;
    LoopedEarly(c, told, d, Some(Main(now, false)), pd, Heard(false, false, false), now);
  }

  /** And its failure is what the policy hears of the stop. */
  lemma FailureTold(c: Scene, told: Scene, d: Scene, pd: Delivery, now: uint32)
    requires Passes(c, told, d, false, pd, now) && Waiting(c, now) && c.board.job.result == Board.Result.Failed
    ensures d.s == c.s.(outcome := Reported(false)) && d.ext == c.ext
  {
    Observed(c, false, pd, now);
    hide Ticked, Tick, Worked;
    LoopedEarly(c, told, d, Some(Main(now, false)), pd, Heard(false, false, false), now);
  }

  /** One loop that is waiting for the stop. */
  method Pass(loop: Loop, backed: bool, pd: Delivery) returns (ghost told: Scene)
    requires loop.Valid() && loop.board.bus.benign && !loop.released
    modifies loop, loop.manager, loop.board, loop.board.bus
    ensures loop.Valid() && loop.board.bus.now == old(loop.board.bus.now)
    ensures Passes(old(loop.Look()), told, loop.Look(), backed, pd, Ticks(loop.board.bus.now))
  {
    hide Loop.Valid, Loop.Look, Looped;
    var now := loop.Millis();
    ghost var when;
    when, told := loop.Iterate(Some(Main(now, backed)), pd, Heard(false, false, false));
  }

  /** The teardown of charging succeeds, and a port request is accepted before
      anybody has told the policy. */
  method PortAccepted(loop: Loop, pd: Delivery) returns (ghost ended: Board.Job)
    requires loop.Valid() && loop.board.bus.benign && Window(loop.Look(), Ticks(loop.board.bus.now))
    modifies loop, loop.manager, loop.board, loop.board.bus
    ensures loop.Valid() && ended.operation == DisableCharging && ended.result == Board.Result.Succeeded
    ensures loop.board.bus.now == old(loop.board.bus.now) && Waiting(loop.Look(), Ticks(loop.board.bus.now))
    ensures loop.Look().s == old(loop.Look()).s && loop.Look().ext == PortRequest(1, Vbus, true)
    ensures Board.Busy(loop.Look().board) && Board.EnablesVbus(loop.Look().board)
  {
    hide Loop.Valid, Passes, Loop.Look, StopPending, Board.Decaying;
    loop.Shown();
    ghost var c := loop.Look();
    ghost var told := Pass(loop, true, pd);
    TeardownEnds(c, told, loop.Look(), pd, Ticks(loop.board.bus.now));
    ended := loop.Look().board.job;
    Shown(loop);
    var code;
    ghost var mainT, budgetT;
    code, mainT, budgetT := loop.RequestPort(1, Vbus, true, true);
    Shown(loop);
  }

  lemma Shown(loop: Loop)
    ensures loop.Look().ext == loop.ext && loop.Look().board == loop.board.Look()
    ensures loop.Look().board.job == loop.board.job
  {
  }

  /** From any such loop: charging is taken down, the port request is accepted, the
      port fails, and the stop is reported as failed. */
  method StopLent(loop: Loop, pd: Delivery) returns (ghost ended: Board.Job)
    requires loop.Valid() && loop.board.bus.benign && Window(loop.Look(), Ticks(loop.board.bus.now))
    modifies loop, loop.manager, loop.board, loop.board.bus
    ensures loop.Valid() && ended.operation == DisableCharging && ended.result == Board.Result.Succeeded
    ensures loop.ext == PortRequest(1, Vbus, true)
    ensures loop.manager.s == old(loop.manager.s).(outcome := Reported(false))
    ensures old(loop.manager.s).pending.kind == StopCharging && old(loop.manager.s).outcome == Unreported
  {
    hide Loop.Valid, Passes, Loop.Look, StopPending, Board.Decaying;
    loop.Shown();
    StopShown(loop);
    ended := PortAccepted(loop, pd);
    loop.Shown();
    ghost var c := loop.Look();
    ghost var told := Pass(loop, false, pd);
    PortFails(c, told, loop.Look(), pd, Ticks(loop.board.bus.now));
    loop.Shown();
    c := loop.Look();
    told := Pass(loop, false, pd);
    FailureTold(c, told, loop.Look(), pd, Ticks(loop.board.bus.now));
    loop.Shown();
    Shown(loop);
  }

  lemma StopShown(loop: Loop)
    requires StopPending(loop.Look().s)
    ensures loop.manager.s.pending.kind == StopCharging && loop.manager.s.outcome == Unreported
  {
  }
}
