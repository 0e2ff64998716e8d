/** A run in which a shutdown does not only take power away: the board starts up
    without a charging budget, a port is being enabled when a reboot is accepted,
    and the next tick comes five seconds later. */
module LateReboot {
  import opened Options
  import opened Bits
  import opened Clock
  import opened Voltages
  import opened Expander
  import opened Wire
  import opened PowerPolicy
  import opened Application
  import opened Requests
  import Board = BoardHardware
  import Grammar
  import Protocol
  import Printer
  import Replay
  import Framing
  import UsbOutput

  // ---- The policy's part ----

  const SEEN: Inputs := Inputs(true, true, Volts(0), false, true, false, false, false)

  /** A USB input with main selected, an empty bank and no charger power-good. */
  function Good(now: uint32): Board.Snapshot {
    Board.Snapshot(now, true, now, true, now, true, false, false, false, false, false, true,
                   false, false, false, false, true, 2000, 0, false)
  }

  const NO_BUDGET: Delivery := Delivery(false, false, Board.Result.Idle, false)

  const SILENT: Heard := Heard(false, false, false)

  const T1: uint32 := 10000
  const T2: uint32 := 10100
  const T3: uint32 := 10200
  const T4: uint32 := 15200

  /** Preparation pending since T1. */
  const PREPARING: State :=
    Begin(0, 0).(phase := ChargePrepare, at := Stamps(T1, 0, 0, 0), pending := Pending(PrepareCharging, 1),
                 pendingAt := T1, nextId := 1)

  /** Preparation failed at T2: charging is left for good. */
  const STOPPING: State :=
    PREPARING.(phase := JetsonStarting, pending := Pending(StopCharging, 2), pendingAt := T2, nextId := 2,
               issues := {ChargePreparationFailed}, charge := Charge(false, false, false, false, true, true))

  const STARTING: State :=
    STOPPING.(pending := Pending(EnableJetson, 3), pendingAt := T3, nextId := 3,
              charge := Charge(false, false, false, false, false, true), boot := Boot(false, false, true, false, false))

  const PINGING: State :=
    STARTING.(pending := Pending(PingJetson, 4), pendingAt := T3, nextId := 4,
              issues := {ChargePreparationFailed, JetsonEnableFailed}, boot := Boot(false, false, true, false, true))

  const RUNNING: State := PINGING.(phase := Running, pending := IDLE)

  /** A reboot was accepted at T3. */
  const REBOOTING: State := RequestReboot(RUNNING, T3)

  lemma TickPrepares()
    ensures Tick(Begin(0, 0), T1, SEEN) == PREPARING
    ensures Tick(PREPARING, T2, SEEN) == PREPARING
  {
  }

  lemma TickStops()
    ensures Tick(PREPARING.(outcome := Reported(false)), T2, SEEN) == STOPPING
    ensures Tick(STOPPING, T3, SEEN) == STOPPING
  {
    hide Dispatch;
    var s := Settle(PREPARING.(outcome := Reported(false)), T2, SEEN);
    assert s.issues == {ChargePreparationFailed};
    StopDispatched();
  }

  lemma StopDispatched()
    ensures Dispatch(STOPPING.(pending := IDLE, pendingAt := T1, nextId := 1,
                               charge := STOPPING.charge.(stopAttempted := false)),
                     T2, SEEN) == STOPPING
    ensures Dispatch(STOPPING, T3, SEEN) == STOPPING
  {
  }

  lemma TickStarts()
    ensures Tick(STOPPING.(outcome := Reported(true)), T3, SEEN) == STARTING
    ensures Tick(STARTING.(outcome := Reported(false)), T3, SEEN) == PINGING
  {
    hide Dispatch;
    assert Settle(STARTING.(outcome := Reported(false)), T3, SEEN).issues == PINGING.issues;
    StartDispatched();
  }

  lemma StartDispatched()
    ensures Dispatch(STOPPING.(pending := IDLE, charge := STARTING.charge), T3, SEEN) == STARTING
    ensures Dispatch(STARTING.(pending := IDLE, issues := PINGING.issues), T3, SEEN) == PINGING
  {
  }

  lemma TickRuns()
    ensures Tick(PINGING.(outcome := Reported(true)), T3, SEEN) == RUNNING
    ensures Tick(RUNNING, T3, SEEN) == RUNNING
  {
  }

  /** The first tick of the reboot is five seconds late: its request lapses. */
  lemma TickLapses()
    ensures var s := Tick(REBOOTING, T4, SEEN);
            s.phase == ShutdownWait && s.pending == IDLE && !s.boot.jetsonEnabled
  {
  }

  // ---- The loop's part ----

  /** The loop has taken up action `id`, and nothing else is going on. */
  predicate Calmly(c: Scene, s: State, id: uint32) {
    && c.s == s && c.act.id == id && c.act.stage == 0 && c.ext.request == 0 && c.clean.stage == 0 && !c.released
    && !c.dcBudget && c.board.monitoring
  }

  /** A loop in which a good reading arrives and the host said nothing. */
  ghost predicate Passes(c: Scene, told: Scene, d: Scene, now: uint32) {
    Looped(c, told, d, Some(Good(now)), NO_BUDGET, SILENT, now)
  }

  lemma Observed(c: Scene, now: uint32)
    ensures var t := Ticked(c, Some(Good(now)), NO_BUDGET, SILENT, now);
            t == c.(s := Tick(c.s, now, SEEN), board := c.board.(snapshot := Good(now)))
  {
    hide Tick;
  }

  /** Reconciliation stands before stage k. */
  predicate Reconciling(c: Scene, k: nat) {
    && Calmly(c, PREPARING, 1) && Board.Busy(c.board) && c.board.job.operation == Reconcile && c.board.job.stage == k
    && (k == 1 ==> c.board.ceOffAt == T1)
  }

  predicate Standing(c: Scene, s: State, id: uint32, result: Board.Result) {
    Calmly(c, s, id) && c.board.job.result == result && !Board.Busy(c.board) && Board.Off(c.board)
  }

  /** The first loop starts reconciling. */
  lemma FirstLoop(c: Scene, told: Scene, d: Scene)
    requires Passes(c, told, d, T1) && Calmly(c, Begin(0, 0), 0) && !Board.Busy(c.board)
    ensures Reconciling(d, 1)
  {
    Observed(c, T1);
    TickPrepares();
    hide Ticked, Tick, Worked;
    LoopedEarly(c, told, d, Some(Good(T1)), NO_BUDGET, SILENT, T1);
  }

  lemma ReconcileLoop(c: Scene, told: Scene, d: Scene, k: nat)
    requires Passes(c, told, d, T2) && Reconciling(c, k) && 1 <= k <= 7
    ensures if k < 7 then Reconciling(d, k + 1) else Standing(d, PREPARING, 1, Board.Result.Succeeded)
  {
    Observed(c, T2);
    TickPrepares();
    hide Ticked, Tick, Worked;
    LoopedEarly(c, told, d, Some(Good(T2)), NO_BUDGET, SILENT, T2);
  }

  /** No budget can be negotiated: preparation is reported as failed. */
  lemma RefusedLoop(c: Scene, told: Scene, d: Scene)
    requires Passes(c, told, d, T2) && Standing(c, PREPARING, 1, Board.Result.Succeeded)
    ensures Standing(d, PREPARING.(outcome := Reported(false)), 1, Board.Result.Succeeded)
  {
    Observed(c, T2);
    TickPrepares();
    hide Ticked, Tick, Worked;
    LoopedEarly(c, told, d, Some(Good(T2)), NO_BUDGET, SILENT, T2);
  }

  /** Charging is taken down: CE is off and decays. */
  lemma StopLoop(c: Scene, told: Scene, d: Scene)
    requires Passes(c, told, d, T2) && Standing(c, PREPARING.(outcome := Reported(false)), 1, Board.Result.Succeeded)
    ensures Calmly(d, STOPPING, 2) && Disabling(d)
  {
    Observed(c, T2);
    TickStops();
    hide Ticked, Tick, Worked;
    LoopedEarly(c, told, d, Some(Good(T2)), NO_BUDGET, SILENT, T2);
  }

  predicate Disabling(c: Scene) {
    && Board.Busy(c.board) && c.board.job.operation == DisableCharging && c.board.job.stage == 1
    && c.board.ceOffAt == T2
    && Board.Off(c.board)
  }

  lemma DecayedLoop(c: Scene, told: Scene, d: Scene)
    requires Passes(c, told, d, T3) && Calmly(c, STOPPING, 2) && Disabling(c)
    ensures Standing(d, STOPPING, 2, Board.Result.Succeeded)
  {
    Observed(c, T3);
    TickStops();
    hide Ticked, Tick, Worked;
    LoopedEarly(c, told, d, Some(Good(T3)), NO_BUDGET, SILENT, T3);
  }

  lemma StoppedLoop(c: Scene, told: Scene, d: Scene)
    requires Passes(c, told, d, T3) && Standing(c, STOPPING, 2, Board.Result.Succeeded)
    ensures Standing(d, STOPPING.(outcome := Reported(true)), 2, Board.Result.Succeeded)
  {
    Observed(c, T3);
    TickStops();
    hide Ticked, Tick, Worked;
    LoopedEarly(c, told, d, Some(Good(T3)), NO_BUDGET, SILENT, T3);
  }

  /** There is no budget for the Jetson's port either. */
  lemma StartLoop(c: Scene, told: Scene, d: Scene)
    requires Passes(c, told, d, T3) && Standing(c, STOPPING.(outcome := Reported(true)), 2, Board.Result.Succeeded)
    ensures Standing(d, STARTING.(outcome := Reported(false)), 3, Board.Result.Succeeded)
  {
    Observed(c, T3);
    TickStarts();
    hide Ticked, Tick, Worked;
    LoopedEarly(c, told, d, Some(Good(T3)), NO_BUDGET, SILENT, T3);
  }

  lemma PingLoop(c: Scene, told: Scene, d: Scene)
    requires Passes(c, told, d, T3) && Standing(c, STARTING.(outcome := Reported(false)), 3, Board.Result.Succeeded)
    ensures Standing(d, PINGING.(outcome := Reported(true)), 4, Board.Result.Succeeded)
  {
    Observed(c, T3);
    TickStarts();
    hide Ticked, Tick, Worked;
    LoopedEarly(c, told, d, Some(Good(T3)), NO_BUDGET, SILENT, T3);
  }

  lemma RunLoop(c: Scene, told: Scene, d: Scene)
    requires Passes(c, told, d, T3) && Standing(c, PINGING.(outcome := Reported(true)), 4, Board.Result.Succeeded)
    ensures Standing(d, RUNNING, 4, Board.Result.Succeeded) && d.board.snapshot == Good(T3)
  {
    Observed(c, T3);
    TickRuns();
    hide Ticked, Tick, Worked;
    LoopedEarly(c, told, d, Some(Good(T3)), NO_BUDGET, SILENT, T3);
  }

  /** VBUS is being enabled, before stage k. */
  predicate Enabling(c: Scene, k: nat) {
    && c.act.id == 4 && c.ext.request != 0 && c.clean.stage == 0 && !c.released && c.board.monitoring
    && Board.Busy(c.board) && Board.EnablesVbus(c.board) && c.board.job.stage == k && Board.Off(c.board)
  }

  lemma PortLoop(c: Scene, told: Scene, d: Scene)
    requires Passes(c, told, d, T3) && c.s == RUNNING && Enabling(c, 0)
    ensures d.s == RUNNING && Enabling(d, 2)
  {
    Observed(c, T3);
    TickRuns();
    hide Ticked, Tick, Worked;
    LoopedEarly(c, told, d, Some(Good(T3)), NO_BUDGET, SILENT, T3);
  }

  /** The shutdown that nobody takes up lets the port go on: VBUS is raised. */
  lemma LateLoop(c: Scene, told: Scene, d: Scene)
    requires Passes(c, told, d, T4) && c.s == REBOOTING && Enabling(c, 2)
    ensures !Shrinks(c.board.bank, d.board.bank)
    ensures !d.released && !d.s.boot.jetsonEnabled
  {
    Observed(c, T4);
    TickLapses();
    hide Ticked, Tick, Worked, Prepares, Operates, Arms, TakesUp, Cuts, Board.CalmReset, Board.CalmDisable,
         Board.CalmPrepare, Board.CalmPortOff, Board.CalmWait;
    LoopedEarly(c, told, d, Some(Good(T4)), NO_BUDGET, SILENT, T4);
  }

  // ---- The host's part ----

  const BOOT: string := "00000000"

  const ENABLE: Grammar.Request := Grammar.Request(Grammar.PortSet, 1, 0, 0, BOOT, "vbus", true)

  const REBOOT: Grammar.Request := Grammar.Request(Grammar.Reboot, 2, 0, 0, BOOT, "", false)

  function Sent(r: Grammar.Request): string { Printer.Print(r) + [Framing.LF] }

  /** Both requests fit one batch of bytes. */
  lemma SentFits()
    ensures Grammar.Sensible(ENABLE) && |Sent(ENABLE)| <= BATCH
    ensures Grammar.Sensible(REBOOT) && |Sent(REBOOT)| <= BATCH
  {
    EnableFits();
    RebootFits();
    hide Printer.Print;
  }

  lemma MemberWidth(m: Grammar.Member)
    requires m.before == "" && m.colon == "" && m.gap == "" && m.after == ""
    ensures |Grammar.MemberText(m)| == |Grammar.KeyName(m.key)| + 3 + |Grammar.ValueText(m.value)|
  {
  }

  lemma Widths(r: Grammar.Request, i: nat)
    requires i < |Printer.PrintedMembers(r)|
    ensures var m := Printer.PrintedMembers(r)[i];
            |Grammar.MemberText(m)| == |Grammar.KeyName(m.key)| + 3 + |Grammar.ValueText(m.value)|
    ensures Printer.PrintedMembers(r)[i] == Printer.Plain(r, Printer.KeyOrder(r.command)[i])
  {
    MemberWidth(Printer.PrintedMembers(r)[i]);
  }

  const ENABLE_SIZES: seq<nat> := [5, 6, 16, 20, 13, 14]

  lemma EnableWidth(i: nat)
    requires i < 6
    ensures |Printer.PrintedMembers(ENABLE)| == 6
    ensures |Grammar.MemberText(Printer.PrintedMembers(ENABLE)[i])| <= ENABLE_SIZES[i]
  {
    assert |Printer.PrintedMembers(ENABLE)| == 6;
    Widths(ENABLE, i);
    hide Grammar.MemberText;
  }

  lemma EnableFits()
    ensures |Printer.Print(ENABLE)| < BATCH
  {
    var members := Printer.PrintedMembers(ENABLE);
    assert |members| == 6;
    hide Grammar.MemberText;
    forall i | 0 <= i < 6
      ensures |Grammar.MemberText(members[i])| <= ENABLE_SIZES[i]
    {
      EnableWidth(i);
    }
    Printer.MembersSize(members, ENABLE_SIZES);
    assert Printer.Total(ENABLE_SIZES) == 80;
  }

  lemma RebootFits()
    ensures |Printer.Print(REBOOT)| < BATCH
  {
    var members, sizes := Printer.PrintedMembers(REBOOT), [5, 6, 14, 20];
    assert |members| == 4;
    forall i | 0 <= i < 4
      ensures |Grammar.MemberText(members[i])| <= sizes[i]
    {
      Widths(REBOOT, i);
      hide Grammar.MemberText;
    }
    hide Grammar.MemberText;
    Printer.MembersSize(members, sizes);
    assert Printer.Total(sizes) == 49;
  }

  // ---- The run ----

  /** With room for a reply, a short line is read whole. */
  lemma ReadWhole(t: Turn, r: Grammar.Request)
    requires Spoken(t, BOOT) && Grammar.Sensible(r) && t.segment == "" && t.input.bytes == Sent(r) && |Sent(r)| <= BATCH
    requires t.input.port.connected && t.queued <= UsbOutput.SLOTS - 2
    ensures t.n == |Sent(r)|
  {
    hide Printer.Print, Understanding, Framing.Lines, Framing.Partial, Asking, Answered, Grammar.Sensible, Offers,
         Spans;
    if t.n < |Sent(r)| {
      PrintedAsked(r);
      assert "" + t.input.bytes[..t.n] == Sent(r)[..t.n];
      assert t.n <= |Printer.Print(r)|;
      EmptyStream();
    }
  }

  /** And answered by what it says. */
  lemma OneLine(t: Turn, r: Grammar.Request)
    requires Spoken(t, BOOT) && Grammar.Sensible(r) && t.segment == "" && t.input.bytes == Sent(r) && |Sent(r)| <= BATCH
    requires t.input.port.connected && t.queued <= UsbOutput.SLOTS - 2
    ensures t.rest == "" && |t.handled| == 1
    ensures var h := t.handled[0];
            && h.line == Printer.Print(r) && h.before == t.mid && h.after == t.after && Resolved(r, h, BOOT)
            && h.negotiated == (r.id in t.input.offered) && t.began <= h.at <= h.later <= t.ended
  {
    hide Printer.Print, Understanding, Framing.Lines, Framing.Partial, Asking, Resolved, Grammar.Sensible;
    ReadWhole(t, r);
    PrintedAsked(r);
    assert "" + t.input.bytes[..t.n] == Sent(r);
  }

  /** The port request finds a running, idle board on a negotiated source. */
  lemma PortAsked(h: Handling)
    requires Resolved(ENABLE, h, BOOT) && h.negotiated && h.before.log == []
    requires Standing(h.before.scene, RUNNING, 4, Board.Result.Succeeded) && h.before.scene.board.snapshot == Good(T3)
    requires Ticks(h.at) == T3 == Ticks(h.later)
    ensures h.response == Response(1, true, "ACCEPTED") && h.after.talk == h.before.talk
    ensures h.after.scene.s == RUNNING && Enabling(h.after.scene, 0)
    ensures |h.after.log| == 1 && h.after.log[0].id == 1
  {
    hide Replay.Fingerprint;
  }

  /** The reboot request finds the board still running. */
  lemma RebootAsked(h: Handling)
    requires Resolved(REBOOT, h, BOOT) && |h.before.log| == 1 && h.before.log[0].id == 1
    requires h.before.scene.s == RUNNING && Enabling(h.before.scene, 2) && Ticks(h.at) == T3
    ensures h.response == Response(2, true, "ACCEPTED")
    ensures h.after.scene.s == REBOOTING && Enabling(h.after.scene, 2)
    ensures h.after.talk == h.before.talk.(shutdownId := h.after.talk.shutdownId)
  {
    hide Replay.Fingerprint;
  }

  datatype Run = Run(turns: seq<Turn>, inputs: seq<Input>)

  /** The server stands where the run from `start` has brought it. */
  ghost predicate Reached(run: Run, start: Setting, server: Server)
    reads server, server.loop, server.loop.manager, server.loop.board, server.loop.board.bus, server.replay,
          server.framer
  {
    && Rounds(run.turns, run.inputs, BOOT, true)
    && if run.turns == [] then server.Set() == start
       else run.turns[0].before == start && Requests.Ends(run.turns[|run.turns| - 1], server)
  }

  /** One more round. */
  method Next(server: Server, ghost run: Run, ghost start: Setting, input: Input)
      returns (ghost turn: Turn, ghost more: Run)
    requires server.Valid() && Reached(run, start, server) && server.bootId == BOOT
    requires server.loop.board.bus.benign && !server.loop.released
    modifies server, server.loop, server.loop.manager, server.loop.board, server.loop.board.bus, server.replay,
             server.replay.entries, server.output, server.output.slots, server.framer, server.framer.data
    ensures server.Valid() && Reached(more, start, server) && more.inputs == run.inputs + [input] && more.turns != []
    ensures turn.input == input && turn.before == old(server.Set()) && turn.after == server.Set()
    ensures server.handled == old(server.handled) + turn.handled && server.framer.segment == turn.rest
    ensures Taken(turn, BOOT) && server.Guarded()
    ensures server.output.connected == input.after.connected && (!server.output.connected ==> server.output.queue == [])
    ensures server.usbWasConnected == input.port.connected
    ensures turn.segment == if old(server.usbWasConnected) == input.port.connected then old(server.framer.segment)
                            else ""
    ensures turn.queued <= |old(server.output.queue)| + |input.frames|
    ensures |server.output.queue| <= turn.queued + 2 * |turn.handled| + (if input.telemetry then 1 else 0)
    ensures server.loop.board.bus.now == old(server.loop.board.bus.now) + input.pause
    ensures Rounded(turn, Ticks(server.loop.board.bus.now))
  {
    hide Server.Valid, Taken, Rounds, Server.Set, Server.Guarded, Rounded;
    turn := server.Round(input);
    RoundsSnoc(run.turns, run.inputs, turn, BOOT, true);
    more := Run(run.turns + [turn], run.inputs + [input]);
  }

  /** Before the host connects. */
  ghost predicate Unheard(server: Server)
    reads server, server.loop, server.loop.manager, server.loop.board, server.loop.board.bus, server.replay,
          server.replay.entries, server.output, server.output.slots, server.framer, server.framer.data
  {
    && server.Valid() && server.bootId == BOOT && server.loop.board.bus.benign && !server.loop.released
    && server.talk == Talk(0, false, false, false) && server.replay.log == [] && !server.usbWasConnected
    && server.output.queue == [] && server.framer.segment == "" && server.handled == []
  }

  function Quietude(pause: nat, at: uint32): Input {
    Input(pause, Some(Good(at)), NO_BUDGET, {}, [], false, PortState(false, 0, 0), PortState(false, 0, 0), "")
  }

  /** The loop's part of a round, and what the host then finds. */
  lemma TurnParts(t: Turn, at: uint32)
    requires Taken(t, BOOT) && Rounded(t, at) && !t.before.talk.ack && !t.before.talk.ready && !t.before.talk.pong
    requires !t.before.scene.released
    ensures Looped(t.before.scene, t.told, t.looped, t.input.polled, t.input.pd, SILENT, at)
    ensures !t.looped.released ==> Spoken(t, BOOT) && Ticks(t.began) == at == Ticks(t.ended) && t.began == t.ended
    ensures !InShutdown(t.looped.s) && !t.looped.released && !t.looped.s.boot.jetsonEnabled ==>
              t.mid == t.before.(scene := t.looped)
  {
    hide Looped, Spoken;
  }

  lemma QuietTurn(t: Turn, pause: nat, at: uint32)
    requires Taken(t, BOOT) && Rounded(t, at) && t.input == Quietude(pause, at) && t.segment == ""
    requires t.before.talk == Talk(0, false, false, false) && !t.before.scene.released
    ensures Passes(t.before.scene, t.told, t.looped, at)
    ensures !InShutdown(t.looped.s) && !t.looped.released && !t.looped.s.boot.jetsonEnabled ==>
              t.handled == [] && t.rest == "" && t.after == t.before.(scene := t.looped)
  {
    hide Looped, Framing.Lines, Framing.Partial, Asking, Rounded;
    TurnParts(t, at);
    EmptyStream();
    assert t.segment + t.input.bytes[..t.n] == "";
  }

  /** A round in which a good reading arrives and no host is there. */
  method Quietly(server: Server, ghost run: Run, ghost start: Setting, pause: nat, at: uint32)
      returns (ghost more: Run, ghost told: Scene, ghost looped: Scene)
    requires Unheard(server) && Reached(run, start, server) && at == Ticks(server.loop.board.bus.now + pause)
    modifies server, server.loop, server.loop.manager, server.loop.board, server.loop.board.bus, server.replay,
             server.replay.entries, server.output, server.output.slots, server.framer, server.framer.data
    ensures Reached(more, start, server) && more.inputs == run.inputs + [Quietude(pause, at)]
    ensures server.loop.board.bus.now == old(server.loop.board.bus.now) + pause
    ensures Passes(old(server.loop.Look()), told, looped, at)
    ensures !InShutdown(looped.s) && !looped.released && !looped.s.boot.jetsonEnabled ==>
              Unheard(server) && server.loop.Look() == looped
  {
    hide Server.Valid, Taken, Rounds, Server.Guarded, Rounded, Reached, Passes, Loop.Look;
    server.loop.Shown();
    ghost var turn;
    turn, more := Next(server, run, start, Quietude(pause, at));
    QuietTurn(turn, pause, at);
    server.loop.Shown();
    told, looped := turn.told, turn.looped;
  }

  /** Reconciliation: the first loop at T1, the others at T2. */
  method Reconciled(server: Server, ghost start: Setting) returns (ghost run: Run)
    requires Unheard(server) && server.Set() == start && server.loop.board.bus.now == T1
    requires Calmly(server.loop.Look(), Begin(0, 0), 0) && !Board.Busy(server.loop.Look().board)
    modifies server, server.loop, server.loop.manager, server.loop.board, server.loop.board.bus, server.replay,
             server.replay.entries, server.output, server.output.slots, server.framer, server.framer.data
    ensures Unheard(server) && Reached(run, start, server) && server.loop.board.bus.now == T2
    ensures Standing(server.loop.Look(), PREPARING, 1, Board.Result.Succeeded)
  {
    hide Unheard, Reached, Passes, Loop.Look, Reconciling, Standing;
    run := Run([], []);
    NothingYet(server, start);
    ghost var told, looped;
    ghost var c := server.loop.Look();
    run, told, looped := Quietly(server, run, start, 0, T1);
    FirstLoop(c, told, looped);
    ReconcilingCalm(looped, 1);
    for k := 1 to 8
      invariant Unheard(server) && Reached(run, start, server)
      invariant server.loop.board.bus.now == if k == 1 then T1 else T2
      invariant if k == 8 then Standing(server.loop.Look(), PREPARING, 1, Board.Result.Succeeded)
                else Reconciling(server.loop.Look(), k)
    {
      c := server.loop.Look();
      run, told, looped := Quietly(server, run, start, if k == 1 then 100 else 0, T2);
      ReconcileLoop(c, told, looped, k);
      if k < 7 {
        ReconcilingCalm(looped, k + 1);
      } else {
        StandingCalm(looped, PREPARING, 1, Board.Result.Succeeded);
      }
    }
  }

  lemma NothingYet(server: Server, start: Setting)
    requires server.Set() == start
    ensures Reached(Run([], []), start, server)
  {
  }

  lemma ReconcilingCalm(c: Scene, k: nat)
    requires Reconciling(c, k)
    ensures !InShutdown(c.s) && !c.released && !c.s.boot.jetsonEnabled
  {
  }

  lemma StandingCalm(c: Scene, s: State, id: uint32, result: Board.Result)
    requires Standing(c, s, id, result)
    ensures c.s == s && !c.released
  {
  }

  /** Charging is given up and taken down. */
  method TakenDown(server: Server, ghost start: Setting, ghost before: Run) returns (ghost run: Run)
    requires Unheard(server) && Reached(before, start, server) && server.loop.board.bus.now == T2
    requires Standing(server.loop.Look(), PREPARING, 1, Board.Result.Succeeded)
    modifies server, server.loop, server.loop.manager, server.loop.board, server.loop.board.bus, server.replay,
             server.replay.entries, server.output, server.output.slots, server.framer, server.framer.data
    ensures Unheard(server) && Reached(run, start, server) && server.loop.board.bus.now == T3
    ensures Standing(server.loop.Look(), STOPPING.(outcome := Reported(true)), 2, Board.Result.Succeeded)
  {
    hide Unheard, Reached, Passes, Loop.Look, Standing, Calmly, Disabling;
    ghost var told, looped;
    ghost var c := server.loop.Look();
    run, told, looped := Quietly(server, before, start, 0, T2);
    RefusedLoop(c, told, looped);
    StandingCalm(looped, PREPARING.(outcome := Reported(false)), 1, Board.Result.Succeeded);
    c := looped;
    run, told, looped := Quietly(server, run, start, 0, T2);
    StopLoop(c, told, looped);
    CalmlyStopping(looped);
    c := looped;
    run, told, looped := Quietly(server, run, start, 100, T3);
    DecayedLoop(c, told, looped);
    StandingCalm(looped, STOPPING, 2, Board.Result.Succeeded);
    c := looped;
    run, told, looped := Quietly(server, run, start, 0, T3);
    StoppedLoop(c, told, looped);
    StandingCalm(looped, STOPPING.(outcome := Reported(true)), 2, Board.Result.Succeeded);
  }

  lemma CalmlyStopping(c: Scene)
    requires Calmly(c, STOPPING, 2)
    ensures !InShutdown(c.s) && !c.released && !c.s.boot.jetsonEnabled
  {
  }

  /** The Jetson's port is refused, and the ping is the last step of the start-up. */
  method StartedUp(server: Server, ghost start: Setting, ghost before: Run) returns (ghost run: Run)
    requires Unheard(server) && Reached(before, start, server) && server.loop.board.bus.now == T3
    requires Standing(server.loop.Look(), STOPPING.(outcome := Reported(true)), 2, Board.Result.Succeeded)
    modifies server, server.loop, server.loop.manager, server.loop.board, server.loop.board.bus, server.replay,
             server.replay.entries, server.output, server.output.slots, server.framer, server.framer.data
    ensures Unheard(server) && Reached(run, start, server) && server.loop.board.bus.now == T3
    ensures Standing(server.loop.Look(), PINGING.(outcome := Reported(true)), 4, Board.Result.Succeeded)
  {
    hide Unheard, Reached, Passes, Loop.Look, Standing;
    ghost var told, looped;
    ghost var c := server.loop.Look();
    run, told, looped := Quietly(server, before, start, 0, T3);
    StartLoop(c, told, looped);
    StandingCalm(looped, STARTING.(outcome := Reported(false)), 3, Board.Result.Succeeded);
    c := looped;
    run, told, looped := Quietly(server, run, start, 0, T3);
    PingLoop(c, told, looped);
    StandingCalm(looped, PINGING.(outcome := Reported(true)), 4, Board.Result.Succeeded);
  }

  /** The host is there and sends one request. */
  function Speaking(at: uint32, r: Grammar.Request, offered: set<uint32>, frames: seq<bool>): Input {
    Input(0, Some(Good(at)), NO_BUDGET, offered, frames, false, PortState(true, 256, 256), PortState(true, 256, 256),
          Sent(r))
  }

  lemma SpeakingTurn(t: Turn, at: uint32, r: Grammar.Request, offered: set<uint32>, frames: seq<bool>)
    requires Taken(t, BOOT) && Rounded(t, at) && t.input == Speaking(at, r, offered, frames) && t.segment == ""
    requires t.before.talk == Talk(0, false, false, false) && !t.before.scene.released
    requires t.queued <= UsbOutput.SLOTS - 2
    requires Grammar.Sensible(r) && |Sent(r)| <= BATCH
    ensures Passes(t.before.scene, t.told, t.looped, at)
    ensures !InShutdown(t.looped.s) && !t.looped.released && !t.looped.s.boot.jetsonEnabled ==>
              && t.rest == "" && |t.handled| == 1
              && Said(t.handled[0], t.before.(scene := t.looped), t.after, at, r, offered)
  {
    hide Looped, Taken, Rounded, Spoken, Resolved, Printer.Print;
    TurnParts(t, at);
    if !t.looped.released {
      OneLine(t, r);
    }
  }

  /** The request as it was found, executed and left. */
  predicate Said(h: Handling, before: Setting, after: Setting, at: uint32, r: Grammar.Request, offered: set<uint32>) {
    && h.line == Printer.Print(r) && h.before == before && h.after == after && Resolved(r, h, BOOT)
    && h.negotiated == (r.id in offered) && Ticks(h.at) == at == Ticks(h.later)
  }

  /** A round in which the host sends one request. */
  method Ask(server: Server, ghost run: Run, ghost start: Setting, at: uint32, r: Grammar.Request, offered: set<uint32>,
             frames: seq<bool>)
      returns (ghost more: Run, ghost told: Scene, ghost looped: Scene)
    requires server.Valid() && Reached(run, start, server) && server.bootId == BOOT
    requires server.loop.board.bus.benign && !server.loop.released && at == Ticks(server.loop.board.bus.now)
    requires server.talk == Talk(0, false, false, false) && server.framer.segment == ""
    requires |server.output.queue| + |frames| <= UsbOutput.SLOTS - 2 && Grammar.Sensible(r) && |Sent(r)| <= BATCH
    modifies server, server.loop, server.loop.manager, server.loop.board, server.loop.board.bus, server.replay,
             server.replay.entries, server.output, server.output.slots, server.framer, server.framer.data
    ensures server.Valid() && Reached(more, start, server)
    ensures server.loop.board.bus.now == old(server.loop.board.bus.now)
    ensures server.Guarded() && Passes(old(server.loop.Look()), told, looped, at) && server.output.connected
    ensures !InShutdown(looped.s) && !looped.released && !looped.s.boot.jetsonEnabled ==>
              && |server.handled| == |old(server.handled)| + 1
              && server.handled[..|old(server.handled)|] == old(server.handled)
              && Said(server.handled[|old(server.handled)|], old(server.Set()).(scene := looped), server.Set(), at,
                      r, offered)
              && server.framer.segment == "" && |server.output.queue| <= |old(server.output.queue)| + |frames| + 2
  {
    hide Server.Valid, Taken, Rounds, Server.Guarded, Rounded, Reached, Passes, Loop.Look, Printer.Print,
         Grammar.Sensible, Said;
    server.loop.Shown();
    ghost var turn;
    turn, more := Next(server, run, start, Speaking(at, r, offered, frames));
    SpeakingTurn(turn, at, r, offered, frames);
    told, looped := turn.told, turn.looped;
  }

  /** The board runs; VBUS is asked for and granted, and its enable is started; a
      reboot is asked for and granted. */
  method Requested(server: Server, ghost start: Setting, ghost before: Run) returns (ghost run: Run)
    requires Unheard(server) && Reached(before, start, server) && server.loop.board.bus.now == T3
    requires Standing(server.loop.Look(), PINGING.(outcome := Reported(true)), 4, Board.Result.Succeeded)
    modifies server, server.loop, server.loop.manager, server.loop.board, server.loop.board.bus, server.replay,
             server.replay.entries, server.output, server.output.slots, server.framer, server.framer.data
    ensures server.Valid() && Reached(run, start, server) && server.bootId == BOOT && server.loop.board.bus.now == T3
    ensures server.loop.Look().s == REBOOTING && Enabling(server.loop.Look(), 2)
    ensures server.output.connected && server.framer.segment == "" && server.loop.board.bus.benign
    ensures !server.talk.ack && !server.talk.ready && !server.talk.pong
    ensures |server.handled| == 2
    ensures server.handled[0].line == Printer.Print(ENABLE)
    ensures server.handled[0].response == Response(1, true, "ACCEPTED")
    ensures server.handled[1].line == Printer.Print(REBOOT)
    ensures server.handled[1].response == Response(2, true, "ACCEPTED")
    ensures server.loop.onset.Some? && server.loop.onset.value.bank == Bank(ALL_OFF, ALL_OFF)
  {
    hide Server.Valid, Reached, Passes, Loop.Look, Printer.Print, Grammar.Sensible, Standing, Enabling, Resolved;
    SentFits();
    ghost var told, looped;
    ghost var c := server.loop.Look();
    run, told, looped := Ask(server, before, start, T3, ENABLE, {1}, [false]);
    RunLoop(c, told, looped);
    StandingCalm(looped, RUNNING, 4, Board.Result.Succeeded);
    PortAsked(server.handled[0]);
    c := server.loop.Look();
    EnablingBank(c, 0);
    server.loop.Shown();
    run, told, looped := Ask(server, run, start, T3, REBOOT, {}, []);
    PortLoop(c, told, looped);
    EnablingBank(looped, 2);
    RebootAsked(server.handled[1]);
    EnablingBank(server.loop.Look(), 2);
    server.loop.Shown();
  }

  lemma EnablingBank(c: Scene, k: nat)
    requires Enabling(c, k)
    ensures c.board.bank == Bank(ALL_OFF, ALL_OFF) && !c.released
  {
  }

  lemma LateTurn(t: Turn)
    requires Taken(t, BOOT) && Rounded(t, T4) && t.input == Quietude(5000, T4) && t.segment == ""
    requires !t.before.talk.ack && !t.before.talk.ready && !t.before.talk.pong && !t.before.scene.released
    ensures Passes(t.before.scene, t.told, t.looped, T4)
    ensures !t.looped.released ==> t.after.scene.board == t.looped.board
  {
    hide Looped, Framing.Lines, Framing.Partial, Asking, Rounded;
    TurnParts(t, T4);
    EmptyStream();
    assert t.segment + t.input.bytes[..t.n] == "";
  }

  /** Nobody takes the shutdown up in time: VBUS is raised in it. */
  method Raised(server: Server, ghost start: Setting, ghost before: Run) returns (ghost run: Run)
    requires server.Valid() && Reached(before, start, server) && server.bootId == BOOT
    requires server.loop.board.bus.now == T3
    requires server.loop.board.bus.benign && server.framer.segment == "" && server.output.connected
    requires server.loop.Look().s == REBOOTING && Enabling(server.loop.Look(), 2)
    requires !server.talk.ack && !server.talk.ready && !server.talk.pong
    modifies server, server.loop, server.loop.manager, server.loop.board, server.loop.board.bus, server.replay,
             server.replay.entries, server.output, server.output.slots, server.framer, server.framer.data
    ensures server.Valid() && Reached(run, start, server) && run.turns != []
    ensures server.loop.onset == old(server.loop.onset)
    ensures !Shrinks(old(server.loop.board.bus.bank), server.loop.board.bus.bank)
    ensures |server.handled| >= |old(server.handled)| && server.handled[..|old(server.handled)|] == old(server.handled)
  {
    hide Server.Valid, Taken, Rounds, Rounded, Reached, Passes, Loop.Look, Enabling, Shrinks;
    EnablingBank(server.loop.Look(), 2);
    server.loop.Shown();
    ghost var turn;
    ghost var c := server.loop.Look();
    turn, run := Next(server, before, start, Quietude(5000, T4));
    LateTurn(turn);
    LateLoop(c, turn.told, turn.looped);
    server.loop.Shown();
  }

  method Powered(retained: Bank) returns (server: Server)
    ensures Unheard(server) && server.loop.board.bus.now == T1
    ensures fresh(server) && fresh(server.loop) && fresh(server.loop.manager) && fresh(server.loop.board)
    ensures fresh(server.loop.board.bus) && fresh(server.replay) && fresh(server.replay.entries)
    ensures fresh(server.output) && fresh(server.output.slots) && fresh(server.framer) && fresh(server.framer.data)
    ensures Calmly(server.loop.Look(), Begin(0, 0), 0) && !Board.Busy(server.loop.Look().board)
    ensures server.Set() == Setting(PoweredUp(server.Set().scene.board), Talk(0, false, false, false), [])
    ensures Unconfigured(server.Set().scene.board, retained)
  {
    hide Server.Valid, Loop.Look;
    server := PowerUp(retained, T1, true, true, BOOT, 1);
    server.loop.Shown();
  }

  /** The seventeen rounds. */
  method Unfold(server: Server, ghost start: Setting) returns (ghost run: Run)
    requires Unheard(server) && server.Set() == start && server.loop.board.bus.now == T1
    requires Calmly(server.loop.Look(), Begin(0, 0), 0) && !Board.Busy(server.loop.Look().board)
    modifies server, server.loop, server.loop.manager, server.loop.board, server.loop.board.bus, server.replay,
             server.replay.entries, server.output, server.output.slots, server.framer, server.framer.data
    ensures server.Valid() && Reached(run, start, server) && run.turns != []
    ensures |server.handled| >= 2
    ensures server.handled[0].line == Printer.Print(ENABLE)
    ensures server.handled[0].response == Response(1, true, "ACCEPTED")
    ensures server.handled[1].line == Printer.Print(REBOOT)
    ensures server.handled[1].response == Response(2, true, "ACCEPTED")
    ensures server.loop.onset.Some? && !Shrinks(server.loop.onset.value.bank, server.loop.board.bus.bank)
  {
    hide Server.Valid, Standing, Enabling, Printer.Print, Shrinks, REBOOTING, Unheard, Calmly, Reached, Loop.Look;
    run := Reconciled(server, start);
    run := TakenDown(server, start, run);
    run := StartedUp(server, start, run);
    run := Requested(server, start, run);
    server.loop.Shown();
    EnablingBank(server.loop.Look(), 2);
    run := Raised(server, start, run);
  }

  /** From any retained registers there is such a run: the board reaches Running, a
      port request and then a reboot request are executed, the first tick of the
      shutdown comes five seconds late, and the driven set grows in the shutdown. */
  method RaisedInShutdown(retained: Bank) returns (server: Server, ghost run: Run)
    ensures Rounds(run.turns, run.inputs, BOOT, true) && run.turns != []
    ensures Unconfigured(run.turns[0].before.scene.board, retained)
    ensures run.turns[0].before == Setting(PoweredUp(run.turns[0].before.scene.board), Talk(0, false, false, false), [])
    ensures run.turns[|run.turns| - 1].after == server.Set()
    ensures |server.handled| >= 2
    ensures server.handled[0].line == Printer.Print(ENABLE)
    ensures server.handled[0].response == Response(1, true, "ACCEPTED")
    ensures server.handled[1].line == Printer.Print(REBOOT)
    ensures server.handled[1].response == Response(2, true, "ACCEPTED")
    ensures var loop := server.loop;
            && InShutdown(loop.manager.s) && loop.onset.Some? && loop.onset.value.armed && Late(loop.watch)
            && !Shrinks(loop.onset.value.bank, loop.board.bus.bank)
  {
    hide Server.Valid, Printer.Print, Late, Shrinks, Loop.Valid, Unheard, Calmly, PoweredUp, Rounds;
    server := Powered(retained);
    ghost var start := server.Set();
    run := Unfold(server, start);
    server.ServerStands();
    server.loop.RunStands();
  }
}
