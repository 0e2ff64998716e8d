/** What the loop makes of a reading, condition by condition and without reference to
    the functions it is computed by: when charging goes on, when main counts as lost,
    and when an output may be asked for. */
module LoopLaws {
  import opened Options
  import opened Clock
  import opened Voltages
  import opened PowerPolicy
  import opened PolicyLaws
  import opened PolicyFacts
  import Board = BoardHardware
  import App = Application
  import Requests

  /** The expander was read at most 350 ms ago, and main is selected and good. */
  predicate MainRead(s: Board.Snapshot, at: uint32) {
    s.internalValid && (at - s.internalAt) % 0x1_0000_0000 <= 350 && s.mainSelected && (s.usbPg || s.dcPg)
  }

  /** The one good input has its budget: a negotiated one on USB, the configured one on DC. */
  predicate Budgeted(s: Board.Snapshot, at: uint32, negotiated: bool, configured: bool) {
    MainRead(s, at) && ((s.usbPg && !s.dcPg && negotiated) || (s.dcPg && !s.usbPg && configured))
  }

  /** The reading shows a charger that is well: read in time, both power-goods, the real
      thermistor and the voltage in range; and once the charger is expected on, a budget
      and, in a sample no older than the enable, the controls as charging leaves them. */
  predicate ChargerWell(c: App.Scene, negotiated: bool, statusAt: uint32, budgetAt: uint32) {
    var s := c.board.snapshot;
    && s.internalValid && (statusAt - s.atMs) % 0x1_0000_0000 <= 350
    && s.boostPg && s.chargerPg && 1300 <= s.tsMv <= 2350 && s.vcap < 210000
    && (c.clean.chargeExpected ==>
          && Budgeted(s, budgetAt, negotiated, c.dcBudget)
          && ((s.internalAt - c.clean.chargeEnabledAt) % 0x1_0000_0000 < 0x8000_0000 ==> s.charging))
  }

  /** Main is known to be lost: the last poll is recent, and shows the mux off main, or
      an expander that was read and no live main behind it. */
  predicate MainGone(s: Board.Snapshot, statusAt: uint32, mainAt: uint32) {
    && (statusAt - s.atMs) % 0x1_0000_0000 <= 350
    && (!s.mainSelected || (s.internalValid && !MainRead(s, mainAt)))
  }

  /** The loop's scene as its tick sees it. */
  function Polled(a: App.Scene, polled: Option<Board.Snapshot>): App.Scene {
    a.(board := App.Polled(a.board, polled))
  }

  function Told(a: App.Scene, polled: Option<Board.Snapshot>, pd: App.Delivery, heard: App.Heard,
                m: App.Moments): Inputs
  {
    App.Seen(Polled(a, polled), pd, heard, Ticks(m.statusT), Ticks(m.mainT), Ticks(m.budgetT))
  }

  lemma ReadingTold(a: App.Scene, polled: Option<Board.Snapshot>, pd: App.Delivery, heard: App.Heard, m: App.Moments)
    ensures var c, input := Polled(a, polled), Told(a, polled, pd, heard, m);
            && Fit(c.s, input) == ChargerWell(c, pd.healthy, Ticks(m.statusT), Ticks(m.budgetT))
            && MainLost(input) == MainGone(c.board.snapshot, Ticks(m.statusT), Ticks(m.mainT))
            && input.boostPowerGood == c.board.snapshot.boostPg && input.vcap == Volts(c.board.snapshot.vcap)
            && input.shutdownAck == heard.ack && input.finalReady == heard.ready && input.jetsonPong == heard.pong
  {
  }

  /** A loop that finds the policy charging, with no result to take and main not lost,
      leaves it charging exactly if the charger is well, the voltage rises in time and
      boost is not late; otherwise charging has ended and the stop is ordered in it. */
  lemma ChargingWatched(a: App.Scene, t: State, polled: Option<Board.Snapshot>, pd: App.Delivery, heard: App.Heard,
                        m: App.Moments)
    requires App.TickedOnce(a, t, polled, pd, heard, m) && Sound(a.s) && OnCharge(a.s)
    requires !InShutdown(a.s) && a.s.phase != Settling && Quiet(a.s, Ticks(m.tickT))
    requires !MainGone(Polled(a, polled).board.snapshot, Ticks(m.statusT), Ticks(m.mainT))
    ensures var c, now, input := Polled(a, polled), Ticks(m.tickT), Told(a, polled, pd, heard, m);
            if ChargerWell(c, pd.healthy, Ticks(m.statusT), Ticks(m.budgetT)) && InTime(a.s, now, input)
               && !BoostLate(a.s, now, input)
            then t.charge.expected == a.s.charge.expected && t.charge.prepared && !t.charge.stopNeeded
            else && !t.charge.expected && t.phase != Charging && t.phase != ChargePrepare
                 && t.pending.kind == StopCharging && t.nextId == NextId(a.s.nextId) && t.charge.stopAttempted
  {
    var now, input := Ticks(m.tickT), Told(a, polled, pd, heard, m);
    ReadingTold(a, polled, pd, heard, m);
    hide Tick, App.Seen, Fit, MainLost, ReasonOf, NotedOnly, NotedFor;
    ChargingGoesOn(a.s, now, input);
  }

  /** After the settling time a loop starts the shutdown for a lost main, whatever is
      pending, and for nothing else; the request to the Jetson is ordered in it. */
  lemma LossActedOn(a: App.Scene, t: State, polled: Option<Board.Snapshot>, pd: App.Delivery, heard: App.Heard,
                    m: App.Moments)
    requires App.TickedOnce(a, t, polled, pd, heard, m) && Sound(a.s) && !InShutdown(a.s) && a.s.phase != Settling
    ensures InShutdown(t) <==> MainGone(Polled(a, polled).board.snapshot, Ticks(m.statusT), Ticks(m.mainT))
    ensures InShutdown(t) ==>
              && t.phase == ShutdownWait && t.reason == MainLoss && t.at.shutdown == Ticks(m.tickT)
              && t.pending.kind == RequestJetsonShutdown && !t.charge.expected
  {
    var now, input := Ticks(m.tickT), Told(a, polled, pd, heard, m);
    ReadingTold(a, polled, pd, heard, m);
    hide Tick, App.Seen, Fit, NotedOnly, NotedFor;
    LossShutsDown(a.s, now, input);
  }

  /** In the wait of a shutdown the loop takes note of what the host said, and cuts power
      at 60 s and not before, whatever it said. */
  lemma RepliesNoted(a: App.Scene, t: State, polled: Option<Board.Snapshot>, pd: App.Delivery, heard: App.Heard,
                     m: App.Moments)
    requires App.TickedOnce(a, t, polled, pd, heard, m) && Sound(a.s) && a.s.phase == ShutdownWait
    ensures t.link.ackSeen == (a.s.link.ackSeen || heard.ack)
    ensures t.link.readySeen == (a.s.link.readySeen || heard.ready)
    ensures t.link.pongSeen == (a.s.link.pongSeen || heard.pong)
    ensures t.phase == if Elapsed(Ticks(m.tickT), a.s.at.shutdown) >= 60000 then PowerOff else ShutdownWait
  {
    ReadingTold(a, polled, pd, heard, m);
    hide Tick, App.Seen, Fit, MainLost, NotedOnly, NotedFor;
    var r := WaitGoesOn(a.s, Ticks(m.tickT), Told(a, polled, pd, heard, m));
  }

  /** What the host's accepted messages said before a round of a shutdown's wait, the
      policy knows after it. */
  lemma SaidIsNoted(t: Requests.Turn, bootId: string)
    requires Requests.Taken(t, bootId) && !t.before.scene.released
    requires Sound(t.before.scene.s) && t.before.scene.s.phase == ShutdownWait
    ensures t.looped.s.link.ackSeen == (t.before.scene.s.link.ackSeen || t.before.talk.ack)
    ensures t.looped.s.link.readySeen == (t.before.scene.s.link.readySeen || t.before.talk.ready)
    ensures t.looped.s.link.pongSeen == (t.before.scene.s.link.pongSeen || t.before.talk.pong)
    ensures !t.mid.talk.ack && !t.mid.talk.ready && !t.mid.talk.pong
  {
    hide Sound, App.TickedOnce, App.Tells, App.Tidied, Requests.Spoken;
    RepliesNoted(t.before.scene, t.looped.s, t.input.polled, t.input.pd, Requests.HostSaid(t.before.talk), t.when);
  }

  /** A port may be switched exactly on a running, idle and monitored board with no
      request open and main live, and on only with a budget for its one good input. */
  lemma PortGranted(c: App.Scene, enabled: bool, negotiated: bool, mainAt: uint32, budgetAt: uint32)
    ensures App.PortCode(c, enabled, negotiated, mainAt, budgetAt) == "ACCEPTED" <==>
      && c.s.phase == Phase.Running && c.board.job.result != Board.Result.Running && c.ext.request == 0
      && MainRead(c.board.snapshot, mainAt) && c.board.monitoring
      && (enabled ==> Budgeted(c.board.snapshot, budgetAt, negotiated, c.dcBudget))
  {
  }
}
