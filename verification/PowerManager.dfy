/** The deployment power policy: a pure state machine driven by ticks, action
    completions and reboot requests. The functions say what each entry point does
    to the state; class Manager is the machine that updates it in place. */
module PowerPolicy {
  import opened Clock
  import opened Voltages

  datatype Phase = Settling | ChargePrepare | Charging | JetsonStarting | Running | ShutdownWait | PowerOff

  datatype Action =
    | NoAction | PrepareCharging | EnableCharging | StopCharging | ArmBackup | EnableJetson | PingJetson
    | RequestJetsonShutdown | CutPower

  datatype Reason = NoReason | MainLoss | FullReboot

  datatype Issue =
    | StatusUnavailable | InvalidVoltage | ChargePreparationFailed | ChargerEnableFailed | ChargerFault
    | ChargeNoRise | ChargeStopFailed | BackupArmFailed | JetsonEnableFailed | JetsonPingFailed
    | ShutdownRequestFailed | PowerOffFailed | ActionTimedOut | BoostPowerGoodTimeout | ChargeOvervoltage
    | ChargeTimeLimit | MainUnavailableAtStartup

  datatype Inputs = Inputs(
    statusValid: bool, mainPresent: bool, vcap: Voltage, boostPowerGood: bool, chargeFault: bool,
    shutdownAck: bool, finalReady: bool, jetsonPong: bool)

  datatype Pending = Pending(kind: Action, id: uint32)

  datatype Outcome = Unreported | Reported(success: bool)

  datatype Stamps = Stamps(phase: uint32, charge: uint32, progress: uint32, shutdown: uint32)

  datatype Charge = Charge(
    prepared: bool, enableAttempted: bool, expected: bool, maintenance: bool, stopNeeded: bool, stopAttempted: bool)

  datatype Boot = Boot(
    backupAttempted: bool, backupArmed: bool, jetsonAttempted: bool, jetsonEnabled: bool, pingAttempted: bool)

  datatype Link = Link(pongSeen: bool, ackSeen: bool, readySeen: bool, requestSent: bool)

  datatype State = State(
    begun: bool, phase: Phase, reason: Reason, pending: Pending, pendingAt: uint32, outcome: Outcome, nextId: uint32,
    issues: set<Issue>, at: Stamps, progress: Voltage, charge: Charge, boot: Boot, link: Link)

  const SETTLING_MS: nat := 10000
  const NO_RISE_MS: nat := 10000
  const SIGNIFICANT_RISE: int := 1000
  const CHARGE_TARGET: int := 200000
  const MAXIMUM: int := 210000
  const BACKUP_ARM: int := 100000
  const MAXIMUM_CHARGE_MS: nat := 7200000
  const SHUTDOWN_MS: nat := 60000
  const ACTION_TIMEOUT_MS: nat := 5000
  const PREPARE_TIMEOUT_MS: nat := 15000
  const BOOST_PG_TIMEOUT_MS: nat := 2000

  const IDLE: Pending := Pending(NoAction, 0)

  function Fresh(nextId: uint32): State {
    State(false, Settling, NoReason, IDLE, 0, Unreported, nextId, {}, Stamps(0, 0, 0, 0), Volts(0),
          Charge(false, false, false, false, false, false), Boot(false, false, false, false, false),
          Link(false, false, false, false))
  }

  function Begin(previousId: uint32, now: uint32): State {
    Fresh(previousId).(begun := true, at := Stamps(now, 0, 0, 0))
  }

  predicate InShutdown(s: State) { s.phase == ShutdownWait || s.phase == PowerOff }

  // ---- Building blocks ----

  function Cancel(s: State): State {
    s.(pending := IDLE, outcome := Unreported)
  }

  /** Ids are never zero: the counter skips it when it wraps. */
  function NextId(id: uint32): uint32 {
    if id + 1 == WRAP then 1 else id + 1
  }

  function IssueAction(s: State, a: Action, now: uint32): State {
    Cancel(s).(nextId := NextId(s.nextId), pending := Pending(a, NextId(s.nextId)), pendingAt := now)
  }

  function Complete(s: State, id: uint32, success: bool): State {
    if s.pending.kind == NoAction || s.pending.id != id || s.outcome.Reported? then s
    else s.(outcome := Reported(success))
  }

  function Note(s: State, happened: bool, issue: Issue): State {
    if happened then s.(issues := s.issues + {issue}) else s
  }

  /** A startup step interrupted by a charger issue has not been attempted. */
  function Retry(s: State): State {
    s.(boot := s.boot.(
         jetsonAttempted := s.boot.jetsonAttempted && s.pending.kind != EnableJetson,
         pingAttempted := s.boot.pingAttempted && s.pending.kind != PingJetson,
         backupAttempted := s.boot.backupAttempted && s.pending.kind != ArmBackup))
  }

  function Leave(s: State, issue: Issue): State {
    Cancel(Retry(Note(s, true, issue))).(
      phase := if s.phase == ChargePrepare || s.phase == Charging then JetsonStarting else s.phase,
      charge := Charge(s.charge.prepared, s.charge.enableAttempted, false, false, true, false))
  }

  function StartShutdown(s: State, now: uint32, reason: Reason): State {
    IssueAction(s.(
      phase := ShutdownWait, reason := reason, at := s.at.(shutdown := now),
      link := Link(s.link.pongSeen, false, false, false),
      charge := s.charge.(expected := false, maintenance := false)), RequestJetsonShutdown, now)
  }

  predicate RebootAccepted(s: State) { s.begun && !InShutdown(s) }

  function RequestReboot(s: State, now: uint32): State {
    if RebootAccepted(s) then StartShutdown(s, now, FullReboot) else s
  }

  function Finish(s0: State, success: bool, now: uint32, input: Inputs): State {
    var s := Cancel(s0);
    match s0.pending.kind
    case PrepareCharging =>
      if success then s.(charge := s.charge.(prepared := true), at := s.at.(phase := now))
      else Leave(s, ChargePreparationFailed)
    case EnableCharging =>
      if success then s.(phase := Charging, charge := s.charge.(expected := true),
                         at := s.at.(charge := now, progress := now), progress := input.vcap)
      else Leave(s, ChargerEnableFailed)
    case StopCharging => Note(s, !success, ChargeStopFailed).(charge := s.charge.(stopNeeded := false))
    case ArmBackup => Note(s, !success, BackupArmFailed).(boot := s.boot.(backupArmed := success))
    case EnableJetson => Note(s, !success, JetsonEnableFailed).(boot := s.boot.(jetsonEnabled := success))
    case PingJetson => Note(s, !success, JetsonPingFailed).(phase := Running)
    case RequestJetsonShutdown => Note(s, !success, ShutdownRequestFailed).(link := s.link.(requestSent := success))
    case CutPower => Note(s, !success, PowerOffFailed)
    case NoAction => s
  }

  // ---- A tick, in its stages ----

  function NoteIssues(s: State, input: Inputs): State {
    Note(Note(s, !input.statusValid, StatusUnavailable),
         input.statusValid && !VoltageValid(input.vcap), InvalidVoltage)
  }

  function LeaveSettling(s: State, now: uint32, input: Inputs): State {
    if s.phase != Settling then s
    else Note(s.(phase := ChargePrepare, at := s.at.(phase := now)),
              input.statusValid && !input.mainPresent, MainUnavailableAtStartup)
  }

  function DetectLoss(s: State, now: uint32, input: Inputs): State {
    if s.phase != ShutdownWait && input.statusValid && !input.mainPresent then StartShutdown(s, now, MainLoss) else s
  }

  function TimeoutOf(a: Action): nat {
    if a == PrepareCharging then PREPARE_TIMEOUT_MS else ACTION_TIMEOUT_MS
  }

  /** Takes a reported result, or gives up on an action that took too long. */
  function Settle(s: State, now: uint32, input: Inputs): State {
    if s.outcome.Reported? then Finish(s, s.outcome.success, now, input)
    else if s.pending.kind != NoAction && Elapsed(now, s.pendingAt) >= TimeoutOf(s.pending.kind) then
      Finish(Note(s, true, ActionTimedOut), false, now, input)
    else s
  }

  function Replies(s: State, input: Inputs): State {
    s.(link := s.link.(ackSeen := s.link.ackSeen || input.shutdownAck,
                       readySeen := s.link.readySeen || input.finalReady))
  }

  function ShutdownTick(s0: State, now: uint32, input: Inputs): State {
    var s := Replies(s0, input);
    if Elapsed(now, s.at.shutdown) >= SHUTDOWN_MS then IssueAction(s.(phase := PowerOff), CutPower, now)
    else Settle(s, now, input)
  }

  function CheckHealth(s: State, input: Inputs): State {
    if !((s.phase == ChargePrepare && s.charge.prepared) || s.phase == Charging || s.charge.expected) then s
    else if !input.statusValid then Leave(s, StatusUnavailable)
    else if !VoltageValid(input.vcap) then Leave(s, InvalidVoltage)
    else if input.vcap.v >= MAXIMUM then Leave(s, ChargeOvervoltage)
    else if (s.charge.prepared || s.phase == Charging) && input.chargeFault then Leave(s, ChargerFault)
    else if s.charge.expected && !input.boostPowerGood then Leave(s, ChargerFault)
    else if s.phase == Charging && input.vcap.v > CHARGE_TARGET then
      s.(charge := s.charge.(maintenance := true), phase := JetsonStarting)
    else s
  }

  /** The voltage rose by at least 0.10 V above the last progress mark. */
  predicate Rose(s: State, input: Inputs) {
    input.vcap.Volts? && s.progress.Volts? && input.vcap.v >= s.progress.v + SIGNIFICANT_RISE
  }

  function CheckProgress(s: State, now: uint32, input: Inputs): State {
    if s.phase != Charging then s
    else if Elapsed(now, s.at.charge) >= MAXIMUM_CHARGE_MS then Leave(s, ChargeTimeLimit)
    else
      var s := if Rose(s, input) then s.(progress := input.vcap, at := s.at.(progress := now)) else s;
      if Elapsed(now, s.at.progress) >= NO_RISE_MS then Leave(s, ChargeNoRise) else s
  }

  predicate BackupDue(s: State, input: Inputs) {
    && (s.phase == Charging || s.phase == JetsonStarting || s.phase == Running)
    && !s.boot.backupAttempted && input.statusValid && input.mainPresent
    && VoltageValid(input.vcap) && BACKUP_ARM <= input.vcap.v <= MAXIMUM
  }

  function Departed(s0: State): State {
    var s := Leave(s0, BoostPowerGoodTimeout);
    s.(charge := s.charge.(stopAttempted := true))
  }

  function Dispatch(s: State, now: uint32, input: Inputs): State {
    if s.pending.kind != NoAction then s
    else if (s.phase == JetsonStarting || s.phase == Running) && s.charge.stopNeeded && !s.charge.stopAttempted then
      IssueAction(s.(charge := s.charge.(stopAttempted := true)), StopCharging, now)
    else if BackupDue(s, input) then IssueAction(s.(boot := s.boot.(backupAttempted := true)), ArmBackup, now)
    else if s.phase == ChargePrepare then
      if !s.charge.prepared then IssueAction(s, PrepareCharging, now)
      else if input.boostPowerGood && !s.charge.enableAttempted then
        IssueAction(s.(charge := s.charge.(enableAttempted := true)), EnableCharging, now)
      else if Elapsed(now, s.at.phase) >= BOOST_PG_TIMEOUT_MS then
        IssueAction(Departed(s), StopCharging, now)
      else s
    else if s.phase == JetsonStarting then
      if !s.boot.jetsonAttempted then IssueAction(s.(boot := s.boot.(jetsonAttempted := true)), EnableJetson, now)
      else if !s.boot.pingAttempted then IssueAction(s.(boot := s.boot.(pingAttempted := true)), PingJetson, now)
      else s
    else s
  }

  function SettledTick(s0: State, now: uint32, input: Inputs): State {
    var s := DetectLoss(LeaveSettling(s0, now, input), now, input);
    if s.phase == ShutdownWait then ShutdownTick(s, now, input)
    else Dispatch(CheckProgress(CheckHealth(Settle(s, now, input), input), now, input), now, input)
  }

  function AwakeTick(s0: State, now: uint32, input: Inputs): State {
    var s := NoteIssues(s0, input);
    if s.phase == Settling && Elapsed(now, s.at.phase) < SETTLING_MS then s else SettledTick(s, now, input)
  }

  function Hear(s: State, input: Inputs): State {
    s.(link := s.link.(pongSeen := s.link.pongSeen || input.jetsonPong))
  }

  function Tick(s0: State, now: uint32, input: Inputs): State {
    if !s0.begun then s0
    else
      var s := Hear(s0, input);
      if s.phase != PowerOff then AwakeTick(s, now, input)
      else if s.outcome.Reported? then Finish(s, s.outcome.success, now, input)
      else s
  }

  // ---- The machine ----

  class Manager {
    var s: State

    constructor ()
      ensures s == Fresh(0)
    {
      s := Fresh(0);
    }

    method Start(now: uint32)
      modifies this
      ensures s == Begin(old(s.nextId), now)
    {
      var previousId := s.nextId;
      s := Fresh(0);
      s := s.(nextId := previousId);
      s := s.(begun := true);
      s := s.(at := s.at.(phase := now));
    }

    method CancelAction()
      modifies this
      ensures s == Cancel(old(s))
    {
      s := s.(pending := IDLE, outcome := Unreported);
    }

    method Issue(a: Action, now: uint32)
      modifies this
      ensures s == IssueAction(old(s), a, now)
    {
      CancelAction();
      var next := (s.nextId + 1) % WRAP;
      if next == 0 {
        next := next + 1;
      }
      s := s.(nextId := next, pending := Pending(a, next), pendingAt := now);
    }

    method CompleteAction(id: uint32, success: bool) returns (taken: bool)
      modifies this
      ensures s == Complete(old(s), id, success)
      ensures taken == (old(s.pending).kind != NoAction && old(s.pending).id == id && old(s.outcome) == Unreported)
    {
      if s.pending.kind == NoAction || s.pending.id != id || s.outcome.Reported? {
        return false;
      }
      s := s.(outcome := Reported(success));
      return true;
    }

    method LeaveCharging(issue: Issue)
      modifies this
      ensures s == Leave(old(s), issue)
    {
      s := Note(s, true, issue);
      RetryInterrupted();
      CancelAction();
      if s.phase == ChargePrepare || s.phase == Charging {
        s := s.(phase := JetsonStarting);
      }
      s := s.(charge := s.charge.(expected := false, maintenance := false, stopNeeded := true, stopAttempted := false));
    }

    method RetryInterrupted()
      modifies this
      ensures s == Retry(old(s))
    {
      if s.pending.kind == EnableJetson {
        s := s.(boot := s.boot.(jetsonAttempted := false));
      } else if s.pending.kind == PingJetson {
        s := s.(boot := s.boot.(pingAttempted := false));
      } else if s.pending.kind == ArmBackup {
        s := s.(boot := s.boot.(backupAttempted := false));
      }
    }

    method BeginShutdown(now: uint32, reason: Reason)
      modifies this
      ensures s == StartShutdown(old(s), now, reason)
    {
      CancelAction();
      s := s.(phase := ShutdownWait, reason := reason, at := s.at.(shutdown := now));
      s := s.(link := s.link.(ackSeen := false, readySeen := false, requestSent := false));
      s := s.(charge := s.charge.(expected := false, maintenance := false));
      Issue(RequestJetsonShutdown, now);
    }

    method RequestFullReboot(now: uint32) returns (accepted: bool)
      modifies this
      ensures s == RequestReboot(old(s), now)
      ensures accepted == RebootAccepted(old(s))
    {
      if !s.begun || s.phase == ShutdownWait || s.phase == PowerOff {
        return false;
      }
      BeginShutdown(now, FullReboot);
      return true;
    }

    method FinishAction(success: bool, now: uint32, input: Inputs)
      modifies this
      ensures s == Finish(old(s), success, now, input)
    {
      var action := s.pending.kind;
      CancelAction();
      match action {
        case PrepareCharging =>
          if success {
            s := s.(charge := s.charge.(prepared := true), at := s.at.(phase := now));
          } else {
            LeaveCharging(ChargePreparationFailed);
          }
        case EnableCharging =>
          if success {
            s := s.(phase := Charging, charge := s.charge.(expected := true));
            s := s.(at := s.at.(charge := now, progress := now), progress := input.vcap);
          } else {
            LeaveCharging(ChargerEnableFailed);
          }
        case StopCharging =>
          s := Note(s, !success, ChargeStopFailed);
          s := s.(charge := s.charge.(stopNeeded := false));
        case ArmBackup =>
          s := Note(s, !success, BackupArmFailed);
          s := s.(boot := s.boot.(backupArmed := success));
        case EnableJetson =>
          s := Note(s, !success, JetsonEnableFailed);
          s := s.(boot := s.boot.(jetsonEnabled := success));
        case PingJetson =>
          s := Note(s, !success, JetsonPingFailed);
          s := s.(phase := Running);
        case RequestJetsonShutdown =>
          s := Note(s, !success, ShutdownRequestFailed);
          s := s.(link := s.link.(requestSent := success));
        case CutPower =>
          s := Note(s, !success, PowerOffFailed);
        case NoAction =>
      }
    }

    method OnTick(now: uint32, input: Inputs)
      modifies this
      ensures s == Tick(old(s), now, input)
    {
      hide AwakeTick, Finish;
      if s.begun {
        if input.jetsonPong {
          s := s.(link := s.link.(pongSeen := true));
        }
        if s.phase != PowerOff {
          OnAwake(now, input);
        } else if s.outcome.Reported? {
          FinishAction(s.outcome.success, now, input);
        }
      }
    }

    method OnAwake(now: uint32, input: Inputs)
      modifies this
      ensures s == AwakeTick(old(s), now, input)
    {
      hide SettledTick, Note;
      s := Note(s, !input.statusValid, StatusUnavailable);
      s := Note(s, input.statusValid && !VoltageValid(input.vcap), InvalidVoltage);
      if s.phase != Settling || Elapsed(now, s.at.phase) >= SETTLING_MS {
        OnSettled(now, input);
      }
    }

    /** The part of a tick after the settling window. */
    method OnSettled(now: uint32, input: Inputs)
      modifies this
      ensures s == SettledTick(old(s), now, input)
    {
      hide ShutdownTick, Settle, CheckHealth, CheckProgress, Dispatch, Note;
      if s.phase == Settling {
        s := s.(phase := ChargePrepare, at := s.at.(phase := now));
        s := Note(s, input.statusValid && !input.mainPresent, MainUnavailableAtStartup);
      }
      assert s == LeaveSettling(old(s), now, input);
      if s.phase != ShutdownWait && input.statusValid && !input.mainPresent {
        BeginShutdown(now, MainLoss);
      }
      if s.phase == ShutdownWait {
        AwaitDeadline(now, input);
      } else {
        SettleAction(now, input);
        CheckCharger(input);
        CheckCharge(now, input);
        NextAction(now, input);
      }
    }

    method AwaitDeadline(now: uint32, input: Inputs)
      modifies this
      ensures s == ShutdownTick(old(s), now, input)
    {
      hide Settle;
      if input.shutdownAck {
        s := s.(link := s.link.(ackSeen := true));
      }
      if input.finalReady {
        s := s.(link := s.link.(readySeen := true));
      }
      if Elapsed(now, s.at.shutdown) >= SHUTDOWN_MS {
        s := s.(phase := PowerOff);
        Issue(CutPower, now);
      } else {
        SettleAction(now, input);
      }
    }

    method SettleAction(now: uint32, input: Inputs)
      modifies this
      ensures s == Settle(old(s), now, input)
    {
      if s.outcome.Reported? {
        FinishAction(s.outcome.success, now, input);
      } else if s.pending.kind != NoAction && Elapsed(now, s.pendingAt) >= TimeoutOf(s.pending.kind) {
        s := Note(s, true, ActionTimedOut);
        FinishAction(false, now, input);
      }
    }

    method CheckCharger(input: Inputs)
      modifies this
      ensures s == CheckHealth(old(s), input)
    {
      if (s.phase == ChargePrepare && s.charge.prepared) || s.phase == Charging || s.charge.expected {
        if !input.statusValid {
          LeaveCharging(StatusUnavailable);
        } else if !VoltageValid(input.vcap) {
          LeaveCharging(InvalidVoltage);
        } else if input.vcap.v >= MAXIMUM {
          LeaveCharging(ChargeOvervoltage);
        } else if (s.charge.prepared || s.phase == Charging) && input.chargeFault {
          LeaveCharging(ChargerFault);
        } else if s.charge.expected && !input.boostPowerGood {
          LeaveCharging(ChargerFault);
        } else if s.phase == Charging && input.vcap.v > CHARGE_TARGET {
          s := s.(charge := s.charge.(maintenance := true), phase := JetsonStarting);
        }
      }
    }

    method CheckCharge(now: uint32, input: Inputs)
      modifies this
      ensures s == CheckProgress(old(s), now, input)
    {
      if s.phase == Charging {
        if Elapsed(now, s.at.charge) >= MAXIMUM_CHARGE_MS {
          LeaveCharging(ChargeTimeLimit);
        } else {
          if Rose(s, input) {
            s := s.(progress := input.vcap, at := s.at.(progress := now));
          }
          if Elapsed(now, s.at.progress) >= NO_RISE_MS {
            LeaveCharging(ChargeNoRise);
          }
        }
      }
    }

    method NextAction(now: uint32, input: Inputs)
      modifies this
      ensures s == Dispatch(old(s), now, input)
    {
      if s.pending.kind != NoAction { return; }
      if (s.phase == JetsonStarting || s.phase == Running) && s.charge.stopNeeded && !s.charge.stopAttempted {
        s := s.(charge := s.charge.(stopAttempted := true));
        Issue(StopCharging, now);
        return;
      }
      if BackupDue(s, input) {
        s := s.(boot := s.boot.(backupAttempted := true));
        Issue(ArmBackup, now);
        return;
      }
      if s.phase == ChargePrepare {
        if !s.charge.prepared {
          Issue(PrepareCharging, now);
        } else if input.boostPowerGood && !s.charge.enableAttempted {
          s := s.(charge := s.charge.(enableAttempted := true));
          Issue(EnableCharging, now);
        } else if Elapsed(now, s.at.phase) >= BOOST_PG_TIMEOUT_MS {
          LeaveCharging(BoostPowerGoodTimeout);
          s := s.(charge := s.charge.(stopAttempted := true));
          Issue(StopCharging, now);
        }
      } else if s.phase == JetsonStarting {
        if !s.boot.jetsonAttempted {
          s := s.(boot := s.boot.(jetsonAttempted := true));
          Issue(EnableJetson, now);
        } else if !s.boot.pingAttempted {
          s := s.(boot := s.boot.(pingAttempted := true));
          Issue(PingJetson, now);
        }
      }
    }
  }
}
