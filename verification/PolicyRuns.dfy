/** What every run of the power policy keeps: the action budget, the identity of
    completions, the bound on initial charging and the irrevocable shutdown. */
module PolicyRuns {
  import opened Clock
  import opened Voltages
  import opened PowerPolicy

  /** Everything that reaches the policy, in the order it does. Times are true times. */
  datatype Event = Ticked(at: nat, input: Inputs) | Completed(id: uint32, success: bool) | RebootAsked(at: nat)

  function Apply(s: State, e: Event): State {
    match e
    case Ticked(at, input) => Tick(s, Ticks(at), input)
    case Completed(id, success) => Complete(s, id, success)
    case RebootAsked(at) => RequestReboot(s, Ticks(at))
  }

  function Run(s: State, events: seq<Event>): State {
    if events == [] then s else Apply(Run(s, events[..|events| - 1]), events[|events| - 1])
  }

  /** The action an event issued; ids change with every issue and only then. */
  function IssuedBy(s: State, e: Event): Action {
    if Apply(s, e).nextId == s.nextId then NoAction else Apply(s, e).pending.kind
  }

  function Log(s: State, events: seq<Event>): seq<Action> {
    if events == [] then []
    else
      var front := events[..|events| - 1];
      var a := IssuedBy(Run(s, front), events[|events| - 1]);
      Log(s, front) + if a == NoAction then [] else [a]
  }

  // ---- Invariant ----

  predicate Startup(a: Action) { a == ArmBackup || a == EnableJetson || a == PingJetson }

  /** Which actions may be pending in which phase. */
  predicate PendingFits(s: State) {
    var a := s.pending.kind;
    match s.phase
    case Settling => a == NoAction
    case ChargePrepare =>
      if !s.charge.prepared then a == NoAction || a == PrepareCharging
      else if s.charge.enableAttempted then a == EnableCharging
      else a == NoAction
    case Charging => a == NoAction || a == ArmBackup
    case JetsonStarting => a == NoAction || a == StopCharging || Startup(a)
    case Running => a == NoAction || a == StopCharging || a == ArmBackup
    case ShutdownWait => a == NoAction || a == RequestJetsonShutdown
    case PowerOff => a == NoAction || a == CutPower
  }

  predicate Initial(phase: Phase) { phase == Settling || phase == ChargePrepare || phase == Charging }

  /** The charging flags tell where initial charging stands. */
  predicate ChargeFits(s: State) {
    && (s.phase == Settling ==> !s.charge.prepared)
    && (Initial(s.phase) && !s.charge.prepared ==> !s.charge.enableAttempted && s.phase != Charging)
    && (s.phase == Charging ==> s.charge.expected)
    && (s.charge.expected ==>
          s.charge.prepared && (s.phase == Charging || s.phase == JetsonStarting || s.phase == Running))
    && (Initial(s.phase) || s.charge.expected ==> !s.charge.stopNeeded && !s.charge.stopAttempted)
    && (s.phase == JetsonStarting || s.phase == Running ==>
          s.charge.expected || s.charge.stopNeeded || s.charge.stopAttempted)
    && (!InShutdown(s) && s.charge.stopNeeded ==>
          s.pending.kind == if s.charge.stopAttempted then StopCharging else NoAction)
    && (s.pending.kind == StopCharging ==> s.charge.stopNeeded && s.charge.stopAttempted)
  }

  predicate BootFits(s: State) {
    && (Initial(s.phase) ==> !s.boot.jetsonAttempted && !s.boot.pingAttempted)
    && (s.phase == Settling || s.phase == ChargePrepare ==> !s.boot.backupAttempted)
    && (s.boot.pingAttempted ==> s.boot.jetsonAttempted)
    && (s.pending.kind == ArmBackup ==> s.boot.backupAttempted)
    && (s.pending.kind == EnableJetson ==> s.boot.jetsonAttempted && !s.boot.pingAttempted)
    && (s.pending.kind == PingJetson ==> s.boot.jetsonAttempted && s.boot.pingAttempted)
  }

  /** Holds between the stages of a tick. */
  predicate Mid(s: State) {
    && s.begun && PendingFits(s) && ChargeFits(s) && BootFits(s)
    && (s.pending.kind == NoAction ==> s.outcome == Unreported)
  }

  /** Holds between events: a departure from charging has already been acted on. */
  predicate Ok(s: State) {
    && Mid(s)
    && (!InShutdown(s) && s.charge.stopNeeded ==> s.charge.stopAttempted)
    && (s.phase == ChargePrepare && !s.charge.prepared ==> s.pending.kind == PrepareCharging)
  }

  // ---- What may still be issued ----

  function Bit(b: bool): nat { if b then 1 else 0 }

  /** How often the action may still be issued, startup actions aside. */
  function Left(s: State, a: Action): nat {
    match a
    case PrepareCharging =>
      Bit(s.phase == Settling || (s.phase == ChargePrepare && !s.charge.prepared && s.pending.kind == NoAction))
    case EnableCharging => Bit((s.phase == Settling || s.phase == ChargePrepare) && !s.charge.enableAttempted)
    case StopCharging => Bit(!InShutdown(s) && !s.charge.stopAttempted)
    case RequestJetsonShutdown => Bit(!InShutdown(s))
    case CutPower => Bit(s.phase != PowerOff)
    case _ => 0
  }

  /** How many startup actions may still be issued; the one departure from
      charging may give one of them back. */
  function StartupLeft(s: State): nat {
    Bit(!s.boot.backupAttempted) + Bit(!s.boot.jetsonAttempted) + Bit(!s.boot.pingAttempted)
    + Bit(!s.charge.stopNeeded && !s.charge.stopAttempted)
  }

  predicate NoMore(s: State, t: State) {
    && Left(t, PrepareCharging) <= Left(s, PrepareCharging)
    && Left(t, EnableCharging) <= Left(s, EnableCharging)
    && Left(t, StopCharging) <= Left(s, StopCharging)
    && Left(t, RequestJetsonShutdown) <= Left(s, RequestJetsonShutdown)
    && Left(t, CutPower) <= Left(s, CutPower)
    && StartupLeft(t) <= StartupLeft(s)
  }

  /** A startup action counts as attempted only once it was issued. */
  predicate Tried(s: State, t: State, a: Action) {
    && (t.boot.backupAttempted ==> s.boot.backupAttempted || a == ArmBackup)
    && (t.boot.jetsonAttempted ==> s.boot.jetsonAttempted || a == EnableJetson)
    && (t.boot.pingAttempted ==> s.boot.pingAttempted || a == PingJetson)
    && (t.charge.stopAttempted ==> s.charge.stopAttempted || a == StopCharging)
  }

  /** Issuing `a` was paid for; `NoAction` stands for issuing nothing. */
  predicate Paid(s: State, t: State, a: Action) {
    && NoMore(s, t) && Tried(s, t, a)
    && (if a == NoAction then true else if Startup(a) then StartupLeft(t) < StartupLeft(s) else Left(t, a) < Left(s, a))
  }

  // ---- One tick, stage by stage ----

  /** A stage that issues nothing keeps the invariant and gives nothing back. */
  predicate Kept(s: State, t: State) {
    && Mid(t) && NoMore(s, t) && Tried(s, t, NoAction) && t.nextId == s.nextId && t.phase != Settling
    && (InShutdown(s) <==> InShutdown(t)) && (t.pending == s.pending || t.pending == IDLE)
  }

  predicate Stepped(s: State, t: State) {
    && Ok(t) && (t.nextId == s.nextId || t.nextId == NextId(s.nextId))
    && Paid(s, t, if t.nextId == s.nextId then NoAction else t.pending.kind)
    && (if t.nextId == s.nextId then t.pending == s.pending || t.pending == IDLE
        else t.pending.id == t.nextId && t.pending.kind != NoAction)
  }

  lemma LeaveKeeps(s: State, issue: Issue)
    requires Mid(s) && (s.phase == ChargePrepare || s.phase == Charging || s.charge.expected)
    ensures Kept(s, Leave(s, issue))
  {
  }

  lemma NoteKeeps(s: State, happened: bool, issue: Issue)
    ensures var t := Note(s, happened, issue); Mid(s) && s.phase != Settling ==> Kept(s, t)
    ensures var t := Note(s, happened, issue); t == s.(issues := t.issues)
  {
  }

  lemma FinishPrepared(s: State, success: bool, now: uint32, input: Inputs)
    requires Mid(s) && s.pending.kind == PrepareCharging && s.phase != Settling
    ensures Kept(s, Finish(s, success, now, input))
  {
  }

  lemma FinishEnabled(s: State, success: bool, now: uint32, input: Inputs)
    requires Mid(s) && s.pending.kind == EnableCharging && s.phase != Settling
    ensures Kept(s, Finish(s, success, now, input))
  {
  }

  lemma FinishStopped(s: State, success: bool, now: uint32, input: Inputs)
    requires Mid(s) && s.pending.kind == StopCharging && s.phase != Settling
    ensures Kept(s, Finish(s, success, now, input))
  {
  }

  lemma FinishStartup(s: State, success: bool, now: uint32, input: Inputs)
    requires Mid(s) && Startup(s.pending.kind) && s.phase != Settling
    ensures Kept(s, Finish(s, success, now, input))
  {
  }

  lemma FinishShutdown(s: State, success: bool, now: uint32, input: Inputs)
    requires Mid(s) && (s.pending.kind == RequestJetsonShutdown || s.pending.kind == CutPower) && s.phase != Settling
    ensures Kept(s, Finish(s, success, now, input))
  {
  }

  lemma FinishKeeps(s: State, success: bool, now: uint32, input: Inputs)
    requires Mid(s) && s.pending.kind != NoAction && s.phase != Settling
    ensures Kept(s, Finish(s, success, now, input))
  {
    hide Mid, Finish, Kept;
    match s.pending.kind
    case PrepareCharging => FinishPrepared(s, success, now, input);
    case EnableCharging => FinishEnabled(s, success, now, input);
    case StopCharging => FinishStopped(s, success, now, input);
    case ArmBackup | EnableJetson | PingJetson => FinishStartup(s, success, now, input);
    case RequestJetsonShutdown | CutPower => FinishShutdown(s, success, now, input);
    case NoAction =>
  }

  lemma SameKept(s: State)
    requires Mid(s) && s.phase != Settling
    ensures Kept(s, s)
  {
  }

  lemma KeptTransitive(r: State, s: State, t: State)
    requires Kept(r, s) && Kept(s, t)
    ensures Kept(r, t)
  {
    hide Mid, Left, StartupLeft;
  }

  lemma SettleKeeps(s: State, now: uint32, input: Inputs)
    requires Mid(s) && s.phase != Settling
    ensures Kept(s, Settle(s, now, input))
  {
    hide Finish, Note, PendingFits, ChargeFits, BootFits, NoMore;
    SameKept(s);
    if s.outcome.Reported? {
      FinishKeeps(s, s.outcome.success, now, input);
    } else if s.pending.kind != NoAction {
      var t := Note(s, true, ActionTimedOut);
      NoteKeeps(s, true, ActionTimedOut);
      FinishKeeps(t, false, now, input);
      KeptTransitive(s, t, Finish(t, false, now, input));
    }
  }

  lemma HealthKeeps(s: State, input: Inputs)
    requires Mid(s) && s.phase != Settling
    ensures Kept(s, CheckHealth(s, input))
  {
    hide Leave;
    forall issue | s.phase == ChargePrepare || s.phase == Charging || s.charge.expected
      ensures Kept(s, Leave(s, issue))
    {
      LeaveKeeps(s, issue);
    }
  }

  lemma ProgressKeeps(s: State, now: uint32, input: Inputs)
    requires Mid(s) && s.phase != Settling
    ensures Kept(s, CheckProgress(s, now, input))
  {
    hide Leave;
    if s.phase == Charging {
      var t := s.(progress := input.vcap, at := s.at.(progress := now));
      LeaveKeeps(s, ChargeTimeLimit);
      LeaveKeeps(s, ChargeNoRise);
      LeaveKeeps(t, ChargeNoRise);
    }
  }

  lemma IssueKeeps(s: State, a: Action, now: uint32)
    ensures var t := IssueAction(s, a, now);
            && t == s.(pending := Pending(a, NextId(s.nextId)), outcome := Unreported, nextId := NextId(s.nextId),
                       pendingAt := now)
            && t.nextId != s.nextId
  {
  }

  lemma DepartureKeeps(s: State, now: uint32)
    requires Mid(s) && s.phase == ChargePrepare && s.charge.prepared && s.pending.kind == NoAction
    ensures Stepped(s, IssueAction(Departed(s), StopCharging, now))
  {
    hide IssueAction, NextId;
    IssueKeeps(Departed(s), StopCharging, now);
  }

  lemma StartupKeeps(s: State, a: Action, now: uint32)
    requires Mid(s) && s.pending.kind == NoAction && Startup(a)
    requires (s.phase == JetsonStarting || s.phase == Running ==> s.charge.stopNeeded ==> s.charge.stopAttempted)
    requires if a == ArmBackup then !s.boot.backupAttempted
                                    && (s.phase == Charging || s.phase == JetsonStarting || s.phase == Running)
             else s.phase == JetsonStarting && !s.boot.pingAttempted && (a == EnableJetson <==> !s.boot.jetsonAttempted)
    ensures Stepped(s, IssueAction(s.(boot := Attempted(s.boot, a)), a, now))
  {
    hide IssueAction, NextId;
    IssueKeeps(s.(boot := Attempted(s.boot, a)), a, now);
  }

  function Attempted(b: Boot, a: Action): Boot {
    if a == ArmBackup then b.(backupAttempted := true)
    else if a == EnableJetson then b.(jetsonAttempted := true)
    else b.(pingAttempted := true)
  }

  lemma DispatchKeeps(s: State, now: uint32, input: Inputs)
    requires Mid(s) && !InShutdown(s) && s.phase != Settling
    ensures Stepped(s, Dispatch(s, now, input))
  {
    hide IssueAction, NextId, Departed;
    if s.pending.kind == NoAction {
      if (s.phase == JetsonStarting || s.phase == Running) && s.charge.stopNeeded && !s.charge.stopAttempted {
        IssueKeeps(s.(charge := s.charge.(stopAttempted := true)), StopCharging, now);
      } else if BackupDue(s, input) {
        StartupKeeps(s, ArmBackup, now);
      } else if s.phase == ChargePrepare {
        IssueKeeps(s, PrepareCharging, now);
        IssueKeeps(s.(charge := s.charge.(enableAttempted := true)), EnableCharging, now);
        if s.charge.prepared {
          DepartureKeeps(s, now);
        }
      } else if s.phase == JetsonStarting && !s.boot.pingAttempted {
        StartupKeeps(s, if s.boot.jetsonAttempted then PingJetson else EnableJetson, now);
      }
    }
  }

  lemma ShutdownStarts(s: State, now: uint32, reason: Reason)
    requires Mid(s) && !InShutdown(s)
    ensures Stepped(s, StartShutdown(s, now, reason))
  {
  }

  lemma ShutdownEntered(s: State, now: uint32, input: Inputs)
    requires Mid(s) && !InShutdown(s)
    ensures Stepped(s, ShutdownTick(StartShutdown(s, now, MainLoss), now, input))
    ensures var t := StartShutdown(s, now, MainLoss);
            t.phase == ShutdownWait && t.at.shutdown == now && ShutdownTick(t, now, input) == Replies(t, input)
  {
    hide Finish;
    var t := StartShutdown(s, now, MainLoss);
    ShutdownStarts(s, now, MainLoss);
    assert t.at.shutdown == now && t.pendingAt == now && t.outcome == Unreported;
    assert ShutdownTick(t, now, input) == Replies(t, input);
  }

  lemma HeardKeeps(s: State, input: Inputs)
    requires Mid(s) && s.phase == ShutdownWait
    ensures Kept(s, Replies(s, input)) && Replies(s, input).phase == ShutdownWait
  {
  }

  lemma CutIssued(s: State, now: uint32)
    requires Mid(s) && s.phase == ShutdownWait
    ensures Stepped(s, IssueAction(s.(phase := PowerOff), CutPower, now))
  {
    hide IssueAction, NextId;
    IssueKeeps(s.(phase := PowerOff), CutPower, now);
  }

  lemma ShutdownKeeps(s: State, now: uint32, input: Inputs)
    requires Mid(s) && s.phase == ShutdownWait
    ensures Stepped(s, ShutdownTick(s, now, input))
  {
    hide Settle, PendingFits, ChargeFits, BootFits, Left, StartupLeft, IssueAction, NextId;
    var t := Replies(s, input);
    HeardKeeps(s, input);
    SettleKeeps(t, now, input);
    CutIssued(t, now);
  }

  lemma {:induction false} SettledKeeps(s: State, now: uint32, input: Inputs)
    requires Mid(s) && s.phase != PowerOff
    ensures Stepped(s, SettledTick(s, now, input))
  {
    hide Settle, CheckHealth, CheckProgress, Dispatch, ShutdownTick, StartShutdown, Note;
    hide PendingFits, ChargeFits, BootFits, Left, StartupLeft;
    var s0 := LeaveSettling(s, now, input);
    LeaveSettlingKeeps(s, now, input);
    if InShutdown(s0) {
      ShutdownKeeps(s0, now, input);
    } else if input.statusValid && !input.mainPresent {
      ShutdownEntered(s0, now, input);
    } else {
      var s1 := Settle(s0, now, input);
      SettleKeeps(s0, now, input);
      var s2 := CheckHealth(s1, input);
      HealthKeeps(s1, input);
      var s3 := CheckProgress(s2, now, input);
      ProgressKeeps(s2, now, input);
      DispatchKeeps(s3, now, input);
    }
  }

  lemma LeaveSettlingKeeps(s: State, now: uint32, input: Inputs)
    requires Mid(s)
    ensures var t := LeaveSettling(s, now, input);
            && Mid(t) && NoMore(s, t) && Tried(s, t, NoAction) && t.nextId == s.nextId && t.phase != Settling
            && t.pending == s.pending && (InShutdown(s) <==> InShutdown(t))
            && (t.phase == PowerOff <==> s.phase == PowerOff)
  {
  }

  /** A change of link evidence or issues only. */
  lemma CosmeticKeeps(s: State, t: State)
    requires Ok(s) && t == s.(link := t.link, issues := t.issues)
    ensures Ok(t) && NoMore(s, t) && Tried(s, t, NoAction)
  {
  }

  lemma SteppedFrom(r: State, s: State, t: State)
    requires NoMore(r, s) && Tried(r, s, NoAction) && s.nextId == r.nextId && s.pending == r.pending && Stepped(s, t)
    ensures Stepped(r, t)
  {
  }

  lemma TickKeeps(s: State, now: uint32, input: Inputs)
    requires Ok(s)
    ensures Stepped(s, Tick(s, now, input))
  {
    hide SettledTick, Finish, PendingFits, ChargeFits, BootFits, Left, StartupLeft, Note;
    var s0 := Hear(s, input);
    CosmeticKeeps(s, s0);
    if s.begun && s.phase != PowerOff {
      var s1 := NoteIssues(s0, input);
      NoteKeeps(s0, !input.statusValid, StatusUnavailable);
      NoteKeeps(Note(s0, !input.statusValid, StatusUnavailable), input.statusValid && !VoltageValid(input.vcap),
                InvalidVoltage);
      CosmeticKeeps(s0, s1);
      SettledKeeps(s1, now, input);
      SteppedFrom(s0, s1, SettledTick(s1, now, input));
      SteppedFrom(s, s0, AwakeTick(s0, now, input));
    } else if s.outcome.Reported? {
      FinishKeeps(s0, s.outcome.success, now, input);
    }
  }

  lemma CompletionKeeps(s: State, id: uint32, success: bool)
    requires Ok(s)
    ensures Stepped(s, Complete(s, id, success))
  {
  }

  lemma StepKeeps(s: State, e: Event)
    requires Ok(s)
    ensures Stepped(s, Apply(s, e))
  {
    hide Tick, PendingFits, ChargeFits, BootFits, Left, StartupLeft, StartShutdown;
    match e {
      case Ticked(at, input) => TickKeeps(s, Ticks(at), input);
      case Completed(id, success) => CompletionKeeps(s, id, success);
      case RebootAsked(at) =>
        if RebootAccepted(s) {
          ShutdownStarts(s, Ticks(at), FullReboot);
        }
    }
  }

  // ---- Runs ----

  function Count(log: seq<Action>, a: Action): nat {
    if log == [] then 0 else Count(log[..|log| - 1], a) + Bit(log[|log| - 1] == a)
  }

  function StartupCount(log: seq<Action>): nat {
    Count(log, ArmBackup) + Count(log, EnableJetson) + Count(log, PingJetson)
  }

  lemma CountSnoc(log: seq<Action>, b: Action, a: Action)
    ensures Count(log + [b], a) == Count(log, a) + Bit(a == b)
  {
    assert (log + [b])[..|log|] == log;
  }

  /** What was issued was paid for out of what could be issued. */
  predicate Balanced(s: State, t: State, log: seq<Action>) {
    && Count(log, PrepareCharging) + Left(t, PrepareCharging) <= Left(s, PrepareCharging)
    && Count(log, EnableCharging) + Left(t, EnableCharging) <= Left(s, EnableCharging)
    && Count(log, StopCharging) + Left(t, StopCharging) <= Left(s, StopCharging)
    && Count(log, RequestJetsonShutdown) + Left(t, RequestJetsonShutdown) <= Left(s, RequestJetsonShutdown)
    && Count(log, CutPower) + Left(t, CutPower) <= Left(s, CutPower)
    && StartupCount(log) + StartupLeft(t) <= StartupLeft(s)
    && (t.boot.backupAttempted ==> s.boot.backupAttempted || Count(log, ArmBackup) > 0)
    && (t.boot.jetsonAttempted ==> s.boot.jetsonAttempted || Count(log, EnableJetson) > 0)
    && (t.boot.pingAttempted ==> s.boot.pingAttempted || Count(log, PingJetson) > 0)
    && Count(log, NoAction) == 0
  }

  lemma BalancedSnoc(s: State, t: State, u: State, log: seq<Action>, a: Action)
    requires Balanced(s, t, log) && Paid(t, u, a)
    ensures Balanced(s, u, if a == NoAction then log else log + [a])
  {
    hide Left, StartupLeft, Count;
    if a != NoAction {
      CountSnoc(log, a, PrepareCharging);
      CountSnoc(log, a, EnableCharging);
      CountSnoc(log, a, StopCharging);
      CountSnoc(log, a, RequestJetsonShutdown);
      CountSnoc(log, a, CutPower);
      CountSnoc(log, a, ArmBackup);
      CountSnoc(log, a, EnableJetson);
      CountSnoc(log, a, PingJetson);
      CountSnoc(log, a, NoAction);
    }
  }

  lemma BalancedStart(s: State)
    ensures Balanced(s, s, [])
  {
  }

  lemma {:induction false} RunBalanced(s: State, events: seq<Event>)
    requires Ok(s)
    ensures Ok(Run(s, events)) && Balanced(s, Run(s, events), Log(s, events))
  {
    hide Ok, Apply, NoMore, Paid, Left, StartupLeft, Balanced, NextId;
    if events == [] {
      BalancedStart(s);
    } else {
      var front, e := events[..|events| - 1], events[|events| - 1];
      RunBalanced(s, front);
      var t := Run(s, front);
      StepKeeps(t, e);
      var a := IssuedBy(t, e);
      BalancedSnoc(s, t, Apply(t, e), Log(s, front), a);
      assert Log(s, events) == if a == NoAction then Log(s, front) else Log(s, front) + [a];
    }
  }

  /** Lengths add up. */
  lemma {:induction false} CountsTotal(log: seq<Action>)
    ensures |log| == Count(log, PrepareCharging) + Count(log, EnableCharging) + Count(log, StopCharging)
                     + Count(log, RequestJetsonShutdown) + Count(log, CutPower) + StartupCount(log)
                     + Count(log, NoAction)
  {
    if log != [] {
      CountsTotal(log[..|log| - 1]);
    }
  }

  lemma BeginOk(previousId: uint32, now: uint32)
    ensures var s := Begin(previousId, now);
            && Ok(s) && s.pending == IDLE && StartupLeft(s) == 4 && (forall a :: Left(s, a) <= 1)
            && !s.boot.backupAttempted && !s.boot.jetsonAttempted && !s.boot.pingAttempted
  {
  }

  function Repeats(log: seq<Action>, a: Action): nat {
    if Count(log, a) == 0 then 0 else Count(log, a) - 1
  }

  /** The action budget of one begin(): however ticks, completions and reboot
      requests interleave, the charging and shutdown actions are each issued at
      most once and only one startup action is ever repeated. */
  lemma ActionBudget(previousId: uint32, now: uint32, events: seq<Event>)
    ensures var log := Log(Begin(previousId, now), events);
            && Count(log, PrepareCharging) <= 1 && Count(log, EnableCharging) <= 1 && Count(log, StopCharging) <= 1
            && Count(log, RequestJetsonShutdown) <= 1 && Count(log, CutPower) <= 1
            && Repeats(log, ArmBackup) + Repeats(log, EnableJetson) + Repeats(log, PingJetson) <= 1
            && |log| <= 9
  {
    hide Ok, NoMore, Run, Log, Count, Left, Begin;
    var s := Begin(previousId, now);
    BeginOk(previousId, now);
    RunBalanced(s, events);
    CountsTotal(Log(s, events));
  }

  /** Charging is left only together with an order to stop it: the event that ends
      initial charging or its maintenance, shutdown aside, issues StopCharging. */
  lemma LeavingChargingStops(s: State, e: Event)
    requires Ok(s) && (Initial(s.phase) || s.charge.expected)
    ensures var t := Apply(s, e);
            InShutdown(t) || Initial(t.phase) || t.charge.expected || IssuedBy(s, e) == StopCharging
  {
    hide Apply, Left, StartupLeft, NoMore;
    StepKeeps(s, e);
  }

  /** And it is left for good. */
  lemma ChargingNeverResumes(previousId: uint32, now: uint32, events: seq<Event>)
    requires StopCharging in Log(Begin(previousId, now), events)
    ensures var t := Run(Begin(previousId, now), events); !Initial(t.phase) && !t.charge.expected
  {
    hide NoMore, Run, Log, Begin;
    var s := Begin(previousId, now);
    BeginOk(previousId, now);
    RunBalanced(s, events);
    Counted(Log(s, events), StopCharging);
  }

  lemma {:induction false} Counted(log: seq<Action>, a: Action)
    requires a in log
    ensures Count(log, a) > 0
  {
    var front := log[..|log| - 1];
    if log[|log| - 1] != a {
      assert log == front + [log[|log| - 1]];
      Counted(front, a);
    }
  }

  // ---- Stale completions ----

  /** The id issued k issues after `id`. */
  function Serial(id: uint32, k: nat): uint32 {
    if k == 0 then id else NextId(Serial(id, k - 1))
  }

  lemma NextResidue(n: nat)
    ensures (n + 1) % (WRAP - 1) == if n % (WRAP - 1) == WRAP - 2 then 0 else n % (WRAP - 1) + 1
  {
  }

  lemma {:induction false} SerialForm(id: uint32, k: nat)
    requires k > 0
    ensures Serial(id, k) == (id + k - 1) % (WRAP - 1) + 1
  {
    if k > 1 {
      SerialForm(id, k - 1);
      NextResidue(id + k - 2);
    }
  }

  /** Ids of different issues in one run never coincide. */
  lemma SerialsDiffer(id: uint32, j: nat, k: nat)
    requires 0 < j < k <= 9
    ensures Serial(id, j) != Serial(id, k) && Serial(id, j) != 0
  {
    SerialForm(id, j);
    SerialForm(id, k);
  }

  /** The pending id is that of the last issue, or none. */
  lemma {:induction false} RunSerial(s: State, events: seq<Event>)
    requires Ok(s) && s.pending == IDLE
    ensures var t := Run(s, events);
            && t.nextId == Serial(s.nextId, |Log(s, events)|)
            && (t.pending == IDLE || (t.pending.id == t.nextId && |Log(s, events)| > 0))
  {
    hide Ok, Apply, Paid, NextId;
    if events != [] {
      var front, e := events[..|events| - 1], events[|events| - 1];
      RunBalanced(s, front);
      RunSerial(s, front);
      StepKeeps(Run(s, front), e);
    }
  }

  /** Between two points of a run without an issue nothing becomes pending. */
  lemma {:induction false} NothingPends(s: State, events: seq<Event>, n: nat)
    requires Ok(s) && s.pending == IDLE && n <= |events|
    ensures |Log(s, events[..n])| <= |Log(s, events)|
    ensures |Log(s, events[..n])| == |Log(s, events)| && Run(s, events[..n]).pending == IDLE
            ==> Run(s, events).pending == IDLE
    decreases |events|
  {
    hide Ok, Apply, Paid, NextId;
    if n < |events| {
      var front, e := events[..|events| - 1], events[|events| - 1];
      assert front[..n] == events[..n];
      RunBalanced(s, front);
      NothingPends(s, front, n);
      StepKeeps(Run(s, front), e);
    } else {
      assert events[..n] == events;
    }
  }

  lemma PendingSerial(previousId: uint32, now: uint32, events: seq<Event>)
    ensures var s := Begin(previousId, now);
            var p, n := Run(s, events).pending, |Log(s, events)|;
            n <= 9 && (p == IDLE || (p.id == Serial(previousId, n) && n > 0))
  {
    hide Ok, Run, Log, Count, Serial;
    BeginOk(previousId, now);
    RunSerial(Begin(previousId, now), events);
    ActionBudget(previousId, now, events);
  }

  lemma StaleId(id: uint32, j: nat, k: nat, m: nat, then_: Pending, now: Pending)
    requires 0 < j <= k <= m <= 9
    requires then_ == IDLE || then_.id == Serial(id, k)
    requires now == IDLE || now.id == Serial(id, m)
    requires then_.id != Serial(id, j) && (k == m && then_ == IDLE ==> now == IDLE)
    ensures now == IDLE || now.id != Serial(id, j)
  {
    if j < m {
      SerialsDiffer(id, j, m);
    }
  }

  /** A late or repeated completion has no effect: once the action pending after i
      events is finished, cancelled or replaced (seen after n events), its id is
      never taken again in this run. */
  lemma StaleCompletion(previousId: uint32, now: uint32, events: seq<Event>, i: nat, n: nat, success: bool)
    requires i <= n <= |events|
    requires var s := Begin(previousId, now);
             && Run(s, events[..i]).pending.kind != NoAction
             && Run(s, events[..n]).pending.id != Run(s, events[..i]).pending.id
    ensures var s := Begin(previousId, now);
            Apply(Run(s, events), Completed(Run(s, events[..i]).pending.id, success)) == Run(s, events)
  {
    hide Run, Log, Begin, Apply, Ok;
    var s := Begin(previousId, now);
    BeginOk(previousId, now);
    StaleFrom(previousId, now, s, events, i, n);
    CompletionIgnored(Run(s, events), Run(s, events[..i]).pending.id, success);
  }

  lemma StaleFrom(previousId: uint32, now: uint32, s: State, events: seq<Event>, i: nat, n: nat)
    requires s == Begin(previousId, now) && Ok(s) && s.pending == IDLE && i <= n <= |events|
    requires Run(s, events[..i]).pending != IDLE
    requires Run(s, events[..n]).pending.id != Run(s, events[..i]).pending.id
    ensures Run(s, events).pending == IDLE || Run(s, events).pending.id != Run(s, events[..i]).pending.id
  {
    hide *;
    PendingSerial(previousId, now, events[..i]);
    PendingSerial(previousId, now, events[..n]);
    PendingSerial(previousId, now, events);
    assert events[..n][..i] == events[..i];
    NothingPends(s, events[..n], i);
    NothingPends(s, events, n);
    StaleId(previousId, |Log(s, events[..i])|, |Log(s, events[..n])|, |Log(s, events)|,
            Run(s, events[..n]).pending, Run(s, events).pending);
  }

  lemma CompletionIgnored(t: State, id: uint32, success: bool)
    requires t.pending == IDLE || t.pending.id != id
    ensures Apply(t, Completed(id, success)) == t
  {
  }
}
