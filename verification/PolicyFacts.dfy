/** What the adapter around the policy relies on, event by event. */
module PolicyFacts {
  import opened Clock
  import opened Voltages
  import opened PowerPolicy
  import opened PolicyRuns
  import opened PolicyTimes

  /** All that may still be issued. */
  function Remaining(s: State): nat {
    Left(s, PrepareCharging) + Left(s, EnableCharging) + Left(s, StopCharging)
    + Left(s, RequestJetsonShutdown) + Left(s, CutPower) + StartupLeft(s)
  }

  /** The policy as its adapter meets it in one boot: ids count up from 1 and the
      pending action carries the latest. */
  predicate Sound(s: State) {
    && Ok(s) && s.nextId + Remaining(s) <= 9
    && (s.pending.kind != NoAction ==> s.pending.id == s.nextId)
  }

  lemma BeginSound(now: uint32)
    ensures Sound(Begin(0, now))
  {
    BeginOk(0, now);
  }

  /** An issue takes the next number; nothing else does. */
  lemma StepSound(s: State, e: Event)
    requires Sound(s)
    ensures var t := Apply(s, e);
            && Sound(t) && (t.nextId == s.nextId || t.nextId == s.nextId + 1)
            && (t.nextId == s.nextId ==> t.pending == s.pending || t.pending == IDLE)
  {
    hide Ok, Apply, Left, StartupLeft;
    StepKeeps(s, e);
    SteppedCount(s, Apply(s, e));
  }

  lemma SteppedCount(s: State, t: State)
    requires Sound(s) && Stepped(s, t)
    ensures Sound(t) && (t.nextId == s.nextId || t.nextId == s.nextId + 1)
    ensures t.nextId == s.nextId ==> t.pending == s.pending || t.pending == IDLE
  {
    hide Ok, Tried;
    KnownAction(t);
  }

  /** Only the eight actions exist, so an issue always lowers what remains. */
  lemma KnownAction(t: State)
    ensures t.pending.kind == NoAction || Startup(t.pending.kind) || t.pending.kind == PrepareCharging
            || t.pending.kind == EnableCharging || t.pending.kind == StopCharging
            || t.pending.kind == RequestJetsonShutdown || t.pending.kind == CutPower
  {
  }

  lemma CompleteSound(s: State, id: uint32, success: bool)
    requires Sound(s)
    ensures var t := Complete(s, id, success);
            Sound(t) && t == s.(outcome := t.outcome)
  {
    StepSound(s, Completed(id, success));
  }

  /** Whether a pending shutdown request survives a tick at `now`. */
  predicate Lapses(s: State, now: uint32) {
    s.outcome.Reported? || Elapsed(now, s.pendingAt) >= ACTION_TIMEOUT_MS
  }

  /** The wait, unless the deadline has come: a pending request stays or lapses. */
  predicate Waited(s: State, t: State, now: uint32) {
    && t.phase == ShutdownWait && t.nextId == s.nextId && t.at.shutdown == s.at.shutdown
    && (if s.pending.kind != NoAction && Lapses(s, now) then t.pending == IDLE
        else t.pending == s.pending && t.pendingAt == s.pendingAt && t.outcome == s.outcome)
  }

  predicate Cutting(s: State, t: State) {
    && t.phase == PowerOff && t.at.shutdown == s.at.shutdown
    && t.pending == Pending(CutPower, t.nextId) && t.nextId == s.nextId + 1 && t.outcome == Unreported
  }

  lemma SettleWaits(s: State, now: uint32, input: Inputs)
    requires Ok(s) && s.phase == ShutdownWait
    ensures Waited(s, Settle(s, now, input), now)
  {
  }

  lemma HeardSame(s: State, input: Inputs)
    ensures var t := NoteIssues(Hear(s, input), input); t == s.(link := t.link, issues := t.issues)
    ensures Hear(s, input) == s.(link := Hear(s, input).link)
  {
  }

  lemma TickWaits(s: State, now: uint32, input: Inputs)
    requires Sound(s) && s.phase == ShutdownWait
    ensures var t := Tick(s, now, input);
            if Elapsed(now, s.at.shutdown) >= SHUTDOWN_MS then Cutting(s, t) else Waited(s, t, now)
  {
    hide Settle, Finish, NoteIssues, Hear, PendingFits, ChargeFits, BootFits, Left, StartupLeft;
    HeardSame(s, input);
    var s1 := NoteIssues(Hear(s, input), input);
    CosmeticKeeps(s, s1);
    var s2 := Replies(s1, input);
    CosmeticKeeps(s1, s2);
    SettleWaits(s2, now, input);
  }

  /** Nothing happens any more once power is being cut. */
  lemma TickCut(s: State, now: uint32, input: Inputs)
    requires Sound(s) && s.phase == PowerOff && s.outcome == Unreported
    ensures var t := Tick(s, now, input); t == s.(link := t.link)
  {
  }

  /** Entering shutdown, by main loss in a tick or by a reboot request. */
  predicate Entered(s: State, t: State, now: uint32) {
    && t.phase == ShutdownWait && t.at.shutdown == now && t.pendingAt == now && t.outcome == Unreported
    && t.pending == Pending(RequestJetsonShutdown, t.nextId) && t.nextId == s.nextId + 1
  }

  lemma StartEnters(s: State, now: uint32, reason: Reason)
    requires s.nextId < 9
    ensures Entered(s, StartShutdown(s, now, reason), now)
  {
  }

  lemma TickEnters(s: State, at: nat, input: Inputs)
    requires Sound(s) && !InShutdown(s)
    ensures var t := Tick(s, Ticks(at), input);
            InShutdown(t) ==> Entered(s, t, Ticks(at)) && input.statusValid && !input.mainPresent
  {
    hide Ok, Tick, Left, StartupLeft;
    if InShutdown(Tick(s, Ticks(at), input)) {
      EntryFixesDeadline(s, Ticked(at, input));
      StepSound(s, Ticked(at, input));
      EntryPending(s, Ticks(at), input);
    }
  }

  lemma EntryPending(s: State, now: uint32, input: Inputs)
    requires Ok(s) && !InShutdown(s) && InShutdown(Tick(s, now, input))
    ensures var t := Tick(s, now, input); t.pendingAt == now && t.outcome == Unreported
  {
    hide SettledTick, NoteIssues, Hear, PendingFits, ChargeFits, BootFits, Left, StartupLeft;
    HeardSame(s, input);
    var s1 := NoteIssues(Hear(s, input), input);
    CosmeticKeeps(s, s1);
    SettledEntryPending(s1, now, input);
  }

  lemma SettledEntryPending(s: State, now: uint32, input: Inputs)
    requires Mid(s) && !InShutdown(s) && InShutdown(SettledTick(s, now, input))
    ensures var t := SettledTick(s, now, input); t.pendingAt == now && t.outcome == Unreported
  {
    EntryInTick(s, now, input);
    var s0 := LeaveSettling(s, now, input);
    LeaveSettlingKeeps(s, now, input);
    ShutdownEntered(s0, now, input);
    hide Settle, CheckHealth, CheckProgress, Dispatch, ShutdownTick;
    hide PendingFits, ChargeFits, BootFits, Left, StartupLeft;
  }

  /** A running board keeps running until it shuts down. */
  lemma TickRunning(s: State, now: uint32, input: Inputs)
    requires Sound(s) && s.phase == Running
    ensures var t := Tick(s, now, input); t.phase == Running || t.phase == ShutdownWait
  {
    hide SettledTick, NoteIssues, Hear, PendingFits, ChargeFits, BootFits, Left, StartupLeft;
    HeardSame(s, input);
    var s1 := NoteIssues(Hear(s, input), input);
    CosmeticKeeps(s, s1);
    SettledRunning(s1, now, input);
  }

  lemma SettledRunning(s: State, now: uint32, input: Inputs)
    requires Mid(s) && s.phase == Running
    ensures var t := SettledTick(s, now, input); t.phase == Running || t.phase == ShutdownWait
  {
    hide Mid, Note, Cancel, Retry;
    if input.statusValid && !input.mainPresent {
      ShutdownEntered(s, now, input);
    } else {
      StagesRunning(s, now, input);
    }
  }

  lemma StagesRunning(s: State, now: uint32, input: Inputs)
    requires Mid(s) && s.phase == Running
    ensures Dispatch(CheckProgress(CheckHealth(Settle(s, now, input), input), now, input), now, input).phase == Running
  {
    var s1 := Settle(s, now, input);
    assert s1.phase == Running;
    var s2 := CheckHealth(s1, input);
    hide Settle, Finish;
    assert s2.phase == Running;
    hide CheckHealth, Leave;
  }

  lemma TickSound(s: State, at: nat, input: Inputs)
    requires Sound(s)
    ensures Sound(Tick(s, Ticks(at), input)) && s.nextId <= Tick(s, Ticks(at), input).nextId
  {
    StepSound(s, Ticked(at, input));
  }

  lemma RebootSound(s: State, at: nat)
    requires Sound(s)
    ensures Sound(RequestReboot(s, Ticks(at))) && s.nextId <= RequestReboot(s, Ticks(at)).nextId
    ensures RebootAccepted(s) <==> !InShutdown(s)
    ensures RebootAccepted(s) ==> Entered(s, RequestReboot(s, Ticks(at)), Ticks(at))
  {
    StepSound(s, RebootAsked(at));
    if RebootAccepted(s) {
      StartEnters(s, Ticks(at), FullReboot);
    }
  }

  /** A pending action is only ever replaced or dropped: while it stands, so does
      what is known of its result. */
  predicate Stands(s: State, t: State) {
    t.nextId == s.nextId && t.pending.kind != NoAction ==> t.pending == s.pending && t.outcome == s.outcome
  }

  lemma SettleStands(s: State, now: uint32, input: Inputs)
    ensures var t := Settle(s, now, input); Stands(s, t) && t.nextId == s.nextId
  {
  }

  lemma HealthStands(s: State, input: Inputs)
    ensures var t := CheckHealth(s, input); Stands(s, t) && t.nextId == s.nextId
  {
  }

  lemma ProgressStands(s: State, now: uint32, input: Inputs)
    ensures var t := CheckProgress(s, now, input); Stands(s, t) && t.nextId == s.nextId
  {
  }

  lemma DispatchStands(s: State, now: uint32, input: Inputs)
    ensures Stands(s, Dispatch(s, now, input))
  {
  }

  lemma SettledStands(s: State, now: uint32, input: Inputs)
    requires Mid(s) && !InShutdown(s) && !InShutdown(SettledTick(s, now, input))
    ensures Stands(s, SettledTick(s, now, input))
  {
    var s0 := LeaveSettling(s, now, input);
    LeaveSettlingKeeps(s, now, input);
    if input.statusValid && !input.mainPresent {
      ShutdownEntered(s0, now, input);
    } else {
      hide Settle, CheckHealth, CheckProgress, Dispatch, Mid;
      var s1 := Settle(s0, now, input);
      SettleStands(s0, now, input);
      var s2 := CheckHealth(s1, input);
      HealthStands(s1, input);
      var s3 := CheckProgress(s2, now, input);
      ProgressStands(s2, now, input);
      DispatchStands(s3, now, input);
    }
  }

  lemma TickStands(s: State, now: uint32, input: Inputs)
    requires Sound(s) && !InShutdown(s) && !InShutdown(Tick(s, now, input))
    ensures Stands(s, Tick(s, now, input))
  {
    hide SettledTick, NoteIssues, Hear, PendingFits, ChargeFits, BootFits, Left, StartupLeft;
    HeardSame(s, input);
    var s1 := NoteIssues(Hear(s, input), input);
    CosmeticKeeps(s, s1);
    if s.phase != Settling || Elapsed(now, s.at.phase) >= SETTLING_MS {
      SettledStands(s1, now, input);
    }
  }

  // ---- A shutdown request that comes too late ----

  /** A shutdown request nobody took within 5 s is dropped, and until power is cut
      no action at all reaches the adapter any more. */
  lemma {:induction false} LapsedStaysEmpty(s: State, events: seq<Event>)
    requires Sound(s) && s.phase == ShutdownWait && s.pending == IDLE
    ensures var t := Run(s, events);
            Sound(t) && InShutdown(t) && (t.phase == ShutdownWait ==> t.pending == IDLE)
  {
    hide Ok, Apply;
    if events != [] {
      var front, e := events[..|events| - 1], events[|events| - 1];
      LapsedStaysEmpty(s, front);
      var t := Run(s, front);
      StepSound(t, e);
      ShutdownStep(t, e);
      if t.phase == ShutdownWait {
        EmptyStep(t, e);
      }
    }
  }

  lemma EmptyStep(s: State, e: Event)
    requires Sound(s) && s.phase == ShutdownWait && s.pending == IDLE
    ensures Apply(s, e).phase == ShutdownWait ==> Apply(s, e).pending == IDLE
  {
    hide Ok, Tick, Finish;
    if e.Ticked? {
      TickWaits(s, Ticks(e.at), e.input);
    }
  }

  const QUIET: Inputs := Inputs(true, true, Volts(0), false, false, false, false, false)

  /** It does happen: a reboot accepted at time 0, then a tick only 5 s later. */
  lemma RebootCanLapse()
    ensures var s := Run(Begin(0, 0), [RebootAsked(0), Ticked(5000, QUIET)]);
            s.phase == ShutdownWait && s.pending == IDLE && ActionTimedOut in s.issues
  {
    var events := [RebootAsked(0), Ticked(5000, QUIET)];
    var s0 := Begin(0, 0);
    var s1 := Apply(s0, RebootAsked(0));
    assert events[..1] == [RebootAsked(0)] && events[..1][..0] == [];
    assert Run(s0, events[..1]) == s1;
    var s2 := Apply(s1, Ticked(5000, QUIET));
    assert Run(s0, events) == s2;
    assert Hear(s1, QUIET) == s1 && NoteIssues(s1, QUIET) == s1;
    assert Replies(s1, QUIET) == s1;
    assert s2 == Settle(s1, 5000, QUIET);
  }

  // ---- Whether the charger is expected on ----

  /** Whether the policy expects the charger on, or is about to. */
  predicate Expects(s: State) {
    s.charge.expected || (s.pending.kind == EnableCharging && s.outcome == Reported(true))
  }

  /** No stage but the one that takes a result can make it expected. */
  predicate NoMore(s: State, t: State) {
    t.outcome == Unreported && (t.charge.expected ==> s.charge.expected)
  }

  lemma SettleExpects(s: State, now: uint32, input: Inputs)
    requires Mid(s)
    ensures var t := Settle(s, now, input); t.outcome == Unreported && (t.charge.expected ==> Expects(s))
  {
  }

  lemma SupervisionExpects(s: State, now: uint32, input: Inputs)
    requires s.outcome == Unreported
    ensures NoMore(s, Dispatch(CheckProgress(CheckHealth(s, input), now, input), now, input))
  {
    var u := CheckHealth(s, input);
    assert NoMore(s, u);
    var v := CheckProgress(u, now, input);
    assert NoMore(u, v);
    hide CheckHealth, CheckProgress;
    DispatchExpects(v, now, input);
  }

  lemma DispatchExpects(s: State, now: uint32, input: Inputs)
    requires s.outcome == Unreported
    ensures NoMore(s, Dispatch(s, now, input))
  {
  }

  /** Only a reported success of EnableCharging makes a tick expect the charger on. */
  lemma TickExpects(s: State, now: uint32, input: Inputs)
    requires Sound(s)
    ensures Expects(Tick(s, now, input)) ==> Expects(s)
  {
    var r := NoteIssues(Hear(s, input), input);
    HeardSame(s, input);
    CosmeticKeeps(s, r);
    Unexpected(s);
    hide NoteIssues, Hear, Settle, CheckHealth, CheckProgress, Dispatch, Left, StartupLeft;
    if s.phase == PowerOff {
      hide Finish;
      CutExpects(s, now, input);
    } else if !(r.phase == Settling && Elapsed(now, r.at.phase) < SETTLING_MS) {
      SettledExpects(r, now, input);
    }
  }

  lemma CutExpects(s: State, now: uint32, input: Inputs)
    requires Sound(s) && s.phase == PowerOff
    ensures !Expects(Tick(s, now, input))
  {
  }

  lemma SettledExpects(s: State, now: uint32, input: Inputs)
    requires Ok(s) && s.phase != PowerOff
    ensures Expects(SettledTick(s, now, input)) ==> Expects(s)
  {
    var u := DetectLoss(LeaveSettling(s, now, input), now, input);
    if u.phase == ShutdownWait {
      ShutdownExpects(s, now, input);
    } else {
      hide Settle, CheckHealth, CheckProgress, Dispatch;
      SettleExpects(u, now, input);
      SupervisionExpects(Settle(u, now, input), now, input);
    }
  }

  lemma ShutdownExpects(s: State, now: uint32, input: Inputs)
    requires Ok(s) && s.phase != PowerOff
    requires DetectLoss(LeaveSettling(s, now, input), now, input).phase == ShutdownWait
    ensures !Expects(SettledTick(s, now, input))
  {
  }

  lemma RebootExpects(s: State, now: uint32)
    requires Sound(s)
    ensures Expects(RequestReboot(s, now)) ==> Expects(s)
  {
  }

  /** In a shutdown, or while it is to be taken down, the charger is not expected on. */
  lemma Unexpected(s: State)
    requires Sound(s)
    ensures InShutdown(s) || s.pending.kind == StopCharging ==> !Expects(s)
  {
  }
}
