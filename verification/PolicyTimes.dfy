/** When the policy acts: the irrevocable shutdown deadline and the arithmetic
    bound on initial charging. True time is unbounded; the policy sees it modulo 2^32. */
module PolicyTimes {
  import opened Clock
  import opened Voltages
  import opened PowerPolicy
  import opened PolicyRuns

  // ---- The shutdown deadline ----

  /** A tick at or after the deadline of a shutdown that started at time T. */
  predicate Due(T: nat, e: Event) { e.Ticked? && e.at >= T + 60000 }

  predicate DueBy(T: nat, events: seq<Event>) {
    exists k :: 0 <= k < |events| && Due(T, events[k])
  }

  /** The clock does not wrap a whole turn during the shutdown. */
  predicate InSpan(T: nat, events: seq<Event>) {
    forall k | 0 <= k < |events| && events[k].Ticked? :: T <= events[k].at < T + WRAP
  }

  lemma ShutdownSettles(s: State, now: uint32, input: Inputs)
    requires s.phase == ShutdownWait && Ok(s)
    ensures var t := Settle(s, now, input);
            t.phase == ShutdownWait && t.at.shutdown == s.at.shutdown && t.reason == s.reason && t.nextId == s.nextId
  {
  }

  lemma OffFinishes(s: State, success: bool, now: uint32, input: Inputs)
    requires s.phase == PowerOff && Ok(s)
    ensures var t := Finish(s, success, now, input);
            t.phase == PowerOff && t.at.shutdown == s.at.shutdown && t.reason == s.reason && t.nextId == s.nextId
  {
  }

  /** One event during shutdown: nothing but a tick at the deadline ends the wait. */
  lemma ShutdownStep(s: State, e: Event)
    requires Ok(s) && InShutdown(s)
    ensures var t := Apply(s, e);
            && InShutdown(t) && t.at.shutdown == s.at.shutdown && t.reason == s.reason
            && (t.phase == PowerOff <==>
                  s.phase == PowerOff || (e.Ticked? && Elapsed(Ticks(e.at), s.at.shutdown) >= 60000))
            && IssuedBy(s, e) == (if s.phase != PowerOff && t.phase == PowerOff then CutPower else NoAction)
  {
    hide Settle, Finish, PendingFits, ChargeFits, BootFits, Note;
    if e.Ticked? && s.phase == PowerOff {
      CosmeticKeeps(s, Hear(s, e.input));
      if s.outcome.Reported? {
        OffFinishes(Hear(s, e.input), s.outcome.success, Ticks(e.at), e.input);
      }
    } else if e.Ticked? && s.phase == ShutdownWait {
      var s1 := NoteIssues(Hear(s, e.input), e.input);
      NoteKeeps(Hear(s, e.input), !e.input.statusValid, StatusUnavailable);
      NoteKeeps(Note(Hear(s, e.input), !e.input.statusValid, StatusUnavailable),
                e.input.statusValid && !VoltageValid(e.input.vcap), InvalidVoltage);
      CosmeticKeeps(s, Hear(s, e.input));
      CosmeticKeeps(s, s1);
      CosmeticKeeps(s1, Replies(s1, e.input));
      ShutdownSettles(Replies(s1, e.input), Ticks(e.at), e.input);
    }
  }

  lemma {:induction false} ShutdownRuns(s: State, T: nat, events: seq<Event>)
    requires Ok(s) && s.phase == ShutdownWait && s.at.shutdown == Ticks(T) && InSpan(T, events)
    ensures var t := Run(s, events);
            && Ok(t) && InShutdown(t) && t.at.shutdown == Ticks(T) && t.reason == s.reason
            && (t.phase == PowerOff <==> DueBy(T, events))
    ensures Log(s, events) == if DueBy(T, events) then [CutPower] else []
  {
    hide Ok, Apply;
    if events != [] {
      var n := |events| - 1;
      var front, e := events[..n], events[n];
      ShutdownRuns(s, T, front);
      var t := Run(s, front);
      StepKeeps(t, e);
      ShutdownStep(t, e);
      if e.Ticked? {
        ElapsedBounds(e.at, T);
      }
      DueBySnoc(T, events);
    }
  }

  lemma DueBySnoc(T: nat, events: seq<Event>)
    requires events != []
    ensures var n := |events| - 1; DueBy(T, events) <==> DueBy(T, events[..n]) || Due(T, events[n])
  {
    var n := |events| - 1;
    if DueBy(T, events) {
      var k :| 0 <= k < |events| && Due(T, events[k]);
      assert k < n ==> events[..n][k] == events[k];
    }
    if DueBy(T, events[..n]) {
      var k :| 0 <= k < n && Due(T, events[..n][k]);
      assert Due(T, events[k]);
    }
  }

  /** Power is cut by the first tick at or after 60 s, and by nothing else:
      neither replies, results, reboot requests nor the return of main defer,
      shorten or restart the deadline. */
  lemma CutExactlyAtDeadline(s: State, T: nat, events: seq<Event>, k: nat)
    requires Ok(s) && s.phase == ShutdownWait && s.at.shutdown == Ticks(T) && InSpan(T, events) && k < |events|
    ensures IssuedBy(Run(s, events[..k]), events[k]) == CutPower <==> Due(T, events[k]) && !DueBy(T, events[..k])
  {
    hide Ok, Apply, IssuedBy;
    ShutdownRuns(s, T, events[..k]);
    var t := Run(s, events[..k]);
    ShutdownStep(t, events[k]);
    if events[k].Ticked? {
      ElapsedBounds(events[k].at, T);
    }
  }

  predicate Entering(s: State, e: Event) { !InShutdown(s) && InShutdown(Apply(s, e)) }

  lemma DispatchAwake(s: State, now: uint32, input: Inputs)
    requires !InShutdown(s)
    ensures !InShutdown(Dispatch(s, now, input))
  {
  }

  lemma EntryInTick(s: State, now: uint32, input: Inputs)
    requires Mid(s) && !InShutdown(s) && InShutdown(SettledTick(s, now, input))
    ensures input.statusValid && !input.mainPresent
    ensures var t := SettledTick(s, now, input);
            && t.phase == ShutdownWait && t.at.shutdown == now
            && t.nextId != s.nextId && t.pending.kind == RequestJetsonShutdown
  {
    hide Settle, CheckHealth, CheckProgress, Dispatch, ShutdownTick, StartShutdown, Note;
    hide PendingFits, ChargeFits, BootFits, Left, StartupLeft;
    var s0 := LeaveSettling(s, now, input);
    LeaveSettlingKeeps(s, now, input);
    if input.statusValid && !input.mainPresent {
      ShutdownEntered(s0, now, input);
      RequestIssued(s0, now, MainLoss);
    } else {
      var s1 := Settle(s0, now, input);
      SettleKeeps(s0, now, input);
      var s2 := CheckHealth(s1, input);
      HealthKeeps(s1, input);
      var s3 := CheckProgress(s2, now, input);
      ProgressKeeps(s2, now, input);
      DispatchAwake(s3, now, input);
    }
  }

  lemma RequestIssued(s: State, now: uint32, reason: Reason)
    ensures var t := StartShutdown(s, now, reason);
            && t.phase == ShutdownWait && t.at.shutdown == now
            && t.nextId != s.nextId && t.pending.kind == RequestJetsonShutdown
  {
  }

  /** The event that enters shutdown fixes the deadline: 60 s from its own time. */
  lemma EntryFixesDeadline(s: State, e: Event)
    requires Ok(s) && Entering(s, e)
    ensures !e.Completed? && Apply(s, e).phase == ShutdownWait && Apply(s, e).at.shutdown == Ticks(e.at)
    ensures IssuedBy(s, e) == RequestJetsonShutdown
    ensures e.Ticked? ==> e.input.statusValid && !e.input.mainPresent
  {
    hide SettledTick, StartShutdown, Note, PendingFits, ChargeFits, BootFits, Left, StartupLeft;
    match e {
      case Ticked(at, input) =>
        var s0 := Hear(s, input);
        CosmeticKeeps(s, s0);
        NoteKeeps(s0, !input.statusValid, StatusUnavailable);
        NoteKeeps(Note(s0, !input.statusValid, StatusUnavailable), input.statusValid && !VoltageValid(input.vcap),
                  InvalidVoltage);
        CosmeticKeeps(s0, NoteIssues(s0, input));
        EntryInTick(NoteIssues(s0, input), Ticks(at), input);
      case Completed(id, success) =>
      case RebootAsked(at) => RequestIssued(s, Ticks(at), FullReboot);
    }
  }

  // ---- The bound on initial charging ----

  /** A charge that goes on through a stage keeps its marks. */
  predicate SameCharge(s: State, t: State) {
    t.phase == Charging ==>
      s.phase == Charging && t.at.charge == s.at.charge && t.at.progress == s.at.progress && t.progress == s.progress
  }

  predicate NewCharge(t: State, now: uint32, input: Inputs) {
    t.at.charge == now && t.at.progress == now && t.progress == input.vcap
  }

  predicate LimitIssue(s: State) { ChargeTimeLimit in s.issues }

  lemma SettleCharge(s: State, now: uint32, input: Inputs)
    requires Mid(s) && s.phase != Settling
    ensures var t := Settle(s, now, input);
            && (t.phase == Charging ==> SameCharge(s, t) || (s.phase != Charging && NewCharge(t, now, input)))
            && LimitIssue(t) == LimitIssue(s)
  {
    hide Finish;
    if s.outcome.Reported? {
      FinishCharge(s, s.outcome.success, now, input);
    } else if s.pending.kind != NoAction {
      FinishCharge(Note(s, true, ActionTimedOut), false, now, input);
    }
  }

  lemma FinishCharge(s: State, success: bool, now: uint32, input: Inputs)
    requires PendingFits(s)
    ensures var t := Finish(s, success, now, input);
            && (t.phase == Charging ==> SameCharge(s, t) || (s.phase != Charging && NewCharge(t, now, input)))
            && LimitIssue(t) == LimitIssue(s)
  {
  }

  lemma HealthCharge(s: State, input: Inputs)
    requires Mid(s) && s.phase != Settling
    ensures var t := CheckHealth(s, input);
            && SameCharge(s, t) && LimitIssue(t) == LimitIssue(s)
            && (t.phase == Charging ==> input.vcap.Volts? && 0 <= input.vcap.v <= CHARGE_TARGET)
  {
  }

  lemma DispatchCharge(s: State, now: uint32, input: Inputs)
    requires Mid(s) && !InShutdown(s)
    ensures var t := Dispatch(s, now, input); SameCharge(s, t) && LimitIssue(t) == LimitIssue(s)
  {
  }

  /** The progress rule: the timer restarts only on a rise of 0.10 V or more. */
  predicate Progressed(s: State, t: State, now: uint32, input: Inputs) {
    && t.at.charge == s.at.charge && Elapsed(now, t.at.progress) < NO_RISE_MS
    && (|| (t.at.progress == s.at.progress && t.progress == s.progress)
        || (Rose(s, input) && t.at.progress == now && t.progress == input.vcap))
  }

  lemma ProgressCharge(s: State, now: uint32, input: Inputs)
    requires Mid(s)
    ensures var t := CheckProgress(s, now, input);
            && (t.phase == Charging ==> s.phase == Charging && Progressed(s, t, now, input))
            && (LimitIssue(t) ==>
                  LimitIssue(s) || (s.phase == Charging && Elapsed(now, s.at.charge) >= MAXIMUM_CHARGE_MS))
  {
  }

  /** One tick, as far as initial charging is concerned. */
  predicate ChargeStep(s: State, t: State, now: uint32, input: Inputs) {
    && (t.phase == Charging ==>
          && input.vcap.Volts? && 0 <= input.vcap.v <= CHARGE_TARGET
          && if s.phase == Charging then Progressed(s, t, now, input) else NewCharge(t, now, input))
    && (LimitIssue(t) ==> LimitIssue(s) || (s.phase == Charging && Elapsed(now, s.at.charge) >= MAXIMUM_CHARGE_MS))
  }

  lemma SettledCharge(s: State, now: uint32, input: Inputs)
    requires Mid(s) && s.phase != PowerOff
    ensures ChargeStep(s, SettledTick(s, now, input), now, input)
  {
    hide Settle, CheckHealth, CheckProgress, Dispatch, ShutdownTick, StartShutdown;
    hide PendingFits, ChargeFits, BootFits, Left, StartupLeft;
    var s0 := LeaveSettling(s, now, input);
    LeaveSettlingKeeps(s, now, input);
    if InShutdown(s0) || (input.statusValid && !input.mainPresent) {
      ShutdownCharge(s0, now, input);
    } else {
      var s1 := Settle(s0, now, input);
      SettleKeeps(s0, now, input);
      SettleCharge(s0, now, input);
      var s2 := CheckHealth(s1, input);
      HealthKeeps(s1, input);
      HealthCharge(s1, input);
      var s3 := CheckProgress(s2, now, input);
      ProgressKeeps(s2, now, input);
      ProgressCharge(s2, now, input);
      DispatchCharge(s3, now, input);
    }
  }

  lemma ShutdownCharge(s0: State, now: uint32, input: Inputs)
    requires Mid(s0) && s0.phase != PowerOff && s0.phase != Settling
    requires InShutdown(s0) || (input.statusValid && !input.mainPresent)
    ensures var s := DetectLoss(s0, now, input);
            && s.phase == ShutdownWait && ShutdownTick(s, now, input).phase != Charging
            && LimitIssue(ShutdownTick(s, now, input)) == LimitIssue(s0)
  {
    var s := DetectLoss(s0, now, input);
    LossKeeps(s0, now, input);
    hide DetectLoss;
    var r := Replies(s, input);
    hide Settle, PendingFits, ChargeFits, BootFits;
    HeardKeeps(s, input);
    SettleCharge(r, now, input);
    ShutdownSettles(r, now, input);
  }

  lemma LossKeeps(s: State, now: uint32, input: Inputs)
    requires Mid(s) && s.phase != PowerOff && s.phase != Settling
    requires InShutdown(s) || (input.statusValid && !input.mainPresent)
    ensures var t := DetectLoss(s, now, input); Mid(t) && t.phase == ShutdownWait && LimitIssue(t) == LimitIssue(s)
  {
  }

  lemma TickCharge(s: State, now: uint32, input: Inputs)
    requires Ok(s)
    ensures ChargeStep(s, Tick(s, now, input), now, input)
  {
    hide SettledTick, PendingFits, ChargeFits, BootFits, Left, StartupLeft;
    var s0 := Hear(s, input);
    CosmeticKeeps(s, s0);
    if s.phase != PowerOff {
      CosmeticKeeps(s0, NoteIssues(s0, input));
      SettledCharge(NoteIssues(s0, input), now, input);
    } else if s.outcome.Reported? {
      OffCharge(s0, s.outcome.success, now, input);
    }
  }

  lemma OffCharge(s: State, success: bool, now: uint32, input: Inputs)
    requires s.phase == PowerOff && Ok(s)
    ensures var t := Finish(s, success, now, input); t.phase == PowerOff && LimitIssue(t) == LimitIssue(s)
  {
  }

  /** The time of the last tick of a run that began at t0. */
  function LastTick(t0: nat, events: seq<Event>): nat {
    if events == [] then t0
    else if events[|events| - 1].Ticked? then events[|events| - 1].at
    else LastTick(t0, events[..|events| - 1])
  }

  /** Consecutive ticks are at most g apart. */
  ghost predicate Paced(t0: nat, events: seq<Event>, g: nat) {
    forall i | 0 <= i < |events| && events[i].Ticked? ::
      LastTick(t0, events[..i]) <= events[i].at <= LastTick(t0, events[..i]) + g
  }

  /** When the present charge began: the tick that last entered Charging. */
  function ChargeStart(s: State, events: seq<Event>): nat {
    if events == [] then 0
    else
      var front, e := events[..|events| - 1], events[|events| - 1];
      if e.Ticked? && Run(s, front).phase != Charging then e.at else ChargeStart(s, front)
  }

  /** After k restarts of the timer the voltage is at least 1000 k (0.10 V each)
      and at most k timer periods have passed. */
  ghost predicate Marks(s: State, chargeT: nat, progressT: nat, lastT: nat, k: nat, g: nat) {
    && s.at.charge == Ticks(chargeT) && s.at.progress == Ticks(progressT)
    && s.progress.Volts? && SIGNIFICANT_RISE * k <= s.progress.v <= CHARGE_TARGET
    && chargeT <= progressT <= lastT < progressT + NO_RISE_MS
    && progressT <= chargeT + k * (NO_RISE_MS + g)
  }

  lemma MarkStep(s: State, t: State, chargeT: nat, progressT: nat, lastT: nat, k: nat, g: nat, at: nat, input: Inputs)
      returns (progressT': nat, k': nat)
    requires s.phase == Charging && t.phase == Charging && Marks(s, chargeT, progressT, lastT, k, g)
    requires lastT <= at <= lastT + g && NO_RISE_MS + g < WRAP && ChargeStep(s, t, Ticks(at), input)
    ensures Marks(t, chargeT, progressT', at, k', g)
  {
    if t.at.progress == s.at.progress && t.progress == s.progress {
      progressT', k' := progressT, k;
      ElapsedBounds(at, progressT);
    } else {
      progressT', k' := at, k + 1;
      assert (k + 1) * (NO_RISE_MS + g) == k * (NO_RISE_MS + g) + (NO_RISE_MS + g);
    }
  }

  lemma {:induction false} ChargeMarks(s: State, t0: nat, events: seq<Event>, g: nat) returns (progressT: nat, k: nat)
    requires Ok(s) && s.phase == Settling && Paced(t0, events, g) && NO_RISE_MS + g < WRAP
    ensures Ok(Run(s, events))
    ensures Run(s, events).phase == Charging ==>
              Marks(Run(s, events), ChargeStart(s, events), progressT, LastTick(t0, events), k, g)
  {
    hide Ok, Tick, Marks, ChargeStep;
    RunBalanced(s, events);
    progressT, k := 0, 0;
    if events != [] {
      var n := |events| - 1;
      var front, e := events[..n], events[n];
      assert forall i | 0 <= i < n :: front[..i] == events[..i];
      progressT, k := ChargeMarks(s, t0, front, g);
      var r, t := Run(s, front), Run(s, events);
      if e.Ticked? && t.phase == Charging {
        TickCharge(r, Ticks(e.at), e.input);
        if r.phase == Charging {
          progressT, k := MarkStep(r, t, ChargeStart(s, front), progressT, LastTick(t0, front), k, g, e.at, e.input);
        } else {
          progressT, k := e.at, 0;
          MarkStart(r, t, g, e.at, e.input);
        }
      } else if t.phase == Charging {
        MarksKept(r, t, ChargeStart(s, front), progressT, LastTick(t0, front), k, g);
      }
    }
  }

  lemma MarkStart(s: State, t: State, g: nat, at: nat, input: Inputs)
    requires s.phase != Charging && t.phase == Charging && ChargeStep(s, t, Ticks(at), input)
    ensures Marks(t, at, at, at, 0, g)
  {
  }

  lemma MarksKept(s: State, t: State, chargeT: nat, progressT: nat, lastT: nat, k: nat, g: nat)
    requires Marks(s, chargeT, progressT, lastT, k, g) && t.at == s.at && t.progress == s.progress
    ensures Marks(t, chargeT, progressT, lastT, k, g)
  {
  }

  lemma MarksBound(s: State, chargeT: nat, progressT: nat, lastT: nat, k: nat, g: nat)
    requires Marks(s, chargeT, progressT, lastT, k, g)
    ensures lastT + g <= chargeT + 201 * (NO_RISE_MS + g)
  {
    assert k * (NO_RISE_MS + g) <= 200 * (NO_RISE_MS + g);
  }

  /** Initial charging is over within 201 (10 s + g) when ticks come at most g
      apart: at every tick that still finds it under way, no more time has passed. */
  lemma ChargingBounded(previousId: uint32, t0: nat, events: seq<Event>, g: nat, at: nat)
    requires Paced(t0, events, g) && NO_RISE_MS + g < WRAP
    requires LastTick(t0, events) <= at <= LastTick(t0, events) + g
    ensures var s := Begin(previousId, Ticks(t0));
            Run(s, events).phase == Charging ==> at <= ChargeStart(s, events) + 201 * (NO_RISE_MS + g)
  {
    hide Marks, Run, ChargeStart, Paced, LastTick;
    var s := Begin(previousId, Ticks(t0));
    BeginOk(previousId, Ticks(t0));
    var progressT, k := ChargeMarks(s, t0, events, g);
    if Run(s, events).phase == Charging {
      MarksBound(Run(s, events), ChargeStart(s, events), progressT, LastTick(t0, events), k, g);
    }
  }

  /** Hence the two-hour limit is never what ends a charge while ticks come at
      most 25 s apart. */
  lemma {:induction false} NoChargeTimeLimit(previousId: uint32, t0: nat, events: seq<Event>, g: nat)
    requires Paced(t0, events, g) && g <= 25000
    ensures ChargeTimeLimit !in Run(Begin(previousId, Ticks(t0)), events).issues
  {
    hide Ok, Tick, Marks;
    var s := Begin(previousId, Ticks(t0));
    BeginOk(previousId, Ticks(t0));
    if events != [] {
      var n := |events| - 1;
      var front, e := events[..n], events[n];
      assert forall i | 0 <= i < n :: front[..i] == events[..i];
      NoChargeTimeLimit(previousId, t0, front, g);
      RunBalanced(s, front);
      if e.Ticked? {
        TickCharge(Run(s, front), Ticks(e.at), e.input);
        var progressT, k := ChargeMarks(s, t0, front, g);
        LimitFar(Run(s, front), ChargeStart(s, front), progressT, LastTick(t0, front), k, g, e.at);
      }
    }
  }

  lemma LimitFar(s: State, chargeT: nat, progressT: nat, lastT: nat, k: nat, g: nat, at: nat)
    requires s.phase == Charging ==> Marks(s, chargeT, progressT, lastT, k, g)
    requires lastT <= at <= lastT + g && g <= 25000
    ensures s.phase == Charging ==> Elapsed(Ticks(at), s.at.charge) < MAXIMUM_CHARGE_MS
  {
    if s.phase == Charging {
      MarksBound(s, chargeT, progressT, lastT, k, g);
      ElapsedBounds(at, chargeT);
    }
  }
}
