/** What a tick of the policy must do, condition by condition, without reference to
    the stages it is made of: when charging goes on and when it ends, which action is
    issued, what a result means, and what is noted. */
module PolicyLaws {
  import opened Clock
  import opened Voltages
  import opened PowerPolicy
  import opened PolicyRuns

  // ---- Conditions a tick meets ----

  /** The pending action has neither a result to take nor run out of its time. */
  predicate Quiet(s: State, now: uint32) {
    && s.outcome == Unreported
    && (s.pending.kind != NoAction ==>
          Elapsed(now, s.pendingAt) < if s.pending.kind == PrepareCharging then 15000 else 5000)
  }

  predicate MainLost(input: Inputs) { input.statusValid && !input.mainPresent }

  /** Charging is prepared or under way, maintenance included. */
  predicate OnCharge(s: State) {
    s.charge.expected || s.phase == Charging || (s.phase == ChargePrepare && s.charge.prepared)
  }

  /** A reading that charging may go on with: known, from 0 to less than 21.0 V, no
      charger fault, and boost power-good once CE is on. */
  predicate Fit(s: State, input: Inputs) {
    && input.statusValid && input.vcap.Volts? && 0 <= input.vcap.v < 210000 && !input.chargeFault
    && (s.charge.expected ==> input.boostPowerGood)
  }

  /** The voltage is 0.10 V or more above the last mark. */
  predicate Rises(s: State, input: Inputs) {
    input.vcap.Volts? && s.progress.Volts? && input.vcap.v >= s.progress.v + 1000
  }

  /** Initial charging below 20.0 V has two hours, and ten seconds from every rise of 0.10 V. */
  predicate InTime(s: State, now: uint32, input: Inputs) {
    s.phase == Charging && input.vcap.Volts? && input.vcap.v <= 200000 ==>
      && Elapsed(now, s.at.charge) < 7200000
      && (Elapsed(now, s.at.progress) < 10000 || Rises(s, input))
  }

  /** Boost power-good has not come in the two seconds after preparation. */
  predicate BoostLate(s: State, now: uint32, input: Inputs) {
    && s.phase == ChargePrepare && s.charge.prepared && s.pending.kind == NoAction
    && !input.boostPowerGood && Elapsed(now, s.at.phase) >= 2000
  }

  /** Charging goes on over this tick. */
  predicate GoesOn(s: State, now: uint32, input: Inputs) {
    Fit(s, input) && InTime(s, now, input) && !BoostLate(s, now, input)
  }

  /** A tick with nothing to take, past the settling window and outside shutdown. */
  predicate Plain(s: State, now: uint32, input: Inputs) {
    Ok(s) && !InShutdown(s) && s.phase != Settling && Quiet(s, now) && !MainLost(input)
  }

  // ---- The stages, for such a tick ----

  /** What every tick takes down before it looks at anything. */
  function Heard(s: State, input: Inputs): State { NoteIssues(Hear(s, input), input) }

  function Supervised(s: State, now: uint32, input: Inputs): State {
    CheckProgress(CheckHealth(s, input), now, input)
  }

  /** An issue that a reading shows by itself. */
  predicate Shown(i: Issue, input: Inputs) {
    || (i == StatusUnavailable && !input.statusValid)
    || (i == InvalidVoltage && input.statusValid && (!input.vcap.Volts? || input.vcap.v < 0))
  }

  lemma HeardSame(s: State, input: Inputs)
    ensures var t := Heard(s, input);
            && t == s.(link := t.link, issues := t.issues)
            && t.link == s.link.(pongSeen := s.link.pongSeen || input.jetsonPong)
            && NotedOnly(s, t, input)
  {
    forall i
      ensures i in Heard(s, input).issues <==> i in s.issues || Shown(i, input)
    {
    }
  }

  /** Nothing is noted but what the reading shows. */
  ghost predicate NotedOnly(s: State, t: State, input: Inputs) {
    forall i :: i in t.issues <==> i in s.issues || Shown(i, input)
  }

  /** And one issue more. */
  ghost predicate NotedFor(s: State, t: State, input: Inputs, issue: Issue) {
    forall i :: i in t.issues <==> i in s.issues || Shown(i, input) || i == issue
  }

  lemma OneMore(s: State, r: State, t: State, input: Inputs, issue: Issue)
    requires NotedOnly(s, r, input) && t.issues == r.issues + {issue}
    ensures NotedFor(s, t, input, issue)
  {
  }

  lemma PlainStages(s: State, now: uint32, input: Inputs)
    requires Plain(s, now, input)
    ensures Tick(s, now, input) == Dispatch(Supervised(Heard(s, input), now, input), now, input)
  {
    assert s.begun;
    hide Dispatch, CheckHealth, CheckProgress, NoteIssues, Hear, Finish, Ok, NotedOnly;
    HeardSame(s, input);
    assert Settle(Heard(s, input), now, input) == Heard(s, input);
  }

  /** Supervision that finds nothing wrong, or nothing to supervise. */
  lemma SupervisedKept(s: State, now: uint32, input: Inputs)
    requires Mid(s) && (OnCharge(s) ==> Fit(s, input) && InTime(s, now, input))
    ensures var u := Supervised(s, now, input);
            && u == s.(phase := u.phase, charge := u.charge, at := u.at, progress := u.progress)
            && u.at == s.at.(progress := u.at.progress)
            && u.charge == s.charge.(maintenance := u.charge.maintenance)
            && (if s.phase == Charging && input.vcap.v > 200000 then u.phase == JetsonStarting && u.charge.maintenance
                else u.phase == s.phase && u.charge == s.charge)
            && (u.phase == Charging && Rises(s, input) ==> u.at.progress == now && u.progress == input.vcap)
            && (|| (u.at.progress == s.at.progress && u.progress == s.progress)
                || (u.phase == Charging && u.at.progress == now && u.progress == input.vcap))
  {
    hide Leave;
    assert OnCharge(s) ==> s.charge.prepared;
  }

  /** Why charging ends, the first of these that applies. */
  predicate ReasonOf(s: State, now: uint32, input: Inputs, issue: Issue) {
    if !input.statusValid then issue == StatusUnavailable
    else if !input.vcap.Volts? || input.vcap.v < 0 then issue == InvalidVoltage
    else if input.vcap.v >= 210000 then issue == ChargeOvervoltage
    else if input.chargeFault || (s.charge.expected && !input.boostPowerGood) then issue == ChargerFault
    else if Elapsed(now, s.at.charge) >= 7200000 then issue == ChargeTimeLimit
    else issue == ChargeNoRise
  }

  /** Supervision that finds something wrong: charging is left, and an interrupted
      startup step counts as not attempted. */
  predicate LeftFor(s: State, u: State, issue: Issue) {
    && u.pending == IDLE && u.outcome == Unreported && u.nextId == s.nextId && u.issues == s.issues + {issue}
    && u.phase == (if s.phase == Running then Running else JetsonStarting)
    && !u.charge.expected && !u.charge.maintenance && u.charge.stopNeeded && !u.charge.stopAttempted
    && u.boot == Boot(s.boot.backupAttempted && s.pending.kind != ArmBackup, s.boot.backupArmed,
                      s.boot.jetsonAttempted && s.pending.kind != EnableJetson, s.boot.jetsonEnabled,
                      s.boot.pingAttempted && s.pending.kind != PingJetson)
    && u.link == s.link
  }

  lemma LeaveLeft(s: State, issue: Issue)
    requires s.phase == ChargePrepare || s.phase == Charging || s.phase == JetsonStarting || s.phase == Running
    ensures LeftFor(s, Leave(s, issue), issue) && Leave(s, issue).phase != Charging
  {
  }

  lemma SupervisedLeft(s: State, now: uint32, input: Inputs) returns (issue: Issue)
    requires Mid(s) && OnCharge(s) && !(Fit(s, input) && InTime(s, now, input))
    ensures LeftFor(s, Supervised(s, now, input), issue) && ReasonOf(s, now, input, issue)
  {
    hide Leave, LeftFor;
    forall i: Issue
      ensures LeftFor(s, Leave(s, i), i) && Leave(s, i).phase != Charging
    {
      LeaveLeft(s, i);
    }
    issue := if !input.statusValid then StatusUnavailable
             else if !VoltageValid(input.vcap) then InvalidVoltage
             else if input.vcap.v >= 210000 then ChargeOvervoltage
             else if input.chargeFault || (s.charge.expected && !input.boostPowerGood) then ChargerFault
             else if Elapsed(now, s.at.charge) >= 7200000 then ChargeTimeLimit
             else ChargeNoRise;
    assert s.charge.prepared;
    assert Supervised(s, now, input) == Leave(s, issue);
  }

  // ---- The laws ----

  /** The order to stop charging, issued in this very tick. */
  predicate Stopped(s: State, t: State, now: uint32) {
    && t.pending == Pending(StopCharging, t.nextId) && t.nextId == NextId(s.nextId) && t.pendingAt == now
    && t.outcome == Unreported && t.charge.stopNeeded && t.charge.stopAttempted
  }

  lemma DispatchLeft(s: State, u: State, issue: Issue, now: uint32, input: Inputs)
    requires Ok(s) && OnCharge(s) && LeftFor(s, u, issue)
    ensures var t := Dispatch(u, now, input);
            && Stopped(s, t, now) && t.phase == u.phase && t.issues == u.issues && t.link == u.link && t.boot == u.boot
            && !t.charge.expected && !t.charge.maintenance
  {
  }

  /** What supervision leaves of a charge that goes on. */
  predicate KeptOn(s: State, u: State, input: Inputs) {
    && u == s.(phase := u.phase, charge := u.charge, at := u.at, progress := u.progress) && u.at.phase == s.at.phase
    && u.charge == s.charge.(maintenance := u.charge.maintenance)
    && (if s.phase == Charging && input.vcap.Volts? && input.vcap.v > 200000
        then u.phase == JetsonStarting && u.charge.maintenance else u.phase == s.phase && u.charge == s.charge)
  }

  /** The backup is due: it was not tried yet, and main and a bank of 10 to 21 V are there. */
  predicate ArmDue(s: State, phase: Phase, input: Inputs) {
    && (phase == Charging || phase == JetsonStarting || phase == Running) && !s.boot.backupAttempted
    && input.statusValid && input.mainPresent && input.vcap.Volts? && 100000 <= input.vcap.v <= 210000
  }

  /** What is issued when nothing is pending and charging, if any, goes on. */
  predicate NextIssue(s: State, phase: Phase, input: Inputs, a: Action) {
    if ArmDue(s, phase, input) then a == ArmBackup
    else if phase == ChargePrepare then a == if input.boostPowerGood then EnableCharging else NoAction
    else if phase == JetsonStarting && !s.boot.jetsonAttempted then a == EnableJetson
    else if phase == JetsonStarting && !s.boot.pingAttempted then a == PingJetson
    else a == NoAction
  }

  /** A tick that issues `a`, or nothing, and changes nothing else about what was tried. */
  predicate Issues(s: State, t: State, now: uint32, a: Action) {
    if a == NoAction
    then t.nextId == s.nextId && t.pending == s.pending && t.pendingAt == s.pendingAt && t.outcome == s.outcome
         && t.boot == s.boot && t.charge.enableAttempted == s.charge.enableAttempted
    else && t.pending == Pending(a, t.nextId) && t.nextId == NextId(s.nextId) && t.pendingAt == now
         && t.outcome == Unreported
         && t.boot == Boot(s.boot.backupAttempted || a == ArmBackup, s.boot.backupArmed,
                           s.boot.jetsonAttempted || a == EnableJetson, s.boot.jetsonEnabled,
                           s.boot.pingAttempted || a == PingJetson)
         && t.charge.enableAttempted == (s.charge.enableAttempted || a == EnableCharging)
  }

  lemma DispatchKept(s: State, u: State, now: uint32, input: Inputs) returns (a: Action)
    requires Ok(s) && !InShutdown(s) && s.phase != Settling && KeptOn(s, u, input) && !BoostLate(s, now, input)
    ensures var t := Dispatch(u, now, input);
            && Issues(s, t, now, a) && t.phase == u.phase && t.issues == s.issues && t.link == s.link
            && t.charge == u.charge.(enableAttempted := t.charge.enableAttempted)
            && if s.pending.kind != NoAction then a == NoAction else NextIssue(s, u.phase, input, a)
  {
    hide Departed, Left, StartupLeft;
    var t := Dispatch(u, now, input);
    a := if t.nextId == s.nextId then NoAction else t.pending.kind;
  }

  lemma DispatchLate(s: State, u: State, now: uint32, input: Inputs)
    requires Ok(s) && KeptOn(s, u, input) && BoostLate(s, now, input)
    ensures var t := Dispatch(u, now, input);
            && Stopped(s, t, now) && t.phase == JetsonStarting && t.issues == s.issues + {BoostPowerGoodTimeout}
            && !t.charge.expected && !t.charge.maintenance && t.boot == s.boot && t.link == s.link
  {
  }

  /** Charging went on over a tick; above 20.0 V initial charging turns to maintenance. */
  ghost predicate WentOn(s: State, t: State, input: Inputs) {
    var full := s.phase == Charging && input.vcap.Volts? && input.vcap.v > 200000;
    && t.charge.expected == s.charge.expected && t.charge.prepared && !t.charge.stopNeeded
    && t.phase == (if full then JetsonStarting else s.phase) && t.charge.maintenance == (s.charge.maintenance || full)
    && NotedOnly(s, t, input)
  }

  /** Charging ended in a tick, for a reason, and the stop was ordered at once. */
  ghost predicate Ended(s: State, t: State, now: uint32, input: Inputs, issue: Issue) {
    && !t.charge.expected && !t.charge.maintenance && Stopped(s, t, now)
    && t.phase == (if s.phase == Running then Running else JetsonStarting) && NotedFor(s, t, input, issue)
  }

  /** Charging over one tick: it goes on exactly while the reading is fit, the times are
      kept and boost power-good comes; otherwise it ends in this tick, for the first
      reason that applies, and the stop is ordered at once. */
  lemma ChargingGoesOn(s: State, now: uint32, input: Inputs)
    requires Plain(s, now, input) && OnCharge(s)
    ensures var t := Tick(s, now, input);
            if GoesOn(s, now, input) then WentOn(s, t, input)
            else exists issue ::
                   && Ended(s, t, now, input, issue)
                   && if Fit(s, input) && InTime(s, now, input) then issue == BoostPowerGoodTimeout
                      else ReasonOf(s, now, input, issue)
  {
    var r := Heard(s, input);
    HeardSame(s, input);
    CosmeticKeeps(s, r);
    PlainStages(s, now, input);
    hide Tick, Heard, Supervised, Ok, Left, StartupLeft, LeftFor, Dispatch, NotedOnly, NotedFor, WentOn, Ended;
    if !(Fit(s, input) && InTime(s, now, input)) {
      var issue := ChargingEnds(s, r, now, input);
    } else if BoostLate(s, now, input) {
      ChargingLate(s, r, now, input);
    } else {
      ChargingKept(s, r, now, input);
    }
  }

  lemma ChargingEnds(s: State, r: State, now: uint32, input: Inputs) returns (issue: Issue)
    requires Ok(r) && OnCharge(r) && !(Fit(r, input) && InTime(r, now, input)) && NotedOnly(s, r, input)
    requires r == s.(link := r.link, issues := r.issues)
    ensures Ended(s, Dispatch(Supervised(r, now, input), now, input), now, input, issue)
    ensures ReasonOf(s, now, input, issue)
  {
    var u := Supervised(r, now, input);
    PreparedOnCharge(r);
    hide Supervised, Ok, LeftFor, Mid, Dispatch, NotedOnly, NotedFor;
    issue := SupervisedLeft(r, now, input);
    LeftTells(r, u, issue);
    DispatchLeft(r, u, issue, now, input);
    OneMore(s, r, Dispatch(u, now, input), input, issue);
  }

  lemma ChargingLate(s: State, r: State, now: uint32, input: Inputs)
    requires Ok(r) && OnCharge(r) && Fit(r, input) && InTime(r, now, input) && BoostLate(r, now, input)
    requires NotedOnly(s, r, input) && r == s.(link := r.link, issues := r.issues)
    ensures Ended(s, Dispatch(Supervised(r, now, input), now, input), now, input, BoostPowerGoodTimeout)
  {
    var u := Supervised(r, now, input);
    PreparedOnCharge(r);
    SupervisedKept(r, now, input);
    hide Supervised, Ok, Mid, Dispatch, NotedOnly, NotedFor;
    DispatchLate(r, u, now, input);
    OneMore(s, r, Dispatch(u, now, input), input, BoostPowerGoodTimeout);
  }

  lemma ChargingKept(s: State, r: State, now: uint32, input: Inputs)
    requires Ok(r) && r.phase != Settling && OnCharge(r) && GoesOn(r, now, input) && NotedOnly(s, r, input)
    requires r == s.(link := r.link, issues := r.issues)
    ensures WentOn(s, Dispatch(Supervised(r, now, input), now, input), input)
  {
    var u := Supervised(r, now, input);
    PreparedOnCharge(r);
    SupervisedKept(r, now, input);
    hide Supervised, Ok, Mid, Dispatch, NotedOnly;
    var a := DispatchKept(r, u, now, input);
    SameIssues(s, r, Dispatch(u, now, input), input);
  }

  lemma SameIssues(s: State, r: State, t: State, input: Inputs)
    requires NotedOnly(s, r, input) && t.issues == r.issues
    ensures NotedOnly(s, t, input)
  {
  }

  lemma PreparedOnCharge(s: State)
    requires Ok(s) && OnCharge(s)
    ensures Mid(s) && s.charge.prepared && !s.charge.stopNeeded && !InShutdown(s)
  {
  }

  lemma LeftTells(s: State, u: State, issue: Issue)
    requires LeftFor(s, u, issue)
    ensures u.issues == s.issues + {issue} && u.phase == (if s.phase == Running then Running else JetsonStarting)
  {
  }

  /** Which action a tick issues: the stop if charging ends, else one that is due and
      only if nothing is pending; and nothing else is tried, dropped or noted. */
  lemma ActionsIssued(s: State, now: uint32, input: Inputs) returns (a: Action)
    requires Plain(s, now, input) && (OnCharge(s) ==> GoesOn(s, now, input))
    ensures var t := Tick(s, now, input);
            && Issues(s, t, now, a) && NotedOnly(s, t, input)
            && t.phase == (if s.phase == Charging && input.vcap.v > 200000 then JetsonStarting else s.phase)
            && t.link == s.link.(pongSeen := s.link.pongSeen || input.jetsonPong)
            && if s.pending.kind != NoAction then a == NoAction else NextIssue(s, t.phase, input, a)
  {
    var r := Heard(s, input);
    HeardSame(s, input);
    CosmeticKeeps(s, r);
    PlainStages(s, now, input);
    ChargeKnown(r);
    hide Tick, Heard, Ok, Left, StartupLeft, Dispatch, NotedOnly, Mid, Supervised;
    SupervisedKept(r, now, input);
    a := DispatchKept(r, Supervised(r, now, input), now, input);
    SameIssues(s, r, Tick(s, now, input), input);
  }

  lemma ChargeKnown(s: State)
    requires Ok(s)
    ensures Mid(s) && (s.phase == Charging ==> OnCharge(s))
  {
  }

  // ---- The settling window, main and the wait ----

  /** The first ten seconds do nothing; the tick that ends them prepares charging, or
      shuts down without main. */
  lemma SettlingEnds(s: State, now: uint32, input: Inputs)
    requires Ok(s) && s.phase == Settling
    ensures var t := Tick(s, now, input);
            if Elapsed(now, s.at.phase) < 10000
            then t == s.(link := t.link, issues := t.issues) && NotedOnly(s, t, input)
            else if MainLost(input) then
              Lost(s, t, now, input) && NotedFor(s, t, input, MainUnavailableAtStartup)
            else
              && t.phase == ChargePrepare && t.at.phase == now && !t.charge.prepared && NotedOnly(s, t, input)
              && t.pending == Pending(PrepareCharging, t.nextId) && t.nextId == NextId(s.nextId) && t.pendingAt == now
  {
    var r := Heard(s, input);
    HeardSame(s, input);
    assert s.begun && s.pending.kind == NoAction && s.outcome == Unreported;
    assert !s.charge.prepared && !s.charge.expected && !s.boot.backupAttempted;
    if Elapsed(now, s.at.phase) >= 10000 && MainLost(input) {
      var u := Note(r.(phase := ChargePrepare, at := r.at.(phase := now)), true, MainUnavailableAtStartup);
      OneMore(s, r, u, input, MainUnavailableAtStartup);
      LossTold(s, u, now, input);
    }
    hide Ok, Heard;
  }

  /** A shutdown for the loss of main, begun by this tick: the order to the host, a
      fresh exchange, and no charging expected any more. */
  predicate Lost(s: State, t: State, now: uint32, input: Inputs) {
    && t.phase == ShutdownWait && t.reason == MainLoss && t.at.shutdown == now && t.outcome == Unreported
    && t.pending == Pending(RequestJetsonShutdown, t.nextId) && t.nextId == NextId(s.nextId) && t.pendingAt == now
    && t.link == Link(s.link.pongSeen || input.jetsonPong, input.shutdownAck, input.finalReady, false)
    && !t.charge.expected && !t.charge.maintenance && t.boot == s.boot
  }

  lemma LossTold(s: State, r: State, now: uint32, input: Inputs)
    requires r.nextId == s.nextId && r.boot == s.boot && r.link.pongSeen == (s.link.pongSeen || input.jetsonPong)
    ensures var t := ShutdownTick(StartShutdown(r, now, MainLoss), now, input);
            Lost(s, t, now, input) && t.issues == r.issues
  {
  }

  /** Past the settling window main is lost exactly on a valid reading without it, and
      that tick shuts down whatever was pending. */
  lemma LossShutsDown(s: State, now: uint32, input: Inputs)
    requires Ok(s) && !InShutdown(s) && s.phase != Settling
    ensures var t := Tick(s, now, input);
            && (InShutdown(t) <==> MainLost(input))
            && (MainLost(input) ==> Lost(s, t, now, input) && NotedOnly(s, t, input))
  {
    var r := Heard(s, input);
    HeardSame(s, input);
    CosmeticKeeps(s, r);
    assert s.begun;
    if MainLost(input) {
      hide Ok, Heard, StartShutdown, ShutdownTick;
      LossTold(s, r, now, input);
    } else {
      hide Settle, CheckHealth, CheckProgress, Dispatch, Left, StartupLeft, Heard, NotedOnly;
      SettleKeeps(r, now, input);
      HealthKeeps(Settle(r, now, input), input);
      ProgressKeeps(CheckHealth(Settle(r, now, input), input), now, input);
      StaysAwake(CheckProgress(CheckHealth(Settle(r, now, input), input), now, input), now, input);
    }
  }

  lemma StaysAwake(s: State, now: uint32, input: Inputs)
    requires !InShutdown(s)
    ensures !InShutdown(Dispatch(s, now, input))
  {
  }

  /** A result of the request, or its time running out, is taken once. */
  ghost predicate WaitResult(s: State, t: State, now: uint32) {
    if Quiet(s, now) then t == s
    else
      var sent := s.outcome == Reported(true);
      && t == s.(pending := IDLE, outcome := Unreported, link := s.link.(requestSent := sent), issues := t.issues)
      && forall i :: i in t.issues <==> i in s.issues || (i == ShutdownRequestFailed && !sent)
                                        || (i == ActionTimedOut && s.outcome == Unreported)
  }

  lemma WaitSettles(s: State, now: uint32, input: Inputs)
    requires s.phase == ShutdownWait && (s.pending.kind == NoAction || s.pending.kind == RequestJetsonShutdown)
    requires s.pending.kind == NoAction ==> s.outcome == Unreported
    ensures WaitResult(s, Settle(s, now, input), now)
  {
  }

  /** What is latched of the host's replies. */
  predicate Latched(s: State, r: State, input: Inputs) {
    && r == s.(link := r.link, issues := r.issues)
    && r.link == Link(s.link.pongSeen || input.jetsonPong, s.link.ackSeen || input.shutdownAck,
                      s.link.readySeen || input.finalReady, s.link.requestSent)
  }

  /** The wait of a shutdown: replies are latched, the cut comes at 60 s, and until then
      a pending request only waits for its result. */
  lemma WaitGoesOn(s: State, now: uint32, input: Inputs) returns (r: State)
    requires Ok(s) && s.phase == ShutdownWait
    ensures Latched(s, r, input) && NotedOnly(s, r, input)
    ensures var t := Tick(s, now, input);
            if Elapsed(now, s.at.shutdown) >= 60000
            then t == r.(phase := PowerOff, pending := Pending(CutPower, t.nextId), nextId := NextId(s.nextId),
                         pendingAt := now, outcome := Unreported) && t.nextId == NextId(s.nextId)
            else WaitResult(r, t, now)
  {
    var h := Heard(s, input);
    HeardSame(s, input);
    WaitStages(s, now, input);
    assert s.pending.kind == NoAction || s.pending.kind == RequestJetsonShutdown;
    assert s.pending.kind == NoAction ==> s.outcome == Unreported;
    r := Replies(h, input);
    SameIssues(s, h, r, input);
    hide Ok, Heard, NotedOnly, WaitResult, Settle, Tick;
    WaitSettles(r, now, input);
  }

  lemma WaitStages(s: State, now: uint32, input: Inputs)
    requires Ok(s) && s.phase == ShutdownWait
    ensures Tick(s, now, input) == ShutdownTick(Heard(s, input), now, input)
  {
    assert s.begun;
    hide ShutdownTick, NoteIssues, Hear, Ok, NotedOnly;
    HeardSame(s, input);
  }

  /** Once power is being cut a tick takes the result and nothing else. */
  lemma CutGoesOn(s: State, now: uint32, input: Inputs)
    requires Ok(s) && s.phase == PowerOff
    ensures var t := Tick(s, now, input);
            && t.phase == PowerOff && t.nextId == s.nextId && t.reason == s.reason && t.boot == s.boot
            && t.charge == s.charge && t.link == s.link.(pongSeen := s.link.pongSeen || input.jetsonPong)
            && t.pending == (if s.outcome.Reported? then IDLE else s.pending) && t.outcome == Unreported
            && t.issues == s.issues + if s.outcome == Reported(false) then {PowerOffFailed} else {}
  {
  }

  // ---- Results ----

  /** What the pending action's result means, and nothing besides. */
  ghost predicate ResultOf(s: State, r: State, success: bool, now: uint32, input: Inputs) {
    && r.pending == IDLE && r.outcome == Unreported && r.nextId == s.nextId && r.begun
    && match s.pending.kind
       case PrepareCharging =>
         success && r.phase == s.phase && r.charge == s.charge.(prepared := true) && r.at == s.at.(phase := now)
         && r.boot == s.boot && r.progress == s.progress
       case EnableCharging =>
         success && r.phase == Charging && r.charge == s.charge.(expected := true)
         && r.at == s.at.(charge := now, progress := now) && r.progress == input.vcap && r.boot == s.boot
       case StopCharging => Unmoved(s, r) && r.charge == s.charge.(stopNeeded := false) && r.boot == s.boot
       case ArmBackup => Unmoved(s, r) && r.charge == s.charge && r.boot == s.boot.(backupArmed := success)
       case EnableJetson => Unmoved(s, r) && r.charge == s.charge && r.boot == s.boot.(jetsonEnabled := success)
       case PingJetson =>
         r.phase == Running && r.at == s.at && r.progress == s.progress && r.charge == s.charge && r.boot == s.boot
       case _ => false
  }

  predicate Unmoved(s: State, r: State) { r.phase == s.phase && r.at == s.at && r.progress == s.progress }

  /** The issue a failure is noted as. */
  predicate FailureOf(kind: Action, issue: Issue) {
    match kind
    case PrepareCharging => issue == ChargePreparationFailed
    case EnableCharging => issue == ChargerEnableFailed
    case StopCharging => issue == ChargeStopFailed
    case ArmBackup => issue == BackupArmFailed
    case EnableJetson => issue == JetsonEnableFailed
    case PingJetson => issue == JetsonPingFailed
    case _ => false
  }

  /** What taking a result notes. */
  ghost predicate ResultNoted(s: State, r: State, success: bool) {
    forall i :: i in r.issues <==> i in s.issues || (!success && FailureOf(s.pending.kind, i))
                                   || (i == ActionTimedOut && s.outcome == Unreported)
  }

  /** A failed preparation or enable ends charging in this tick. */
  ghost predicate Failed(s: State, t: State, now: uint32, input: Inputs) {
    && Stopped(s, t, now) && t.phase == JetsonStarting && !t.charge.expected && !t.charge.maintenance
    && t.boot == s.boot
    && forall i :: i in t.issues <==> i in s.issues || Shown(i, input) || FailureOf(s.pending.kind, i)
                                      || (i == ActionTimedOut && s.outcome == Unreported)
  }

  lemma ResultStages(s: State, now: uint32, input: Inputs)
    requires Ok(s) && !InShutdown(s) && s.phase != Settling && !MainLost(input)
    ensures Tick(s, now, input) == Dispatch(Supervised(Settle(Heard(s, input), now, input), now, input), now, input)
  {
    assert s.begun;
    hide Dispatch, CheckHealth, CheckProgress, NoteIssues, Hear, Settle, Ok, NotedOnly;
    HeardSame(s, input);
  }

  /** The result of an action, in terms of the state it is taken in. */
  lemma ResultSettles(s: State, now: uint32, input: Inputs)
    requires Ok(s) && !InShutdown(s) && s.phase != Settling && !Quiet(s, now)
    ensures var r, success := Settle(s, now, input), s.outcome == Reported(true);
            if (s.pending.kind == PrepareCharging || s.pending.kind == EnableCharging) && !success
            then r.pending == IDLE && r.outcome == Unreported && r.nextId == s.nextId && r.phase == JetsonStarting
                 && !r.charge.expected && !r.charge.maintenance && r.charge.stopNeeded && !r.charge.stopAttempted
                 && r.boot == s.boot && ResultNoted(s, r, success)
            else ResultOf(s, r, success, now, input) && ResultNoted(s, r, success)
  {
    hide Left, StartupLeft;
  }

  lemma ResultOk(s: State, r: State, success: bool, now: uint32, input: Inputs)
    requires Ok(s) && !InShutdown(s) && s.phase != Settling && ResultOf(s, r, success, now, input)
    ensures Ok(r) && !InShutdown(r) && r.phase != Settling && Quiet(r, now)
  {
  }

  /** More heard and more noted. */
  function More(s: State, pong: bool, more: set<Issue>): State {
    s.(link := s.link.(pongSeen := pong), issues := s.issues + more)
  }

  lemma HeardMore(s: State, input: Inputs)
    ensures var more := (if input.statusValid then {} else {StatusUnavailable})
                        + (if input.statusValid && !VoltageValid(input.vcap) then {InvalidVoltage} else {});
            Heard(s, input) == More(s, s.link.pongSeen || input.jetsonPong, more)
  {
    var more := (if input.statusValid then {} else {StatusUnavailable})
                + (if input.statusValid && !VoltageValid(input.vcap) then {InvalidVoltage} else {});
    assert Heard(s, input).issues == s.issues + more;
  }

  lemma Swapped(a: set<Issue>, more: set<Issue>, i: Issue)
    ensures a + more + {i} == a + {i} + more
  {
  }

  lemma NoteMore(s: State, pong: bool, more: set<Issue>, happened: bool, i: Issue)
    ensures Note(More(s, pong, more), happened, i) == More(Note(s, happened, i), pong, more)
  {
    Swapped(s.issues, more, i);
  }

  lemma LeaveMore(s: State, pong: bool, more: set<Issue>, i: Issue)
    ensures Leave(More(s, pong, more), i) == More(Leave(s, i), pong, more)
  {
    Swapped(s.issues, more, i);
  }

  lemma FinishMore(s: State, pong: bool, more: set<Issue>, success: bool, now: uint32, input: Inputs)
    ensures Finish(More(s, pong, more), success, now, input) == More(Finish(s, success, now, input), pong, more)
  {
    var c := Cancel(s);
    assert Cancel(More(s, pong, more)) == More(c, pong, more);
    match s.pending.kind
    case PrepareCharging => LeaveMore(c, pong, more, ChargePreparationFailed);
    case EnableCharging => LeaveMore(c, pong, more, ChargerEnableFailed);
    case StopCharging => NoteMore(c, pong, more, !success, ChargeStopFailed);
    case ArmBackup => NoteMore(c, pong, more, !success, BackupArmFailed);
    case EnableJetson => NoteMore(c, pong, more, !success, JetsonEnableFailed);
    case PingJetson => NoteMore(c, pong, more, !success, JetsonPingFailed);
    case RequestJetsonShutdown => NoteMore(c, pong, more, !success, ShutdownRequestFailed);
    case CutPower => NoteMore(c, pong, more, !success, PowerOffFailed);
    case NoAction =>
  }

  /** Taking the result and hearing the reading do not get in each other's way. */
  lemma SettleHeard(s: State, now: uint32, input: Inputs)
    ensures Settle(Heard(s, input), now, input) == Heard(Settle(s, now, input), input)
  {
    var more := (if input.statusValid then {} else {StatusUnavailable})
                + (if input.statusValid && !VoltageValid(input.vcap) then {InvalidVoltage} else {});
    var pong := s.link.pongSeen || input.jetsonPong;
    var n := Note(s, true, ActionTimedOut);
    HeardMore(s, input);
    HeardMore(Settle(s, now, input), input);
    NoteMore(s, pong, more, true, ActionTimedOut);
    FinishMore(s, pong, more, s.outcome == Reported(true), now, input);
    FinishMore(n, pong, more, false, now, input);
    FinishLink(s, s.outcome == Reported(true), now, input);
    FinishLink(n, false, now, input);
    assert n == s.(issues := n.issues);
    hide Finish, Note, Heard;
    assert s.outcome.Reported? ==> s.outcome.success == (s.outcome == Reported(true));
  }

  lemma FinishLink(s: State, success: bool, now: uint32, input: Inputs)
    ensures Finish(s, success, now, input).link.pongSeen == s.link.pongSeen
  {
  }

  /** A tick first takes a result, or gives up on an action whose time ran out; then it
      goes on as a plain tick. Only a failed preparation or enable ends charging there. */
  lemma ResultTaken(s: State, now: uint32, input: Inputs) returns (r: State)
    requires Ok(s) && !InShutdown(s) && s.phase != Settling && !Quiet(s, now) && !MainLost(input)
    ensures var success := s.outcome == Reported(true);
            if (s.pending.kind == PrepareCharging || s.pending.kind == EnableCharging) && !success
            then Failed(s, Tick(s, now, input), now, input)
            else && ResultOf(s, r, success, now, input) && ResultNoted(s, r, success)
                 && Plain(r, now, input) && Tick(s, now, input) == Tick(r, now, input)
  {
    r := Settle(s, now, input);
    var success := s.outcome == Reported(true);
    ResultStages(s, now, input);
    SettleHeard(s, now, input);
    ResultSettles(s, now, input);
    if (s.pending.kind == PrepareCharging || s.pending.kind == EnableCharging) && !success {
      FailureStops(s, r, now, input);
    } else {
      hide Tick, Settle, Heard, Dispatch, Supervised, Ok, ResultOf, ResultNoted;
      ResultOk(s, r, success, now, input);
      PlainStages(r, now, input);
    }
  }

  lemma FailureStops(s: State, r: State, now: uint32, input: Inputs)
    requires r.pending == IDLE && r.outcome == Unreported && r.nextId == s.nextId && r.phase == JetsonStarting
    requires !r.charge.expected && !r.charge.maintenance && r.charge.stopNeeded && !r.charge.stopAttempted
    requires r.boot == s.boot && ResultNoted(s, r, false)
    ensures Failed(s, Dispatch(Supervised(Heard(r, input), now, input), now, input), now, input)
  {
    var h := Heard(r, input);
    HeardSame(r, input);
    hide Heard;
    assert Supervised(h, now, input) == h;
  }

  // ---- The other entries ----

  /** A begun policy outside shutdown accepts a reboot, which is a shutdown of its own
      reason that forgets what the host replied before. */
  lemma RebootShutsDown(s: State, now: uint32)
    ensures var t := RequestReboot(s, now);
            if s.begun && s.phase != ShutdownWait && s.phase != PowerOff
            then && RebootAccepted(s) && t.phase == ShutdownWait && t.reason == FullReboot && t.at.shutdown == now
                 && t.pending == Pending(RequestJetsonShutdown, t.nextId) && t.nextId == NextId(s.nextId)
                 && t.pendingAt == now && t.outcome == Unreported
                 && t.link == Link(s.link.pongSeen, false, false, false)
                 && !t.charge.expected && !t.charge.maintenance && t.boot == s.boot && t.issues == s.issues
            else t == s && !RebootAccepted(s)
  {
  }

  /** A result is kept exactly if it is the first for the pending action's id. */
  lemma CompletionKept(s: State, id: uint32, success: bool)
    ensures var t := Complete(s, id, success);
            if s.pending.kind != NoAction && s.pending.id == id && s.outcome == Unreported
            then t == s.(outcome := Reported(success)) else t == s
  {
  }

  /** A begin starts settling with nothing pending, tried, noted or known, and only
      the action counter goes on. */
  lemma BeginsAfresh(previousId: uint32, now: uint32)
    ensures var s := Begin(previousId, now);
            && s.begun && s.phase == Settling && s.at.phase == now && s.nextId == previousId
            && s.pending.kind == NoAction && s.outcome == Unreported && s.issues == {} && s.reason == NoReason
            && s.charge == Charge(false, false, false, false, false, false)
            && s.boot == Boot(false, false, false, false, false) && s.link == Link(false, false, false, false)
  {
  }
}
