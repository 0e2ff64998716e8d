/** Bench supervision of a charged bank: the loss of the main source starts an
    episode that ends with its return or, 20 s after the first invalid sample,
    with a cutoff. Board operations may fail and take any time. */
module SupercapTransfer {
  import opened Options
  import opened Clock
  import opened Voltages

  datatype Mode = Stopped | Charging | Ready | Backup | Returned | Fault | Cutoff

  datatype Cause = NoCause | MainTimeout | LowVoltage

  datatype Status = Status(
    mainSelected: bool, usbPg: bool, dcPg: bool, backupPg: bool, ssBuckPg: bool, boostPg: bool, chargerPg: bool,
    chargerStat: bool, chargingControls: bool, tsMv: nat, vcap: Voltage)

  /** What is asked of the board. */
  datatype Call =
    | Charger(on: bool) | Boost(on: bool) | Buck(on: bool) | HighCurrent(on: bool) | ThermistorOverride(on: bool)
    | BackupSwitch(on: bool) | PortsOff | EmergencyChargerOff

  const SAMPLE_MS: nat := 20
  const GRACE_MS: nat := 20000
  const CHARGE_TIMEOUT_MS: nat := 7200000
  const PLATEAU_MS: nat := 30000
  const STAT_LOW_MS: nat := 100
  const CE_DECAY_MS: nat := 100
  const ARM_V: int := 100000
  const CUTOFF_V: int := 70000
  const TRIP_V: int := 210000
  const FULL_MIN_V: int := 200000
  const FULL_MAX_V: int := 209500
  const PLATEAU_SPAN_V: int := 1500

  datatype Loss = Loss(
    active: bool, firstAt: uint32, count: uint32, confirmed: bool, confirmedAt: uint32, ended: bool, endedAt: uint32)

  datatype Plateau = Plateau(
    startedAt: uint32, sampleAt: uint32, level: bool, levelAt: uint32, low: int, high: int,
    statLow: bool, statLowAt: uint32, reachedReady: bool)

  datatype Shutdown = Shutdown(pending: bool, ceOff: bool, ceOffAt: uint32, clean: bool)

  predicate MainValid(s: Status) { s.mainSelected && (s.usbPg || s.dcPg) }

  predicate TsInWindow(s: Status) { 1300 <= s.tsMv <= 2350 }

  /** A bank and a source that charging may start on. */
  predicate Startable(s: Status) { MainValid(s) && s.usbPg != s.dcPg && s.ssBuckPg && InRange(s) }

  /** One service call: when it looked at the clock, what it read if it did, and when it
      pressed on with a shutdown. */
  datatype Checked = Checked(entry: nat, main: bool, sample: Option<Status>, tried: bool, looked: Option<nat>)

  /** How a start went: whether CE was raised, whether supervision began anew and with
      which service call, and what was read on the way. */
  datatype Launch = Launch(
    energised: bool, begun: bool, entry: nat, main: bool, found: Option<Status>, warmed: Option<Status>,
    sample: Option<Status>)

  /** Calls that energise charging or give the bank up. */
  predicate Energising(c: Call) { c == Charger(true) || c == Boost(true) || c == BackupSwitch(false) }

  /** The calls since `n` energise nothing and keep the backup. */
  ghost predicate Calm(log: seq<Call>, n: nat) {
    forall i | n <= i < |log| :: !Energising(log[i])
  }

  /** No call since `n` switches the backup on. */
  ghost predicate NoArming(log: seq<Call>, n: nat) {
    forall i | n <= i < |log| :: log[i] != BackupSwitch(true)
  }

  lemma NoCalls(log: seq<Call>)
    ensures Calm(log, |log|) && NoArming(log, |log|)
  {
  }

  /** The bank's voltage is known, not negative, and under 21.0 V. */
  predicate InRange(s: Status) { s.vcap.Volts? && 0 <= s.vcap.v < 210000 }

  /** The charger's supply, controls and thermistor are as charging needs them. */
  predicate Supplied(s: Status) { s.boostPg && s.chargerPg && s.chargingControls && 1300 <= s.tsMv <= 2350 }

  /** STAT has been low since an earlier sample, 100 ms or more ago. */
  predicate StatStuck(c: Plateau, s: Status, at: uint32) {
    !s.chargerStat && c.statLow && Elapsed(at, c.statLowAt) >= 100
  }

  /** Neither STAT nor the two hours end charging. */
  predicate Unhurried(c: Plateau, s: Status, at: uint32) {
    !StatStuck(c, s, at) && Elapsed(at, c.startedAt) < 7200000
  }

  /** CE has been off for 100 ms in a shutdown that is not finished. */
  predicate Decayed(d: Shutdown, at: uint32) { d.pending && d.ceOff && Elapsed(at, d.ceOffAt) >= 100 }

  /** Where a sample takes the plateau. */
  function Climbing(c: Plateau, s: Status, at: uint32, mode: Mode): Plateau
    requires s.vcap.Volts?
  {
    if mode == Ready && s.vcap.v >= 200000 then c
    else if NearFull(s) then Levelled(c, s.vcap.v, at) else c.(level := false)
  }

  /** Since when the charger's STAT has been low. */
  function Statted(c: Plateau, s: Status, at: uint32): Plateau {
    if s.chargerStat then c.(statLow := false)
    else if c.statLow then c else c.(statLow := true, statLowAt := at)
  }

  predicate NearFull(s: Status) { s.vcap.Volts? && 200000 <= s.vcap.v <= 209500 && s.chargerStat }

  /** What a sample must show while charging: a main source, the backed converter, an
      armed backup in order, and the charger's supply, controls and thermistor. */
  predicate Healthy(s: Status, armed: bool) {
    MainValid(s) && InRange(s) && s.ssBuckPg && (armed ==> s.backupPg) && Supplied(s)
  }

  /** A bank that must be cut off: it feeds the board at 7.0 V or less. */
  predicate Exhausted(s: Status, armed: bool) {
    !MainValid(s) && armed && s.vcap.Volts? && 0 <= s.vcap.v <= 70000
  }

  /** A sample that stands for itself as a fault, whatever the mode. */
  predicate Faulty(s: Status, armed: bool) { !InRange(s) || !s.ssBuckPg || (armed && !s.backupPg) }

  /** A reading of the bank while it seems full. */
  datatype Reading = Reading(t: nat, v: int)

  /** Readings between 20 and 20.95 V that differ by at most 0.15 V. */
  predicate Stable(p: seq<Reading>) {
    && p != [] && (forall i | 0 <= i < |p| :: FULL_MIN_V <= p[i].v <= FULL_MAX_V)
    && (forall i, j | 0 <= i < j < |p| :: p[i].t <= p[j].t)
    && forall i, j | 0 <= i < |p| && 0 <= j < |p| :: p[i].v - p[j].v <= PLATEAU_SPAN_V
  }

  /** What the plateau tracker knows of the readings since it started. */
  predicate Tracks(p: seq<Reading>, levelAt: uint32, low: int, high: int) {
    && Stable(p) && levelAt == Ticks(p[0].t)
    && (forall i | 0 <= i < |p| :: low <= p[i].v <= high) && high - low <= PLATEAU_SPAN_V
  }

  function Latest(p: seq<Reading>): nat { if p == [] then 0 else p[|p| - 1].t }

  /** The readings behind the tracker after one more. */
  function Tracked(p: seq<Reading>, c: Plateau, r: Reading): seq<Reading> {
    if !c.level || Widened(c, r.v) then [r] else p + [r]
  }

  /** The span including v exceeds 0.15 V. */
  predicate Widened(c: Plateau, v: int) {
    (if v > c.high then v else c.high) - (if v < c.low then v else c.low) > PLATEAU_SPAN_V
  }

  lemma LevelledTracks(p: seq<Reading>, c: Plateau, r: Reading)
    requires c.level ==> Tracks(p, c.levelAt, c.low, c.high) && Latest(p) <= r.t
    requires FULL_MIN_V <= r.v <= FULL_MAX_V
    ensures var d, q := Levelled(c, r.v, Ticks(r.t)), Tracked(p, c, r);
            d.level && Tracks(q, d.levelAt, d.low, d.high) && q != [] && q[|q| - 1] == r
  {
  }

  /** A tracker that started 30 s ago has seen 30 s of stable readings. */
  lemma LongStable(p: seq<Reading>, levelAt: uint32, low: int, high: int, t: nat)
    requires Tracks(p, levelAt, low, high) && Latest(p) == t && Elapsed(Ticks(t), levelAt) >= PLATEAU_MS
    ensures Stable(p) && p != [] && p[0].t + PLATEAU_MS <= t
  {
    ElapsedBounds(t, p[0].t);
  }

  /** For 30 s up to t every reading was stable, the last of them at t. */
  predicate FullBy(p: seq<Reading>, t: nat) {
    p != [] && Stable(p) && p[0].t + PLATEAU_MS <= t && Latest(p) == t
  }

  class Transfer {
    var now: nat
    var mode: Mode
    var cause: Cause
    var monitoring: bool
    var armed: bool
    var stopped: bool
    var loss: Loss
    var charge: Plateau
    var shutdown: Shutdown
    ghost var lossT: nat
    ghost var level: seq<Reading>  // what the plateau tracker has seen
    ghost var log: seq<Call>
    ghost var answers: seq<bool>              // what each call reported
    ghost var readings: seq<Option<Status>>  // what each status read returned

    ghost predicate Valid()
      reads this
    {
      && (loss.active ==> loss.firstAt == Ticks(lossT) && lossT <= now)
      && (mode == Cutoff <==> cause != NoCause)
      && (loss.active && mode != Cutoff ==> monitoring)
      && (mode == Cutoff ==> !monitoring)
      && (mode == Charging || mode == Ready ==> !loss.active && !stopped && monitoring)
      && (cause == MainTimeout ==> loss.active && lossT + GRACE_MS <= now)
      && (charge.level ==> Tracks(level, charge.levelAt, charge.low, charge.high) && Latest(level) <= now)
    }

    constructor (at: nat)
      ensures Valid() && mode == Stopped && cause == NoCause && log == [] && !loss.active && !armed && !monitoring
      ensures shutdown == Shutdown(false, false, 0, true) && answers == [] && readings == []
      ensures loss == Loss(false, 0, 0, false, 0, false, 0) && !charge.level && !charge.statLow
    {
      now, mode, cause, monitoring, armed, stopped := at, Stopped, NoCause, false, false, false;
      loss := Loss(false, 0, 0, false, 0, false, 0);
      charge := Plateau(0, 0, false, 0, 0, 0, false, 0, false);
      shutdown := Shutdown(false, false, 0, true);
      lossT, level, log, answers, readings := 0, [], [], [], [];
    }

    ghost function Look(): View
      reads this
    {
      View(now, mode, cause, loss.active, lossT, armed, level)
    }

    lemma Timed()
      requires Valid()
      ensures cause == MainTimeout ==> loss.active && lossT + GRACE_MS <= now
    {
      hide Tracks;
    }

    /** Time between calls. */
    method Wait(ms: nat)
      requires Valid()
      modifies this`now
      ensures Valid() && now == old(now) + ms
    {
      hide Tracks;
      now := now + ms;
    }

    method Millis() returns (t: uint32)
      modifies this`now
      ensures old(now) <= now && t == Ticks(now)
    {
      var d: nat :| 0 <= d;
      now := now + d;
      t := Ticks(now);
    }

    /** One board operation. */
    method Ask(call: Call) returns (ok: bool)
      modifies this`now, this`log, this`answers
      ensures old(now) <= now && log == old(log) + [call] && answers == old(answers) + [ok]
    {
      var t := Millis();
      ok := *;
      log, answers := log + [call], answers + [ok];
    }

    method ReadStatus() returns (ok: bool, s: Status)
      modifies this`now, this`readings
      ensures old(now) <= now && readings == old(readings) + [if ok then Some(s) else None]
    {
      var t := Millis();
      ok, s := *, *;
      readings := readings + [if ok then Some(s) else None];
    }

    method RequestCutoff(why: Cause)
      requires Valid() && why != NoCause && mode != Cutoff
      requires (why == MainTimeout ==> loss.active && lossT + GRACE_MS <= now)
      modifies this`now, this`mode, this`cause, this`monitoring, this`loss
      ensures Valid() && mode == Cutoff && cause == why && old(now) <= now
      ensures loss == if old(loss).confirmed && !old(loss).ended
                      then old(loss).(ended := true, endedAt := Ticks(now)) else old(loss)
    {
      hide Tracks;
      var at := Millis();
      if loss.confirmed && !loss.ended {
        loss := loss.(ended := true, endedAt := at);
      }
      cause, mode, monitoring := why, Cutoff, false;
    }

    method LowerCharger() returns (ok: bool)
      modifies this`now, this`log, this`answers, this`shutdown
      ensures old(now) <= now && old(log) <= log && Calm(log, |old(log)|)
      ensures log == old(log) + [Charger(false)] || log == old(log) + [Charger(false), EmergencyChargerOff]
      ensures NoArming(log, |old(log)|)
      ensures |log| == |old(log)| + |answers| - |old(answers)|
      ensures answers == old(answers) + if |log| == |old(log)| + 1 then [true] else [false, ok]
      ensures |log| == |old(log)| + 1 ==> ok
      ensures shutdown == if ok then old(shutdown).(ceOff := true, ceOffAt := Ticks(now))
                          else old(shutdown).(ceOff := false)
    {
      ok := Ask(Charger(false));
      if !ok {
        ok := Ask(EmergencyChargerOff);
      }
      shutdown := shutdown.(ceOff := ok);
      if ok {
        var at := Millis();
        shutdown := shutdown.(ceOffAt := at);
      }
    }

    /** Takes charging down; keeps the backup switch. */
    method BeginShutdown() returns (ok: bool)
      modifies this`now, this`log, this`answers, this`shutdown
      ensures old(now) <= now && old(log) <= log && Calm(log, |old(log)|) && shutdown.pending
      ensures old(answers) <= answers && |answers| > |old(answers)|
      ensures ok == (shutdown.ceOff && answers[|answers| - 1])
      ensures |log| > |old(log)| && log[|old(log)|] == Charger(false) && log[|log| - 1] == PortsOff
      ensures NoArming(log, |old(log)|)
      ensures shutdown.clean == ok && (ok ==> shutdown.ceOff)
    {
      shutdown := shutdown.(pending := true);
      var ceOff := LowerCharger();
      var outputsOff := Ask(PortsOff);
      ok := ceOff && outputsOff;
      shutdown := shutdown.(clean := ok);
    }

    /** The rest of a shutdown: boost goes only once CE was verified off and has
        been off for the decay time. */
    method FinishShutdown() returns (ok: bool, ghost looked: nat)
      modifies this`now, this`log, this`answers, this`shutdown
      ensures old(now) <= now && old(log) <= log && Calm(log, |old(log)|) && NoArming(log, |old(log)|)
      ensures old(now) <= looked <= now && old(answers) <= answers
      ensures if !old(shutdown).pending then ok == old(shutdown).clean && log == old(log) && shutdown == old(shutdown)
              else if !old(shutdown).ceOff then
                && !ok && shutdown.pending && !shutdown.clean && |log| > |old(log)| && log[|old(log)|] == Charger(false)
                && Boost(false) !in log[|old(log)|..]
              else if Elapsed(Ticks(looked), old(shutdown).ceOffAt) < 100 then
                ok == old(shutdown).clean && log == old(log) && shutdown == old(shutdown)
              else
                && log == old(log) + [PortsOff, Buck(false), Boost(false)] && |answers| == |old(answers)| + 3
                && ok == (answers[|old(answers)|] && answers[|old(answers)| + 1] && answers[|old(answers)| + 2])
                && shutdown == old(shutdown).(clean := ok, pending := !ok)
    {
      var at := Millis();
      looked := now;
      if !shutdown.pending {
        return shutdown.clean, looked;
      }
      if !shutdown.ceOff {
        var lowered := LowerCharger();
        shutdown := shutdown.(clean := false);
        return false, looked;
      }
      if Elapsed(at, shutdown.ceOffAt) < CE_DECAY_MS {
        return shutdown.clean, looked;
      }
      ok := Ask(PortsOff);
      var buck := Ask(Buck(false));
      var boost := Ask(Boost(false));
      ok := ok && buck && boost;
      shutdown := shutdown.(clean := ok, pending := shutdown.pending && !ok);
    }

    /** A shutdown that is over was clean; the time of the sample stands. */
    twostate predicate Tidy()
      reads this
    {
      (!shutdown.pending ==> shutdown.clean || shutdown == old(shutdown)) && charge.sampleAt == old(charge).sampleAt
    }

    method Fail()
      requires Valid() && mode != Cutoff
      modifies this`now, this`log, this`answers, this`shutdown, this`mode, this`charge, this`monitoring
      ensures Valid() && mode == Fault && monitoring && shutdown.pending && charge == old(charge).(level := false)
      ensures old(now) <= now && old(log) <= log && Calm(log, |old(log)|) && NoArming(log, |old(log)|)
      ensures if old(shutdown).pending then log == old(log) && shutdown == old(shutdown) && answers == old(answers)
              else |log| > |old(log)| && log[|old(log)|] == Charger(false)
      ensures old(answers) <= answers && Tidy()
    {
      hide Tracks;
      mode := Fault;
      charge := charge.(level := false);
      monitoring := true;
      if !shutdown.pending {
        var ok := BeginShutdown();
      }
    }

    // ---- service() ----

    /** The deadline of the episode in progress has passed. */
    method Overdue() returns (due: bool)
      requires Valid()
      modifies this`now
      ensures Valid() && old(now) <= now
      ensures due ==> loss.active && lossT + GRACE_MS <= now
      ensures loss.active && lossT + GRACE_MS <= old(now) && now < lossT + WRAP ==> due
    {
      hide Tracks;
      var at := Millis();
      due := loss.active && Elapsed(at, loss.firstAt) >= GRACE_MS;
      if loss.active {
        ElapsedBounds(now, lossT);
      }
    }

    /** The first invalid sample opens an episode and fixes its deadline. */
    method OpenEpisode(ghost entry: nat, at: uint32)
      requires Valid() && mode != Cutoff && !loss.active && at == Ticks(entry) && entry <= now && monitoring
      modifies this`now, this`log, this`answers, this`shutdown, this`mode, this`charge, this`monitoring, this`loss,
               this`lossT
      ensures Valid() && mode != Cutoff && loss.active && lossT == entry && monitoring && shutdown.pending
      ensures |log| > |old(log)| && log[|old(log)|] == Charger(false) && (!armed ==> mode == Fault)
      ensures old(now) <= now && old(log) <= log && Calm(log, |old(log)|) && !charge.level
      ensures mode == if !shutdown.clean || !armed || old(mode) == Fault then Fault
                      else if stopped then old(mode) else Backup
      ensures NoArming(log, |old(log)|) && loss == Loss(true, at, (old(loss.count) + 1) % WRAP, false, 0, false, 0)
      ensures charge == old(charge).(level := false)
    {
      hide Tracks;
      NoteLoss(entry, at);
      var ok := BeginShutdown();
      if !ok {
        Fail();
      }
      if !armed {
        Fail();
      }
    }

    /** The episode goes on record, and unless something is wrong the bank backs up. */
    method NoteLoss(ghost entry: nat, at: uint32)
      requires Valid() && mode != Cutoff && !loss.active && at == Ticks(entry) && entry <= now && monitoring
      modifies this`mode, this`charge, this`loss, this`lossT
      ensures Valid() && loss == Loss(true, at, (old(loss.count) + 1) % WRAP, false, 0, false, 0) && lossT == entry
      ensures mode == if old(mode) == Fault || stopped then old(mode) else Backup
      ensures charge == old(charge).(level := false)
    {
      hide Tracks;
      lossT := entry;
      loss := Loss(true, at, (loss.count + 1) % WRAP, false, 0, false, 0);
      charge := charge.(level := false);
      if mode != Fault && !stopped {
        mode := Backup;
      }
    }

    /** Confirmation on backup, and the end of the episode on a valid main source. */
    method FollowEpisode(s: Status, at: uint32)
      requires Valid() && mode != Cutoff
      modifies this`loss, this`mode
      ensures Valid() && mode != Cutoff && loss.active == (old(loss.active) && !MainValid(s))
      ensures mode == if old(loss.active) && MainValid(s) && old(mode) != Fault && !stopped then Returned else old(mode)
      ensures loss.firstAt == old(loss.firstAt) && loss.count == old(loss.count)
      ensures loss.endedAt == if loss.ended && !old(loss.ended) then at else old(loss.endedAt)
      ensures loss.confirmed == (old(loss.confirmed) || (old(loss.active) && !s.mainSelected && s.backupPg && s.ssBuckPg
                                                         && armed))
      ensures loss.confirmedAt == if loss.confirmed && !old(loss.confirmed) then at else old(loss.confirmedAt)
      ensures loss.ended == (old(loss.ended) || (old(loss.active) && MainValid(s) && loss.confirmed))
    {
      hide Tracks;
      var onBackup := !s.mainSelected && s.backupPg && s.ssBuckPg && armed;
      if loss.active && onBackup && !loss.confirmed {
        loss := loss.(confirmed := true, confirmedAt := at);
      }
      if loss.active && MainValid(s) {
        loss := loss.(active := false);
        if loss.confirmed && !loss.ended {
          loss := loss.(ended := true, endedAt := at);
        }
        if mode != Fault && !stopped {
          mode := Returned;
        }
      }
    }

    /** Holds of every step that neither ends nor restarts an episode. */
    twostate predicate EpisodeKept()
      reads this
    {
      && old(now) <= now && old(log) <= log && Calm(log, |old(log)|)
      && loss.active == old(loss.active) && lossT == old(lossT)
      && (cause == MainTimeout ==> old(cause) == MainTimeout)
    }

    /** The checks on a sample that can only end in a fault or a low-voltage cutoff. */
    method CheckSample(s: Status) returns (settled: bool)
      requires Valid() && mode != Cutoff && monitoring && (loss.active ==> !MainValid(s))
      modifies this`now, this`log, this`answers, this`shutdown, this`mode, this`cause, this`charge, this`monitoring,
               this`loss
      ensures Valid() && EpisodeKept() && (!settled ==> mode != Cutoff && monitoring && mode == old(mode))
      ensures if settled then mode == Fault || mode == Cutoff else s.vcap.Volts? && s.vcap.v >= 0
      ensures (mode == Cutoff <==> Exhausted(s, armed)) && (mode == Fault ==> monitoring)
      ensures mode == Cutoff ==> cause == LowVoltage
      ensures old(mode) != Fault ==> (settled <==> Exhausted(s, armed) || Faulty(s, armed))
      ensures old(mode) == Fault ==> (settled <==> Exhausted(s, armed) || !VoltageValid(s.vcap))
      ensures NoArming(log, |old(log)|) && Tidy()
      ensures !settled ==> log == old(log) && charge == old(charge) && shutdown == old(shutdown)
      ensures charge.level ==> old(charge).level
    {
      hide Tracks, Calm, NoArming;
      NoCalls(log);
      settled := true;
      if !VoltageValid(s.vcap) {
        Fail();
      } else if s.vcap.v >= TRIP_V && mode != Fault {
        Fail();
      } else if !MainValid(s) && armed && s.vcap.v <= CUTOFF_V {
        RequestCutoff(LowVoltage);
      } else if !s.ssBuckPg && mode != Fault {
        Fail();
      } else if armed && !s.backupPg && mode != Fault {
        Fail();
      } else {
        settled := false;
      }
    }

    /** Charger health while charging or full; arms the backup on the way up. */
    method CheckCharger(s: Status, at: uint32) returns (settled: bool)
      requires Valid() && mode in {Charging, Ready} && monitoring && VoltageValid(s.vcap)
      modifies this`now, this`log, this`answers, this`shutdown, this`mode, this`charge, this`monitoring, this`armed
      ensures Valid() && EpisodeKept() && mode != Cutoff && monitoring && (!settled ==> mode == old(mode))
      ensures (charge.level ==> old(charge).level) && (settled ==> mode == Fault)
      ensures Supplied(s) && !StatStuck(old(charge), s, at) && (old(armed) || s.vcap.v < ARM_V) ==> !settled
      ensures !Supplied(s) || StatStuck(old(charge), s, at) ==> settled
      ensures if Supplied(s) && !StatStuck(old(charge), s, at) && !old(armed) && s.vcap.v >= ARM_V
              then |log| > |old(log)| && log[|old(log)|] == BackupSwitch(true)
                   && |answers| > |old(answers)| && settled == !answers[|old(answers)|]
              else NoArming(log, |old(log)|) && armed == old(armed)
      ensures (!settled ==> charge == Statted(old(charge), s, at)) && Tidy()
    {
      hide Tracks;
      settled := true;
      if !s.boostPg || !s.chargerPg || !s.chargingControls || !TsInWindow(s) {
        Fail();
        return;
      }
      FollowStat(s, at);
      if charge.statLow && Elapsed(at, charge.statLowAt) >= STAT_LOW_MS {
        Fail();
        return;
      }
      settled := ArmUp(s);
    }

    /** The backup is switched on once, from 10.0 V up. */
    method ArmUp(s: Status) returns (settled: bool)
      requires Valid() && mode in {Charging, Ready} && monitoring && s.vcap.Volts?
      modifies this`now, this`log, this`answers, this`shutdown, this`mode, this`charge, this`monitoring, this`armed
      ensures Valid() && EpisodeKept() && mode != Cutoff && monitoring && Tidy()
      ensures if settled then mode == Fault else mode == old(mode) && charge == old(charge)
      ensures settled ==> !charge.level || old(charge).level
      ensures if !old(armed) && s.vcap.v >= 100000
              then |log| > |old(log)| && log[|old(log)|] == BackupSwitch(true)
                   && |answers| > |old(answers)| && settled == !answers[|old(answers)|]
              else log == old(log) && answers == old(answers) && armed == old(armed) && !settled
    {
      hide Tracks;
      settled := false;
      if !armed && s.vcap.v >= ARM_V {
        var ok := Ask(BackupSwitch(true));
        armed := *;  // the pin as it is afterwards, whatever the call reported
        if !ok {
          Fail();
          settled := true;
        }
      }
    }

    /** Since when the charger's STAT has been low. */
    method FollowStat(s: Status, at: uint32)
      requires Valid()
      modifies this`charge
      ensures Valid() && charge == Statted(old(charge), s, at)
    {
      hide Tracks;
      if s.chargerStat {
        charge := charge.(statLow := false);
      } else if !charge.statLow {
        charge := charge.(statLow := true, statLowAt := at);
      }
    }

    /** Full means a stable plateau between 20 and 20.95 V for 30 s. */
    method FollowPlateau(s: Status, at: uint32, ghost entry: nat)
      requires Valid() && mode in {Charging, Ready} && monitoring && VoltageValid(s.vcap)
      requires at == Ticks(entry) && entry <= now && (charge.level ==> Latest(level) <= entry)
      modifies this`now, this`log, this`answers, this`shutdown, this`mode, this`charge, this`level, this`monitoring
      ensures Valid() && EpisodeKept() && mode in {Charging, Ready, Fault} && monitoring
      ensures mode == Ready && old(mode) != Ready ==>
                armed && s.backupPg && FullBy(level, entry) && level[|level| - 1].v == s.vcap.v
      ensures mode == Ready <==>
              if old(mode) == Ready && s.vcap.v >= 200000 then true
              else NearFull(s) && Elapsed(at, charge.levelAt) >= PLATEAU_MS && armed && s.backupPg
      ensures mode == Fault <==> mode != Ready && Elapsed(at, old(charge).startedAt) >= CHARGE_TIMEOUT_MS
      ensures mode == Charging && old(mode) == Charging ==>
                charge == if NearFull(s) then Levelled(old(charge), s.vcap.v, at).(reachedReady := charge.reachedReady)
                          else old(charge).(level := false)
      ensures mode == Charging && old(mode) == Ready ==> charge == old(charge).(level := false)
      ensures armed == old(armed) && NoArming(log, |old(log)|) && Tidy()
      ensures mode != Fault ==> charge.startedAt == old(charge).startedAt && shutdown == old(shutdown)
      ensures mode == Ready ==> Elapsed(at, charge.levelAt) >= PLATEAU_MS || old(mode) == Ready
      ensures mode == Ready && old(mode) != Ready ==>
                charge == Levelled(old(charge), s.vcap.v, at).(reachedReady := true)
      ensures mode == Ready && old(mode) == Ready ==> charge == old(charge)
    {
      hide Tracks, Stable, Levelled;
      if mode == Ready && s.vcap.v < FULL_MIN_V {
        mode := Charging;
        charge := charge.(level := false);
      }
      if mode == Charging {
        Qualify(s, at, entry);
        Expire(at);
      }
    }

    /** A reading near full extends or restarts the plateau, any other ends it. */
    method Qualify(s: Status, at: uint32, ghost entry: nat)
      requires Valid() && mode == Charging && VoltageValid(s.vcap)
      requires at == Ticks(entry) && entry <= now && (charge.level ==> Latest(level) <= entry)
      modifies this`mode, this`charge, this`level
      ensures Valid() && mode in {Charging, Ready}
      ensures mode == Ready <==> NearFull(s) && Elapsed(at, charge.levelAt) >= PLATEAU_MS && armed && s.backupPg
      ensures mode == Ready ==> FullBy(level, entry) && level[|level| - 1].v == s.vcap.v
      ensures charge == if NearFull(s) then Levelled(old(charge), s.vcap.v, at).(reachedReady := charge.reachedReady)
                        else old(charge).(level := false)
      ensures charge.reachedReady == (old(charge).reachedReady || mode == Ready)
      ensures charge.startedAt == old(charge).startedAt && charge.sampleAt == old(charge).sampleAt
    {
      hide Tracks, Stable;
      if FULL_MIN_V <= s.vcap.v <= FULL_MAX_V && s.chargerStat {
        TrackLevel(s.vcap.v, at, entry);
        if Elapsed(at, charge.levelAt) >= PLATEAU_MS && armed && s.backupPg {
          LongStable(level, charge.levelAt, charge.low, charge.high, entry);
          mode := Ready;
          charge := charge.(reachedReady := true);
        }
      } else {
        charge := charge.(level := false);
      }
    }

    /** Charging may take two hours. */
    method Expire(at: uint32)
      requires Valid() && mode in {Charging, Ready}
      modifies this`now, this`log, this`answers, this`shutdown, this`mode, this`charge, this`monitoring
      ensures Valid() && EpisodeKept() && monitoring && NoArming(log, |old(log)|) && Tidy()
      ensures mode != Fault ==> shutdown == old(shutdown)
      ensures if old(mode) == Charging && Elapsed(at, old(charge).startedAt) >= CHARGE_TIMEOUT_MS
              then mode == Fault && charge == old(charge).(level := false)
              else mode == old(mode) && charge == old(charge)
    {
      hide Tracks;
      if mode == Charging && Elapsed(at, charge.startedAt) >= CHARGE_TIMEOUT_MS {
        Fail();
      }
    }

    /** The tracker takes one more reading, or starts again from it. */
    method TrackLevel(v: int, at: uint32, ghost entry: nat)
      requires charge.level ==> Tracks(level, charge.levelAt, charge.low, charge.high) && Latest(level) <= entry
      requires FULL_MIN_V <= v <= FULL_MAX_V && at == Ticks(entry)
      modifies this`charge, this`level
      ensures charge == Levelled(old(charge), v, at) && charge.level
      ensures Tracks(level, charge.levelAt, charge.low, charge.high)
      ensures level != [] && level[|level| - 1] == Reading(entry, v)
    {
      hide Stable;
      LevelledTracks(level, charge, Reading(entry, v));
      level := Tracked(level, charge, Reading(entry, v));
      charge := Levelled(charge, v, at);
    }

    /** What happens to the episode in one call that sampled at `entry`: `main` says
        whether a valid main source was read. */
    twostate predicate Supervised(new c: Checked)
      reads this
    {
      var entry, main, sample := c.entry, c.main, c.sample;
      && stopped == old(stopped) && (sample.Some? ==> main == MainValid(sample.value) && Judged(sample.value))
      && (sample.None? ==>
            !main && NoArming(log, |old(log)|) && armed == old(armed)
            && (cause == LowVoltage ==> old(cause) == LowVoltage)
            && (mode == Charging || mode == Ready ==> mode == old(mode)))
      && old(now) <= entry <= now && old(log) <= log && Calm(log, |old(log)|)
      && (old(loss.active) && loss.active ==> lossT == old(lossT) && !main)
      && (old(loss.active) && !loss.active ==> main)
      && (!old(loss.active) && loss.active ==> lossT == entry && !main)
      && (old(loss.active) && loss.active && old(lossT) + GRACE_MS <= entry && now < old(lossT) + WRAP ==>
            mode == Cutoff)
      && (mode == Ready && old(mode) != Ready ==> armed && FullBy(level, entry))
    }

    method Service() returns (ghost c: Checked)
      requires Valid()
      modifies this
      ensures Valid() && Supervised(c) && Sampled(c)
      ensures old(mode) == Cutoff ==> mode == Cutoff && cause == old(cause) && log == old(log)
    {
      hide Tracks, Stable, Climbing;
      c := Checked(now, false, None, false, None);
      if !monitoring {
        return;
      }
      var at := Millis();
      c := c.(entry := now);
      if loss.active {
        ElapsedBounds(now, lossT);
      }
      var due := loss.active && Elapsed(at, loss.firstAt) >= GRACE_MS;
      if Elapsed(at, charge.sampleAt) < SAMPLE_MS && !due {
        return;
      }
      charge := charge.(sampleAt := at);
      var ok, s := ReadStatus();
      ghost var looked;
      if !ok {
        looked := RetryUnread();
        c := c.(tried := true, looked := looked);
      } else {
        looked := ServiceSample(s, c.entry, at);
        c := Checked(c.entry, MainValid(s), Some(s), true, looked);
      }
    }

    /** When a call reads the board's status, and that it does something with it. */
    twostate predicate Sampled(new c: Checked)
      reads this
    {
      && (c.tried <==>
            && old(monitoring)
            && (Elapsed(Ticks(c.entry), old(charge).sampleAt) >= 20
                || (old(loss).active && Elapsed(Ticks(c.entry), old(loss).firstAt) >= GRACE_MS)))
      && (!c.tried ==>
            && readings == old(readings) && c.sample.None? && log == old(log)
            && mode == old(mode) && cause == old(cause)
            && loss == old(loss) && shutdown == old(shutdown) && charge == old(charge) && monitoring == old(monitoring))
      && (c.tried ==>
            && readings == old(readings) + [c.sample] && charge.sampleAt == Ticks(c.entry)
            && (c.sample.None? ==> Pressed(c.looked) && (mode == Fault || (mode == Cutoff && cause == MainTimeout)))
            && (c.sample.Some? ==> Led(c.sample.value, c.looked)))
    }

    /** What a sample does to the episode and to a shutdown in progress. */
    twostate predicate Led(s: Status, new looked: Option<nat>)
      reads this
    {
      && (MainValid(s) || old(loss).active ==> Pressed(looked))
      && (!MainValid(s) && !old(loss).active ==>
            && |log| > |old(log)| && log[|old(log)|] == Charger(false) && mode != Charging && mode != Ready
            && (old(mode) == Fault || !old(armed) ==> mode == Fault || mode == Cutoff)
            && (mode == Backup || mode == Fault || mode == Cutoff || old(stopped)))
      && (old(loss).active && MainValid(s) && old(mode) != Fault && !old(stopped) && !Faulty(s, old(armed)) ==>
            mode == Returned)
    }

    method ServiceSample(s: Status, ghost entry: nat, at: uint32) returns (ghost looked: Option<nat>)
      requires Valid() && mode != Cutoff && monitoring && entry <= now && at == Ticks(entry)
      requires (charge.level ==> Latest(level) <= entry)
      modifies this
      ensures Valid() && old(now) <= now && old(log) <= log && Calm(log, |old(log)|)
      ensures loss.active == !MainValid(s)
      ensures loss.active ==> lossT == if old(loss.active) then old(lossT) else entry
      ensures old(loss.active) && loss.active && old(lossT) + GRACE_MS <= entry && now < old(lossT) + WRAP ==>
                mode == Cutoff
      ensures mode == Ready && old(mode) != Ready ==> armed && FullBy(level, entry)
      ensures Judged(s) && Led(s, looked) && Tidy() && readings == old(readings) && stopped == old(stopped)
      ensures mode == Charging || mode == Ready ==> Climbed(s, at)
    {
      hide Tracks, Stable, FullBy, Healthy, Climbing, Statted, NearFull;
      FollowSource(s, entry, at);
      looked := DecideSample(s, entry, at);
    }

    /** The episode, as the sample shows it. */
    method FollowSource(s: Status, ghost entry: nat, at: uint32)
      requires Valid() && mode != Cutoff && monitoring && entry <= now && at == Ticks(entry)
      modifies this`now, this`log, this`answers, this`shutdown, this`mode, this`charge, this`monitoring, this`loss,
               this`lossT
      ensures Valid() && mode != Cutoff && monitoring && old(now) <= now && old(log) <= log
      ensures Calm(log, |old(log)|) && NoArming(log, |old(log)|) && (charge.level ==> old(charge).level)
      ensures loss.active == !MainValid(s) && (loss.active ==> lossT == if old(loss.active) then old(lossT) else entry)
      ensures (mode in {Charging, Ready} ==> mode == old(mode)) && (old(mode) == Fault ==> mode == Fault) && Tidy()
      ensures if MainValid(s) || old(loss.active) then
                && log == old(log) && shutdown == old(shutdown) && charge == old(charge)
                && mode == if old(loss.active) && MainValid(s) && old(mode) != Fault && !stopped then Returned
                           else old(mode)
              else
                && |log| > |old(log)| && log[|old(log)|] == Charger(false) && !charge.level
                && mode == if !shutdown.clean || !armed || old(mode) == Fault then Fault
                           else if stopped then old(mode) else Backup
    {
      hide Tracks;
      if !MainValid(s) && !loss.active {
        OpenEpisode(entry, at);
      }
      FollowEpisode(s, at);
    }

    /** The deadline, then the checks. */
    method DecideSample(s: Status, ghost entry: nat, at: uint32) returns (ghost looked: Option<nat>)
      requires Valid() && mode != Cutoff && monitoring && entry <= now && at == Ticks(entry)
      requires loss.active == !MainValid(s) && (charge.level ==> Latest(level) <= entry)
      modifies this
      ensures Valid() && old(now) <= now && old(log) <= log && Calm(log, |old(log)|)
      ensures loss.active == old(loss.active) && lossT == old(lossT)
      ensures loss.active && lossT + GRACE_MS <= old(now) && now < lossT + WRAP ==> mode == Cutoff
      ensures mode == Ready && old(mode) != Ready ==> armed && FullBy(level, entry)
      ensures Judged(s) && Tidy() && Pressed(looked) && readings == old(readings) && stopped == old(stopped)
      ensures mode == Charging || mode == Ready ==> Climbed(s, at)
      ensures !monitoring ==> mode == Cutoff || AtRest(s)
      ensures mode != Cutoff && AtRest(s) && !Faulty(s, armed) ==> !monitoring
      ensures old(mode) !in {Charging, Ready} && !Faulty(s, armed) && !Exhausted(s, armed) ==>
                mode == old(mode) || (mode == Cutoff && cause == MainTimeout)
    {
      hide Tracks, Stable, Climbing, Statted, FullBy, Healthy, Supplied, NearFull;
      var due;
      due, looked := PressOn();
      if due {
        RequestCutoff(MainTimeout);
      } else {
        Supervise(s, at, entry);
      }
    }

    /** The deadline, the shutdown in progress, and the deadline again. */
    method PressOn() returns (due: bool, ghost looked: Option<nat>)
      requires Valid() && mode != Cutoff && monitoring
      modifies this`now, this`log, this`answers, this`shutdown
      ensures Valid() && old(now) <= now && old(log) <= log && Calm(log, |old(log)|) && NoArming(log, |old(log)|)
      ensures Tidy() && (due ==> loss.active && lossT + GRACE_MS <= now)
      ensures looked.None? ==> due && log == old(log)
      ensures looked.Some? ==>
                && old(now) <= looked.value <= now
                && (old(shutdown).pending && !old(shutdown).ceOff ==>
                      |log| > |old(log)| && log[|old(log)|] == Charger(false))
                && (Decayed(old(shutdown), Ticks(looked.value)) ==>
                      old(log) + [PortsOff, Buck(false), Boost(false)] <= log)
                && (loss.active && lossT + GRACE_MS <= looked.value && now < lossT + WRAP ==> due)
      ensures loss.active && lossT + GRACE_MS <= old(now) && now < lossT + WRAP ==> due
    {
      hide Tracks;
      looked := None;
      due := Overdue();
      if !due {
        var finished;
        ghost var at;
        finished, at := FinishShutdown();
        looked := Some(at);
        due := Overdue();
      }
    }

    /** What a sample leads to: an exhausted bank is cut off, a fault shows in the mode
        at once, charging goes on only on a healthy sample, and the backup is switched
        on only while charging from 10.0 V up. */
    twostate predicate Judged(s: Status)
      reads this
    {
      && (Exhausted(s, old(armed)) ==> mode == Cutoff)
      && (Faulty(s, old(armed)) || old(mode) == Fault ==> mode == Fault || mode == Cutoff)
      && (mode == Charging || mode == Ready ==>
            (old(mode) == Charging || old(mode) == Ready) && Healthy(s, old(armed)))
      && (cause == LowVoltage && old(mode) != Cutoff ==> Exhausted(s, old(armed)))
      && (NoArming(log, |old(log)|)
          || ((old(mode) == Charging || old(mode) == Ready) && !old(armed) && MainValid(s) && Supplied(s)
              && s.vcap.Volts? && s.vcap.v >= 100000))
      && (armed != old(armed) ==> !NoArming(log, |old(log)|))
    }

    /** What a healthy sample does to the charge: full once the plateau has lasted, a
        fault after two hours, and the plateau followed meanwhile. */
    twostate predicate Climbed(s: Status, at: uint32)
      reads this
      requires s.vcap.Volts?
    {
      && (mode == Ready <==>
            if old(mode) == Ready && s.vcap.v >= 200000 then true
            else NearFull(s) && Elapsed(at, charge.levelAt) >= 30000 && armed && s.backupPg)
      && (mode != Ready ==> Elapsed(at, old(charge).startedAt) < 7200000)
      && charge == Climbing(Statted(old(charge), s, at), s, at, old(mode)).(reachedReady := charge.reachedReady)
    }

    /** Monitoring ends once everything was taken down and main is there. */
    predicate AtRest(s: Status)
      reads this
    {
      stopped && !armed && !shutdown.pending && MainValid(s)
    }

    /** A shutdown in progress is pressed on at the time `looked`, unless the deadline of
        the episode had passed before; that deadline is looked at once more after it. */
    twostate predicate Pressed(new looked: Option<nat>)
      reads this
    {
      && (looked.None? ==> mode == Cutoff && cause == MainTimeout && log == old(log))
      && (looked.Some? ==>
            && old(now) <= looked.value <= now
            && (old(shutdown).pending && !old(shutdown).ceOff ==>
                  |log| > |old(log)| && log[|old(log)|] == Charger(false))
            && (Decayed(old(shutdown), Ticks(looked.value)) ==>
                  old(log) + [PortsOff, Buck(false), Boost(false)] <= log)
            && (loss.active && lossT + GRACE_MS <= looked.value && now < lossT + WRAP ==> mode == Cutoff))
    }

    method Supervise(s: Status, at: uint32, ghost entry: nat)
      requires Valid() && mode != Cutoff && monitoring && loss.active == !MainValid(s)
      requires at == Ticks(entry) && entry <= now && (charge.level ==> Latest(level) <= entry)
      modifies this
      ensures Valid() && EpisodeKept() && Judged(s) && Tidy() && readings == old(readings) && stopped == old(stopped)
      ensures mode == Charging || mode == Ready ==> Climbed(s, at)
      ensures (old(mode) == Charging || old(mode) == Ready) && Healthy(s, old(armed)) && Unhurried(old(charge), s, at)
              && (old(armed) || s.vcap.v < 100000) ==>
                mode == Charging || mode == Ready
      ensures !monitoring ==> mode == Cutoff || AtRest(s)
      ensures AtRest(s) && !Faulty(s, armed) && !Exhausted(s, armed) ==> !monitoring
      ensures old(mode) !in {Charging, Ready} && !Faulty(s, armed) && !Exhausted(s, armed) ==> mode == old(mode)
      ensures mode == Ready && old(mode) != Ready ==> armed && FullBy(level, entry)
    {
      hide Tracks, Stable, FullBy, Levelled;
      var settled := CheckSample(s);
      if !settled && mode in {Charging, Ready} {
        settled := SuperviseCharge(s, at, entry);
      }
      if !settled && stopped && !armed && !shutdown.pending && MainValid(s) {
        monitoring := false;
      }
    }

    /** The charger and the plateau, while charging or full. */
    method SuperviseCharge(s: Status, at: uint32, ghost entry: nat) returns (settled: bool)
      requires Valid() && mode in {Charging, Ready} && monitoring && VoltageValid(s.vcap)
      requires at == Ticks(entry) && entry <= now && (charge.level ==> Latest(level) <= entry)
      modifies this`now, this`log, this`answers, this`shutdown, this`mode, this`charge, this`level, this`monitoring,
               this`armed
      ensures Valid() && EpisodeKept() && Tidy() && monitoring && mode in {Charging, Ready, Fault}
      ensures settled == (mode == Fault) && (!settled ==> Supplied(s) && Climbed(s, at))
      ensures Supplied(s) && Unhurried(old(charge), s, at) && (old(armed) || s.vcap.v < 100000) ==> !settled
      ensures NoArming(log, |old(log)|) || (!old(armed) && Supplied(s) && s.vcap.v >= 100000)
      ensures armed != old(armed) ==> !NoArming(log, |old(log)|)
      ensures mode == Ready && old(mode) != Ready ==> armed && FullBy(level, entry)
    {
      hide Tracks, Stable, FullBy, Levelled;
      settled := CheckCharger(s, at);
      if !settled {
        FollowPlateau(s, at, entry);
        settled := mode == Fault;
      }
    }

    /** The bus does not answer: the deadline stands, shutdown is retried. */
    method RetryUnread() returns (ghost looked: Option<nat>)
      requires Valid() && mode != Cutoff && monitoring
      modifies this
      ensures Pressed(looked) && Tidy() && readings == old(readings) && stopped == old(stopped)
      ensures looked.Some? && !old(shutdown).pending ==> |log| > |old(log)| && log[|old(log)|] == Charger(false)
      ensures Valid() && old(now) <= now && old(log) <= log && Calm(log, |old(log)|)
      ensures loss.active == old(loss.active) && lossT == old(lossT)
      ensures loss.active && lossT + GRACE_MS <= old(now) && now < lossT + WRAP ==> mode == Cutoff
      ensures (mode == Fault || (mode == Cutoff && cause == MainTimeout)) && armed == old(armed)
      ensures NoArming(log, |old(log)|)
    {
      hide Tracks;
      looked := None;
      var due := Overdue();
      if due {
        RequestCutoff(MainTimeout);
        return;
      }
      Fail();
      var finished;
      ghost var at;
      finished, at := FinishShutdown();
      looked := Some(at);
      due := Overdue();
      if due {
        RequestCutoff(MainTimeout);
      }
    }

    // ---- start() and stop() ----

    /** The one sequence that energises charging, cut short at the first failure. */
    method Energise() returns (ok: bool)
      modifies this`now, this`log, this`answers
      ensures old(now) <= now && old(log) <= log && log[|old(log)|..] <= PREPARATION
      ensures ok ==> log == old(log) + PREPARATION
      ensures old(answers) <= answers && |answers| - |old(answers)| == |log| - |old(log)|
      ensures forall i | |old(answers)| <= i < |answers| :: answers[i] == (ok || i < |answers| - 1)
      ensures !ok ==> log != old(log)
    {
      ghost var before, said := log, answers;
      var i := 0;
      ok := true;
      while i < |PREPARATION| && ok
        invariant i <= |PREPARATION| && log == before + PREPARATION[..i] && old(now) <= now
        invariant said <= answers && |answers| == |said| + i && (i == 0 ==> ok)
        invariant forall k | |said| <= k < |answers| :: answers[k] == (ok || k < |answers| - 1)
      {
        ok := Ask(PREPARATION[i]);
        i := i + 1;
      }
    }

    /** Charging starts only on request, with a validated budget, exactly one main
        source and the real thermistor in range; CE comes last, after boost, low
        current and the real thermistor were selected. A start that gets through
        begins supervision anew with a first service call; any other ends in a fault,
        unless there was nothing to start or a shutdown was still to be finished. */
    method Start(powerBudgetValidated: bool) returns (ghost r: Launch)
      requires Valid()
      modifies this
      ensures Valid() && old(now) <= now && old(log) <= log
      ensures old(Settled()) ==> mode == old(mode) && cause == old(cause) && log == old(log) && !r.energised
      ensures !old(Settled()) && !r.begun ==> mode == Fault
      ensures !old(Settled()) ==> !stopped
      ensures old(Settled()) || !powerBudgetValidated ==> readings == old(readings)
      ensures !old(Settled()) && powerBudgetValidated ==> old(readings) + [r.found] <= readings
      ensures r.found.Some? && Startable(r.found.value) ==> log != old(log)
      ensures r.energised ==> powerBudgetValidated && old(log) + PREPARATION + [Charger(true)] <= log
                              && Calm(log, |old(log)| + |PREPARATION| + 1)
      ensures r.energised ==> r.found.Some? && Startable(r.found.value)
                              && r.warmed.Some? && 1300 <= r.warmed.value.tsMv <= 2350
      ensures !r.energised ==>
                forall i | |old(log)| <= i < |log| :: log[i] != Charger(true) && log[i] != BackupSwitch(false)
      ensures r.found.None? || !Startable(r.found.value) ==> Calm(log, |old(log)|)
      ensures !powerBudgetValidated ==> r.found.None?
      ensures if r.begun then r.energised && Afresh(r) else loss.active == old(loss.active) && lossT == old(lossT)
      ensures !r.begun ==>
                armed == old(armed) && NoArming(log, |old(log)|) && (cause == LowVoltage ==> cause == old(cause))
      ensures mode == Ready && old(mode) != Ready ==> armed && FullBy(level, r.entry)
    {
      hide Tracks;
      r := Launch(false, false, now, false, None, None, None);
      if mode == Cutoff || mode == Charging || mode == Ready || shutdown.pending {
        return;
      }
      stopped := false;
      shutdown := shutdown.(clean := true);
      if !powerBudgetValidated {
        Fail();
        return;
      }
      var ok, s := ReadStatus();
      if !ok {
        Fail();
        return;
      }
      r := r.(found := Some(s));
      if !MainValid(s) || s.usbPg == s.dcPg || !s.ssBuckPg || !VoltageValid(s.vcap) || s.vcap.v >= TRIP_V {
        Fail();
        return;
      }
      r := StartCharging(s);
    }

    /** There is nothing to start, or a shutdown is still to be finished. */
    predicate Settled()
      reads this
    {
      mode == Cutoff || mode == Charging || mode == Ready || shutdown.pending
    }

    /** An episode found after a fresh start began with its one service call. */
    twostate predicate Afresh(r: Launch)
      reads this
    {
      && old(now) <= r.entry <= now && (loss.active ==> lossT == r.entry && !r.main)
      && (r.sample.Some? ==> r.main == MainValid(r.sample.value))
      && (mode == Charging || mode == Ready ==> r.sample.Some? ==> Healthy(r.sample.value, old(armed)))
      && (cause == LowVoltage ==> r.sample.Some? && Exhausted(r.sample.value, old(armed)))
      && (armed != old(armed) || !NoArming(log, |old(log)|) ==>
            ArmsOn(r.sample))
    }

    method StartCharging(ghost found: Status) returns (ghost r: Launch)
      requires Valid() && mode != Cutoff && mode != Ready && mode != Charging && !stopped
      modifies this
      ensures !stopped && old(readings) <= readings && log != old(log)
      ensures Valid() && old(now) <= now && old(log) <= log && r.found == Some(found)
      ensures mode == Ready ==> armed && FullBy(level, r.entry)
      ensures r.energised ==>
                && old(log) + PREPARATION + [Charger(true)] <= log && Calm(log, |old(log)| + |PREPARATION| + 1)
                && r.warmed.Some? && 1300 <= r.warmed.value.tsMv <= 2350
      ensures !r.energised ==>
                forall i | |old(log)| <= i < |log| :: log[i] != Charger(true) && log[i] != BackupSwitch(false)
      ensures if r.begun then r.energised && Afresh(r) else loss.active == old(loss.active) && lossT == old(lossT)
      ensures !r.begun ==> mode == Fault && armed == old(armed) && cause == old(cause) && NoArming(log, |old(log)|)
    {
      hide Tracks;
      var ok;
      ghost var energised, warmed;
      ok, energised, warmed := EnergiseCharger();
      r := Launch(energised, false, now, false, Some(found), warmed, None);
      if !ok {
        Fail();
        return;
      }
      Begin();
      ghost var c := Service();
      r := r.(begun := true, entry := c.entry, main := c.main, sample := c.sample);
    }

    method EnergiseCharger() returns (ok: bool, ghost energised: bool, ghost warmed: Option<Status>)
      modifies this`now, this`log, this`answers, this`readings
      ensures old(now) <= now && old(log) <= log && (ok ==> energised) && NoArming(log, |old(log)|)
      ensures old(readings) <= readings && log != old(log)
      ensures energised && !ok ==> old(answers) < answers && !answers[|answers| - 1]
      ensures energised ==> warmed.Some? && 1300 <= warmed.value.tsMv <= 2350
      ensures if energised then log == old(log) + PREPARATION + [Charger(true)] else log[|old(log)|..] <= PREPARATION
    {
      energised, warmed := false, None;
      ok := Energise();
      if ok {
        var s;
        ok, s := ReadStatus();
        ok := ok && TsInWindow(s);
        warmed := Some(s);
      }
      if ok {
        energised := true;
        ok := Ask(Charger(true));
      }
    }

    method Begin()
      requires Valid() && mode != Cutoff && !stopped
      modifies this`now, this`mode, this`monitoring, this`charge, this`loss
      ensures Valid() && mode == Charging && monitoring && old(now) <= now
      ensures loss == Loss(false, 0, 0, false, 0, false, 0) && !charge.level && !charge.statLow && !charge.reachedReady
      ensures charge.startedAt == Ticks(now) && charge.sampleAt == (Ticks(now) + WRAP - 20) % WRAP
    {
      hide Tracks;
      var at := Millis();
      mode, monitoring := Charging, true;
      charge := Plateau(at, (at + WRAP - SAMPLE_MS) % WRAP, false, charge.levelAt, charge.low, charge.high,
                        false, charge.statLowAt, false);
      loss := Loss(false, 0, 0, false, 0, false, 0);
    }

    /** Takes everything down; the backup is released only on a valid main source. */
    method Stop() returns (ghost released: bool, ghost heard: bool, ghost sample: Status)
      requires Valid()
      modifies this
      ensures Valid() && old(now) <= now && old(log) <= log
      ensures old(mode) == Cutoff ==> mode == Cutoff && cause == old(cause) && log == old(log)
      ensures mode == Cutoff || mode == Stopped || mode == Fault
      ensures cause == old(cause) && NoArming(log, |old(log)|)
      ensures released ==> |answers| > |old(answers)|
      ensures old(mode) != Cutoff ==>
                && readings == old(readings) + [if heard then Some(sample) else None]
                && (released <==> heard && old(armed) && MainValid(sample))
                && stopped && monitoring && shutdown.pending && !charge.level
                && |log| > |old(log)| && log[|old(log)|] == Charger(false)
                && (mode == Fault <==> !shutdown.clean || !heard || (released && !answers[|answers| - 1]))
      ensures armed == (old(armed) && !(released && answers[|answers| - 1]))
      ensures loss.active == old(loss.active) && lossT == old(lossT)
      ensures forall i | |old(log)| <= i < |log| ::
                log[i] != Charger(true) && log[i] != Boost(true) && (log[i] == BackupSwitch(false) ==> released)
      ensures released ==> old(armed) && MainValid(sample)
    {
      hide Tracks;
      released, heard, sample := false, false, *;
      if mode == Cutoff {
        return;
      }
      var down := TakeDown();
      var ok;
      ok, released, heard, sample := ReleaseOnMain();
      if !down || !ok {
        Fail();
      }
    }

    method TakeDown() returns (down: bool)
      requires Valid() && mode != Cutoff
      modifies this`now, this`log, this`answers, this`shutdown, this`mode, this`charge, this`stopped, this`monitoring
      ensures Valid() && mode == Stopped && stopped && monitoring && shutdown.pending && !charge.level
      ensures old(now) <= now && old(log) <= log && Calm(log, |old(log)|) && NoArming(log, |old(log)|)
      ensures |log| > |old(log)| && log[|old(log)|] == Charger(false) && old(answers) <= answers
      ensures down == shutdown.clean
    {
      hide Tracks;
      stopped := true;
      mode := Stopped;
      charge := charge.(level := false);
      monitoring := true;
      down := BeginShutdown();
    }

    /** The backup goes only while a valid main source is read. */
    method ReleaseOnMain() returns (ok: bool, ghost released: bool, ghost heard: bool, ghost sample: Status)
      modifies this`now, this`log, this`answers, this`readings, this`armed
      ensures old(now) <= now && log == old(log) + if released then [BackupSwitch(false)] else []
      ensures readings == old(readings) + [if heard then Some(sample) else None]
      ensures |answers| == |old(answers)| + (if released then 1 else 0) && old(answers) <= answers
      ensures ok == (heard && (released ==> answers[|answers| - 1]))
      ensures armed == (old(armed) && !(released && answers[|answers| - 1]))
      ensures released <==> heard && old(armed) && MainValid(sample)
    {
      released := false;
      var s;
      ok, s := ReadStatus();
      heard, sample := ok, s;
      if ok && MainValid(s) && armed {
        released := true;
        ok := Ask(BackupSwitch(false));
        armed := armed && !ok;
      }
    }
  }

  // ---- Runs ----

  datatype Command = Starting(powerBudgetValidated: bool) | Servicing | Stopping | Waiting(ms: nat)

  /** What a caller sees of the supervision; lossT is the time of the first invalid
      sample of the episode in progress. */
  datatype View = View(now: nat, mode: Mode, cause: Cause, active: bool, lossT: nat, armed: bool, level: seq<Reading>)

  /** One command: the supervision before and after it, the calls it made, when it
      sampled and whether that read a valid main source, whether supervision began
      anew, and whether the backup was released. */
  datatype Act = Act(
    command: Command, before: View, after: View, first: nat, next: nat, entry: nat, main: bool, begun: bool,
    released: bool, sample: Option<Status>)

  /** An episode of source loss opens. */
  predicate Opens(a: Act) { a.after.active && (!a.before.active || a.begun) }

  /** The command sampled 20 s or more after the first invalid sample. */
  predicate Overdue(a: Act) { a.before.lossT + 20000 <= a.entry && a.after.now < a.before.lossT + WRAP }

  /** Neither an episode's start nor its deadline moves: it ends on a valid main
      source, by a fresh start, or 20 s after its first invalid sample in Cutoff. */
  predicate Episodes(a: Act) {
    && (Opens(a) ==> a.after.lossT == a.entry && !a.main && a.before.now <= a.entry <= a.after.now)
    && (a.before.active && a.after.active && !a.begun ==> a.after.lossT == a.before.lossT)
    && (a.before.active && !a.after.active ==> a.begun || a.main)
    && (a.command.Servicing? && a.before.active && a.after.active && Overdue(a) ==> a.after.mode == Cutoff)
    && (a.begun ==> a.command == Starting(true))
    && (a.after.cause == MainTimeout ==> a.after.active && a.after.lossT + GRACE_MS <= a.after.now)
  }

  /** A service call judges the sample it read: an exhausted bank is cut off, a fault
      shows at once, and charging goes on only on a healthy sample. */
  predicate Samples(a: Act) {
    && (a.command.Servicing? && a.sample.Some? ==>
          var s, armed := a.sample.value, a.before.armed;
          && (Exhausted(s, armed) && a.before.mode != Cutoff ==> a.after.mode == Cutoff)
          && (Faulty(s, armed) ==> a.after.mode == Fault || a.after.mode == Cutoff)
          && (a.after.mode == Charging || a.after.mode == Ready ==>
                (a.before.mode == Charging || a.before.mode == Ready) && Healthy(s, armed)))
    && (a.command.Servicing? && a.sample.None? && (a.after.mode == Charging || a.after.mode == Ready) ==>
          a.after.mode == a.before.mode)
    && (a.after.cause == LowVoltage && a.before.cause != LowVoltage ==>
          a.sample.Some? && Exhausted(a.sample.value, a.before.armed))
  }

  /** A reading of a main source and of 10.0 V or more. */
  predicate ArmsOn(sample: Option<Status>) {
    sample.Some? && MainValid(sample.value) && sample.value.vcap.Volts? && sample.value.vcap.v >= 100000
  }

  /** CE and boost are raised only by a start with a validated budget, and the backup
      is released only by a stop that read a valid main source. */
  ghost predicate Calls(a: Act, log: seq<Call>) {
    && a.first <= a.next <= |log|
    && forall i | a.first <= i < a.next ::
         && (log[i] == Charger(true) || log[i] == Boost(true) ==> a.command == Starting(true))
         && (log[i] == BackupSwitch(false) ==> a.command == Stopping && a.released && a.main)
         && (log[i] == BackupSwitch(true) ==> ArmsOn(a.sample))
  }

  ghost predicate Kept(a: Act, log: seq<Call>) {
    && a.before.now <= a.after.now && Episodes(a) && Calls(a, log) && Samples(a)
    && (a.before.mode == Cutoff ==>
          a.after.mode == Cutoff && a.after.cause == a.before.cause && a.next == a.first && !a.begun)
    && (a.after.mode == Ready && a.before.mode != Ready ==> a.after.armed && FullBy(a.after.level, a.entry))
    && (a.command.Waiting? ==> a.after == a.before.(now := a.before.now + a.command.ms) && a.next == a.first)
  }

  /** The commands of a run, one after the other, and all calls made. */
  ghost predicate History(acts: seq<Act>, commands: seq<Command>, log: seq<Call>) {
    && |acts| == |commands|
    && (forall i | 0 <= i < |acts| :: acts[i].command == commands[i] && Kept(acts[i], log))
    && (forall i | 0 < i < |acts| :: acts[i].before == acts[i - 1].after && acts[i].first == acts[i - 1].next)
    && if acts == [] then log == []
       else acts[0].first == 0 && acts[|acts| - 1].next == |log|
            && !acts[0].before.active && acts[0].before.mode == Stopped && acts[0].before.cause == NoCause
  }

  lemma KeptLonger(a: Act, log: seq<Call>, more: seq<Call>)
    requires Kept(a, log)
    ensures Kept(a, log + more)
  {
  }

  lemma HistorySnoc(acts: seq<Act>, commands: seq<Command>, log: seq<Call>, a: Act, more: seq<Call>)
    requires History(acts, commands, log) && Kept(a, log + more) && a.first == |log| && a.next == |log + more|
    requires if acts == [] then !a.before.active && a.before.mode == Stopped && a.before.cause == NoCause
             else a.before == acts[|acts| - 1].after
    ensures History(acts + [a], commands + [a.command], log + more)
  {
    forall i | 0 <= i < |acts|
      ensures Kept(acts[i], log + more)
    {
      KeptLonger(acts[i], log, more);
    }
    hide Kept;
  }

  /** Any commands in any order. */
  method AnyRun(at: nat, commands: seq<Command>) returns (transfer: Transfer, ghost acts: seq<Act>)
    ensures transfer.Valid() && History(acts, commands, transfer.log)
    ensures acts != [] ==> acts[|acts| - 1].after == transfer.Look()
  {
    hide Transfer.Valid, Kept, History;
    transfer := new Transfer(at);
    acts := [];
    NothingDone();
    for i := 0 to |commands|
      invariant transfer.Valid() && fresh(transfer) && |acts| == i && History(acts, commands[..i], transfer.log)
      invariant if i == 0 then !transfer.loss.active && transfer.mode == Stopped && transfer.cause == NoCause
                else acts[i - 1].after == transfer.Look()
    {
      ghost var log := transfer.log;
      ghost var a := Execute(transfer, commands[i]);
      assert log + transfer.log[|log|..] == transfer.log;
      HistorySnoc(acts, commands[..i], log, a, transfer.log[|log|..]);
      assert commands[..i + 1] == commands[..i] + [commands[i]];
      acts := acts + [a];
    }
    assert commands[..|commands|] == commands;
  }

  lemma NothingDone()
    ensures History([], [], [])
  {
  }

  method Execute(transfer: Transfer, command: Command) returns (ghost a: Act)
    requires transfer.Valid()
    modifies transfer
    ensures transfer.Valid() && old(transfer.log) <= transfer.log && Kept(a, transfer.log)
    ensures a.command == command && a.before == old(transfer.Look()) && a.after == transfer.Look()
    ensures a.first == |old(transfer.log)| && a.next == |transfer.log|
  {
    match command {
      case Starting(budget) => a := ExecuteStart(transfer, budget);
      case Servicing => a := ExecuteService(transfer);
      case Stopping => a := ExecuteStop(transfer);
      case Waiting(ms) =>
        ghost var before := transfer.Look();
        transfer.Wait(ms);
        a := Act(command, before, transfer.Look(), |transfer.log|, |transfer.log|, transfer.now, false, false, false,
                 None);
        transfer.Timed();
    }
  }

  method ExecuteStart(transfer: Transfer, budget: bool) returns (ghost a: Act)
    requires transfer.Valid()
    modifies transfer
    ensures transfer.Valid() && old(transfer.log) <= transfer.log && Kept(a, transfer.log)
    ensures a.command == Starting(budget) && a.before == old(transfer.Look()) && a.after == transfer.Look()
    ensures a.first == |old(transfer.log)| && a.next == |transfer.log|
  {
    hide Transfer.Valid, FullBy;
    ghost var before, first := transfer.Look(), |transfer.log|;
    ghost var r := transfer.Start(budget);
    transfer.Timed();
    a := Act(Starting(budget), before, transfer.Look(), first, |transfer.log|, r.entry, r.main, r.begun, false,
             r.sample);
  }

  method ExecuteService(transfer: Transfer) returns (ghost a: Act)
    requires transfer.Valid()
    modifies transfer
    ensures transfer.Valid() && old(transfer.log) <= transfer.log && Kept(a, transfer.log)
    ensures a.command == Servicing && a.before == old(transfer.Look()) && a.after == transfer.Look()
    ensures a.first == |old(transfer.log)| && a.next == |transfer.log|
  {
    hide Transfer.Valid, FullBy;
    ghost var before, first := transfer.Look(), |transfer.log|;
    ghost var c := transfer.Service();
    transfer.Timed();
    a := Act(Servicing, before, transfer.Look(), first, |transfer.log|, c.entry, c.main, false, false, c.sample);
  }

  method ExecuteStop(transfer: Transfer) returns (ghost a: Act)
    requires transfer.Valid()
    modifies transfer
    ensures transfer.Valid() && old(transfer.log) <= transfer.log && Kept(a, transfer.log)
    ensures a.command == Stopping && a.before == old(transfer.Look()) && a.after == transfer.Look()
    ensures a.first == |old(transfer.log)| && a.next == |transfer.log|
  {
    hide Transfer.Valid, FullBy;
    ghost var before, first := transfer.Look(), |transfer.log|;
    ghost var released, heard, sample := transfer.Stop();
    transfer.Timed();
    a := Act(Stopping, before, transfer.Look(), first, |transfer.log|, transfer.now, released && MainValid(sample),
             false, released, None);
  }

  /** Cutoff is for ever: no later command leaves it or calls the board. */
  lemma {:induction false} CutoffAbsorbs(acts: seq<Act>, commands: seq<Command>, log: seq<Call>, i: nat, j: nat)
    requires History(acts, commands, log) && i <= j < |acts| && acts[i].after.mode == Cutoff
    ensures acts[j].after.mode == Cutoff && acts[j].after.cause == acts[i].after.cause && acts[j].next == acts[i].next
    decreases j
  {
    if i < j {
      CutoffAbsorbs(acts, commands, log, i, j - 1);
      assert acts[j].before == acts[j - 1].after && acts[j].first == acts[j - 1].next && Kept(acts[j], log);
    }
  }

  /** The episode that opened with command i is still the one after command j. */
  ghost predicate Lasts(acts: seq<Act>, i: nat, j: nat)
    requires i <= j < |acts|
  {
    Opens(acts[i]) && forall k | i < k <= j :: acts[k].after.active && !Opens(acts[k])
  }

  lemma {:induction false} EpisodeStands(acts: seq<Act>, commands: seq<Command>, log: seq<Call>, i: nat, j: nat)
    requires History(acts, commands, log) && i <= j < |acts| && Lasts(acts, i, j)
    ensures acts[j].after.active && acts[j].after.lossT == acts[i].entry
    decreases j
  {
    assert Kept(acts[i], log);
    if i < j {
      EpisodeStands(acts, commands, log, i, j - 1);
      assert acts[j].before == acts[j - 1].after && Kept(acts[j], log);
    }
  }

  /** Whatever came in between, faults, failed reads, stops and refused starts, a
      service call 20 s or more after the first invalid sample of an episode reads a
      valid main source or ends in Cutoff. */
  lemma EpisodeOverdue(acts: seq<Act>, commands: seq<Command>, log: seq<Call>, i: nat, j: nat)
    requires History(acts, commands, log) && i < j < |acts| && Lasts(acts, i, j - 1) && !acts[j].begun
    requires acts[j].command.Servicing? && acts[i].entry + 20000 <= acts[j].entry
    requires acts[j].after.now < acts[i].entry + WRAP
    ensures acts[j].main || acts[j].after.mode == Cutoff
  {
    EpisodeStands(acts, commands, log, i, j - 1);
    assert acts[j].before == acts[j - 1].after && Kept(acts[j], log);
  }

  /** And a cutoff for the loss of main is never early. */
  lemma CutoffNotEarly(acts: seq<Act>, commands: seq<Command>, log: seq<Call>, i: nat, j: nat)
    requires History(acts, commands, log) && i <= j < |acts| && Lasts(acts, i, j) && acts[j].after.cause == MainTimeout
    ensures acts[i].entry + 20000 <= acts[j].after.now
  {
    EpisodeStands(acts, commands, log, i, j);
    assert Kept(acts[j], log);
  }

  /** The command that made call n. */
  lemma {:induction false} CallMadeBy(acts: seq<Act>, commands: seq<Command>, log: seq<Call>, n: nat, last: nat)
      returns (i: nat)
    requires History(acts, commands, log) && last < |acts| && n < acts[last].next
    ensures i <= last && acts[i].first <= n < acts[i].next
    decreases last
  {
    if acts[last].first <= n {
      i := last;
    } else {
      assert last > 0 && acts[last].first == acts[last - 1].next;
      i := CallMadeBy(acts, commands, log, n, last - 1);
    }
  }

  /** A low-voltage cutoff goes back to a sample of an armed bank feeding the board at
      7.0 V or less. */
  lemma {:induction false} LowCutoffFounded(acts: seq<Act>, commands: seq<Command>, log: seq<Call>, j: nat)
    requires History(acts, commands, log) && j < |acts| && acts[j].after.cause == LowVoltage
    ensures exists k :: 0 <= k <= j && acts[k].sample.Some? && Exhausted(acts[k].sample.value, acts[k].before.armed)
    decreases j
  {
    assert Kept(acts[j], log);
    if acts[j].before.cause == LowVoltage {
      assert j > 0 && acts[j].before == acts[j - 1].after;
      LowCutoffFounded(acts, commands, log, j - 1);
    }
  }

  /** The backup is switched on only on a reading of a main source and of 10.0 V or more. */
  lemma ArmedAboveTen(acts: seq<Act>, commands: seq<Command>, log: seq<Call>, n: nat)
    requires History(acts, commands, log) && n < |log| && log[n] == BackupSwitch(true)
    ensures exists i :: 0 <= i < |acts| && acts[i].first <= n < acts[i].next && ArmsOn(acts[i].sample)
  {
    var i := CallMadeBy(acts, commands, log, n, |acts| - 1);
    assert Kept(acts[i], log);
  }

  /** Over a whole run CE and boost are raised only by starts with a validated budget,
      and the backup is released only by stops on a valid main source. */
  lemma EnergisedOnlyByStart(acts: seq<Act>, commands: seq<Command>, log: seq<Call>, n: nat)
    requires History(acts, commands, log) && n < |log| && Energising(log[n])
    ensures exists i :: 0 <= i < |acts| && acts[i].first <= n < acts[i].next
              && if log[n] == BackupSwitch(false) then commands[i] == Stopping && acts[i].main
                 else commands[i] == Starting(true)
  {
    var i := CallMadeBy(acts, commands, log, n, |acts| - 1);
    assert Kept(acts[i], log) && acts[i].command == commands[i];
  }

  const PREPARATION: seq<Call> :=
    [Charger(false), PortsOff, Buck(false), Boost(false), HighCurrent(false), ThermistorOverride(false), Boost(true)]

  /** The plateau tracker: a span above 0.15 V starts it again. */
  function Levelled(c: Plateau, v: int, at: uint32): Plateau {
    var c := if c.level then c else c.(level := true, levelAt := at, low := v, high := v);
    var low, high := if v < c.low then v else c.low, if v > c.high then v else c.high;
    if high - low > PLATEAU_SPAN_V then c.(levelAt := at, low := v, high := v) else c.(low := low, high := high)
  }
}