/** The host side: requests to the board, and the chain of evidence the host wants
    before it powers itself off. Messages, polls and worker results interleave freely. */
module PdbClient {
  import opened Options
  import opened Clock
  import opened Grammar
  import opened Printer
  import Protocol

  /** A shutdown announcement that passed validation; times in milliseconds. */
  datatype Announcement = Announcement(shutdownId: uint32, deadlineMs: uint32, remaining: uint32)

  datatype Kind =
    | Response(id: uint32, ok: bool, code: string)
    | Telemetry(shutdown: Option<Option<Announcement>>)       // Some(None): present but invalid
    | Ping(pingId: Option<uint32>)
    | ShutdownRequested(announced: Option<Announcement>)
    | OtherEvent

  /** A framed device object; `enveloped` says whether its envelope is valid. */
  datatype Message = Message(enveloped: bool, bootId: string, kind: Kind)

  datatype Stage = Preparing | PoweringOff

  /** What a worker thread reports back about the attempt it was started for. */
  datatype WorkerResult = WorkerResult(serial: nat, stage: Stage, ok: bool)

  datatype Attempt = Attempt(
    serial: nat, shutdownId: uint32, deadline: real, started: real, timeout: real,
    failed: bool, cleanupDone: bool, readyId: Option<uint32>, readySent: real, poweroffStarted: bool)

  /** What an observer of the host sees. */
  datatype Event =
    | Booted(bootId: string)
    | Began(serial: nat, deadline: real)
    | Tightened(serial: nat, deadline: real)
    | Returned(result: WorkerResult)
    | CleanedUp(serial: nat)
    | ReadySent(serial: nat, id: uint32, at: real)
    | Accepted(id: uint32)
    | PoweroffStarted(serial: nat, at: real)

  /** The evidence behind a poweroff started at position i: within one boot, the
      attempt began, its cleanup returned True, the ready message was sent, and the
      OK for exactly that id came under one second later, before every deadline
      announced for it so far. */
  ghost predicate Chain(log: seq<Event>, i: nat, m: Marks)
    requires i < |log|
  {
    && m.began < m.cleaned < m.ready < i - 1 && m.returned < m.cleaned
    && log[i].PoweroffStarted?
    && log[m.began].Began? && log[m.began].serial == log[i].serial && log[i].at < log[m.began].deadline
    && Before(log[..i], m.began, log[i].serial, log[i].at)
    && log[m.returned] == Returned(WorkerResult(log[i].serial, Preparing, true))
    && log[m.cleaned] == CleanedUp(log[i].serial)
    && log[m.ready].ReadySent? && log[m.ready].serial == log[i].serial && log[i].at - log[m.ready].at < 1.0
    && log[i - 1] == Accepted(log[m.ready].id)
    && forall k | m.began < k < i :: !log[k].Booted?
  }

  /** Every deadline announced again for the attempt since it began is after t. */
  ghost predicate Before(log: seq<Event>, began: nat, serial: nat, t: real) {
    forall k | began < k < |log| && log[k].Tightened? && log[k].serial == serial :: t < log[k].deadline
  }

  /** The positions in the log behind the state of an attempt. */
  datatype Marks = Marks(began: nat, returned: nat, cleaned: nat, ready: nat)

  ghost predicate Justified(log: seq<Event>, i: nat)
    requires i < |log|
  {
    exists m :: Chain(log, i, m)
  }

  /** Every poweroff is justified, and no attempt starts a second one. */
  ghost predicate Lawful(log: seq<Event>) {
    && (forall i | 0 <= i < |log| && log[i].PoweroffStarted? :: Justified(log, i))
    && (forall i, j | 0 <= i < j < |log| && log[i].PoweroffStarted? && log[j].PoweroffStarted? ::
          log[i].serial != log[j].serial)
  }

  lemma JustifiedExtends(log: seq<Event>, more: seq<Event>, i: nat)
    requires i < |log| && Justified(log, i)
    ensures Justified(log + more, i)
  {
    var m :| Chain(log, i, m);
    assert (log + more)[..i] == log[..i];
    assert Chain(log + more, i, m);
  }

  /** Anything but a poweroff may always be added. */
  lemma LawfulExtends(log: seq<Event>, e: Event)
    requires Lawful(log) && !e.PoweroffStarted?
    ensures Lawful(log + [e])
  {
    forall i | 0 <= i < |log + [e]| && (log + [e])[i].PoweroffStarted?
      ensures Justified(log + [e], i)
    {
      JustifiedExtends(log, [e], i);
    }
  }

  lemma LawfulStarts(log: seq<Event>, e: Event, m: Marks)
    requires Lawful(log) && e.PoweroffStarted? && Chain(log + [e], |log|, m)
    requires forall i | 0 <= i < |log| && log[i].PoweroffStarted? :: log[i].serial != e.serial
    ensures Lawful(log + [e])
  {
    var after := log + [e];
    forall i | 0 <= i < |after| && after[i].PoweroffStarted?
      ensures Justified(after, i)
    {
      if i < |log| {
        JustifiedExtends(log, [e], i);
      } else {
        assert Chain(after, i, m);
      }
    }
  }

  ghost predicate Backed(log: seq<Event>, a: Attempt, m: Marks) {
    && m.began < |log| && log[m.began].Began? && log[m.began].serial == a.serial && a.deadline <= log[m.began].deadline
    && (forall k | m.began < k < |log| :: !log[k].Booted?)
    && (forall k | m.began < k < |log| && log[k].Tightened? && log[k].serial == a.serial ::
          a.deadline <= log[k].deadline)
    && (a.readyId.Some? ==>
          && m.began < m.cleaned < m.ready < |log| && m.returned < m.cleaned
          && log[m.returned] == Returned(WorkerResult(a.serial, Preparing, true))
          && log[m.cleaned] == CleanedUp(a.serial)
          && log[m.ready] == ReadySent(a.serial, a.readyId.value, a.readySent))
    && (forall i | 0 <= i < |log| && log[i].PoweroffStarted? && log[i].serial == a.serial :: a.poweroffStarted)
  }

  lemma BackedExtends(log: seq<Event>, e: Event, a: Attempt, m: Marks)
    requires Backed(log, a, m) && !e.Booted? && !e.PoweroffStarted?
    requires e.Tightened? && e.serial == a.serial ==> a.deadline <= e.deadline
    ensures Backed(log + [e], a, m)
  {
  }

  lemma BeganBefore(log: seq<Event>, a: Attempt, m: Marks)
    requires Backed(log, a, m)
    ensures m.began < |log|
  {
  }

  /** The ready message was sent after the cleanup returned. */
  lemma BackedReady(log: seq<Event>, a: Attempt, m: Marks, n: Marks, id: uint32, at: real)
    requires Backed(log, a, m) && n.began == m.began
    requires m.began < n.cleaned < n.ready < |log| && n.returned < n.cleaned
    requires log[n.returned] == Returned(WorkerResult(a.serial, Preparing, true))
    requires log[n.cleaned] == CleanedUp(a.serial)
    requires log[n.ready] == ReadySent(a.serial, id, at)
    ensures Backed(log, a.(cleanupDone := true, readyId := Some(id), readySent := at), n)
  {
  }

  /** A time before the attempt's deadline is before every deadline announced for it. */
  lemma BackedBefore(log: seq<Event>, a: Attempt, m: Marks, t: real)
    requires Backed(log, a, m) && t < a.deadline
    ensures Before(log, m.began, a.serial, t)
  {
  }

  /** No event mentions an attempt not yet begun. */
  ghost predicate Known(log: seq<Event>, n: nat) {
    forall i | 0 <= i < |log| && log[i].PoweroffStarted? :: log[i].serial < n
  }

  /** What may happen to the client, in any order. */
  datatype Input = Received(message: Message) | Polled | Reported(result: WorkerResult)

  predicate Proper(m: Message) { m.enveloped && BootIdText(m.bootId) }

  /** The shutdown a message validly announces. */
  function Announces(kind: Kind): Option<Announcement> {
    var a := match kind
             case Telemetry(shutdown) => (if shutdown.Some? then shutdown.value else None)
             case ShutdownRequested(announced) => announced
             case _ => None;
    if a.Some? && a.value.remaining <= 60000 then a else None
  }

  predicate Accepts(kind: Kind) { kind.Response? && kind.ok && kind.code == "OK" }

  /** The only inputs an event can come from. */
  predicate Causes(input: Input, e: Event) {
    match input
    case Received(m) =>
      Proper(m) && (match e
                    case Booted(bootId) => bootId == m.bootId
                    case Began(_, _) => Announces(m.kind).Some?
                    case Tightened(_, _) => Announces(m.kind).Some?
                    case Accepted(id) => Accepts(m.kind) && id == m.kind.id
                    case PoweroffStarted(_, _) => Accepts(m.kind)
                    case _ => false)
    case Polled => e.CleanedUp? || e.ReadySent?
    case Reported(result) => e == Returned(result)
  }

  /** And the only ones a request can answer. */
  predicate Answers(input: Input, r: Request) {
    match input
    case Received(m) =>
      && Proper(m) && r.bootId == m.bootId
      && ((r.command == Pong && m.kind == Ping(Some(r.pingId)))
          || (r.command == ShutdownAck && Announces(m.kind).Some?
              && Announces(m.kind).value.shutdownId == r.shutdownId))
    case Polled => r.command == ShutdownReady
    case Reported(_) => false
  }

  /** What one input added to the log and to the requests sent. */
  datatype Step = Step(input: Input, events: seq<Event>, requests: seq<Request>)

  /** Everything added was caused by the input, and nothing the input demands is missing. */
  ghost predicate Heeded(step: Step) {
    && (forall i | 0 <= i < |step.events| :: Causes(step.input, step.events[i]))
    && (forall i | 0 <= i < |step.requests| :: Answers(step.input, step.requests[i]))
    && (step.input.Reported? ==> step.events == [Returned(step.input.result)])
    && (step.input.Received? && Proper(step.input.message) ==>
          && (Accepts(step.input.message.kind) ==> Accepted(step.input.message.kind.id) in step.events)
          && (step.input.message.kind.Ping? && step.input.message.kind.pingId.Some? ==> |step.requests| == 1))
  }

  function Logged(steps: seq<Step>): seq<Event> {
    if steps == [] then [] else Logged(steps[..|steps| - 1]) + steps[|steps| - 1].events
  }

  function Requested(steps: seq<Step>): seq<Request> {
    if steps == [] then [] else Requested(steps[..|steps| - 1]) + steps[|steps| - 1].requests
  }

  /** At most a poweroff was started. */
  predicate MayPowerOff(before: seq<Event>, after: seq<Event>) {
    after == before || (|after| == |before| + 1 && before <= after && after[|before|].PoweroffStarted?)
  }

  function Min(a: real, b: real): real { if a < b then a else b }

  function Max(a: real, b: real): real { if a < b then b else a }

  function NextRequestId(id: uint32): uint32 { if id == WRAP - 1 then 1 else id + 1 }

  class Client {
    const hooked: bool        // host shutdown is configured
    const hookTimeout: real
    const acknowledges: bool
    var bootId: Option<string>
    var nextId: uint32
    var serials: nat
    var attempt: Option<Attempt>
    var results: seq<WorkerResult>
    var now: real
    ghost var sent: seq<Request>
    ghost var log: seq<Event>
    ghost var marks: Marks

    ghost predicate Valid()
      reads this
    {
      && nextId != 0 && (bootId.Some? ==> BootIdText(bootId.value)) && (hooked ==> 0.0 < hookTimeout <= 45.0)
      && (forall r | r in sent :: Sensible(r))
      && Lawful(log) && Known(log, serials) && (forall r | r in results :: Returned(r) in log)
      && (attempt.Some? ==>
            bootId.Some? && attempt.value.serial < serials && Backed(log, attempt.value, marks))
    }

    constructor (hooked: bool, hookTimeout: real, acknowledges: bool, firstId: uint32)
      requires firstId != 0 && (hooked ==> 0.0 < hookTimeout <= 45.0)
      ensures Valid() && log == [] && sent == []
    {
      this.hooked, this.hookTimeout, this.acknowledges := hooked, hookTimeout, acknowledges || hooked;
      bootId, nextId, serials, attempt, results, now := None, firstId, 0, None, [], 0.0;
      sent, log, marks := [], [], Marks(0, 0, 0, 0);
    }

    method Clock() returns (t: real)
      modifies this`now
      ensures old(now) <= now && t == now
    {
      var d: real := *;
      now := if d > now then d else now;
      t := now;
    }

    /** Sends one request line under a fresh id; the board parses the line back to
        this very request. */
    method Send(r: Request) returns (id: uint32)
      requires Valid() && Sensible(r.(id := nextId))
      modifies this`nextId, this`sent
      ensures Valid() && id == old(nextId) && id != 0 && nextId == NextRequestId(id)
      ensures sent == old(sent) + [r.(id := id)]
      ensures |Print(r.(id := id))| <= MAX_REQUEST && Protocol.Parse(Print(r.(id := id))) == Protocol.Ok(r.(id := id))
    {
      hide Sensible, Lawful, Known, Backed, BootIdText, Print;
      id := nextId;
      nextId := if id == WRAP - 1 then 1 else id + 1;
      PrintParses(r.(id := id));
      sent := sent + [r.(id := id)];
    }

    method SendSimple(command: Command, pingId: uint32, shutdownId: uint32) returns (id: uint32)
      requires Valid() && bootId.Some? && command != PortSet && command != Status
      requires command != Pong ==> pingId == 0
      requires command != ShutdownAck && command != ShutdownReady ==> shutdownId == 0
      modifies this`nextId, this`sent
      ensures Valid() && id == old(nextId)
      ensures sent == old(sent) + [Request(command, id, pingId, shutdownId, bootId.value, "", false)]
    {
      hide Lawful, Known, Backed, BootIdText, Print;
      id := Send(Request(command, nextId, pingId, shutdownId, bootId.value, "", false));
    }

    ghost method Record(e: Event)
      requires Valid() && !e.Booted? && !e.PoweroffStarted?
      requires attempt.Some? && e.Tightened? && e.serial == attempt.value.serial ==>
                 attempt.value.deadline <= e.deadline
      modifies this`log
      ensures Valid() && log == old(log) + [e]
    {
      hide Sensible, BootIdText, Lawful, Backed;
      LawfulExtends(log, e);
      if attempt.Some? {
        BackedExtends(log, e, attempt.value, marks);
      }
      log := log + [e];
    }

    /** A worker may report at any time. */
    method WorkerReports(r: WorkerResult)
      requires Valid()
      modifies this`results, this`log
      ensures Valid() && results == old(results) + [r]
      ensures Added(Reported(r)) && log == old(log) + [Returned(r)] && sent == old(sent)
    {
      hide Sensible, BootIdText, Lawful, Backed, Known;
      Record(Returned(r));
      results := results + [r];
    }

    /** Log and requests only grow, and only by what the input causes. */
    twostate predicate Added(input: Input)
      reads this
    {
      && old(log) <= log && old(sent) <= sent
      && (forall i | |old(log)| <= i < |log| :: Causes(input, log[i]))
      && (forall i | |old(sent)| <= i < |sent| :: Answers(input, sent[i]))
    }

    /** A new boot forgets the attempt: its workers can no longer power anything off. */
    method Boot(boot: string)
      requires Valid() && BootIdText(boot)
      modifies this`bootId, this`attempt, this`log
      ensures Valid() && bootId == Some(boot)
      ensures if old(bootId) == Some(boot) then attempt == old(attempt) && log == old(log)
              else attempt == None && log == old(log) + [Booted(boot)]
    {
      hide Sensible, BootIdText, Lawful, Backed;
      if bootId != Some(boot) {
        LawfulExtends(log, Booted(boot));
        log := log + [Booted(boot)];
        bootId, attempt := Some(boot), None;
      }
    }

    /** Announcements open one attempt per boot; repeats can only bring its deadline forward. */
    method Shutdown(announced: Option<Announcement>)
      requires Valid() && bootId.Some?
      modifies this
      ensures Valid() && bootId == old(bootId)
      ensures old(attempt).Some? ==>
                attempt.Some? && attempt.value == old(attempt).value.(deadline := attempt.value.deadline)
                && attempt.value.deadline <= old(attempt).value.deadline
      ensures announced.None? || announced.value.remaining > 60000 ==>
                attempt == old(attempt) && log == old(log) && sent == old(sent)
      ensures old(attempt).Some? && announced.Some? && announced.value.remaining <= 60000 ==>
                && sent == old(sent)
                && if announced.value.shutdownId == old(attempt).value.shutdownId
                   then var deadline := now + announced.value.remaining as real / 1000.0;
                        && attempt.value.deadline == Min(deadline, old(attempt).value.deadline)
                        && log == old(log) + [Tightened(attempt.value.serial, deadline)]
                   else attempt.value.deadline == old(attempt).value.deadline && log == old(log)
      ensures old(attempt).None? && announced.Some? && announced.value.remaining <= 60000 ==> Opened(announced.value)
    {
      hide Sensible, BootIdText, Lawful, Known;
      if announced.None? || announced.value.remaining > 60000 {
        return;
      }
      var f := announced.value;
      var t := Clock();
      var deadline := t + f.remaining as real / 1000.0;
      if attempt.None? {
        Open(f, t, deadline);
      } else if attempt.value.shutdownId == f.shutdownId {
        Tighten(deadline);
      }
    }

    /** The same shutdown, announced again: its deadline can only come forward. */
    method Tighten(deadline: real)
      requires Valid() && attempt.Some?
      modifies this`attempt, this`log
      ensures Valid() && log == old(log) + [Tightened(old(attempt).value.serial, deadline)]
      ensures attempt == Some(old(attempt).value.(deadline := Min(deadline, old(attempt).value.deadline)))
    {
      hide Sensible, BootIdText, Lawful, Known;
      if deadline < attempt.value.deadline {
        attempt := Some(attempt.value.(deadline := deadline));
      }
      Record(Tightened(attempt.value.serial, deadline));
    }

    /** A fresh attempt, on record, acknowledged if there is time for it. */
    twostate predicate Opened(f: Announcement)
      reads this
    {
      && attempt.Some? && attempt.value.shutdownId == f.shutdownId && attempt.value.readyId.None?
      && !attempt.value.poweroffStarted && !attempt.value.cleanupDone && attempt.value.serial == old(serials) < serials
      && old(now) <= attempt.value.started <= now
      && attempt.value.deadline == attempt.value.started + f.remaining as real / 1000.0
      && TimeAllowed(attempt.value, f.remaining as real / 1000.0)
      && log == old(log) + [Began(attempt.value.serial, attempt.value.deadline)]
      && sent == old(sent) + (if acknowledges && f.remaining > 0 && bootId.Some?
                              then [Request(ShutdownAck, old(nextId), 0, f.shutdownId, bootId.value, "", false)]
                              else [])
    }

    /** The clean-up has all the time there is but one second, and at most what it was
        given; with nothing left of that the attempt has failed from the start. */
    predicate TimeAllowed(a: Attempt, remaining: real) {
      var limit := if hooked then hookTimeout else 45.0;
      && 0.0 <= a.timeout <= limit && (a.timeout > 0.0 ==> a.timeout <= remaining - 1.0)
      && (a.timeout == limit || a.timeout == remaining - 1.0 || (a.timeout == 0.0 && remaining <= 1.0))
      && (a.failed <==> hooked && remaining <= 1.0)
    }

    method Open(f: Announcement, t: real, deadline: real)
      requires Valid() && bootId.Some? && attempt.None? && t == now && deadline == t + f.remaining as real / 1000.0
      modifies this
      ensures Valid() && bootId == old(bootId) && Opened(f) && attempt.value.deadline == deadline
    {
      hide Sensible, BootIdText, Lawful;
      var spare := Max(0.0, f.remaining as real / 1000.0 - 1.0);
      var timeout := Min(if hooked then hookTimeout else 45.0, spare);
      Record(Began(serials, deadline));
      marks := Marks(|log| - 1, 0, 0, 0);
      attempt := Some(Attempt(serials, f.shutdownId, deadline, t, timeout, hooked && timeout <= 0.0, false, None, 0.0,
                              false));
      serials := serials + 1;
      if acknowledges && f.remaining > 0 {
        var id := SendSimple(ShutdownAck, 0, f.shutdownId);
      }
    }

    /** The OK for the ready message: the only place a poweroff starts, and it does
        unless the attempt failed, was started before or ran out of time. */
    method StartPoweroff()
      requires Valid() && attempt.Some? && attempt.value.readyId.Some? && log != []
      requires log[|log| - 1] == Accepted(attempt.value.readyId.value) && marks.ready < |log| - 1
      modifies this`now, this`attempt, this`log
      ensures Valid() && attempt.Some? && bootId == old(bootId) && old(now) <= now && MayPowerOff(old(log), log)
      ensures if log == old(log) then attempt == old(attempt)
              else attempt.value == old(attempt).value.(poweroffStarted := true)
      ensures log != old(log) ==>
                && hooked && !old(attempt).value.failed && !old(attempt).value.poweroffStarted
                && log[|log| - 1].serial == old(attempt).value.serial
                && old(now) <= log[|log| - 1].at <= now && log[|log| - 1].at < old(attempt).value.deadline
      ensures Startable(old(attempt), now) ==> log != old(log)
    {
      hide Sensible, BootIdText, Lawful;
      var a := attempt.value;
      if a.failed || a.poweroffStarted || !hooked {
        return;
      }
      var at := Clock();
      if at >= a.deadline {
        return;
      }
      var t := Clock();
      if t - a.readySent >= 1.0 {
        return;
      }
      ghost var e := PoweroffStarted(a.serial, at);
      BackedBefore(log, a, marks, at);
      assert (log + [e])[..|log|] == log;
      assert Chain(log + [e], |log|, marks);
      LawfulStarts(log, e, marks);
      log := log + [e];
      attempt := Some(a.(poweroffStarted := true));
    }

    /** Nothing stands in the way of powering off at time t. */
    predicate Startable(a: Option<Attempt>, t: real) {
      && a.Some? && hooked && !a.value.failed && !a.value.poweroffStarted
      && t < a.value.deadline && t - a.value.readySent < 1.0
    }

    method Fail()
      requires Valid() && attempt.Some?
      modifies this`attempt
      ensures Valid() && attempt == Some(old(attempt).value.(failed := true))
    {
      hide Sensible, BootIdText, Lawful;
      attempt := Some(attempt.value.(failed := true));
    }

    method Respond(id: uint32, ok: bool, code: string)
      requires Valid() && bootId.Some?
      modifies this`now, this`attempt, this`log
      ensures Valid() && bootId == old(bootId)
      ensures old(attempt).Some? && old(attempt).value.readyId == Some(id) && !(ok && code == "OK") ==>
                attempt == Some(old(attempt).value.(failed := true))
      ensures old(attempt).None? || old(attempt).value.readyId != Some(id) ==> attempt == old(attempt)
      ensures if ok && code == "OK"
              then MayPowerOff(old(log) + [Accepted(id)], log) else log == old(log)
      ensures ok && code == "OK" && old(attempt).Some? && old(attempt).value.readyId == Some(id)
              && Startable(old(attempt), now) ==>
                log[|log| - 1].PoweroffStarted? && log[|log| - 1].serial == old(attempt).value.serial
    {
      hide Sensible, BootIdText, Lawful;
      var accepted := ok && code == "OK";
      if accepted {
        Record(Accepted(id));
      }
      if attempt.Some? && attempt.value.readyId == Some(id) {
        if accepted {
          StartPoweroff();
        } else {
          Fail();
        }
      }
    }

    /** Any message, valid or not. */
    method Receive(m: Message) returns (taken: bool)
      requires Valid()
      modifies this
      ensures Valid() && taken == (m.enveloped && BootIdText(m.bootId))
      ensures !taken ==> bootId == old(bootId) && attempt == old(attempt) && log == old(log) && sent == old(sent)
      ensures taken ==> bootId == Some(m.bootId)
      ensures Added(Received(m)) && (taken && Accepts(m.kind) ==> Accepted(m.kind.id) in log[|old(log)|..])
      ensures taken && Accepts(m.kind) && old(bootId) == Some(m.bootId) && old(attempt).Some?
              && old(attempt).value.readyId == Some(m.kind.id) && Startable(old(attempt), now) ==>
                log[|log| - 1].PoweroffStarted? && log[|log| - 1].serial == old(attempt).value.serial
      ensures taken && m.kind.Ping? && m.kind.pingId.Some? ==>
                sent == old(sent) + [Request(Pong, old(nextId), m.kind.pingId.value, 0, m.bootId, "", false)]
      ensures taken && old(bootId) == Some(m.bootId) && !m.kind.Response? && old(attempt).Some? ==>
                && attempt.Some? && attempt.value.serial == old(attempt).value.serial
                && attempt.value.deadline <= old(attempt).value.deadline
                && (Announces(m.kind).Some? && Announces(m.kind).value.shutdownId == attempt.value.shutdownId ==>
                      attempt.value.deadline <= now + Announces(m.kind).value.remaining as real / 1000.0)
      ensures taken && Announces(m.kind).Some? && (old(attempt).None? || old(bootId) != Some(m.bootId)) ==>
                && attempt.Some? && attempt.value.shutdownId == Announces(m.kind).value.shutdownId
                && attempt.value.serial == old(serials)
                && attempt.value.deadline <= now + Announces(m.kind).value.remaining as real / 1000.0
                && log[|log| - 1] == Began(attempt.value.serial, attempt.value.deadline)
                && (acknowledges && Announces(m.kind).value.remaining > 0 ==> |sent| == |old(sent)| + 1)
    {
      hide Sensible, Lawful, Known, Backed;
      taken := m.enveloped && BootIdText(m.bootId);
      if taken {
        Boot(m.bootId);
        match m.kind {
          case Response(id, ok, code) =>
            ghost var p := |log|;
            Respond(id, ok, code);
            assert Accepts(m.kind) ==> log[|old(log)|..][p - |old(log)|] == Accepted(id);
          case Telemetry(shutdown) => if shutdown.Some? { Shutdown(shutdown.value); }
          case Ping(pingId) => if pingId.Some? { var id := SendSimple(Pong, pingId.value, 0); }
          case ShutdownRequested(announced) => Shutdown(announced);
          case OtherEvent =>
        }
      }
    }

    /** Timeouts, then every result that came in, in order: the attempt has failed
        exactly if it had, a limit had passed or one of its workers failed, and the
        ready message goes out exactly for a clean-up done before any failure. */
    method Poll() returns (ghost at: real)
      requires Valid()
      modifies this
      ensures Valid() && bootId == old(bootId) && results == [] && Added(Polled)
      ensures old(now) <= at <= now && (old(attempt).None? ==> attempt.None? && sent == old(sent) && log == old(log))
      ensures old(attempt).Some? ==> attempt.Some? && Polls(old(attempt).value, old(results), |old(results)|, at)
    {
      hide Sensible, BootIdText, Lawful, Known, Backed;
      at := CheckTimeouts();
      ghost var all := results;
      ghost var k: nat := 0;
      while results != []
        invariant Valid() && bootId == old(bootId) && Added(Polled) && at <= now
        invariant k <= |all| && results == all[k..] && attempt.None? == old(attempt).None?
        invariant old(attempt).None? ==> sent == old(sent) && log == old(log)
        invariant old(attempt).Some? ==> Polls(old(attempt).value, all, k, at)
        decreases |results|
      {
        var r := results[0];
        results := results[1..];
        TakeResult(r);
        if old(attempt).Some? {
          OneMore(all, k, old(attempt).value.serial);
        }
        k := k + 1;
      }
    }

    /** What a poll at time t has made of attempt a after the first k results. */
    twostate predicate Polls(a: Attempt, all: seq<WorkerResult>, k: nat, t: real)
      requires k <= |all|
      reads this
    {
      var late := hooked && Expired(a, t);
      && attempt.Some? && attempt.value.serial == a.serial && attempt.value.shutdownId == a.shutdownId
      && attempt.value.deadline == a.deadline && attempt.value.started == a.started
      && attempt.value.timeout == a.timeout && attempt.value.poweroffStarted == a.poweroffStarted
      && (attempt.value.failed <==> a.failed || late || Broken(all, k, a.serial))
      && (attempt.value.cleanupDone <==> a.cleanupDone || (!a.failed && !late && Prepared(all, k, a.serial)))
      && (sent != old(sent) <==> !a.failed && !late && Prepared(all, k, a.serial))
      && (sent == old(sent) ==> log == old(log) && attempt.value.readyId == a.readyId)
    }

    method CheckTimeouts() returns (t: real)
      requires Valid()
      modifies this`now, this`attempt
      ensures Valid() && old(now) <= t == now
      ensures attempt == if old(attempt).Some? && hooked && Expired(old(attempt).value, t)
                         then Some(old(attempt).value.(failed := true)) else old(attempt)
    {
      hide Sensible, BootIdText, Lawful, Known, Backed;
      t := Clock();
      if attempt.Some? && hooked && !attempt.value.failed && !attempt.value.poweroffStarted {
        var a := attempt.value;
        if t >= a.deadline || (!a.cleanupDone && t - a.started >= a.timeout)
           || (a.readyId.Some? && t - a.readySent >= 1.0) {
          Fail();
        }
      }
    }

    /** A result counts only for the present attempt, and a clean-up that returned
        True is followed at once by the ready message. */
    method TakeResult(r: WorkerResult)
      requires Valid() && Returned(r) in log
      modifies this`now, this`attempt, this`log, this`marks, this`nextId, this`sent
      ensures Valid() && Added(Polled) && results == old(results)
      ensures attempt.None? == old(attempt).None? && bootId == old(bootId) && old(now) <= now
      ensures old(attempt).Some? && old(attempt).value.serial == r.serial && !old(attempt).value.failed ==>
                if !r.ok then
                  attempt == Some(old(attempt).value.(failed := true)) && sent == old(sent) && log == old(log)
                else if r.stage == Preparing then
                  attempt.value == old(attempt).value.(cleanupDone := true, readyId := Some(old(nextId)),
                                                       readySent := attempt.value.readySent)
                  && |sent| == |old(sent)| + 1
                  && sent[|sent| - 1].command == ShutdownReady && sent[|sent| - 1].id == old(nextId)
                  && sent[|sent| - 1].shutdownId == old(attempt).value.shutdownId
                else attempt == old(attempt) && sent == old(sent) && log == old(log)
      ensures old(attempt).None? || old(attempt).value.serial != r.serial || old(attempt).value.failed
              ==> attempt == old(attempt) && log == old(log) && sent == old(sent)
    {
      hide Sensible, BootIdText, Lawful;
      if attempt.None? || attempt.value.serial != r.serial || attempt.value.failed {
        return;
      }
      if !r.ok {
        Fail();
      } else if r.stage == Preparing {
        SendReady();
      }
    }

    method SendReady()
      requires Valid() && attempt.Some? && Returned(WorkerResult(attempt.value.serial, Preparing, true)) in log
      modifies this`now, this`attempt, this`log, this`marks, this`nextId, this`sent
      ensures Valid() && attempt.Some? && attempt.value.serial == old(attempt).value.serial
      ensures attempt.value == old(attempt).value.(cleanupDone := true, readyId := Some(old(nextId)),
                                                   readySent := attempt.value.readySent)
      ensures old(now) <= attempt.value.readySent <= now
      ensures |sent| == |old(sent)| + 1 && sent[|sent| - 1].command == ShutdownReady
              && sent[|sent| - 1].id == old(nextId)
              && sent[|sent| - 1].shutdownId == old(attempt).value.shutdownId && sent[..|old(sent)|] == old(sent)
      ensures |log| == |old(log)| + 2 && old(log) <= log && log[|old(log)|] == CleanedUp(old(attempt).value.serial)
      ensures log[|old(log)| + 1] == ReadySent(old(attempt).value.serial, old(nextId), attempt.value.readySent)
    {
      hide Sensible, BootIdText, Lawful, Known, Backed;
      var a := attempt.value;
      ghost var returned: nat :| returned < |log| && log[returned] == Returned(WorkerResult(a.serial, Preparing, true));
      BeganBefore(log, a, marks);
      Record(CleanedUp(a.serial));
      ghost var cleaned := |log| - 1;
      var id := SendSimple(ShutdownReady, 0, a.shutdownId);
      var t := Clock();
      Record(ReadySent(a.serial, id, t));
      ghost var ready := Marks(marks.began, returned, cleaned, |log| - 1);
      BackedReady(log, a, marks, ready, id, t);
      marks := ready;
      attempt := Some(a.(cleanupDone := true, readyId := Some(id), readySent := t));
    }
  }

  /** One of the first k results says a worker of the attempt failed. */
  predicate Broken(all: seq<WorkerResult>, k: nat, serial: nat)
    requires k <= |all|
  {
    exists i :: 0 <= i < k && all[i].serial == serial && !all[i].ok
  }

  /** One of the first k says its clean-up is done, and none before it failed. */
  predicate Prepared(all: seq<WorkerResult>, k: nat, serial: nat)
    requires k <= |all|
  {
    exists i :: 0 <= i < k && all[i] == WorkerResult(serial, Preparing, true) && !Broken(all, i, serial)
  }

  lemma OneMore(all: seq<WorkerResult>, k: nat, serial: nat)
    requires k < |all|
    ensures Broken(all, k + 1, serial) <==> Broken(all, k, serial) || (all[k].serial == serial && !all[k].ok)
    ensures Prepared(all, k + 1, serial) <==>
      Prepared(all, k, serial) || (all[k] == WorkerResult(serial, Preparing, true) && !Broken(all, k, serial))
  {
    if Prepared(all, k, serial) {
      var i :| 0 <= i < k && all[i] == WorkerResult(serial, Preparing, true) && !Broken(all, i, serial);
      assert 0 <= i < k + 1;
    }
    if Prepared(all, k + 1, serial) && !Prepared(all, k, serial) {
      var i :| 0 <= i < k + 1 && all[i] == WorkerResult(serial, Preparing, true) && !Broken(all, i, serial);
      assert i == k;
    }
  }

  /** When an attempt has run out of time. */
  predicate Expired(a: Attempt, now: real) {
    && !a.failed && !a.poweroffStarted
    && (|| now >= a.deadline
        || (!a.cleanupDone && now - a.started >= a.timeout)
        || (a.readyId.Some? && now - a.readySent >= 1.0))
  }

  /** For every interleaving, every input is heeded, every poweroff is justified and
      none is repeated. */
  method AnyRun(inputs: seq<Input>, hooked: bool, hookTimeout: real, acknowledges: bool, firstId: uint32)
      returns (client: Client, ghost steps: seq<Step>)
    requires firstId != 0 && (hooked ==> 0.0 < hookTimeout <= 45.0)
    ensures Lawful(client.log) && forall r | r in client.sent :: Sensible(r)
    ensures |steps| == |inputs| && forall i | 0 <= i < |steps| :: steps[i].input == inputs[i] && Heeded(steps[i])
    ensures client.log == Logged(steps) && client.sent == Requested(steps)
  {
    hide Lawful, Sensible, BootIdText, Backed, Known, Heeded;
    client := new Client(hooked, hookTimeout, acknowledges, firstId);
    steps := [];
    for i := 0 to |inputs|
      invariant client.Valid() && fresh(client)
      invariant |steps| == i && forall k | 0 <= k < i :: steps[k].input == inputs[k] && Heeded(steps[k])
      invariant client.log == Logged(steps) && client.sent == Requested(steps)
    {
      ghost var step := Take(client, inputs[i]);
      assert (steps + [step])[..i] == steps;
      steps := steps + [step];
    }
  }

  method Take(client: Client, input: Input) returns (ghost step: Step)
    requires client.Valid()
    modifies client
    ensures client.Valid() && step.input == input && Heeded(step)
    ensures client.log == old(client.log) + step.events && client.sent == old(client.sent) + step.requests
  {
    hide Lawful, Sensible, BootIdText, Backed, Known, Causes, Answers;
    match input {
      case Received(message) => var taken := client.Receive(message);
      case Polled => ghost var at := client.Poll();
      case Reported(result) => client.WorkerReports(result);
    }
    step := Step(input, client.log[|old(client.log)|..], client.sent[|old(client.sent)|..]);
  }
}
