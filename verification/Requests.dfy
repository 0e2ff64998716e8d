/** Request handling: what a line from the host may do, and the one answer it gets;
    and the firmware's loop around it. */
module Requests {
  import opened Options
  import opened Clock
  import opened PowerPolicy
  import opened Application
  import Board = BoardHardware
  import opened Expander
  import opened Wire
  import Grammar
  import Printer
  import Protocol
  import Replay
  import Framing
  import UsbOutput

  const PONG_FRESH_MS: nat := 10000
  const BATCH: nat := 128

  /** One response: the echoed id, the verdict and its code. */
  datatype Response = Response(id: uint32, ok: bool, code: string)

  function PortOf(name: string): Option<Port> {
    if name == "vbus" then Some(Vbus)
    else if name == "5v_vbus" then Some(FiveVoltVbus)
    else if name == "vbus_ss" then Some(VbusSs)
    else if name == "5v_ss" then Some(FiveVoltSs)
    else None
  }

  function ErrorCode(e: Protocol.Error): string {
    match e
    case BadJson => "BAD_JSON"
    case BadRequest => "BAD_REQUEST"
    case UnsupportedVersion => "UNSUPPORTED_VERSION"
    case UnknownCommand => "UNKNOWN_COMMAND"
  }

  predicate Mutation(r: Grammar.Request) { r.command == Grammar.PortSet || r.command == Grammar.Reboot }

  /** What the host and the policy tell each other. */
  datatype Talk = Talk(shutdownId: uint32, ack: bool, ready: bool, pong: bool)

  /** All that a request may depend on or change. */
  datatype Setting = Setting(scene: Scene, talk: Talk, log: seq<Replay.Entry>)

  /** One line asked and answered, with the moments at which the clock was read. */
  datatype Handling = Handling(
    line: string, before: Setting, after: Setting, at: nat, later: nat, negotiated: bool, response: Response)

  // ---- What a request does ----

  /** The answer to a request that was not answered before. */
  function Code(r: Grammar.Request, c: Setting, bootId: string, negotiated: bool, at: uint32, later: uint32): string {
    if r.command == Grammar.Status then "OK"
    else if r.bootId != bootId then "STALE_BOOT"
    else if r.command == Grammar.Pong then
      if c.scene.ping.id != 0 && r.pingId == c.scene.ping.id && Elapsed(at, c.scene.ping.at) < PONG_FRESH_MS then "OK"
      else "STALE_PING"
    else if r.command == Grammar.ShutdownAck || r.command == Grammar.ShutdownReady then
      if c.talk.shutdownId != 0 && r.shutdownId == c.talk.shutdownId && c.scene.s.phase == ShutdownWait then "OK"
      else "STALE_SHUTDOWN"
    else if InShutdown(c.scene.s) then "SHUTTING_DOWN"
    else if r.command == Grammar.Reboot then "ACCEPTED"
    else if PortOf(r.port).None? then "INVALID_PORT"
    else if PortOf(r.port).value == VbusSs then "RESERVED_PORT"
    else PortCode(c.scene, r.enabled, negotiated, at, later)
  }

  predicate Positive(code: string) { code == "OK" || code == "ACCEPTED" }

  /** Only a positive answer has an effect, and only its own. */
  predicate Effect(r: Grammar.Request, code: string, c: Setting, d: Setting, at: uint32) {
    if !Positive(code) then d == c
    else
      match r.command
      case Status => d == c
      case Pong => d == c.(talk := c.talk.(pong := true))
      case ShutdownAck => d == c.(talk := c.talk.(ack := true))
      case ShutdownReady => d == c.(talk := c.talk.(ready := true))
      case Reboot =>
        d == c.(scene := c.scene.(s := RequestReboot(c.scene.s, at)),
                talk := if c.talk.shutdownId == 0 then c.talk.(shutdownId := 1) else c.talk)
      case PortSet => PortStarted(r, c, d)
  }

  predicate PortStarted(r: Grammar.Request, c: Setting, d: Setting) {
    && PortOf(r.port).Some? && Board.Launched(c.scene.board, d.scene.board, PortChange)
    && d.scene.board.job.port == PortOf(r.port).value && d.scene.board.job.portEnabled == r.enabled
    && d == c.(scene := c.scene.(ext := PortRequest(r.id, PortOf(r.port).value, r.enabled), board := d.scene.board))
  }

  predicate Executed(r: Grammar.Request, c: Setting, d: Setting, bootId: string, negotiated: bool, at: uint32,
                     later: uint32, ok: bool, code: string)
  {
    code == Code(r, c, bootId, negotiated, at, later) && ok == Positive(code) && Effect(r, code, c, d, at)
  }

  /** The answer to a request whose id is remembered with entry e. */
  function Repeated(e: Replay.Entry, r: Grammar.Request): Response {
    match Replay.Verdict(e, r)
    case Same(reply) => Response(r.id, reply.ok, reply.code)
    case _ => Response(r.id, false, "ID_CONFLICT")
  }

  predicate FromCache(r: Grammar.Request, log: seq<Replay.Entry>, response: Response) {
    exists e :: e in Replay.Retained(log) && e.id == r.id && response == Repeated(e, r)
  }

  /** A mutation whose id is among the last 16 is answered from the cache and does
      nothing; any other is executed and remembered. */
  predicate Resolved(r: Grammar.Request, h: Handling, bootId: string) {
    var c, d, response := h.before, h.after, h.response;
    if Mutation(r) && Replay.Holds(Replay.Retained(c.log), r.id) then d == c && FromCache(r, c.log, response)
    else
      && response.id == r.id
      && Executed(r, c, d.(log := c.log), bootId, h.negotiated, Ticks(h.at), Ticks(h.later), response.ok, response.code)
      && d.log == if Mutation(r) then c.log + [Remembered(r, response)] else c.log
  }

  function Remembered(r: Grammar.Request, response: Response): Replay.Entry {
    Replay.Entry(r.id, Replay.Fingerprint(r), Replay.Reply(response.ok, response.code))
  }

  /** What a line says: only a line of at most 512 characters without NUL is parsed. */
  function Understanding(line: string): Protocol.Parsed<Grammar.Request> {
    if Framing.Classify(line).Line? then Protocol.Parse(line) else Protocol.Err(Protocol.BadJson)
  }

  /** The one answer to a line: a line that says a request gets that request's. */
  predicate Answered(h: Handling, bootId: string) {
    match Understanding(h.line)
    case Ok(r) => Resolved(r, h, bootId)
    case Err(e) => h.after == h.before && !h.response.ok && h.response.code == ErrorCode(e)
  }

  /** The lines are answered one after the other, from setting c to setting d; the
      source's budget holds for the requests in `offered`. */
  ghost predicate Conversation(hs: seq<Handling>, lines: seq<string>, c: Setting, d: Setting, bootId: string,
                               offered: set<uint32>)
  {
    && |hs| == |lines|
    && (forall i | 0 <= i < |hs| :: hs[i].line == lines[i] && Answered(hs[i], bootId) && Offers(hs[i], offered))
    && (forall i | 0 < i < |hs| :: hs[i].before == hs[i - 1].after)
    && (if hs == [] then d == c else hs[0].before == c && hs[|hs| - 1].after == d)
  }

  /** The frames a line makes the output be offered: its answer, and telemetry if it
      asks for the status. */
  function Frames(h: Handling): nat {
    if Understanding(h.line).Ok? && Understanding(h.line).value.command == Grammar.Status then 2 else 1
  }

  function AllFrames(hs: seq<Handling>): nat {
    if hs == [] then 0 else AllFrames(hs[..|hs| - 1]) + Frames(hs[|hs| - 1])
  }

  lemma FramesSnoc(hs: seq<Handling>, h: Handling)
    ensures AllFrames(hs + [h]) == AllFrames(hs) + Frames(h)
  {
    hide Frames;
    assert (hs + [h])[..|hs|] == hs;
  }

  predicate Offers(h: Handling, offered: set<uint32>) {
    Understanding(h.line).Ok? ==> h.negotiated == (Understanding(h.line).value.id in offered)
  }

  /** The clock was read within the conversation. */
  ghost predicate Spans(hs: seq<Handling>, began: nat, ended: nat) {
    forall i | 0 <= i < |hs| :: began <= hs[i].at <= hs[i].later <= ended
  }

  lemma ConversationSnoc(hs: seq<Handling>, lines: seq<string>, c: Setting, h: Handling, bootId: string,
                         offered: set<uint32>)
    requires Conversation(hs, lines, c, h.before, bootId, offered) && Answered(h, bootId) && Offers(h, offered)
    ensures Conversation(hs + [h], lines + [h.line], c, h.after, bootId, offered)
  {
    hide Answered, Offers;
  }

  /** Nothing a host says during a shutdown undoes it, reboots again or moves a port. */
  lemma ShutdownDeaf(h: Handling, bootId: string)
    requires Answered(h, bootId) && InShutdown(h.before.scene.s)
    ensures h.after.scene == h.before.scene && h.after.talk.shutdownId == h.before.talk.shutdownId
    ensures Understanding(h.line).Ok? && Mutation(Understanding(h.line).value) && h.response.ok ==>
              FromCache(Understanding(h.line).value, h.before.log, h.response)
  {
    hide FromCache, Understanding;
  }

  /** What one line may at most do: enter shutdown by a reboot, start one port change
      on an idle running board, or take note of an answer from the host. */
  lemma OneEffect(h: Handling, bootId: string)
    requires Answered(h, bootId)
    ensures h.after.scene == h.before.scene
            || (h.after.scene == h.before.scene.(s := RequestReboot(h.before.scene.s, Ticks(h.at)))
                && !InShutdown(h.before.scene.s))
            || (h.before.scene.s.phase == Phase.Running && !Board.Busy(h.before.scene.board)
                && h.before.scene.ext.request == 0
                && Board.Launched(h.before.scene.board, h.after.scene.board, PortChange)
                && h.after.scene == h.before.scene.(ext := h.after.scene.ext, board := h.after.scene.board))
    ensures h.after.scene != h.before.scene ==> h.response.ok && |h.after.log| == |h.before.log| + 1
  {
    hide FromCache, Understanding;
  }

  /** The outputs a host may switch, by their names. */
  predicate Switchable(name: string) { name == "vbus" || name == "5v_vbus" || name == "5v_ss" }

  predicate KnownName(name: string) { Switchable(name) || name == "vbus_ss" }

  /** Nothing stands in the way of a port operation but main, the budget and the monitoring. */
  predicate IdleRunning(c: Scene) {
    c.s.phase == Phase.Running && c.board.job.result != Board.Running && c.ext.request == 0
  }

  /** What it takes for a request that was not answered before to be accepted. */
  predicate Acceptable(r: Grammar.Request, c: Scene, negotiated: bool, at: uint32, later: uint32) {
    || (r.command == Grammar.Reboot && c.s.phase != ShutdownWait && c.s.phase != PowerOff)
    || (r.command == Grammar.PortSet && Switchable(r.port) && IdleRunning(c) && MainIn(c.board.snapshot, at)
        && (r.enabled ==> BudgetIn(c.board.snapshot, later, negotiated, c.dcBudget)) && c.board.monitoring)
  }

  /** Which request gets which answer, code by code. */
  lemma CodesExact(r: Grammar.Request, c: Setting, d: Setting, bootId: string, negotiated: bool, at: uint32,
                   later: uint32, ok: bool, code: string)
    requires Executed(r, c, d, bootId, negotiated, at, later, ok, code)
    ensures ok <==> code == "OK" || code == "ACCEPTED"
    ensures code == "STALE_BOOT" <==> r.command != Grammar.Status && r.bootId != bootId
    ensures r.command == Grammar.Status ==> code == "OK"
    ensures r.bootId == bootId && r.command == Grammar.Pong ==>
              code == if c.scene.ping.id != 0 && r.pingId == c.scene.ping.id && Elapsed(at, c.scene.ping.at) < 10000
                      then "OK" else "STALE_PING"
    ensures r.bootId == bootId && (r.command == Grammar.ShutdownAck || r.command == Grammar.ShutdownReady) ==>
              code == if c.talk.shutdownId != 0 && r.shutdownId == c.talk.shutdownId && c.scene.s.phase == ShutdownWait
                      then "OK" else "STALE_SHUTDOWN"
    ensures code == "ACCEPTED" <==> r.bootId == bootId && Acceptable(r, c.scene, negotiated, at, later)
    ensures code == "RESERVED_PORT" <==>
            r.bootId == bootId && r.command == Grammar.PortSet && r.port == "vbus_ss" && !InShutdown(c.scene.s)
    ensures code == "INVALID_PORT" <==>
            r.bootId == bootId && r.command == Grammar.PortSet && !KnownName(r.port) && !InShutdown(c.scene.s)
    ensures code == "BUSY" <==>
            r.bootId == bootId && r.command == Grammar.PortSet && Switchable(r.port) && c.scene.s.phase == Phase.Running
            && !IdleRunning(c.scene)
    ensures code == "SHUTTING_DOWN" <==>
            r.bootId == bootId && Mutation(r)
            && (InShutdown(c.scene.s)
                || (r.command == Grammar.PortSet && Switchable(r.port) && IdleRunning(c.scene)
                    && !MainIn(c.scene.board.snapshot, at)))
    ensures code == "NOT_READY" <==>
            r.bootId == bootId && r.command == Grammar.PortSet && Switchable(r.port) && !InShutdown(c.scene.s)
            && (c.scene.s.phase != Phase.Running
                || (IdleRunning(c.scene) && MainIn(c.scene.board.snapshot, at) && r.enabled
                    && !BudgetIn(c.scene.board.snapshot, later, negotiated, c.scene.dcBudget)))
  {
    hide MainIn, BudgetIn, Effect;
  }

  /** The named output, and no other, is being switched as asked. */
  predicate PortBegun(r: Grammar.Request, a: Scene, b: Scene) {
    && b == a.(board := a.board.(job := b.board.job), ext := b.ext)
    && b.board.job.result == Board.Running && b.board.job.operation == PortChange && b.board.job.stage == 0
    && b.board.job.portEnabled == r.enabled && b.ext == PortRequest(r.id, b.board.job.port, r.enabled)
    && (|| (r.port == "vbus" && b.board.job.port == Vbus)
        || (r.port == "5v_vbus" && b.board.job.port == FiveVoltVbus)
        || (r.port == "5v_ss" && b.board.job.port == FiveVoltSs))
  }

  /** The one thing an accepted request changes: each note of the host's is taken by
      its own message, the policy is moved by a reboot and the operation by a port request. */
  predicate OwnEffect(r: Grammar.Request, a: Scene, b: Scene, talk: Talk, talk': Talk, at: uint32) {
    && (r.command == Grammar.Pong ==> b == a && talk' == talk.(pong := true))
    && (r.command == Grammar.ShutdownAck ==> b == a && talk' == talk.(ack := true))
    && (r.command == Grammar.ShutdownReady ==> b == a && talk' == talk.(ready := true))
    && (r.command == Grammar.Reboot ==>
          b == a.(s := RequestReboot(a.s, at)) && talk' == talk.(shutdownId := talk'.shutdownId)
          && talk'.shutdownId != 0)
    && (r.command == Grammar.PortSet ==> talk' == talk && PortBegun(r, a, b))
    && (r.command == Grammar.Status ==> b == a && talk' == talk)
  }

  /** A request acts exactly if it is accepted. */
  lemma AcceptedActs(r: Grammar.Request, c: Setting, d: Setting, bootId: string, negotiated: bool, at: uint32,
                 later: uint32, ok: bool, code: string)
    requires Executed(r, c, d, bootId, negotiated, at, later, ok, code)
    ensures if ok then OwnEffect(r, c.scene, d.scene, c.talk, d.talk, at) && d.log == c.log else d == c
    ensures ok && r.command != Grammar.Status ==> r.bootId == bootId
    ensures ok && Mutation(r) ==> Acceptable(r, c.scene, negotiated, at, later)
  {
    CodesExact(r, c, d, bootId, negotiated, at, later, ok, code);
    hide MainIn, BudgetIn, RequestReboot, Acceptable, IdleRunning;
  }

  /** A line that changes anything was a request of the present boot that was accepted
      afresh, and it changed what that request is for. */
  lemma EffectsExact(h: Handling, bootId: string)
    requires Answered(h, bootId) && h.after != h.before.(log := h.after.log)
    ensures Understanding(h.line).Ok? && h.response.ok
    ensures var r := Understanding(h.line).value;
            && (r.command != Grammar.Status ==> r.bootId == bootId)
            && OwnEffect(r, h.before.scene, h.after.scene, h.before.talk, h.after.talk, Ticks(h.at))
            && (Mutation(r) ==>
                  && !Replay.Holds(Replay.Retained(h.before.log), r.id)
                  && Acceptable(r, h.before.scene, h.negotiated, Ticks(h.at), Ticks(h.later)))
  {
    hide Understanding, Replay.Retained, Replay.Holds, FromCache, Executed, OwnEffect, Acceptable;
    var r, c := Understanding(h.line).value, h.before;
    assert h.after.(log := c.log) != c;
    AcceptedActs(r, c, h.after.(log := c.log), bootId, h.negotiated, Ticks(h.at), Ticks(h.later), h.response.ok,
                 h.response.code);
  }

  /** A mutation under a retained id does nothing: the same request gets the same
      answer again, and a near miss of it is refused. */
  lemma RetainedAnswered(h: Handling, bootId: string, r: Grammar.Request, k: nat, first: Grammar.Request,
                         answer: Response)
    requires Answered(h, bootId) && Understanding(h.line) == Protocol.Ok(r) && Mutation(r)
    requires k < |Replay.Retained(h.before.log)| && Replay.DistinctIds(Replay.Retained(h.before.log))
    requires Replay.Retained(h.before.log)[k] == Remembered(first, answer) && first.id == r.id == answer.id
    ensures h.after == h.before
    ensures r == first ==> h.response == answer
    ensures Replay.NearMiss(first, r) ==> h.response == Response(r.id, false, "ID_CONFLICT")
  {
    hide Understanding, Replay.Fingerprint, Replay.NearMiss, Executed;
    var kept := Replay.Retained(h.before.log);
    assert Replay.Holds(kept, r.id);
    var e :| e in kept && e.id == r.id && h.response == Repeated(e, r);
    assert e == kept[k];
    if Replay.NearMiss(first, r) {
      Replay.NearMissConflicts(first, r, Replay.Reply(answer.ok, answer.code));
    }
  }

  // ---- The server ----

  /** The state of the USB port at a service() call: whether it is connected, the room
      it reports, and how many of the bytes it is offered it takes. */
  datatype PortState = PortState(connected: bool, room: int, takes: nat)

  /** What one round of the loop meets: the time since the last, what a poll delivers,
      the power-delivery controller, the requests whose budget holds, the other
      frames queued before the host's bytes are read and whether telemetry follows,
      the port before and after, and the bytes waiting in it. */
  datatype Input = Input(
    pause: nat, polled: Option<Board.Snapshot>, pd: Delivery, offered: set<uint32>, frames: seq<bool>, telemetry: bool,
    port: PortState, after: PortState, bytes: string)

  /** One round: the setting before it, when the policy was ticked, the scene after
      the dispatch and after the loop, the port requests reported on in it, and the
      setting before and after the host's bytes, of which n were read between the times
      `began` and `ended` on top of the unfinished line `segment`, with `queued` frames
      waiting. */
  datatype Turn = Turn(
    input: Input, before: Setting, when: Moments, told: Scene, looped: Scene, reported: seq<Report>,
    mid: Setting, after: Setting,
    began: nat, ended: nat, segment: string, rest: string, n: nat, queued: nat, handled: seq<Handling>)

  /** The frames a round offers the output: the loop's own, the answers, the telemetry. */
  function Offered(t: Turn): nat {
    if t.looped.released then 0 else |t.input.frames| + AllFrames(t.handled) + if t.input.telemetry then 1 else 0
  }

  /** The bytes read complete exactly the lines that were answered; reading stops
      early only when 128 were read or there is no room for a reply. */
  ghost predicate Spoken(t: Turn, bootId: string) {
    && t.n <= |t.input.bytes| && t.n <= 128
    && t.rest == Framing.Partial(t.segment + t.input.bytes[..t.n]) && Spans(t.handled, t.began, t.ended)
    && Conversation(t.handled, Asking(Framing.Lines(t.segment + t.input.bytes[..t.n])), t.mid, t.after, bootId,
                    t.input.offered)
    && (t.n < |t.input.bytes| && t.n < 128 && t.input.port.connected ==>
          t.queued + 2 * |t.handled| > UsbOutput.SLOTS - 2)
  }

  /** The host speaks after the loop, which only forwards what was said before and
      never ends a shutdown; nothing is read any more after the release. */
  ghost predicate Taken(t: Turn, bootId: string) {
    && (t.looped.released ==> t.n == 0 && t.handled == [] && t.after == t.mid && t.rest == t.segment)
    && (!t.looped.released ==> Spoken(t, bootId))
    && t.mid == Setting(t.looped.(ping := t.mid.scene.ping),
                        if t.before.scene.released then t.before.talk else Quiet(t.before.talk, t.looped.s),
                        t.before.log)
    && (t.before.scene.released ==> t.after == t.before)
    && (InShutdown(t.before.scene.s) ==> InShutdown(t.looped.s))
    && (!t.before.scene.released ==>
          Ran(t.before.scene, t.told, t.looped, t.input, HostSaid(t.before.talk), t.when, t.reported))
    && (t.before.scene.released ==> t.reported == [])
  }

  /** The loop itself: one tick of the policy, what it reports, and what it may do to
      the outputs. */
  ghost predicate Ran(a: Scene, told: Scene, b: Scene, input: Input, heard: Heard, when: Moments,
                      reported: seq<Report>)
  {
    && TickedOnce(a, b.s, input.polled, input.pd, heard, when)
    && Tells(a, b.s, input.polled, input.pd, heard, when, reported, b.ext)
    && Tidied(a, told, b, Lost(a, input.polled, input.pd, heard, when))
  }

  /** What the next tick is told of the host. */
  function HostSaid(talk: Talk): Heard { Heard(talk.ack, talk.ready, talk.pong) }

  /** What was said is passed on once; a shutdown gets its id. */
  function Quiet(talk: Talk, s: State): Talk {
    Talk(if InShutdown(s) && talk.shutdownId == 0 then 1 else talk.shutdownId, false, false, false)
  }

  /** The loop's part of a round on a benign bus, at one instant. */
  ghost predicate Rounded(t: Turn, now: uint32) {
    && Looped(t.before.scene, t.told, t.looped, t.input.polled, t.input.pd, HostSaid(t.before.talk), now)
    && Ticks(t.ended) == now
    && (!t.looped.released ==>
          t.mid.scene == Pinged(t.looped, t.mid.talk.shutdownId != 0, now) && t.began == t.ended)
  }

  /** How a round is put together. */
  lemma Assembled(t: Turn, bootId: string, now: uint32, benign: bool)
    requires !t.before.scene.released && (InShutdown(t.before.scene.s) ==> InShutdown(t.looped.s))
    requires t.mid == Setting(t.mid.scene, Quiet(t.before.talk, t.looped.s), t.before.log)
    requires t.mid.scene == t.looped.(ping := t.mid.scene.ping)
    requires if t.looped.released then t.n == 0 && t.handled == [] && t.after == t.mid && t.rest == t.segment
             else Spoken(t, bootId)
    requires Ran(t.before.scene, t.told, t.looped, t.input, HostSaid(t.before.talk), t.when, t.reported)
    requires benign ==>
               && Ticks(t.ended) == now
               && Looped(t.before.scene, t.told, t.looped, t.input.polled, t.input.pd, HostSaid(t.before.talk), now)
    requires benign && !t.looped.released ==>
               t.mid.scene == Pinged(t.looped, t.mid.talk.shutdownId != 0, now) && t.began == t.ended
    ensures Taken(t, bootId) && (benign ==> Rounded(t, now))
  {
    hide Spoken, Looped, Ran;
  }

  class Server {
    const loop: Loop
    const replay: Replay.ReplayCache
    const output: UsbOutput.UsbOutput
    const framer: Framing.Framer
    const bootId: string
    var talk: Talk
    var usbWasConnected: bool
    ghost var responses: seq<Response>
    ghost var handled: seq<Handling>

    ghost function Set(): Setting
      reads this, loop, loop.manager, loop.board, loop.board.bus, replay
    {
      Setting(loop.Look(), talk, replay.log)
    }

    ghost predicate Valid()
      reads this, loop, loop.manager, loop.board, loop.board.bus, replay, replay.entries, output, output.slots,
            framer, framer.data
    {
      loop.Valid() && replay.Valid() && output.Valid() && framer.Valid() && Recorded()
    }

    /** Every answered line has its response on record, in order. */
    ghost predicate Recorded()
      reads this
    {
      |responses| == |handled| && forall i | 0 <= i < |handled| :: responses[i] == handled[i].response
    }

    constructor (loop: Loop, bootId: string)
      requires loop.Valid()
      ensures Valid() && this.loop == loop && this.bootId == bootId && handled == []
      ensures fresh(replay) && fresh(replay.entries) && fresh(output) && fresh(output.slots) && fresh(framer)
      ensures fresh(framer.data)
      ensures framer.segment == "" && !output.connected && !usbWasConnected && output.queue == []
      ensures talk == Talk(0, false, false, false) && replay.log == []
    {
      hide Replay.ReplayCache.Valid, UsbOutput.UsbOutput.Valid, Framing.Framer.Valid, Loop.Valid;
      this.loop, this.bootId := loop, bootId;
      replay := new Replay.ReplayCache();
      output := new UsbOutput.UsbOutput();
      framer := new Framing.Framer();
      talk, usbWasConnected := Talk(0, false, false, false), false;
      responses, handled := [], [];
    }

    lemma ServerStands()
      requires Valid()
      ensures loop.Valid()
    {
      hide Replay.ReplayCache.Valid, UsbOutput.UsbOutput.Valid, Framing.Framer.Valid, Loop.Valid;
    }

    /** Queues exactly one response. */
    method Respond(id: uint32, ok: bool, code: string)
      requires output.Valid()
      modifies this`responses, output, output.slots
      ensures output.Valid() && responses == old(responses) + [Response(id, ok, code)]
      ensures output.attempts == old(output.attempts) + 1
      ensures output.connected == old(output.connected)
      ensures |old(output.queue)| <= |output.queue| <= |old(output.queue)| + 1
      ensures old(output.RoomForReply()) ==> |output.queue| == |old(output.queue)| + 1
    {
      var text: string := *;
      var taken := output.Enqueue(true, text, false);
      responses := responses + [Response(id, ok, code)];
    }

    /** A shutdown hears nothing; one may begin, on the registers as they are. */
    twostate predicate Deaf()
      reads loop, loop.manager, loop.board, loop.board.bus
    {
      if old(InShutdown(loop.manager.s)) then loop.manager.s == old(loop.manager.s) && loop.onset == old(loop.onset)
      else InShutdown(loop.manager.s) ==> loop.onset.Some? && loop.onset.value.bank == loop.board.bus.bank
    }

    /** Executes a request of the present boot that was not answered before. */
    method Execute(r: Grammar.Request, negotiated: bool)
        returns (ok: bool, code: string, ghost at: nat, ghost later: nat)
      requires loop.Valid() && Grammar.Sensible(r) && r.command != Grammar.Status
      modifies this`talk, loop`ext, loop`watch, loop`onset, loop.manager, loop.board`job, loop.board`times,
               loop.board.bus`now
      ensures loop.Valid() && Deaf() && loop.board.bus.Later()
      ensures old(loop.board.bus.now) <= at <= later <= loop.board.bus.now
      ensures Executed(r, old(Set()), Set(), bootId, negotiated, Ticks(at), Ticks(later), ok, code)
    {
      hide Loop.Valid;
      at, later := loop.board.bus.now, loop.board.bus.now;
      if r.bootId != bootId {
        ok, code := false, "STALE_BOOT";
      } else if r.command == Grammar.Pong {
        ok, code, at := TakePong(r.pingId);
        later := at;
      } else if r.command == Grammar.ShutdownAck || r.command == Grammar.ShutdownReady {
        ok, code := TakeNote(r);
      } else {
        ok, code, at, later := Mutate(r, negotiated);
      }
    }

    /** An acknowledgement or a final ready of the present shutdown. */
    method TakeNote(r: Grammar.Request) returns (ok: bool, code: string)
      requires r.command == Grammar.ShutdownAck || r.command == Grammar.ShutdownReady
      requires r.bootId == bootId
      modifies this`talk
      ensures forall at: uint32, later: uint32, negotiated ::
                Executed(r, old(Set()), Set(), bootId, negotiated, at, later, ok, code)
    {
      ok := talk.shutdownId != 0 && r.shutdownId == talk.shutdownId && loop.manager.s.phase == ShutdownWait;
      code := if ok then "OK" else "STALE_SHUTDOWN";
      if ok {
        talk := if r.command == Grammar.ShutdownAck then talk.(ack := true) else talk.(ready := true);
      }
    }

    /** A reboot or a port request. */
    method Mutate(r: Grammar.Request, negotiated: bool)
        returns (ok: bool, code: string, ghost at: nat, ghost later: nat)
      requires loop.Valid() && Grammar.Sensible(r) && Mutation(r) && r.bootId == bootId
      modifies this`talk, loop`ext, loop`watch, loop`onset, loop.manager, loop.board`job, loop.board`times,
               loop.board.bus`now
      ensures loop.Valid() && Deaf() && loop.board.bus.Later()
      ensures old(loop.board.bus.now) <= at <= later <= loop.board.bus.now
      ensures Executed(r, old(Set()), Set(), bootId, negotiated, Ticks(at), Ticks(later), ok, code)
    {
      hide Loop.Valid;
      at, later := loop.board.bus.now, loop.board.bus.now;
      ok := false;
      if InShutdown(loop.manager.s) {
        code := "SHUTTING_DOWN";
      } else if r.command == Grammar.Reboot {
        ok := loop.RequestReboot();
        at, later := loop.board.bus.now, loop.board.bus.now;
        talk := if ok && talk.shutdownId == 0 then talk.(shutdownId := 1) else talk;
        code := if ok then "ACCEPTED" else "SHUTTING_DOWN";
      } else {
        var port := PortOf(r.port);
        if port.None? {
          code := "INVALID_PORT";
        } else if port.value == VbusSs {
          code := "RESERVED_PORT";
        } else {
          code, at, later := loop.RequestPort(r.id, port.value, r.enabled, negotiated);
          ok := code == "ACCEPTED";
        }
      }
    }

    /** Accepted exactly if it answers the last ping within ten seconds. */
    method TakePong(pingId: uint32) returns (ok: bool, code: string, ghost at: nat)
      requires loop.Valid()
      modifies this`talk, loop.board.bus`now
      ensures loop.Valid() && loop.board.bus.Later() && at == loop.board.bus.now && loop.Look() == old(loop.Look())
      ensures ok <==> loop.ping.id != 0 && pingId == loop.ping.id && Elapsed(Ticks(at), loop.ping.at) < PONG_FRESH_MS
      ensures code == if ok then "OK" else "STALE_PING"
      ensures talk == if ok then old(talk).(pong := true) else old(talk)
    {
      hide Loop.Valid;
      var t := loop.Millis();
      at := loop.board.bus.now;
      ok := loop.ping.id != 0 && pingId == loop.ping.id && Elapsed(t, loop.ping.at) < PONG_FRESH_MS;
      code := if ok then "OK" else "STALE_PING";
      if ok {
        talk := talk.(pong := true);
      }
    }

    /** One request. A mutation whose id is among the last 16 is answered from the
        cache or refused, and starts nothing again. */
    method Handle(line: string, r: Grammar.Request, negotiated: bool) returns (ghost h: Handling)
      requires loop.Valid() && replay.Valid() && output.Valid() && Grammar.Sensible(r)
      modifies this`talk, this`responses, loop`ext, loop`watch, loop`onset, loop.manager, loop.board`job,
               loop.board`times,
               loop.board.bus`now, replay, replay.entries, output, output.slots
      ensures loop.Valid() && replay.Valid() && output.Valid() && Deaf() && loop.board.bus.Later()
      ensures responses == old(responses) + [h.response] && output.connected == old(output.connected)
      ensures old(output.RoomForReply()) ==> |output.queue| > |old(output.queue)|
      ensures |old(output.queue)| <= |output.queue| <= |old(output.queue)| + 2
      ensures output.attempts == old(output.attempts) + if r.command == Grammar.Status then 2 else 1
      ensures h == Handling(line, old(Set()), Set(), h.at, h.later, negotiated, h.response) && Resolved(r, h, bootId)
      ensures old(loop.board.bus.now) <= h.at <= h.later <= loop.board.bus.now
    {
      hide Replay.ReplayCache.Valid, UsbOutput.UsbOutput.Valid, Loop.Valid, Grammar.Sensible, Loop.Look;
      ghost var before, at, later := Set(), loop.board.bus.now, loop.board.bus.now;
      var ok, code := true, "OK";
      if Mutation(r) {
        ok, code, at, later := Resolve(r, negotiated);
        Respond(r.id, ok, code);
      } else if r.command == Grammar.Status {
        Respond(r.id, true, "OK");
        Telemetry();
      } else {
        ok, code, at, later := Execute(r, negotiated);
        Respond(r.id, ok, code);
      }
      h := Handling(line, before, Set(), at, later, negotiated, Response(r.id, ok, code));
    }

    /** Looks the id up first; only an id that is not remembered is executed. */
    method Resolve(r: Grammar.Request, negotiated: bool)
        returns (ok: bool, code: string, ghost at: nat, ghost later: nat)
      requires loop.Valid() && replay.Valid() && Grammar.Sensible(r) && Mutation(r)
      modifies this`talk, loop`ext, loop`watch, loop`onset, loop.manager, loop.board`job, loop.board`times,
               loop.board.bus`now, replay, replay.entries
      ensures loop.Valid() && replay.Valid() && Deaf() && loop.board.bus.Later()
      ensures old(loop.board.bus.now) <= at <= later <= loop.board.bus.now
      ensures Resolved(r, Handling("", old(Set()), Set(), at, later, negotiated, Response(r.id, ok, code)), bootId)
    {
      hide Replay.ReplayCache.Valid, Loop.Valid, Grammar.Sensible, Loop.Look, Executed, Replay.Fingerprint,
           Replay.Retained,
           Replay.Holds;
      NonZero(r);
      at, later := loop.board.bus.now, loop.board.bus.now;
      var found := replay.Lookup(r);
      if found == Replay.New {
        ok, code, at, later := Execute(r, negotiated);
        replay.Remember(r, Replay.Reply(ok, code));
      } else if found.Same? {
        ok, code := found.reply.ok, found.reply.code;
      } else {
        ok, code := false, "ID_CONFLICT";
      }
    }

    /** A telemetry frame, if there is room for one. */
    method Telemetry()
      requires output.Valid()
      modifies output, output.slots
      ensures output.Valid() && output.connected == old(output.connected)
      ensures |old(output.queue)| <= |output.queue| <= |old(output.queue)| + 1
      ensures output.attempts == old(output.attempts) + 1
      ensures output.lostTelemetry - old(output.lostTelemetry) == output.lost - old(output.lost)
    {
      var ok: bool, text: string := *, *;
      var taken := output.Enqueue(ok, text, true);
    }

    /** Events and telemetry of the loop, whole or dropped. */
    method Announce(frames: seq<bool>)
      requires output.Valid()
      modifies output, output.slots
      ensures output.Valid() && output.connected == old(output.connected)
      ensures |old(output.queue)| <= |output.queue| <= |old(output.queue)| + |frames|
      ensures output.attempts == old(output.attempts) + |frames|
    {
      for i := 0 to |frames|
        invariant output.Valid() && output.connected == old(output.connected)
        invariant |old(output.queue)| <= |output.queue| <= |old(output.queue)| + i
        invariant output.attempts == old(output.attempts) + i
      {
        var ok: bool, text: string := *, *;
        var taken := output.Enqueue(ok, text, frames[i]);
      }
    }

    /** Reads at most 128 bytes, while there is room for a reply: every non-blank
        line they complete is answered exactly once, in order, each by what it says. */
    method Receive(input: string, offered: set<uint32>) returns (n: nat, ghost hs: seq<Handling>)
      requires Valid()
      modifies this`talk, this`responses, this`handled, loop`ext, loop`watch, loop`onset, loop.manager, loop.board`job,
               loop.board`times, loop.board.bus`now, replay, replay.entries, output, output.slots, framer, framer.data
      ensures Valid() && Deaf() && loop.board.bus.Later() && n <= |input| && n <= BATCH
      ensures n < |input| && n < BATCH ==> !output.connected || |output.queue| > UsbOutput.SLOTS - 2
      ensures handled == old(handled) + hs && framer.segment == Framing.Partial(old(framer.segment) + input[..n])
      ensures Conversation(hs, Asking(Framing.Lines(old(framer.segment) + input[..n])), old(Set()), Set(), bootId,
                           offered)
      ensures Spans(hs, old(loop.board.bus.now), loop.board.bus.now)
      ensures |old(output.queue)| + |hs| <= |output.queue| <= |old(output.queue)| + 2 * |hs|
      ensures output.attempts == old(output.attempts) + AllFrames(hs)
      ensures output.connected == old(output.connected)
    {
      hide Replay.ReplayCache.Valid, UsbOutput.UsbOutput.Valid, Framing.Framer.Valid, Loop.Valid, Framing.Lines,
           Framing.Partial,
           Asking, Conversation, Answered, Offers, Server.Recorded, Loop.Look, Frames;
      n, hs := 0, [];
      ghost var stream, start := framer.segment, Set();
      assert stream + input[..0] == stream;
      SegmentKept();
      StartOfStream(stream, start, bootId, offered);
      while n < |input| && n < BATCH && output.RoomForReply()
        invariant Valid() && Deaf() && loop.board.bus.Later() && n <= |input| && n <= BATCH
        invariant handled == old(handled) + hs && output.connected == old(output.connected)
        invariant framer.segment == Framing.Partial(stream + input[..n])
        invariant Conversation(hs, Asking(Framing.Lines(stream + input[..n])), start, Set(), bootId, offered)
        invariant Spans(hs, old(loop.board.bus.now), loop.board.bus.now)
        invariant |old(output.queue)| + |hs| <= |output.queue| <= |old(output.queue)| + 2 * |hs|
        invariant output.attempts == old(output.attempts) + AllFrames(hs)
      {
        ghost var lines := Asking(Framing.Lines(stream + input[..n]));
        NextByte(stream, input, n);
        ghost var more := Take(input[n], offered);
        if more == [] {
          assert hs + more == hs && lines + [] == lines;
        } else {
          ConversationSnoc(hs, lines, start, more[0], bootId, offered);
          FramesSnoc(hs, more[0]);
          assert more == [more[0]];
        }
        hs := hs + more;
        n := n + 1;
      }
      output.Counted();
    }

    /** One byte, and the answer to the line it completes. */
    method Take(c: char, offered: set<uint32>) returns (ghost more: seq<Handling>)
      requires Valid()
      modifies this`talk, this`responses, this`handled, loop`ext, loop`watch, loop`onset, loop.manager, loop.board`job,
               loop.board`times, loop.board.bus`now, replay, replay.entries, output, output.slots, framer, framer.data
      ensures Valid() && Deaf() && loop.board.bus.Later() && output.connected == old(output.connected)
      ensures framer.segment == if c == Framing.LF then "" else old(framer.segment) + [c]
      ensures handled == old(handled) + more && |more| == if c == Framing.LF && old(framer.segment) != "" then 1 else 0
      ensures more == [] ==> Set() == old(Set())
      ensures more != [] ==>
                && Answered(more[0], bootId) && Offers(more[0], offered)
                && more[0].line == old(framer.segment) && more[0].before == old(Set()) && more[0].after == Set()
                && old(loop.board.bus.now) <= more[0].at <= more[0].later <= loop.board.bus.now
      ensures old(output.RoomForReply()) ==> |output.queue| >= |old(output.queue)| + |more|
      ensures |old(output.queue)| <= |output.queue| <= |old(output.queue)| + 2 * |more|
      ensures output.attempts == old(output.attempts) + if more == [] then 0 else Frames(more[0])
    {
      hide Replay.ReplayCache.Valid, UsbOutput.UsbOutput.Valid, Framing.Framer.Valid, Loop.Valid, Loop.Look, Answered,
           Offers,
           Framing.Classify;
      more := [];
      ghost var line := framer.segment;
      var complete, frame := framer.Push(c);
      if complete {
        SegmentBlank(line);
        if !frame.Line? {
          Respond(0, false, "BAD_JSON");
          more := [Handling(line, old(Set()), Set(), loop.board.bus.now, loop.board.bus.now, false,
                            Response(0, false, "BAD_JSON"))];
          Garbled(more[0], bootId, offered);
        } else if frame.text != "" {
          ghost var h := Answer(frame.text, offered);
          more := [h];
        }
        handled := handled + more;
      }
    }

    method Answer(line: string, offered: set<uint32>) returns (ghost h: Handling)
      requires loop.Valid() && replay.Valid() && output.Valid() && Framing.Classify(line) == Framing.Line(line)
      modifies this`talk, this`responses, loop`ext, loop`watch, loop`onset, loop.manager, loop.board`job,
               loop.board`times,
               loop.board.bus`now, replay, replay.entries, output, output.slots
      ensures loop.Valid() && replay.Valid() && output.Valid() && Deaf() && loop.board.bus.Later()
      ensures responses == old(responses) + [h.response] && output.connected == old(output.connected)
      ensures h.line == line && h.before == old(Set()) && h.after == Set() && Answered(h, bootId) && Offers(h, offered)
      ensures old(loop.board.bus.now) <= h.at <= h.later <= loop.board.bus.now
      ensures old(output.RoomForReply()) ==> |output.queue| > |old(output.queue)|
      ensures |old(output.queue)| <= |output.queue| <= |old(output.queue)| + 2
      ensures output.attempts == old(output.attempts) + Frames(h)
    {
      hide Replay.ReplayCache.Valid, UsbOutput.UsbOutput.Valid, Loop.Valid, Protocol.Parse, Loop.Look, Resolved;
      var request := Protocol.ParseLine(line);
      if request.Err? {
        var echoed: uint32 := *;
        Respond(echoed, false, ErrorCode(request.error));
        h := Handling(line, old(Set()), Set(), loop.board.bus.now, loop.board.bus.now, false,
                      Response(echoed, false, ErrorCode(request.error)));
      } else {
        Understood(line, request.value);
        h := Handle(line, request.value, request.value.id in offered);
      }
    }

    // ---- One round of the firmware's loop ----

    /** Output, poll, tick, dispatch, one hardware stage, clean-up, and the host's
        bytes; only output once the backup was released. */
    method Round(input: Input) returns (ghost turn: Turn)
      requires Valid()
      modifies this, loop, loop.manager, loop.board, loop.board.bus, replay, replay.entries, output, output.slots,
               framer, framer.data
      ensures Valid() && turn.input == input && turn.before == old(Set()) && turn.after == Set()
      ensures turn.before.scene.released == old(loop.released) && loop.reports == old(loop.reports) + turn.reported
      ensures handled == old(handled) + turn.handled && framer.segment == turn.rest && Taken(turn, bootId)
      ensures turn.segment == "" || turn.segment == old(framer.segment)
      ensures Guarded()
      ensures old(loop.released) ==> loop.board.bus.trace == old(loop.board.bus.trace) && loop.watch == old(loop.watch)
      ensures output.connected == input.after.connected && (!output.connected ==> output.queue == [])
      ensures loop.board.bus.benign ==> turn.ended == loop.board.bus.now == old(loop.board.bus.now) + input.pause
      ensures !old(loop.released) ==>
                && usbWasConnected == input.port.connected
                && turn.segment == (if old(usbWasConnected) == input.port.connected then old(framer.segment) else "")
                && turn.queued <= |old(output.queue)| + |input.frames|
                && |output.queue| <= turn.queued + 2 * |turn.handled| + (if input.telemetry then 1 else 0)
                && output.attempts == old(output.attempts) + Offered(turn)
                && (loop.board.bus.benign ==> Rounded(turn, Ticks(loop.board.bus.now)))
    {
      hide Replay.ReplayCache.Valid, UsbOutput.UsbOutput.Valid, Framing.Framer.Valid, Loop.Valid, Shrinks, Loop.Look,
           Taken, Rounded;
      loop.Shown();
      Board.ShrinksReflexive(loop.board.bus.bank);
      loop.Wait(input.pause);
      if loop.released {
        turn := RestRound(input);
      } else {
        turn := WorkRound(input);
      }
      output.Service(input.after.connected, input.after.room, input.after.takes);
    }

    /** No hardware is touched any more. */
    method RestRound(input: Input) returns (ghost turn: Turn)
      requires Valid() && loop.released
      modifies loop, loop.manager, loop.board, loop.board.bus, output, output.slots
      ensures Valid() && loop.board.bus.Later() && Set() == old(Set())
      ensures loop.released && loop.manager.s == old(loop.manager.s) && loop.onset == old(loop.onset)
      ensures loop.board.bus.bank == old(loop.board.bus.bank) && loop.board.bus.trace == old(loop.board.bus.trace)
      ensures loop.board.backupPin == old(loop.board.backupPin) && loop.watch == old(loop.watch)
      ensures turn == Turn(input, Set(), turn.when, loop.Look(), loop.Look(), [], Set(), Set(), loop.board.bus.now,
                           loop.board.bus.now, framer.segment, framer.segment, 0, 0, [])
      ensures loop.reports == old(loop.reports)
      ensures output.connected == input.port.connected && (!output.connected ==> output.queue == [])
      ensures output.attempts == old(output.attempts)
      ensures Taken(turn, bootId)
    {
      hide Replay.ReplayCache.Valid, Framing.Framer.Valid, Loop.Valid, UsbOutput.UsbOutput.Valid, Spoken;
      output.Service(input.port.connected, input.port.room, input.port.takes);
      ghost var when, mid := loop.Iterate(None, input.pd, Heard(false, false, false));
      turn := Turn(input, Set(), when, loop.Look(), loop.Look(), [], Set(), Set(), loop.board.bus.now,
                   loop.board.bus.now, framer.segment, framer.segment, 0, 0, []);
    }

    /** What the framer holds back has no line feed in it. */
    lemma SegmentKept()
      requires framer.Valid()
      ensures Framing.FreeOfLF(framer.segment)
    {
    }

    method WorkRound(input: Input) returns (ghost turn: Turn)
      requires Valid() && !loop.released
      modifies this, loop, loop.manager, loop.board, loop.board.bus, replay, replay.entries, output, output.slots,
               framer, framer.data
      ensures Valid() && loop.board.bus.Later() && turn.input == input && turn.before == old(Set())
      ensures turn.after == Set() && loop.reports == old(loop.reports) + turn.reported
      ensures handled == old(handled) + turn.handled && framer.segment == turn.rest && Taken(turn, bootId)
      ensures Guarded() && usbWasConnected == input.port.connected
      ensures turn.segment == (if old(usbWasConnected) == input.port.connected then old(framer.segment) else "")
      ensures turn.queued <= |old(output.queue)| + |input.frames|
      ensures |output.queue| <= turn.queued + 2 * |turn.handled| + (if input.telemetry then 1 else 0)
      ensures output.attempts == old(output.attempts) + Offered(turn)
      ensures loop.board.bus.benign ==> Rounded(turn, Ticks(loop.board.bus.now)) && turn.ended == loop.board.bus.now
    {
      hide Server.Valid, Shrinks, Loop.Look, Spoken, Looped, Taken, Rounded, Quiet, Pinged, InShutdown, Ran;
      ghost var before := Set();
      loop.Shown();
      var now;
      ghost var when, told, reported;
      now, when, told, reported := Advance(input);
      turn := Finish(input, now, before, when, told, reported);
    }

    /** The host's bytes, unless the backup was just released. */
    method Finish(input: Input, now: uint32, ghost before: Setting, ghost when: Moments, ghost told: Scene,
                  ghost reported: seq<Report>)
        returns (ghost turn: Turn)
      requires Valid() && (loop.board.bus.benign ==> now == Ticks(loop.board.bus.now))
      requires output.connected == input.port.connected && before.log == replay.log && !before.scene.released
      requires talk == Quiet(before.talk, loop.manager.s) && (InShutdown(before.scene.s) ==> InShutdown(loop.manager.s))
      requires Ran(before.scene, told, loop.Look(), input, HostSaid(before.talk), when, reported)
      requires loop.board.bus.benign ==>
                 Looped(before.scene, told, loop.Look(), input.polled, input.pd, HostSaid(before.talk), now)
      modifies this`talk, this`responses, this`handled, loop`ping, loop`ext, loop`watch, loop`onset, loop.manager,
               loop.board`job, loop.board`times, loop.board.bus`now, replay, replay.entries, output, output.slots,
               framer, framer.data
      ensures Valid() && loop.board.bus.Later() && turn.input == input && turn.before == before && turn.after == Set()
      ensures handled == old(handled) + turn.handled && framer.segment == turn.rest && Taken(turn, bootId)
      ensures turn.reported == reported && Deaf() && turn.segment == old(framer.segment)
      ensures turn.queued <= |old(output.queue)| + |input.frames|
      ensures |output.queue| <= turn.queued + 2 * |turn.handled| + (if input.telemetry then 1 else 0)
      ensures output.attempts == old(output.attempts) + Offered(turn)
      ensures loop.board.bus.benign ==> Rounded(turn, Ticks(loop.board.bus.now)) && turn.ended == loop.board.bus.now
    {
      hide Server.Valid, Shrinks, Loop.Look, Spoken, Looped, Taken, Rounded, Quiet, Pinged, InShutdown, Ran;
      ghost var looped, segment := loop.Look(), framer.segment;
      loop.Shown();
      if loop.released {
        turn := Turn(input, before, when, told, looped, reported, Set(), Set(), loop.board.bus.now, loop.board.bus.now,
                     segment, segment, 0, |output.queue|, []);
      } else {
        turn := Attend(input, now, before, when, told, reported);
      }
      Assembled(turn, bootId, Ticks(loop.board.bus.now), loop.board.bus.benign);
    }

    /** A shutdown begins on the registers before or after the round and goes on as it
        began, from its take-up the driven set only shrinks, and the backup is only let
        go with the release. */
    twostate predicate Guarded()
      reads loop, loop.manager, loop.board, loop.board.bus
    {
      && (old(InShutdown(loop.manager.s)) ==> InShutdown(loop.manager.s) && loop.onset == old(loop.onset))
      && (InShutdown(loop.manager.s) && !old(InShutdown(loop.manager.s)) ==>
            loop.onset.Some? && loop.onset.value.bank in {old(loop.board.bus.bank), loop.board.bus.bank})
      && (loop.entry.Some? ==> Shrinks(old(loop.board.bus.bank), loop.board.bus.bank))
      && (old(loop.board.backupPin) && !loop.board.backupPin ==> loop.released && !old(loop.released))
    }

    /** The port is serviced, and a new connection starts on a fresh line. */
    method Connect(port: PortState)
      requires output.Valid() && framer.Valid()
      modifies this`usbWasConnected, output, output.slots, framer
      ensures output.Valid() && framer.Valid() && output.connected == port.connected
      ensures usbWasConnected == port.connected
      ensures |output.queue| <= |old(output.queue)| && output.attempts == old(output.attempts)
      ensures framer.segment == if old(usbWasConnected) == port.connected then old(framer.segment) else ""
    {
      hide UsbOutput.UsbOutput.Valid, Framing.Framer.Valid;
      output.Service(port.connected, port.room, port.takes);
      if usbWasConnected != output.connected {
        usbWasConnected := output.connected;
        framer.Reset();
      }
    }

    /** The port, and then the loop proper, told what the host said since the last. */
    method Advance(input: Input)
      returns (now: uint32, ghost when: Moments, ghost told: Scene, ghost reported: seq<Report>)
      requires Valid() && !loop.released
      modifies this`talk, this`usbWasConnected, loop, loop.manager, loop.board, loop.board.bus, output, output.slots,
               framer
      ensures Valid() && loop.board.bus.Later() && talk == Quiet(old(talk), loop.manager.s) && Guarded()
      ensures Ran(old(loop.Look()), told, loop.Look(), input, HostSaid(old(talk)), when, reported)
      ensures loop.reports == old(loop.reports) + reported
      ensures loop.board.bus.benign ==>
                && now == Ticks(loop.board.bus.now)
                && Looped(old(loop.Look()), told, loop.Look(), input.polled, input.pd, HostSaid(old(talk)), now)
      ensures output.connected == input.port.connected && usbWasConnected == input.port.connected
      ensures |output.queue| <= |old(output.queue)| && output.attempts == old(output.attempts)
      ensures framer.segment == if old(usbWasConnected) == input.port.connected then old(framer.segment) else ""
    {
      hide Loop.Valid, Shrinks, Looped, Loop.Look, Replay.ReplayCache.Valid, UsbOutput.UsbOutput.Valid,
           Framing.Framer.Valid, Quiet, InShutdown, Ran;
      now := loop.Millis();
      Connect(input.port);
      when, told, reported := Proceed(input);
    }

    method Proceed(input: Input) returns (ghost when: Moments, ghost told: Scene, ghost reported: seq<Report>)
      requires loop.Valid() && !loop.released
      modifies this`talk, loop, loop.manager, loop.board, loop.board.bus
      ensures loop.Valid() && loop.board.bus.Later() && talk == Quiet(old(talk), loop.manager.s) && Guarded()
      ensures Ran(old(loop.Look()), told, loop.Look(), input, HostSaid(old(talk)), when, reported)
      ensures loop.reports == old(loop.reports) + reported
      ensures loop.board.bus.benign ==>
                Looped(old(loop.Look()), told, loop.Look(), input.polled, input.pd, HostSaid(old(talk)),
                       Ticks(loop.board.bus.now))
    {
      hide Loop.Valid, Shrinks, Looped, TickedOnce, Tidied, Lost, Board.BoardHardware.Look;
      var heard := Heard(talk.ack, talk.ready, talk.pong);
      talk := talk.(ack := false, ready := false, pong := false);
      when, told := loop.Iterate(input.polled, input.pd, heard);
      reported := loop.New(old(loop.reports));
      if InShutdown(loop.manager.s) && talk.shutdownId == 0 {
        talk := talk.(shutdownId := 1);
      }
    }

    /** After the loop: a ping that is due, the loop's own frames, and the host's bytes. */
    method Attend(input: Input, now: uint32, ghost before: Setting, ghost when: Moments, ghost told: Scene,
                  ghost reported: seq<Report>)
        returns (ghost turn: Turn)
      requires Valid() && (loop.board.bus.benign ==> now == Ticks(loop.board.bus.now))
      requires output.connected == input.port.connected && !loop.released
      modifies this`talk, this`responses, this`handled, loop`ping, loop`ext, loop`watch, loop`onset, loop.manager,
               loop.board`job, loop.board`times, loop.board.bus`now, replay, replay.entries, output, output.slots,
               framer, framer.data
      ensures Valid() && loop.board.bus.Later() && output.connected == old(output.connected)
      ensures handled == old(handled) + turn.handled && framer.segment == turn.rest
      ensures turn.input == input && turn.before == before && turn.after == Set() && turn.segment == old(framer.segment)
      ensures turn.told == told && turn.when == when && turn.looped == old(loop.Look()) && turn.reported == reported
      ensures turn.mid == old(Set()).(scene := turn.mid.scene)
      ensures turn.mid.scene == old(loop.Look()).(ping := turn.mid.scene.ping)
      ensures turn.queued <= |old(output.queue)| + |input.frames|
      ensures |output.queue| <= turn.queued + 2 * |turn.handled| + (if input.telemetry then 1 else 0)
      ensures output.attempts == old(output.attempts) + Offered(turn)
      ensures Spoken(turn, bootId)
      ensures loop.board.bus.benign ==>
                && turn.mid.scene == Pinged(old(loop.Look()), old(talk).shutdownId != 0, now)
                && turn.began == turn.ended == loop.board.bus.now
      ensures Deaf()
    {
      hide Replay.ReplayCache.Valid, UsbOutput.UsbOutput.Valid, Framing.Framer.Valid, Loop.Valid, Loop.Look,
           Conversation,
           Server.Recorded, Framing.Lines, Framing.Partial, Asking;
      ghost var looped, segment := loop.Look(), framer.segment;
      loop.Shown();
      loop.KeepAlive(now, talk.shutdownId != 0);
      Announce(input.frames);
      ghost var mid, queued, began := Set(), |output.queue|, loop.board.bus.now;
      var n;
      ghost var hs;
      n, hs := Receive(input.bytes, input.offered);
      if input.telemetry {
        Telemetry();
      }
      turn := Turn(input, before, when, told, looped, reported, mid, Set(), began, loop.board.bus.now, segment,
                   framer.segment, n, queued, hs);
    }
  }

  // ---- What every round keeps ----

  /** A port operation on the Jetson's own output only ever enables it. */
  predicate Reserved(c: Scene) {
    c.board.job.operation == PortChange && c.board.job.port == VbusSs ==> c.board.job.portEnabled
  }

  /** What is said by the host leaves alone: the clean-up, the registers, and in a
      shutdown everything. */
  predicate Heeds(a: Scene, b: Scene) {
    && b.clean == a.clean && b.board.bank == a.board.bank && b.act == a.act && b.released == a.released
    && (InShutdown(a.s) ==> b == a) && (Reserved(a) ==> Reserved(b))
    && (b.board.job != a.board.job ==> b.board.job.operation == PortChange && b.board.job.port != VbusSs)
    && (a.ext.request != 0 ==> b.ext == a.ext)
  }

  lemma LineHeeds(h: Handling, bootId: string)
    requires Answered(h, bootId)
    ensures Heeds(h.before.scene, h.after.scene)
  {
    hide Answered, Understanding, MainIn, BudgetIn;
    if h.after != h.before.(log := h.after.log) {
      EffectsExact(h, bootId);
      if InShutdown(h.before.scene.s) {
        ShutdownDeaf(h, bootId);
      }
    }
  }

  lemma {:induction false} ConversationHeeds(hs: seq<Handling>, lines: seq<string>, c: Setting, d: Setting,
                                             bootId: string, offered: set<uint32>)
    requires Conversation(hs, lines, c, d, bootId, offered)
    ensures Heeds(c.scene, d.scene)
  {
    hide Answered, Offers, Heeds;
    if hs == [] {
      SameHeeds(c.scene);
    } else {
      var n := |hs| - 1;
      ConversationHeeds(hs[..n], lines[..n], c, hs[n].before, bootId, offered);
      LineHeeds(hs[n], bootId);
      HeedsTransitive(c.scene, hs[n].before.scene, d.scene);
    }
  }

  lemma SameHeeds(a: Scene)
    ensures Heeds(a, a)
  {
  }

  lemma HeedsTransitive(a: Scene, b: Scene, c: Scene)
    requires Heeds(a, b) && Heeds(b, c)
    ensures Heeds(a, c)
  {
  }

  /** The loop was told in the wait of a shutdown that main is lost. */
  predicate HeardLoss(t: Turn) {
    && !t.before.scene.released && t.looped.s.phase == ShutdownWait
    && Lost(t.before.scene, t.input.polled, t.input.pd, HostSaid(t.before.talk), t.when)
  }

  /** One round, and whether it heard of a loss: the Jetson's output is only ever
      enabled, and only by the policy's EnableJetson; unbacked outputs become due to go
      exactly by a loss of main in the wait, and until they are, a shutdown that was
      taken up moves no output. */
  predicate RoundKept(a: Scene, told: Scene, b: Scene, loss: bool) {
    && (Reserved(a) ==> Reserved(b))
    && (OnJetson(b.board.job) && !OnJetson(a.board.job) ==> told.s.pending.kind == EnableJetson)
    && b.clean.shed == (a.clean.shed || loss) && (a.clean.stage > 0 ==> b.clean.stage > 0)
    && (InShutdown(a.s) ==> InShutdown(b.s))
    && (InShutdown(a.s) && a.clean.stage > 0 && b.s.phase == ShutdownWait && !b.clean.shed ==>
          b.board.bank.external == a.board.bank.external)
  }

  predicate OnJetson(job: Board.Job) { job.operation == PortChange && job.port == VbusSs }

  lemma SameKept(a: Scene, told: Scene)
    ensures RoundKept(a, told, a, false)
  {
  }

  lemma LoopKept(a: Scene, told: Scene, b: Scene, c: Scene, lost: bool)
    requires Tidied(a, told, b, lost) && c == b.(ping := c.ping) && (InShutdown(a.s) ==> InShutdown(b.s))
    ensures RoundKept(a, told, c, lost && b.s.phase == ShutdownWait)
  {
  }

  lemma HeededKept(a: Scene, told: Scene, b: Scene, c: Scene, loss: bool)
    requires RoundKept(a, told, b, loss) && Heeds(b, c)
    ensures RoundKept(a, told, c, loss)
  {
  }

  lemma RoundKeeps(t: Turn, bootId: string)
    requires Taken(t, bootId)
    ensures RoundKept(t.before.scene, t.told, t.after.scene, HeardLoss(t))
  {
    hide Lost, TickedOnce, Tidied, RoundKept, Heeds, Reserved, Conversation;
    if t.before.scene.released {
      SameKept(t.before.scene, t.told);
    } else {
      LoopKept(t.before.scene, t.told, t.looped, t.mid.scene,
               Lost(t.before.scene, t.input.polled, t.input.pd, HostSaid(t.before.talk), t.when));
      if t.looped.released {
        SameHeeds(t.mid.scene);
      } else {
        ConversationHeeds(t.handled, Asking(Framing.Lines(t.segment + t.input.bytes[..t.n])), t.mid, t.after, bootId,
                          t.input.offered);
      }
      HeededKept(t.before.scene, t.told, t.mid.scene, t.after.scene, HeardLoss(t));
    }
  }

  // ---- Runs ----

  /** The Jetson's output is never switched off by a port operation in any run. */
  lemma {:induction false} JetsonKept(turns: seq<Turn>, inputs: seq<Input>, bootId: string, benign: bool, i: nat)
    requires Rounds(turns, inputs, bootId, benign) && i < |turns| && Reserved(turns[0].before.scene)
    ensures Reserved(turns[i].after.scene)
    ensures OnJetson(turns[i].after.scene.board.job) && !OnJetson(turns[i].before.scene.board.job) ==>
              turns[i].told.s.pending.kind == EnableJetson
    decreases i
  {
    hide Taken, Reserved;
    RoundKeeps(turns[i], bootId);
    if i > 0 {
      JetsonKept(turns, inputs, bootId, benign, i - 1);
    }
  }

  /** Unbacked outputs are due to go only after a round heard in a shutdown's wait that
      main is lost. */
  lemma {:induction false} ShedByLoss(turns: seq<Turn>, inputs: seq<Input>, bootId: string, benign: bool, i: nat)
    requires Rounds(turns, inputs, bootId, benign) && i < |turns| && !turns[0].before.scene.clean.shed
    ensures turns[i].after.scene.clean.shed <==> exists k :: 0 <= k <= i && HeardLoss(turns[k])
    decreases i
  {
    hide Taken, HeardLoss;
    RoundKeeps(turns[i], bootId);
    if i > 0 {
      ShedByLoss(turns, inputs, bootId, benign, i - 1);
    }
  }

  /** In a shutdown that was taken up every output stays as it is, reboots on present
      main included, through all rounds that hear of no loss of main. */
  lemma {:induction false} OutputsSpared(turns: seq<Turn>, inputs: seq<Input>, bootId: string, benign: bool, i: nat,
                                         j: nat)
    requires Rounds(turns, inputs, bootId, benign) && i <= j < |turns|
    requires InShutdown(turns[i].after.scene.s) && turns[i].after.scene.clean.stage > 0
    requires !turns[i].after.scene.clean.shed
    requires forall k | i < k <= j :: !HeardLoss(turns[k]) && turns[k].after.scene.s.phase == ShutdownWait
    ensures var c, d := turns[i].after.scene, turns[j].after.scene;
            && d.board.bank.external == c.board.bank.external && !d.clean.shed && d.clean.stage > 0 && InShutdown(d.s)
            && forall port: Port :: OutputOn(d.board.bank, port) == OutputOn(c.board.bank, port)
    decreases j
  {
    hide Taken, HeardLoss, Reserved, InShutdown;
    if i < j {
      OutputsSpared(turns, inputs, bootId, benign, i, j - 1);
      RoundKeeps(turns[j], bootId);
    }
  }

  /** Every report of a round is on the port request that was open before it, and a
      success is one that the registers bore out. */
  lemma ReportFounded(t: Turn, bootId: string)
    requires Taken(t, bootId)
    ensures var due := t.before.scene.ext;
            if t.reported == [] then due.request != 0 ==> t.after.scene.ext == due
            else && due.request != 0 && |t.reported| == 1
                 && t.reported[0] == Report(due.request, due.port, due.enabled, t.reported[0].ok)
                 && BorneOut(t.reported[0], t.before.scene.board.bank)
  {
    hide TickedOnce, Tidied, Conversation, BorneOut, Justified, TickedAt, Preempting, Lost;
    if !t.before.scene.released && !t.looped.released {
      ConversationHeeds(t.handled, Asking(Framing.Lines(t.segment + t.input.bytes[..t.n])), t.mid, t.after, bootId,
                        t.input.offered);
    }
  }

  /** A port request that is open stays open, unchanged, through all rounds that report
      on none; the first report is on it, once, and true of the registers. */
  lemma {:induction false} OpenUntilReported(turns: seq<Turn>, inputs: seq<Input>, bootId: string, benign: bool, i: nat,
                                             j: nat)
    requires Rounds(turns, inputs, bootId, benign) && i <= j < |turns|
    requires turns[i].after.scene.ext.request != 0 && forall k | i < k < j :: turns[k].reported == []
    ensures var due := turns[i].after.scene.ext;
            && (i < j && turns[j].reported != [] ==>
                  && turns[j].reported == [Report(due.request, due.port, due.enabled, turns[j].reported[0].ok)]
                  && BorneOut(turns[j].reported[0], turns[j].before.scene.board.bank))
            && (i == j || turns[j].reported == [] ==> turns[j].after.scene.ext == due)
    decreases j
  {
    hide Taken, BorneOut;
    if i < j {
      OpenUntilReported(turns, inputs, bootId, benign, i, j - 1);
      ReportFounded(turns[j], bootId);
    }
  }

  /** Consecutive rounds: each starts where the last one ended, with its unfinished
      line or a fresh one; on a benign bus each is exactly one loop at one instant. */
  ghost predicate Rounds(turns: seq<Turn>, inputs: seq<Input>, bootId: string, benign: bool) {
    && |turns| == |inputs|
    && (forall i | 0 <= i < |turns| :: turns[i].input == inputs[i] && Taken(turns[i], bootId))
    && (forall i | 0 < i < |turns| ::
          turns[i].before == turns[i - 1].after && (turns[i].segment == "" || turns[i].segment == turns[i - 1].rest))
    && (benign ==>
          && (forall i | 0 <= i < |turns| && !turns[i].before.scene.released ::
                Rounded(turns[i], Ticks(turns[i].ended)))
          && (forall i | 0 < i < |turns| :: turns[i].ended == turns[i - 1].ended + inputs[i].pause))
  }

  lemma NoRounds(bootId: string, benign: bool)
    ensures Rounds([], [], bootId, benign)
  {
  }

  lemma RoundsSnoc(turns: seq<Turn>, inputs: seq<Input>, turn: Turn, bootId: string, benign: bool)
    requires Rounds(turns, inputs, bootId, benign) && Taken(turn, bootId)
    requires turns != [] ==> turn.before == turns[|turns| - 1].after
                             && (turn.segment == "" || turn.segment == turns[|turns| - 1].rest)
                             && (benign ==> turn.ended == turns[|turns| - 1].ended + turn.input.pause)
    requires benign && !turn.before.scene.released ==> Rounded(turn, Ticks(turn.ended))
    ensures Rounds(turns + [turn], inputs + [turn.input], bootId, benign)
  {
    hide Taken, Rounded;
  }

  /** Every run of the firmware, from any retained registers, for any polls and any
      bytes from the host over any connections, any transfer outcomes and any delays.
      Every round answers the lines it completes; the driven set only shrinks from
      the moment a shutdown begins, unless its first tick comes 5 to 60 s late to an
      operation that can still raise an enable; while no loss of main is heard of, a
      shutdown moves no output until power is cut; the Jetson's output is never
      switched off by a port operation; and the backup is released in time. */
  method AnyRun(retained: Bank, at: nat, benign: bool, monitor: bool, inputs: seq<Input>, bootId: string, gap: nat)
      returns (server: Server, ghost turns: seq<Turn>)
    requires gap < WRAP / 16
    ensures server.Valid() && server.loop.gap == gap && Rounds(turns, inputs, bootId, benign)
    ensures var loop := server.loop;
            && (InShutdown(loop.manager.s) <==> loop.onset.Some?)
            && (loop.onset.Some? && !(Late(loop.watch) && loop.onset.value.armed) ==>
                  Shrinks(loop.onset.value.bank, loop.board.bus.bank))
            && (loop.released ==> !loop.board.backupPin && InTime(loop.watch, gap))
            && (loop.onset.Some? && loop.watch.paced && OutOfTime(loop.watch, gap) ==> loop.released)
            && (loop.manager.s.phase == ShutdownWait && !Late(loop.watch)
                && (forall i | 0 <= i < |turns| :: !HeardLoss(turns[i])) ==>
                  loop.board.bus.bank.external == loop.onset.value.bank.external)
    ensures forall i | 0 <= i < |turns| :: Reserved(turns[i].after.scene)
    ensures Sequenced(retained, server.loop.board.bus.trace)
    ensures turns != [] ==>
              && turns[0].before.scene.s == Begin(0, 0) && turns[0].before.scene.board.bank == retained
              && turns[0].before.log == [] && turns[|turns| - 1].after == server.Set()
  {
    hide Loop.Valid, Server.Valid, Rounds, Late, Sequenced, Shrinks, HeardLoss;
    server := PowerUp(retained, at, benign, monitor, bootId, gap);
    turns := RunRounds(server, inputs);
    server.ServerStands();
    server.loop.RunStands();
    RunKept(turns, inputs, bootId, benign);
  }

  lemma RunKept(turns: seq<Turn>, inputs: seq<Input>, bootId: string, benign: bool)
    requires Rounds(turns, inputs, bootId, benign)
    requires turns != [] ==> Reserved(turns[0].before.scene) && !turns[0].before.scene.clean.shed
    ensures forall i | 0 <= i < |turns| :: Reserved(turns[i].after.scene)
    ensures turns != [] && (forall i | 0 <= i < |turns| :: !HeardLoss(turns[i])) ==>
              !turns[|turns| - 1].after.scene.clean.shed
  {
    hide Rounds, Reserved, HeardLoss;
    forall i | 0 <= i < |turns|
      ensures Reserved(turns[i].after.scene)
    {
      JetsonKept(turns, inputs, bootId, benign, i);
    }
    if turns != [] {
      ShedByLoss(turns, inputs, bootId, benign, |turns| - 1);
    }
  }

  /** The board and everything around it at power-up. */
  method PowerUp(retained: Bank, at: nat, benign: bool, monitor: bool, bootId: string, gap: nat)
      returns (server: Server)
    requires gap < WRAP / 16
    ensures server.Valid() && server.bootId == bootId && server.loop.gap == gap && server.handled == []
    ensures fresh(server) && fresh(server.loop) && fresh(server.loop.manager) && fresh(server.loop.board)
    ensures fresh(server.loop.board.bus) && fresh(server.replay) && fresh(server.replay.entries)
    ensures fresh(server.output) && fresh(server.output.slots) && fresh(server.framer) && fresh(server.framer.data)
    ensures var bus := server.loop.board.bus;
            bus.start == retained && bus.bank == retained && bus.now == at && bus.benign == benign
    ensures server.Set() == Setting(PoweredUp(server.loop.board.Look()), Talk(0, false, false, false), [])
    ensures Unconfigured(server.loop.board.Look(), retained) && (benign && monitor ==> server.loop.board.monitoring)
    ensures !server.output.connected && !server.usbWasConnected && server.output.queue == []
    ensures server.framer.segment == ""
  {
    hide Replay.ReplayCache.Valid, UsbOutput.UsbOutput.Valid, Framing.Framer.Valid, Loop.Valid,
         Board.BoardHardware.Valid;
    var bus := new Bus(retained, at, benign);
    var board := new Board.BoardHardware(bus);
    if monitor {
      var ok := board.BeginMonitoring();
    }
    var loop := new Loop(board, gap);
    server := new Server(loop, bootId);
  }

  /** The loop before its first round. */
  function PoweredUp(board: Board.View): Scene {
    Scene(Begin(0, 0), Active(0, 0, 0), Cleanup(0, false, false, 0), PortRequest(0, Vbus, false), Ping(0, 0),
          false,
          false, board)
  }

  /** The board over whatever its registers retained, before any operation. */
  predicate Unconfigured(v: Board.View, retained: Bank) {
    v.bank == retained && v.job.result == Board.Result.Idle && v.job.operation == NoOperation && !v.reconciled
    && !v.backup
  }

  method RunRounds(server: Server, inputs: seq<Input>) returns (ghost turns: seq<Turn>)
    requires server.Valid()
    modifies server, server.loop, server.loop.manager, server.loop.board, server.loop.board.bus, server.replay,
             server.replay.entries, server.output, server.output.slots, server.framer, server.framer.data
    ensures server.Valid() && Rounds(turns, inputs, server.bootId, server.loop.board.bus.benign)
    ensures if turns == [] then server.Set() == old(server.Set())
            else turns[0].before == old(server.Set()) && turns[|turns| - 1].after == server.Set()
  {
    hide Server.Valid, Taken, Rounds, Server.Set, Rounded;
    NoRounds(server.bootId, server.loop.board.bus.benign);
    turns := [];
    for i := 0 to |inputs|
      invariant server.Valid() && |turns| == i
      invariant Rounds(turns, inputs[..i], server.bootId, server.loop.board.bus.benign)
      invariant if i == 0 then server.Set() == old(server.Set())
                else turns[0].before == old(server.Set()) && Ends(turns[i - 1], server)
    {
      ghost var turn := server.Round(inputs[i]);
      RoundsSnoc(turns, inputs[..i], turn, server.bootId, server.loop.board.bus.benign);
      assert inputs[..i + 1] == inputs[..i] + [inputs[i]];
      turns := turns + [turn];
    }
    assert inputs[..|inputs|] == inputs;
  }

  ghost predicate Ends(turn: Turn, server: Server)
    reads server, server.loop, server.loop.manager, server.loop.board, server.loop.board.bus, server.replay,
          server.framer
  {
    && turn.after == server.Set() && turn.rest == server.framer.segment
    && (server.loop.board.bus.benign ==> turn.ended == server.loop.board.bus.now)
  }

  // ---- Small facts ----

  lemma StartOfStream(segment: string, c: Setting, bootId: string, offered: set<uint32>)
    requires Framing.FreeOfLF(segment)
    ensures Framing.Partial(segment) == segment && Asking(Framing.Lines(segment)) == []
    ensures Conversation([], Asking(Framing.Lines(segment)), c, c, bootId, offered)
  {
    Framing.FeedFree("", segment);
    assert "" + segment == segment;
  }

  /** A parsed request is one the grammar allows. */
  lemma Understood(line: string, r: Grammar.Request)
    requires Protocol.Parse(line) == Protocol.Ok(r)
    ensures Grammar.Sensible(r)
  {
    Protocol.ParseExact(line, r);
    hide Protocol.Parse;
  }

  /** The lines that ask for an answer: all but blank separators. */
  function Asking(lines: seq<string>): seq<string> {
    if lines == [] then []
    else Asking(lines[..|lines| - 1]) + if lines[|lines| - 1] == "" then [] else [lines[|lines| - 1]]
  }

  lemma AskingSnoc(lines: seq<string>, line: string)
    ensures Asking(lines + [line]) == Asking(lines) + if line == "" then [] else [line]
  {
    assert (lines + [line])[..|lines|] == lines;
  }

  /** What one more byte of the stream adds. */
  lemma NextByte(stream: string, input: string, n: nat)
    requires n < |input|
    ensures var front, all := stream + input[..n], stream + input[..n + 1];
            && Framing.Partial(all) == (if input[n] == Framing.LF then "" else Framing.Partial(front) + [input[n]])
            && Asking(Framing.Lines(all)) == Asking(Framing.Lines(front))
               + if input[n] == Framing.LF && Framing.Partial(front) != "" then [Framing.Partial(front)] else []
  {
    var front := stream + input[..n];
    assert stream + input[..n + 1] == front + [input[n]];
    Framing.LinesSnoc(front, input[n]);
    AskingSnoc(Framing.Lines(front), Framing.Partial(front));
  }

  /** A segment that is no line is answered as bad JSON. */
  lemma Garbled(h: Handling, bootId: string, offered: set<uint32>)
    requires !Framing.Classify(h.line).Line? && h.after == h.before && h.response == Response(0, false, "BAD_JSON")
    ensures Answered(h, bootId) && Offers(h, offered)
  {
  }

  /** One line on a fresh stream, up to its line feed and with it. */
  lemma LineSent(line: string)
    requires Framing.FreeOfLF(line) && line != ""
    ensures Asking(Framing.Lines(line + [Framing.LF])) == [line] && Framing.Partial(line + [Framing.LF]) == ""
    ensures forall n | 0 <= n <= |line| :: Framing.Lines((line + [Framing.LF])[..n]) == []
  {
    hide Framing.Lines, Framing.Partial, Asking;
    EmptyStream();
    forall n | 0 <= n <= |line|
      ensures Framing.Lines((line + [Framing.LF])[..n]) == []
    {
      assert (line + [Framing.LF])[..n] == line[..n] == "" + line[..n];
      Framing.FeedFree("", line[..n]);
    }
    Framing.FeedFree("", line);
    assert "" + line == line;
    Framing.LinesSnoc(line, Framing.LF);
    AskingSnoc([], line);
    assert [] + [line] == [line];
  }

  lemma EmptyStream()
    ensures Framing.Lines("") == [] && Framing.Partial("") == "" && Asking([]) == []
  {
  }

  /** A printed request, sent with a line feed, is one line that asks exactly it. */
  lemma PrintedAsked(r: Grammar.Request)
    requires Grammar.Sensible(r)
    ensures Understanding(Printer.Print(r)) == Protocol.Ok(r)
    ensures Asking(Framing.Lines(Printer.Print(r) + [Framing.LF])) == [Printer.Print(r)]
    ensures Framing.Partial(Printer.Print(r) + [Framing.LF]) == ""
    ensures forall n | 0 <= n <= |Printer.Print(r)| :: Framing.Lines((Printer.Print(r) + [Framing.LF])[..n]) == []
  {
    hide Printer.Print, Protocol.Parse, Grammar.Sensible, Framing.Lines, Framing.Partial, Asking;
    Printer.PrintPlain(r);
    Printer.PrintParses(r);
    LineSent(Printer.Print(r));
  }

  lemma SegmentBlank(line: string)
    ensures Framing.Classify(line).Line? ==> Framing.Classify(line) == Framing.Line(line) && Protocol.Terminated(line)
    ensures line == "" ==> Framing.Classify(line).Line?
  {
  }

  lemma NonZero(r: Grammar.Request)
    requires Grammar.Sensible(r)
    ensures r.id != 0
  {
  }
}
