/** The output queue towards the host: whole frames through a port that may take
    any part of what it is offered, and may vanish at any time. */
module UsbOutput {
  import opened Clock
  import Framing

  const SLOTS: nat := 6
  const TELEMETRY_SLOTS: nat := 2
  const CHUNK: nat := 256
  const LF: string := "\n"

  datatype Slot = Slot(data: string, at: nat)

  function At(head: nat, i: nat): nat { (head + i) % SLOTS }

  lemma AtDistinct(head: nat, i: nat, j: nat)
    requires i < j < i + SLOTS
    ensures At(head, i) != At(head, j)
  {
  }

  lemma AtNext(head: nat, i: nat)
    requires head < SLOTS
    ensures At((head + 1) % SLOTS, i) == At(head, i + 1)
  {
  }

  class UsbOutput {
    const slots: array<Slot>
    var head: nat
    var count: nat
    var dropped: uint32
    var telemetryDropped: uint32
    var connected: bool
    var separator: bool

    // The present session:
    ghost var queue: seq<Slot>         // the queue, first out first
    ghost var finished: seq<string>    // the frames sent completely
    ghost var sent: string             // every byte that went out
    // All sessions:
    ghost var attempts: nat
    ghost var completed: nat
    ghost var lost: nat
    ghost var lostTelemetry: nat

    ghost predicate Ring()
      reads this, slots
    {
      && slots.Length == SLOTS && head < SLOTS && count <= SLOTS && count == |queue|
      && forall i | 0 <= i < count :: slots[At(head, i)] == queue[i]
    }

    /** Only the first frame may be partly sent. */
    ghost predicate Whole()
      reads this
    {
      && (forall i | 0 < i < |queue| :: queue[i].at == 0)
      && (queue != [] ==> queue[0].at <= |queue[0].data|)
    }

    /** Sent in this session: a line feed, whole frames in the order they were
        accepted, and a prefix of the next. */
    ghost predicate Framed()
      reads this
    {
      if separator then sent == "" && finished == [] && (queue != [] ==> queue[0].at == 0)
      else sent == LF + (Framing.Concat(finished) + Begun(queue))
    }

    /** Every attempt is accounted for. */
    ghost predicate Accounted()
      reads this
    {
      && attempts == completed + |queue| + lost && dropped == lost % WRAP
      && telemetryDropped == lostTelemetry % WRAP
    }

    ghost predicate Valid()
      reads this, slots
    {
      Ring() && Whole() && Framed() && Accounted() && (!connected ==> count == 0 && separator)
    }

    constructor ()
      ensures Valid() && !connected && attempts == 0 && lostTelemetry == 0 && queue == [] && fresh(slots)
    {
      slots := new Slot[SLOTS](_ => Slot("", 0));
      head, count, dropped, telemetryDropped, connected, separator := 0, 0, 0, 0, false, true;
      queue, finished, sent, attempts, completed, lost, lostTelemetry := [], [], "", 0, 0, 0, 0;
    }

    predicate RoomForReply()
      reads this
    {
      connected && count <= SLOTS - 2
    }

    lemma Counted()
      requires Valid()
      ensures count == |queue|
    {
    }

    /** Takes a whole frame or drops it whole; telemetry may fill two slots only. */
    method Enqueue(ok: bool, message: string, telemetry: bool) returns (taken: bool)
      requires Valid()
      modifies this, slots
      ensures Valid() && connected == old(connected) && sent == old(sent) && finished == old(finished)
      ensures taken == (ok && connected && old(count) < if telemetry then 2 else 6)
      ensures queue == (if taken then old(queue) + [Slot(message, 0)] else old(queue))
      ensures attempts == old(attempts) + 1 && completed == old(completed)
      ensures lost == old(lost) + if taken then 0 else 1
      ensures lostTelemetry == old(lostTelemetry) + if telemetry && !taken then 1 else 0
      ensures old(RoomForReply()) && ok && !telemetry ==> taken
    {
      hide Framing.Concat, At;
      attempts := attempts + 1;
      taken := ok && connected && count < if telemetry then TELEMETRY_SLOTS else SLOTS;
      if taken {
        Push(Slot(message, 0));
      } else {
        Drop(1);
        if telemetry {
          DropWraps(lostTelemetry, 1);
          telemetryDropped, lostTelemetry := (telemetryDropped + 1) % WRAP, lostTelemetry + 1;
        }
      }
    }

    method Drop(n: nat)
      requires dropped == lost % WRAP
      modifies this`dropped, this`lost
      ensures dropped == lost % WRAP && lost == old(lost) + n
    {
      DropWraps(lost, n);
      dropped := (dropped + n) % WRAP;
      lost := lost + n;
    }

    /** The connection went away: what is queued is lost, whole or in part. */
    method Disconnect()
      requires Valid()
      modifies this
      ensures Valid() && !connected && queue == [] && finished == [] && sent == ""
      ensures attempts == old(attempts) && completed == old(completed) && lost == old(lost) + old(|queue|)
      ensures lostTelemetry == old(lostTelemetry)
    {
      if connected {
        Drop(count);
        count, head := 0, 0;
      }
      queue, finished, sent := [], [], "";
      connected, separator := false, true;
    }

    /** What the port took of the first frame. */
    method Advance(taken: nat)
      requires Valid() && connected && !separator && count > 0 && taken <= |queue[0].data| - queue[0].at
      modifies this, slots
      ensures Valid() && connected && Accepted() == old(Accepted()) && |queue| <= |old(queue)|
      ensures sent == old(sent) + old(queue[0].data[queue[0].at..queue[0].at + taken])
      ensures attempts == old(attempts) && lost == old(lost) && lostTelemetry == old(lostTelemetry) && !separator
      ensures queue == Taken(old(queue), taken)
    {
      assert At(head, 0) == head;
      hide Framing.Concat, Datas, At, Begun;
      var slot := slots[head];
      AdvanceBytes(finished, queue, taken);
      sent := sent + slot.data[slot.at..slot.at + taken];
      slot := slot.(at := slot.at + taken);
      Store(slot);
      if slot.at == |slot.data| {
        Finish();
      }
    }

    method Store(slot: Slot)
      requires Ring() && count > 0 && slot.data == queue[0].data
      modifies this`queue, slots
      ensures Ring() && queue == old(queue)[0 := slot] && Datas(queue) == old(Datas(queue))
    {
      forall i | 0 < i < count
        ensures At(head, i) != At(head, 0)
      {
        AtDistinct(head, 0, i);
      }
      assert At(head, 0) == head;
      slots[head] := slot;
      queue := queue[0 := slot];
    }

    /** The first frame is out: the next one moves up. */
    method Finish()
      requires Valid() && connected && !separator && count > 0 && queue[0].at == |queue[0].data|
      modifies this`head, this`count, this`queue, this`finished, this`completed
      ensures Valid() && Accepted() == old(Accepted()) && queue == old(queue)[1..]
    {
      hide Framing.Concat, Begun, Datas, At;
      FinishMoves(finished, queue);
      finished := finished + [queue[0].data];
      completed := completed + 1;
      Pop();
    }

    method Push(slot: Slot)
      requires Ring() && count < SLOTS
      modifies this`count, this`queue, slots
      ensures Ring() && queue == old(queue) + [slot]
    {
      forall i | 0 <= i < count
        ensures At(head, i) != At(head, count)
      {
        AtDistinct(head, i, count);
      }
      slots[At(head, count)] := slot;
      queue := queue + [slot];
      count := count + 1;
    }

    method Pop()
      requires Ring() && count > 0
      modifies this`head, this`count, this`queue
      ensures Ring() && queue == old(queue[1..])
    {
      queue := queue[1..];
      head, count := (head + 1) % SLOTS, count - 1;
      assert forall i | 0 <= i < count :: slots[At(head, i)] == queue[i] by {
        forall i | 0 <= i < count
          ensures slots[At(head, i)] == queue[i]
        {
          AtNext(old(head), i);
        }
      }
    }

    /** Nothing is left to send. */
    ghost predicate Empty()
      reads this
    {
      queue == [] && !separator
    }

    /** What a service() call offers a connected port with room for `available` bytes:
        the session's line feed first, then the next bytes of the first frame. */
    ghost function Offered(available: int): string
      reads this
    {
      if separator then LF
      else if queue == [] || available <= 0 || queue[0].at > |queue[0].data| then ""
      else queue[0].data[queue[0].at..queue[0].at + Least(|queue[0].data| - queue[0].at, available)]
    }

    /** One service() call on a port that is connected or not, has room for `available`
        bytes, and takes at most `takes` of those it is offered. */
    method Service(portConnected: bool, available: int, takes: nat)
      requires Valid()
      modifies this, slots
      ensures Valid() && connected == portConnected && attempts == old(attempts) && lostTelemetry == old(lostTelemetry)
      ensures |queue| <= |old(queue)| && (!portConnected ==> queue == [])
      ensures portConnected ==> lost == old(lost) && Accepted() == old(Accepted())
      ensures portConnected ==>
                var taken := if takes < |old(Offered(available))| then takes else |old(Offered(available))|;
                && sent == old(sent) + old(Offered(available))[..taken]
                && separator == (old(separator) && taken == 0)
                && queue == if old(separator) || available <= 0 then old(queue) else Taken(old(queue), taken)
      ensures !portConnected ==> lost == old(lost) + old(|queue|)
    {
      hide Framing.Concat, Datas, Begun, At;
      if !portConnected {
        Disconnect();
        return;
      }
      Connect();
      if separator {
        if takes > 0 {
          Open();
        }
      } else if count > 0 && available > 0 {
        SendFirst(available, takes);
      }
    }

    /** A line feed opens the session. */
    method Open()
      requires Valid() && connected && separator
      modifies this`separator, this`sent
      ensures Valid() && !separator && sent == LF && Accepted() == old(Accepted())
    {
      separator, sent := false, LF;
    }

    method Connect()
      requires Valid()
      modifies this`connected
      ensures Valid() && connected
    {
      connected := true;
    }

    /** Some of the first frame goes out. */
    method SendFirst(available: int, takes: nat)
      requires Valid() && connected && !separator && count > 0 && available > 0
      modifies this, slots
      ensures Valid() && connected && Accepted() == old(Accepted()) && !separator
      ensures attempts == old(attempts) && lost == old(lost) && lostTelemetry == old(lostTelemetry)
      ensures var taken := if takes < |old(Offered(available))| then takes else |old(Offered(available))|;
              && sent == old(sent) + old(Offered(available))[..taken] && queue == Taken(old(queue), taken)
    {
      hide Framing.Concat, Datas, Begun;
      assert At(head, 0) == head;
      var n := |slots[head].data| - slots[head].at;
      n := if n > available then available else n;
      n := if n > CHUNK then CHUNK else n;
      Advance(if takes < n then takes else n);
    }

    /** Everything accepted in this session, sent or not, in order. */
    ghost function Accepted(): seq<string>
      reads this
    {
      finished + Datas(queue)
    }
  }

  /** At most 256 bytes, and no more than there are and fit. */
  function Least(rest: nat, available: int): nat {
    if available <= 0 then 0
    else if rest <= available && rest <= CHUNK then rest else if available <= CHUNK then available else CHUNK
  }

  /** The queue after the port took the next bytes of its first frame. */
  function Taken(queue: seq<Slot>, taken: nat): seq<Slot> {
    if queue == [] then []
    else
      var slot := queue[0].(at := queue[0].at + taken);
      if slot.at == |slot.data| then queue[1..] else queue[0 := slot]
  }

  /** The calls it takes at most to send the queue, a byte or an empty frame each. */
  function Calls(queue: seq<Slot>): nat {
    if queue == [] then 0
    else (if queue[0].at < |queue[0].data| then |queue[0].data| - queue[0].at else 1) + Calls(queue[1..])
  }

  lemma TakenShortens(queue: seq<Slot>, taken: nat)
    requires queue != [] && queue[0].at + taken <= |queue[0].data|
    requires taken > 0 || queue[0].at == |queue[0].data|
    ensures Calls(Taken(queue, taken)) < Calls(queue)
  {
    var slot := queue[0].(at := queue[0].at + taken);
    if slot.at < |slot.data| {
      assert queue[0 := slot][1..] == queue[1..];
    }
  }

  /** A port that has room and takes something in every call gets everything accepted
      in the session, in order, within one call a byte; nothing is lost. */
  method Drain(output: UsbOutput, calls: seq<(int, nat)>)
    requires output.Valid() && output.connected
    requires forall c | c in calls :: c.0 > 0 && c.1 > 0
    requires |calls| >= Calls(output.queue) + 1
    modifies output, output.slots
    ensures output.Valid() && output.connected && output.queue == [] && output.lost == old(output.lost)
    ensures output.sent == LF + Framing.Concat(old(output.Accepted()))
  {
    hide Framing.Concat;
    for i := 0 to |calls|
      invariant output.Valid() && output.connected && output.lost == old(output.lost)
      invariant output.Accepted() == old(output.Accepted())
      invariant Calls(output.queue) + (if output.separator then 1 else 0) <= |calls| - i || output.Empty()
    {
      if output.queue != [] && !output.separator {
        TakenShortens(output.queue, if calls[i].1 < |output.Offered(calls[i].0)| then calls[i].1
                                    else |output.Offered(calls[i].0)|);
      }
      output.Service(true, calls[i].0, calls[i].1);
    }
    assert output.finished + Datas([]) == output.finished;
  }

  lemma DropWraps(lost: nat, n: nat)
    ensures (lost % WRAP + n) % WRAP == (lost + n) % WRAP
  {
  }

  function Datas(queue: seq<Slot>): seq<string> {
    seq(|queue|, i requires 0 <= i < |queue| => queue[i].data)
  }

  /** The part of the first frame that went out. */
  function Begun(queue: seq<Slot>): string {
    if queue != [] && queue[0].at <= |queue[0].data| then queue[0].data[..queue[0].at] else ""
  }

  lemma ConcatSnoc(frames: seq<string>, last: string)
    ensures Framing.Concat(frames + [last]) == Framing.Concat(frames) + last
  {
    assert (frames + [last])[..|frames|] == frames;
  }

  /** Moving a completely sent frame from the queue to the finished ones changes
      neither the bytes nor the order. */
  lemma FinishMoves(finished: seq<string>, queue: seq<Slot>)
    requires queue != [] && queue[0].at == |queue[0].data| && forall i | 0 < i < |queue| :: queue[i].at == 0
    ensures Framing.Concat(finished + [queue[0].data]) + Begun(queue[1..]) == Framing.Concat(finished) + Begun(queue)
    ensures (finished + [queue[0].data]) + Datas(queue[1..]) == finished + Datas(queue)
  {
    var data := queue[0].data;
    ConcatSnoc(finished, data);
    assert Begun(queue) == data[..|data|] == data;
    assert Begun(queue[1..]) == "";
    assert Datas(queue) == [data] + Datas(queue[1..]);
  }

  /** The bytes taken are the next ones of the first frame. */
  lemma AdvanceBytes(finished: seq<string>, queue: seq<Slot>, taken: nat)
    requires queue != [] && queue[0].at + taken <= |queue[0].data|
    ensures var slot := queue[0];
            LF + (Framing.Concat(finished) + Begun(queue)) + slot.data[slot.at..slot.at + taken]
            == LF + (Framing.Concat(finished) + Begun(queue[0 := slot.(at := slot.at + taken)]))
  {
    hide Framing.Concat;
    var slot := queue[0];
    assert slot.data[..slot.at] + slot.data[slot.at..slot.at + taken] == slot.data[..slot.at + taken];
  }
}
