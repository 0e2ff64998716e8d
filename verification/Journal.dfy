/** The two-slot journal in memory that survives a reset, and the ring of events
    it records. A reset may fall between any two stores of a commit. */
module Journal {
  import opened Options
  import opened Clock
  import Replay

  const MAGIC: uint32 := 0x55425354
  const VERSION: uint32 := 1
  const CAPACITY: nat := 24
  const RECORD_BYTES: uint32 := 392

  /** Kinds are numbered from 1 (boot) to 6 (application line). */
  datatype Event = Event(timeMs: uint32, kind: uint32, value: uint32)

  predicate KnownKind(kind: uint32) { 1 <= kind <= 6 }

  const NO_EVENT: Event := Event(0, 0, 0)

  type Ring = s: seq<Event> | |s| == CAPACITY witness seq(CAPACITY, _ => NO_EVENT)

  datatype Snapshot = Snapshot(
    session: uint32, resetReason: uint32, timeMs: uint32,
    busResets: uint32, rxEvents: uint32, rxBytes: uint32, txEvents: uint32, txBytes: uint32,
    applicationRxBytes: uint32, applicationLines: uint32,
    sofKnown: uint32, sofConnected: uint32, cdcKnown: uint32, cdcConnected: uint32, connectionObservations: uint32,
    availableRx: int, interruptRaw: uint32, interruptEnabled: uint32, interruptStatus: uint32,
    head: uint32, count: uint32, events: Ring)

  datatype Record = Record(
    magic: uint32, version: uint32, bytes: uint32, generation: uint32, checksum: uint32, snapshot: Snapshot)

  // ---- Validity ----

  function EventWords(events: seq<Event>): seq<uint32> {
    if events == [] then [] else [events[0].timeMs, events[0].kind, events[0].value] + EventWords(events[1..])
  }

  function Words(s: Snapshot): seq<uint32> {
    [s.session, s.resetReason, s.timeMs, s.busResets, s.rxEvents, s.rxBytes, s.txEvents, s.txBytes,
     s.applicationRxBytes, s.applicationLines, s.sofKnown, s.sofConnected, s.cdcKnown, s.cdcConnected,
     s.connectionObservations, s.availableRx % WRAP, s.interruptRaw, s.interruptEnabled, s.interruptStatus,
     s.head, s.count] + EventWords(s.events)
  }

  function WordBytes(words: seq<uint32>): seq<Replay.uint8> {
    if words == [] then [] else Replay.Word(words[0]) + WordBytes(words[1..])
  }

  /** The words a checksum covers: the header after the magic number, and the snapshot. */
  function Covered(r: Record): seq<uint32> { [r.version, r.bytes, r.generation] + Words(r.snapshot) }

  /** FNV-1a over their bytes. */
  function Checksum(r: Record): uint32 { Replay.Hash(Replay.OFFSET, WordBytes(Covered(r))) }

  /** The i-th oldest recorded event. */
  function EventAt(s: Snapshot, i: nat): Event
    requires s.head < CAPACITY && i < s.count <= CAPACITY
  {
    s.events[(s.head + CAPACITY - s.count + i) % CAPACITY]
  }

  predicate SnapshotValid(s: Snapshot) {
    && s.head < CAPACITY && s.count <= CAPACITY
    && s.sofKnown <= 1 && s.sofConnected <= 1 && s.cdcKnown <= 1 && s.cdcConnected <= 1 && s.availableRx >= -1
    && forall i | 0 <= i < s.count :: KnownKind(EventAt(s, i).kind)
  }

  predicate Valid(r: Record) {
    && r.magic == MAGIC && r.version == VERSION && r.bytes == RECORD_BYTES
    && r.checksum == Checksum(r) && SnapshotValid(r.snapshot)
  }

  /** What a record must be for a reader to accept it, checked event by event. */
  method CheckValid(r: Record) returns (ok: bool)
    ensures ok == Valid(r)
  {
    var s := r.snapshot;
    if r.magic != MAGIC || r.version != VERSION || r.bytes != RECORD_BYTES || s.head >= CAPACITY || s.count > CAPACITY
       || s.sofKnown > 1 || s.sofConnected > 1 || s.cdcKnown > 1 || s.cdcConnected > 1 || s.availableRx < -1
       || r.checksum != Checksum(r) {
      return false;
    }
    for i := 0 to s.count
      invariant forall j | 0 <= j < i :: KnownKind(EventAt(s, j).kind)
    {
      if !KnownKind(EventAt(s, i).kind) {
        return false;
      }
    }
    ok := true;
  }

  /** The checksum covers neither itself nor the magic number. */
  lemma ChecksumCovers(r: Record, magic: uint32, checksum: uint32)
    ensures Checksum(r.(magic := magic, checksum := checksum)) == Checksum(r)
  {
  }

  /** No field of the header or the snapshot is left out of what is covered. */
  lemma CoveredTellsAll(r: Record, q: Record)
    requires Covered(r) == Covered(q)
    requires -0x8000_0000 <= r.snapshot.availableRx < 0x8000_0000
    requires -0x8000_0000 <= q.snapshot.availableRx < 0x8000_0000
    ensures r.version == q.version && r.bytes == q.bytes && r.generation == q.generation && r.snapshot == q.snapshot
  {
    var v, w := Covered(r), Covered(q);
    assert v[3..] == Words(r.snapshot) && w[3..] == Words(q.snapshot);
    assert v[0] == w[0] && v[1] == w[1] && v[2] == w[2];
    WordsTellAll(r.snapshot, q.snapshot);
  }

  lemma WordsTellAll(s: Snapshot, t: Snapshot)
    requires Words(s) == Words(t)
    requires -0x8000_0000 <= s.availableRx < 0x8000_0000 && -0x8000_0000 <= t.availableRx < 0x8000_0000
    ensures s == t
  {
    var v, w := Words(s), Words(t);
    assert v[21..] == EventWords(s.events) && w[21..] == EventWords(t.events);
    assert forall i | 0 <= i < 21 :: v[i] == w[i];
    EventsTold(s.events, t.events);
    SignedTold(s.availableRx, t.availableRx);
    assert v[15] == s.availableRx % WRAP && w[15] == t.availableRx % WRAP;
  }

  lemma SignedTold(a: int, b: int)
    requires -0x8000_0000 <= a < 0x8000_0000 && -0x8000_0000 <= b < 0x8000_0000 && a % WRAP == b % WRAP
    ensures a == b
  {
  }

  lemma {:induction false} EventsTold(a: seq<Event>, b: seq<Event>)
    requires |a| == |b| && EventWords(a) == EventWords(b)
    ensures a == b
  {
    if a != [] {
      var v, w := EventWords(a), EventWords(b);
      assert v[0] == a[0].timeMs && v[1] == a[0].kind && v[2] == a[0].value;
      assert w[0] == b[0].timeMs && w[1] == b[0].kind && w[2] == b[0].value;
      assert v[3..] == EventWords(a[1..]) && w[3..] == EventWords(b[1..]);
      EventsTold(a[1..], b[1..]);
    }
  }

  lemma {:induction false} WordBytesConcat(a: seq<uint32>, b: seq<uint32>)
    ensures WordBytes(a + b) == WordBytes(a) + WordBytes(b)
  {
    if a == [] {
      assert a + b == b;
    } else {
      assert (a + b)[1..] == a[1..] + b;
      WordBytesConcat(a[1..], b);
    }
  }

  /** The k-th covered word differs in one byte, and the others do not. */
  ghost predicate OneByteOff(v: seq<uint32>, w: seq<uint32>, k: nat) {
    && |v| == |w| && k < |v| && (forall j | 0 <= j < |v| && j != k :: v[j] == w[j])
    && Replay.OneApart(Replay.Word(v[k]), Replay.Word(w[k]))
  }

  lemma ByteDetected(v: seq<uint32>, w: seq<uint32>, k: nat)
    requires OneByteOff(v, w, k)
    ensures Replay.Hash(Replay.OFFSET, WordBytes(v)) != Replay.Hash(Replay.OFFSET, WordBytes(w))
  {
    hide Replay.Hash, Replay.Word, Replay.OneApart;
    SplitBytes(v, k);
    SplitBytes(w, k);
    assert v[..k] == w[..k] && v[k + 1..] == w[k + 1..];
    Replay.PartDetected(WordBytes(v[..k]), Replay.Word(v[k]), Replay.Word(w[k]), WordBytes(v[k + 1..]));
  }

  lemma SplitBytes(v: seq<uint32>, k: nat)
    requires k < |v|
    ensures WordBytes(v) == WordBytes(v[..k]) + (Replay.Word(v[k]) + WordBytes(v[k + 1..]))
  {
    assert v == v[..k] + v[k..] && v[k..][1..] == v[k + 1..];
    WordBytesConcat(v[..k], v[k..]);
  }

  /** One changed byte anywhere in the header or the snapshot makes a valid record
      invalid. */
  lemma DamageFound(r: Record, q: Record, k: nat)
    requires Valid(r) && q.checksum == r.checksum && OneByteOff(Covered(r), Covered(q), k)
    ensures !Valid(q)
  {
    hide SnapshotValid, Covered, WordBytes, Replay.Hash;
    ByteDetected(Covered(r), Covered(q), k);
  }

  lemma RecordValid(r: Record)
    requires r.magic == MAGIC && r.version == VERSION && r.bytes == RECORD_BYTES
    requires r.checksum == Checksum(r) && SnapshotValid(r.snapshot)
    ensures Valid(r)
  {
  }

  // ---- Recovery ----

  datatype Memory = Memory(a: Record, b: Record)

  /** int32_t(newer - older) > 0 */
  predicate Newer(newer: uint32, older: uint32) { 0 < Elapsed(newer, older) < 0x8000_0000 }

  /** The slot a reader takes: the newer of the valid ones, or none (-1). */
  function Latest(m: Memory): int {
    if Valid(m.b) && (!Valid(m.a) || Newer(m.b.generation, m.a.generation)) then 1
    else if Valid(m.a) then 0
    else -1
  }

  function SlotOf(m: Memory, slot: int): Record
    requires slot == 0 || slot == 1
  {
    if slot == 0 then m.a else m.b
  }

  /** What a warm start recovers. */
  function Recovered(m: Memory): Option<Snapshot> {
    if Latest(m) == -1 then None else Some(SlotOf(m, Latest(m)).snapshot)
  }

  function Following(generation: uint32): uint32 { (generation + 1) % WRAP }

  /** Between commits: the current slot holds the newest record, and the other is
      invalid or exactly one generation older. */
  predicate Consistent(m: Memory, current: int, generation: uint32) {
    && -1 <= current <= 1
    && (current == -1 ==> !Valid(m.a) && !Valid(m.b))
    && (current != -1 ==>
          && Valid(SlotOf(m, current)) && SlotOf(m, current).generation == generation
          && (Valid(SlotOf(m, 1 - current)) ==> generation == Following(SlotOf(m, 1 - current).generation)))
  }

  lemma ConsistentLatest(m: Memory, current: int, generation: uint32)
    requires Consistent(m, current, generation)
    ensures Latest(m) == current && Usable(m, current, generation)
  {
    hide Valid;
    NextIsNewer(m.a.generation);
    NextIsNewer(m.b.generation);
  }

  lemma NextIsNewer(generation: uint32)
    ensures Newer(Following(generation), generation) && !Newer(generation, Following(generation))
  {
  }

  /** What a commit may start from: the current slot is the one a reader takes. */
  predicate Usable(m: Memory, current: int, generation: uint32) {
    current == Latest(m) && (current != -1 ==> SlotOf(m, current).generation == generation)
  }

  /** A commit in progress: the slot being written carries no magic number, and
      the current slot is untouched. */
  lemma TornIgnored(m: Memory, torn: Memory, current: int, generation: uint32)
    requires Usable(m, current, generation)
    requires var next := if current == 0 then 1 else 0;
             SlotOf(torn, next).magic != MAGIC && SlotOf(torn, 1 - next) == SlotOf(m, 1 - next)
    ensures Recovered(torn) == Recovered(m) && Latest(torn) == current
  {
    hide Checksum, SnapshotValid;
  }

  /** The last store of a commit switches to the new record at once. */
  lemma CommittedWins(m: Memory, after: Memory, current: int, generation: uint32)
    requires Usable(m, current, generation)
    requires var next := if current == 0 then 1 else 0;
             && Valid(SlotOf(after, next)) && SlotOf(after, next).generation == Following(generation)
             && SlotOf(after, 1 - next) == SlotOf(m, 1 - next)
    ensures var next := if current == 0 then 1 else 0;
            Consistent(after, next, Following(generation)) && Recovered(after) == Some(SlotOf(after, next).snapshot)
  {
    hide Valid;
    var next := if current == 0 then 1 else 0;
    assert Consistent(after, next, Following(generation));
    ConsistentLatest(after, next, Following(generation));
  }

  lemma NoMagicNoRecord(m: Memory)
    requires m.a.magic != MAGIC && m.b.magic != MAGIC
    ensures Latest(m) == -1
  {
  }

  // ---- The event ring ----

  /** The ring holds the last 24 of everything appended. */
  ghost predicate Holds(s: Snapshot, log: seq<Event>) {
    && s.count == Replay.Min(|log|, CAPACITY) && s.head == |log| % CAPACITY
    && forall k | 0 <= k < |log| && |log| - CAPACITY <= k :: s.events[k % CAPACITY] == log[k]
  }

  function Appended(s: Snapshot, e: Event): Snapshot
    requires s.head < CAPACITY
  {
    s.(events := s.events[s.head := e], head := (s.head + 1) % CAPACITY,
       count := if s.count < CAPACITY then s.count + 1 else s.count)
  }

  lemma SlotIndex(n: nat, i: nat)
    requires i < Replay.Min(n, CAPACITY)
    ensures (n % CAPACITY + CAPACITY - Replay.Min(n, CAPACITY) + i) % CAPACITY
            == (n - Replay.Min(n, CAPACITY) + i) % CAPACITY
  {
  }

  /** Reading the ring gives the last min(n, 24) events, oldest first. */
  lemma RingReads(s: Snapshot, log: seq<Event>, i: nat)
    requires Holds(s, log) && i < s.count
    ensures EventAt(s, i) == log[|log| - s.count + i]
  {
    SlotIndex(|log|, i);
  }

  lemma AppendHolds(s: Snapshot, log: seq<Event>, e: Event)
    requires Holds(s, log)
    ensures Holds(Appended(s, e), log + [e])
  {
    var n := |log|;
    assert (n % CAPACITY + 1) % CAPACITY == (n + 1) % CAPACITY;
    forall k | 0 <= k < n && n + 1 - CAPACITY <= k
      ensures k % CAPACITY != n % CAPACITY
    {
      IndexDiffers(n, k);
    }
  }

  lemma IndexDiffers(n: nat, k: nat)
    requires k < n < k + CAPACITY
    ensures k % CAPACITY != n % CAPACITY
  {
  }

  /** A live snapshot that a commit always turns into a valid record. */
  ghost predicate LiveOk(s: Snapshot, log: seq<Event>) {
    && Holds(s, log) && (forall k | 0 <= k < |log| :: KnownKind(log[k].kind))
    && s.sofKnown <= 1 && s.sofConnected <= 1 && s.cdcKnown <= 1 && s.cdcConnected <= 1 && s.availableRx >= -1
  }

  lemma LiveIsValid(s: Snapshot, log: seq<Event>)
    requires LiveOk(s, log)
    ensures SnapshotValid(s)
  {
    forall i | 0 <= i < s.count
      ensures KnownKind(EventAt(s, i).kind)
    {
      RingReads(s, log, i);
    }
  }

  /** Nothing was counted or observed in this session yet. */
  predicate Uncounted(s: Snapshot) {
    && s.busResets == s.rxEvents == s.rxBytes == s.txEvents == s.txBytes == 0
    && s.applicationRxBytes == s.applicationLines == s.connectionObservations == 0
    && s.sofKnown == s.sofConnected == s.cdcKnown == s.cdcConnected == 0
    && s.availableRx == -1 && s.interruptRaw == s.interruptEnabled == s.interruptStatus == 0
  }

  // ---- The recorder ----

  class Recorder {
    var memory: Memory
    var currentSlot: int
    var generation: uint32
    var live: Snapshot
    var prior: Option<Snapshot>
    var priorFromNvs: bool
    ghost var log: seq<Event>
    ghost var seen: seq<Memory>  // the memory after every store, where a reset may fall

    ghost predicate Ready()
      reads this
    {
      Consistent(memory, currentSlot, generation) && LiveOk(live, log)
    }

    /** Starts over whatever the memory retained. */
    constructor (retained: Memory, blank: Snapshot)
      ensures memory == retained && prior == None && !priorFromNvs && seen == []
    {
      memory, currentSlot, generation := retained, -1, 0;
      live, prior, priorFromNvs, log, seen := blank, None, false, [], [];
    }

    method Store(slot: int, r: Record)
      requires slot == 0 || slot == 1
      modifies this`memory, this`seen
      ensures SlotOf(memory, slot) == r && SlotOf(memory, 1 - slot) == old(SlotOf(memory, 1 - slot))
      ensures seen == old(seen) + [memory] && old(seen) <= seen
    {
      memory := if slot == 0 then memory.(a := r) else memory.(b := r);
      seen := seen + [memory];
    }

    method Append(kind: uint32, value: uint32, now: uint32)
      requires LiveOk(live, log) && KnownKind(kind)
      modifies this`live, this`log
      ensures LiveOk(live, log) && log == old(log) + [Event(now, kind, value)]
      ensures live == old(live).(events := live.events, head := live.head, count := live.count)
    {
      var e := Event(now, kind, value);
      AppendHolds(live, log, e);
      log := log + [e];
      live := live.(events := live.events[live.head := e]);
      live := live.(head := (live.head + 1) % CAPACITY);
      if live.count < CAPACITY {
        live := live.(count := live.count + 1);
      }
    }

    /** The stores of a commit that leave the slot without a magic number: the
        header, and the snapshot word by word in any order. */
    method WriteBody(next: int)
      requires next == if currentSlot == 0 then 1 else 0
      requires SlotOf(memory, next).magic == 0
      modifies this`memory, this`seen, this`generation
      ensures generation == Following(old(generation)) && SlotOf(memory, 1 - next) == old(SlotOf(memory, 1 - next))
      ensures SlotOf(memory, next) == Record(0, VERSION, RECORD_BYTES, generation, Checksum(SlotOf(memory, next)), live)
      ensures old(seen) <= seen
      ensures forall i | |old(seen)| <= i < |seen| ::
                SlotOf(seen[i], next).magic == 0 && SlotOf(seen[i], 1 - next) == old(SlotOf(memory, 1 - next))
    {
      hide Checksum;
      ghost var other := SlotOf(memory, 1 - next);
      Store(next, SlotOf(memory, next).(version := VERSION));
      Store(next, SlotOf(memory, next).(bytes := RECORD_BYTES));
      generation := Following(generation);
      Store(next, SlotOf(memory, next).(generation := generation));
      var steps: nat :| 0 <= steps;
      for i := 0 to steps
        invariant old(seen) <= seen && SlotOf(memory, 1 - next) == other && generation == Following(old(generation))
        invariant SlotOf(memory, next) ==
                  Record(0, VERSION, RECORD_BYTES, generation, SlotOf(memory, next).checksum,
                         SlotOf(memory, next).snapshot)
        invariant forall i | |old(seen)| <= i < |seen| ::
                    SlotOf(seen[i], next).magic == 0 && SlotOf(seen[i], 1 - next) == other
      {
        var torn: Snapshot := *;
        Store(next, SlotOf(memory, next).(snapshot := torn));
      }
      Store(next, SlotOf(memory, next).(snapshot := live));
      ghost var unsealed := SlotOf(memory, next);
      assert unsealed == Record(0, VERSION, RECORD_BYTES, generation, unsealed.checksum, live);
      assert old(seen) <= seen;
      Store(next, SlotOf(memory, next).(checksum := Checksum(SlotOf(memory, next))));
      ChecksumCovers(unsealed, 0, Checksum(unsealed));
      assert SlotOf(memory, next) == unsealed.(magic := 0, checksum := Checksum(unsealed));
    }

    /** Writes the live snapshot over the older slot: invalidate, write, validate.
        A reset after any of the stores leaves the previous or the new snapshot. */
    method Commit()
      requires Usable(memory, currentSlot, generation) && LiveOk(live, log)
      modifies this`memory, this`seen, this`generation, this`currentSlot
      ensures Ready() && generation == Following(old(generation)) && Recovered(memory) == Some(live)
      ensures currentSlot == (if old(currentSlot) == 0 then 1 else 0)
      ensures old(seen) <= seen
      ensures forall i | |old(seen)| <= i < |seen| ::
                (Recovered(seen[i]) == Recovered(old(memory)) || Recovered(seen[i]) == Some(live))
                && SlotOf(seen[i], 1 - currentSlot) == SlotOf(old(memory), 1 - currentSlot)
    {
      hide Checksum, Valid, Recovered, LiveOk;
      var next := if currentSlot == 0 then 1 else 0;
      Store(next, SlotOf(memory, next).(magic := 0));
      WriteBody(next);
      label written:
      ghost var body := SlotOf(memory, next);
      Store(next, SlotOf(memory, next).(magic := MAGIC));
      ChecksumCovers(body, MAGIC, body.checksum);
      LiveIsValid(live, log);
      RecordValid(SlotOf(memory, next));
      CommittedWins(old(memory), memory, currentSlot, old(generation));
      currentSlot := next;
      forall i | |old(seen)| <= i < |seen| - 1
        ensures Recovered(seen[i]) == Recovered(old(memory))
      {
        TornIgnored(old(memory), seen[i], old(currentSlot), old(generation));
      }
    }

    method Restart(session: uint32, resetReason: uint32, now: uint32)
      modifies this`live, this`log
      ensures LiveOk(live, log) && log == [] && live.session == session && Uncounted(live)
      ensures live.resetReason == resetReason && live.timeMs == now
    {
      live := Snapshot(session, resetReason, now, 0, 0, 0, 0, 0, 0, 0, 0, 0, 0, 0, 0, -1, 0, 0, 0, 0, 0,
                       seq(CAPACITY, _ => NO_EVENT));
      log := [];
    }

    /** A start. `warm` unless the reset was a power-on, brownout, glitch or unknown:
        only then is the retained journal trusted. */
    method Begin(warm: bool, session: uint32, resetReason: uint32, now: uint32)
      modifies this
      ensures Ready() && log == [Event(now, 1, resetReason)] && live.session == session
      ensures Uncounted(live) && live.resetReason == resetReason && live.timeMs == now
      ensures generation == if warm && Latest(old(memory)) >= 0
                            then Following(SlotOf(old(memory), Latest(old(memory))).generation) else Following(0)
      ensures Recovered(memory) == Some(live)
      ensures prior == if warm && Recovered(old(memory)).Some? then Recovered(old(memory)) else old(prior)
      ensures old(seen) <= seen
      ensures warm ==> forall i | |old(seen)| <= i < |seen| ::
                Recovered(seen[i]) == Recovered(old(memory)) || Recovered(seen[i]) == Some(live)
    {
      hide Checksum, Valid, LiveOk;
      var a := CheckValid(memory.a);
      var b := CheckValid(memory.b);
      var latest := -1;
      if a { latest := 0; }
      if b && (!a || Newer(memory.b.generation, memory.a.generation)) { latest := 1; }
      assert latest == Latest(memory);
      if warm && latest >= 0 {
        prior := Some(SlotOf(memory, latest).snapshot);
      }
      currentSlot := if warm then latest else -1;
      generation := if currentSlot >= 0 then SlotOf(memory, currentSlot).generation else 0;
      if !warm {
        Store(0, memory.a.(magic := 0));
        Store(1, memory.b.(magic := 0));
        NoMagicNoRecord(memory);
      }
      Restart(session, resetReason, now);
      Append(1, resetReason, now);
      Commit();
    }

    /** The host's CDC connection as last observed; only a change is recorded. */
    method ObserveConnection(connected: bool, now: uint32)
      requires Ready()
      modifies this
      ensures Ready() && prior == old(prior) && old(seen) <= seen
      ensures var bit := if connected then 1 else 0;
              if old(live).cdcKnown == 0 || old(live).cdcConnected != bit
              then log == old(log) + [Event(now, 5, bit)] && live.cdcConnected == bit && Recovered(memory) == Some(live)
              else log == old(log) && memory == old(memory)
      ensures live == old(live).(connectionObservations := (old(live).connectionObservations + 1) % WRAP,
                                 timeMs := live.timeMs, cdcKnown := live.cdcKnown, cdcConnected := live.cdcConnected,
                                 events := live.events, head := live.head, count := live.count)
      ensures live.cdcKnown != 0 && live.cdcConnected == (if connected then 1 else 0)
    {
      hide Valid;
      var bit: uint32 := if connected then 1 else 0;
      ConsistentLatest(memory, currentSlot, generation);
      live := live.(connectionObservations := (live.connectionObservations + 1) % WRAP);
      if live.cdcKnown == 0 || live.cdcConnected != bit {
        live := live.(timeMs := now, cdcKnown := 1, cdcConnected := bit);
        Append(5, bit, now);
        Commit();
      }
    }

    /** A record saved elsewhere never replaces one the journal retained. */
    method ImportPrior(saved: Record) returns (accepted: bool)
      modifies this`prior, this`priorFromNvs
      ensures accepted == (Valid(saved) && old(prior) == None)
      ensures prior == if accepted then Some(saved.snapshot) else old(prior)
      ensures priorFromNvs == (accepted || old(priorFromNvs))
    {
      var ok := CheckValid(saved);
      accepted := ok && prior.None?;
      if accepted {
        prior := Some(saved.snapshot);
        priorFromNvs := true;
      }
    }
  }

  /** A reset at any store of a commit, then a warm start on the memory image it
      left: the start recovers the snapshot committed before or the one being
      committed, whole. */
  method CrashAndRestart(r: Recorder, retained: Memory, session: uint32, resetReason: uint32, now: uint32)
      returns (again: Recorder)
    requires r.Ready() && r.currentSlot != -1
    modifies r
    ensures r.Ready() && Recovered(r.memory) == Some(old(r.live))
    ensures Recovered(old(r.memory)).Some? && old(r.seen) <= r.seen
    ensures retained in r.seen[|old(r.seen)|..] ==>
              again.prior == Recovered(old(r.memory)) || again.prior == Some(old(r.live))
    ensures again.Ready()
  {
    hide Valid, LiveOk, Checksum;
    ConsistentLatest(r.memory, r.currentSlot, r.generation);
    r.Commit();
    again := new Recorder(retained, r.live);
    again.Begin(true, session, resetReason, now);
  }
}
