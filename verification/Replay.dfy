/** Replay protection: the fingerprint of a request and the ring of remembered mutations. */
module Replay {
  import opened Clock
  import opened Grammar

  // ---- FNV-1a over a request ----

  type uint8 = n: nat | n < 256

  const OFFSET: uint32 := 2166136261
  const PRIME: nat := 16777619
  const INVERSE: nat := 899433627  // of PRIME modulo 2^32

  function Xor(a: nat, b: nat): nat {
    if a == 0 && b == 0 then 0 else 2 * Xor(a / 2, b / 2) + (a + b) % 2
  }

  lemma {:induction false} XorCommutes(a: nat, b: nat)
    ensures Xor(a, b) == Xor(b, a)
  {
    if a != 0 || b != 0 {
      XorCommutes(a / 2, b / 2);
    }
  }

  lemma XorHalves(a: nat, b: nat)
    ensures Xor(a, b) / 2 == Xor(a / 2, b / 2) && Xor(a, b) % 2 == (a + b) % 2
  {
  }

  lemma {:induction false} XorUndone(a: nat, b: nat)
    ensures Xor(Xor(a, b), b) == a
  {
    if a != 0 || b != 0 {
      XorUndone(a / 2, b / 2);
      var x := Xor(a, b);
      XorHalves(a, b);
      XorHalves(x, b);
      hide Xor;
      assert Xor(x, b) / 2 == a / 2;
      assert (x + b) % 2 == a % 2 by {
        Parity(a, b, x);
      }
    }
  }

  lemma Parity(a: nat, b: nat, x: nat)
    requires x % 2 == (a + b) % 2
    ensures (x + b) % 2 == a % 2
  {
  }

  lemma {:induction false} XorBound(a: nat, b: nat, k: nat)
    requires a < Pow2(k) && b < Pow2(k)
    ensures Xor(a, b) < Pow2(k)
  {
    if k > 0 {
      XorBound(a / 2, b / 2, k - 1);
    }
  }

  function Pow2(k: nat): nat { if k == 0 then 1 else 2 * Pow2(k - 1) }

  lemma Pow2Wrap()
    ensures Pow2(32) == WRAP
  {
    Pow2Eight(0);
    Pow2Eight(8);
    Pow2Eight(16);
    Pow2Eight(24);
  }

  lemma Pow2Eight(k: nat)
    ensures Pow2(k + 8) == 256 * Pow2(k)
  {
    assert Pow2(k + 2) == 4 * Pow2(k);
    assert Pow2(k + 4) == 16 * Pow2(k);
    assert Pow2(k + 6) == 64 * Pow2(k);
  }

  lemma XorWidth(h: uint32, b: uint8)
    ensures Xor(h, b) < WRAP
  {
    Pow2Wrap();
    XorBound(h, b, 32);
  }

  /** One FNV-1a step: exclusive or, then multiplication modulo 2^32. */
  function Step(h: uint32, b: uint8): uint32 {
    XorWidth(h, b);
    Xor(h, b) * PRIME % WRAP
  }

  lemma ScaleUndone(x: uint32)
    ensures (x * PRIME % WRAP) * INVERSE % WRAP == x
  {
    var q, y := x * PRIME / WRAP, x * PRIME % WRAP;
    assert x * PRIME == q * WRAP + y;
    var k := x * 3513497 - q * INVERSE;
    assert y * INVERSE == x + k * WRAP;
    Reduced(y * INVERSE, x, k);
  }

  lemma Reduced(n: nat, x: uint32, k: int)
    requires n == x + k * WRAP
    ensures n % WRAP == x
  {
  }

  /** A step is injective in the state and in the byte. */
  lemma StepInjective(h: uint32, g: uint32, b: uint8, c: uint8)
    requires Step(h, b) == Step(g, c)
    ensures h == g <==> b == c
  {
    XorWidth(h, b);
    XorWidth(g, c);
    ScaleUndone(Xor(h, b));
    ScaleUndone(Xor(g, c));
    assert Xor(h, b) == Xor(g, c);
    XorUndone(h, b);
    XorUndone(g, c);
    XorUndone(b, h);
    XorUndone(c, g);
    XorCommutes(h, b);
    XorCommutes(g, c);
    hide Xor;
  }

  function Hash(h: uint32, bytes: seq<uint8>): uint32
    decreases |bytes|
  {
    if bytes == [] then h else Hash(Step(h, bytes[0]), bytes[1..])
  }

  /** Distinct states stay distinct over the same bytes. */
  lemma {:induction false} HashInjective(h: uint32, g: uint32, bytes: seq<uint8>)
    requires h != g
    ensures Hash(h, bytes) != Hash(g, bytes)
    decreases |bytes|
  {
    if bytes != [] {
      if Step(h, bytes[0]) == Step(g, bytes[0]) {
        StepInjective(h, g, bytes[0], bytes[0]);
      }
      HashInjective(Step(h, bytes[0]), Step(g, bytes[0]), bytes[1..]);
    }
  }

  /** Byte strings that differ in exactly one place never collide. */
  lemma {:induction false} OneByteApart(h: uint32, a: seq<uint8>, b: seq<uint8>, i: nat)
    requires |a| == |b| && i < |a| && a[i] != b[i] && forall j | 0 <= j < |a| && j != i :: a[j] == b[j]
    ensures Hash(h, a) != Hash(h, b)
    decreases i
  {
    if i == 0 {
      assert a[1..] == b[1..];
      if Step(h, a[0]) == Step(h, b[0]) {
        StepInjective(h, h, a[0], b[0]);
      }
      HashInjective(Step(h, a[0]), Step(h, b[0]), a[1..]);
    } else {
      OneByteApart(Step(h, a[0]), a[1..], b[1..], i - 1);
    }
  }

  lemma {:induction false} HashConcat(h: uint32, a: seq<uint8>, b: seq<uint8>)
    ensures Hash(h, a + b) == Hash(Hash(h, a), b)
    decreases |a|
  {
    if a == [] {
      assert a + b == b;
    } else {
      assert (a + b)[1..] == a[1..] + b;
      HashConcat(Step(h, a[0]), a[1..], b);
    }
  }

  function CommandNumber(c: Command): uint32 {
    match c
    case Status => 0
    case Pong => 1
    case ShutdownAck => 2
    case ShutdownReady => 3
    case PortSet => 4
    case Reboot => 5
  }

  function Shift(v: uint32, i: nat): nat { if i == 0 then v else Shift(v, i - 1) / 256 }

  /** The four bytes of a word, low byte first. */
  function Word(v: uint32): seq<uint8> { seq(4, i requires 0 <= i < 4 => Shift(v, i) % 256) }

  /** A zero-padded character buffer. */
  function Padded(s: string, n: nat): seq<uint8> {
    seq(n, i requires 0 <= i < n => if i < |s| then s[i] as nat % 256 else 0)
  }

  function Enabling(b: bool): uint32 { if b then 1 else 0 }

  /** Everything that is hashed, in order. */
  function Bytes(r: Request): seq<uint8> {
    Word(CommandNumber(r.command)) + (Word(r.id) + (Word(r.pingId) + (Word(r.shutdownId) + (Word(Enabling(r.enabled))
      + (Padded(r.bootId, 9) + Padded(r.port, 24))))))
  }

  function Fingerprint(r: Request): uint32 { Hash(OFFSET, Bytes(r)) }

  method Mix(hash: uint32, v: uint32) returns (h: uint32)
    ensures h == Hash(hash, Word(v))
  {
    h := hash;
    var rest := v;
    for i := 0 to 4
      invariant h == Hash(hash, Word(v)[..i]) && rest == Shift(v, i)
    {
      assert Word(v)[..i + 1] == Word(v)[..i] + [rest % 256];
      HashConcat(hash, Word(v)[..i], [rest % 256]);
      h := Step(h, rest % 256);
      rest := rest / 256;
    }
    assert Word(v)[..4] == Word(v);
  }

  method MixBuffer(hash: uint32, s: string, n: nat) returns (h: uint32)
    ensures h == Hash(hash, Padded(s, n))
  {
    h := hash;
    for i := 0 to n
      invariant h == Hash(hash, Padded(s, n)[..i])
    {
      var c := if i < |s| then s[i] as nat % 256 else 0;
      assert Padded(s, n)[..i + 1] == Padded(s, n)[..i] + [c];
      HashConcat(hash, Padded(s, n)[..i], [c]);
      h := Step(h, c);
    }
    assert Padded(s, n)[..n] == Padded(s, n);
  }

  method ComputeFingerprint(r: Request) returns (h: uint32)
    ensures h == Fingerprint(r)
  {
    hide Hash, Word, Padded;
    h := Mix(OFFSET, CommandNumber(r.command));
    h := Mix(h, r.id);
    h := Mix(h, r.pingId);
    h := Mix(h, r.shutdownId);
    h := Mix(h, Enabling(r.enabled));
    h := MixBuffer(h, r.bootId, 9);
    h := MixBuffer(h, r.port, 24);
    HashSeven(OFFSET, Word(CommandNumber(r.command)), Word(r.id), Word(r.pingId), Word(r.shutdownId),
              Word(Enabling(r.enabled)), Padded(r.bootId, 9), Padded(r.port, 24));
  }

  lemma HashSeven(h: uint32, a: seq<uint8>, b: seq<uint8>, c: seq<uint8>, d: seq<uint8>, e: seq<uint8>,
                  f: seq<uint8>, g: seq<uint8>)
    ensures Hash(h, a + (b + (c + (d + (e + (f + g))))))
            == Hash(Hash(Hash(Hash(Hash(Hash(Hash(h, a), b), c), d), e), f), g)
  {
    hide Hash;
    HashConcat(h, a, b + (c + (d + (e + (f + g)))));
    var h1 := Hash(h, a);
    HashConcat(h1, b, c + (d + (e + (f + g))));
    var h2 := Hash(h1, b);
    HashConcat(h2, c, d + (e + (f + g)));
    var h3 := Hash(h2, c);
    HashConcat(h3, d, e + (f + g));
    var h4 := Hash(h3, d);
    HashConcat(h4, e, f + g);
    HashConcat(Hash(h4, e), f, g);
  }

  /** The bytes of a word are its digits to base 256. */
  lemma WordExact(v: uint32)
    ensures var w := Word(v); v == w[0] as int + 256 * (w[1] as int) + 65536 * (w[2] as int) + 16777216 * (w[3] as int)
  {
    var a, b, c := v / 256, v / 256 / 256, v / 256 / 256 / 256;
    assert Shift(v, 1) == a && Shift(v, 2) == b && Shift(v, 3) == c;
    assert c < 256;
  }

  /** The texts of a parsed request fit their buffers and hold no zero. */
  predicate Parsed(r: Request) { GoodText(r.bootId, 9) && GoodText(r.port, 24) }

  /** A character that a text may hold. */
  lemma PrintableByte(c: char)
    requires Printable(c)
    ensures 0 < c as nat < 127
  {
  }

  /** A zero-terminated text is read back from its buffer. */
  lemma PaddedInjective(s: string, t: string, n: nat)
    requires GoodText(s, n) && GoodText(t, n) && Padded(s, n) == Padded(t, n)
    ensures s == t
  {
    ShorterPadded(s, t, n);
    ShorterPadded(t, s, n);
    forall i | 0 <= i < |s|
      ensures s[i] == t[i]
    {
      assert Padded(s, n)[i] == Padded(t, n)[i];
      PrintableByte(s[i]);
      PrintableByte(t[i]);
    }
  }

  lemma ShorterPadded(s: string, t: string, n: nat)
    requires GoodText(s, n) && GoodText(t, n) && Padded(s, n) == Padded(t, n)
    ensures |s| <= |t|
  {
    if |t| < |s| {
      assert Padded(s, n)[|t|] == Padded(t, n)[|t|];
      PrintableByte(s[|t|]);
    }
  }

  /** What the parser returns is such a request. */
  lemma SensibleParsed(r: Request)
    requires Sensible(r)
    ensures Parsed(r)
  {
  }

  /** The hashed bytes tell every field of a request. */
  lemma BytesTellAll(a: Request, b: Request)
    requires Parsed(a) && Parsed(b) && Bytes(a) == Bytes(b)
    ensures a == b
  {
    FieldBytes(a);
    FieldBytes(b);
    hide Bytes, Word, Padded;
    WordExact(CommandNumber(a.command));
    WordExact(CommandNumber(b.command));
    WordExact(a.id);
    WordExact(b.id);
    WordExact(a.pingId);
    WordExact(b.pingId);
    WordExact(a.shutdownId);
    WordExact(b.shutdownId);
    WordExact(Enabling(a.enabled));
    WordExact(Enabling(b.enabled));
    PaddedInjective(a.bootId, b.bootId, 9);
    PaddedInjective(a.port, b.port, 24);
  }

  lemma FieldBytes(r: Request)
    ensures var s := Bytes(r);
            && |s| == 53
            && s[..4] == Word(CommandNumber(r.command)) && s[4..8] == Word(r.id) && s[8..12] == Word(r.pingId)
            && s[12..16] == Word(r.shutdownId) && s[16..20] == Word(Enabling(r.enabled))
            && s[20..29] == Padded(r.bootId, 9) && s[29..] == Padded(r.port, 24)
    ensures forall v :: |Word(v)| == 4
  {
  }

  /** The two differ in exactly one place. */
  ghost predicate OneApart<T(!new)>(s: seq<T>, t: seq<T>) {
    |s| == |t| && exists i :: 0 <= i < |s| && s[i] != t[i] && forall j | 0 <= j < |s| && j != i :: s[j] == t[j]
  }

  /** One part of the hashed bytes that differs in one place shows in the hash. */
  lemma PartDetected(front: seq<uint8>, x: seq<uint8>, y: seq<uint8>, back: seq<uint8>)
    requires OneApart(x, y)
    ensures Hash(OFFSET, front + (x + back)) != Hash(OFFSET, front + (y + back))
  {
    hide Hash;
    var i :| 0 <= i < |x| && x[i] != y[i] && forall j | 0 <= j < |x| && j != i :: x[j] == y[j];
    OneByteApart(OFFSET, front + (x + back), front + (y + back), |front| + i);
  }

  lemma PaddedApart(s: string, t: string, n: nat)
    requires GoodText(s, n) && GoodText(t, n) && OneApart(s, t)
    ensures OneApart(Padded(s, n), Padded(t, n))
  {
    var i :| 0 <= i < |s| && s[i] != t[i] && forall j | 0 <= j < |s| && j != i :: s[j] == t[j];
    PrintableByte(s[i]);
    PrintableByte(t[i]);
    assert Padded(s, n)[i] != Padded(t, n)[i];
    assert forall j | 0 <= j < n && j != i :: Padded(s, n)[j] == Padded(t, n)[j];
  }

  /** Another port, one character off, never passes for the same request. */
  lemma PortDetected(a: Request, port: string)
    requires GoodText(a.port, 24) && GoodText(port, 24) && OneApart(a.port, port)
    ensures Fingerprint(a) != Fingerprint(a.(port := port))
  {
    PaddedApart(a.port, port, 24);
    hide Hash, Word, Padded;
    var front := Word(CommandNumber(a.command)) + Word(a.id) + Word(a.pingId) + Word(a.shutdownId)
                 + Word(Enabling(a.enabled)) + Padded(a.bootId, 9);
    PartDetected(front, Padded(a.port, 24), Padded(port, 24), []);
    assert Bytes(a) == front + (Padded(a.port, 24) + []);
    assert Bytes(a.(port := port)) == front + (Padded(port, 24) + []);
  }

  /** Nor does another boot id. */
  lemma BootIdDetected(a: Request, bootId: string)
    requires GoodText(a.bootId, 9) && GoodText(bootId, 9) && OneApart(a.bootId, bootId)
    ensures Fingerprint(a) != Fingerprint(a.(bootId := bootId))
  {
    PaddedApart(a.bootId, bootId, 9);
    hide Hash, Word, Padded;
    var front := Word(CommandNumber(a.command)) + Word(a.id) + Word(a.pingId) + Word(a.shutdownId)
                 + Word(Enabling(a.enabled));
    var back := Padded(a.port, 24);
    PartDetected(front, Padded(a.bootId, 9), Padded(bootId, 9), back);
    assert Bytes(a) == front + (Padded(a.bootId, 9) + back);
    assert Bytes(a.(bootId := bootId)) == front + (Padded(bootId, 9) + back);
  }

  /** Nor does another number that differs in one byte. */
  lemma NumbersDetected(a: Request, v: uint32)
    ensures OneApart(Word(a.id), Word(v)) ==> Fingerprint(a) != Fingerprint(a.(id := v))
    ensures OneApart(Word(a.pingId), Word(v)) ==> Fingerprint(a) != Fingerprint(a.(pingId := v))
    ensures OneApart(Word(a.shutdownId), Word(v)) ==> Fingerprint(a) != Fingerprint(a.(shutdownId := v))
  {
    hide Hash, Word, Padded, OneApart;
    var command := Word(CommandNumber(a.command));
    var back := Word(Enabling(a.enabled)) + Padded(a.bootId, 9) + Padded(a.port, 24);
    if OneApart(Word(a.id), Word(v)) {
      PartDetected(command, Word(a.id), Word(v), Word(a.pingId) + Word(a.shutdownId) + back);
      assert Bytes(a) == command + (Word(a.id) + (Word(a.pingId) + Word(a.shutdownId) + back));
      assert Bytes(a.(id := v)) == command + (Word(v) + (Word(a.pingId) + Word(a.shutdownId) + back));
    }
    if OneApart(Word(a.pingId), Word(v)) {
      PartDetected(command + Word(a.id), Word(a.pingId), Word(v), Word(a.shutdownId) + back);
      assert Bytes(a) == command + Word(a.id) + (Word(a.pingId) + (Word(a.shutdownId) + back));
      assert Bytes(a.(pingId := v)) == command + Word(a.id) + (Word(v) + (Word(a.shutdownId) + back));
    }
    if OneApart(Word(a.shutdownId), Word(v)) {
      PartDetected(command + Word(a.id) + Word(a.pingId), Word(a.shutdownId), Word(v), back);
      assert Bytes(a) == command + Word(a.id) + Word(a.pingId) + (Word(a.shutdownId) + back);
      assert Bytes(a.(shutdownId := v)) == command + Word(a.id) + Word(a.pingId) + (Word(v) + back);
    }
  }

  /** A small number is its low byte. */
  lemma SmallWord(v: uint32)
    requires v < 256
    ensures Word(v) == [v, 0, 0, 0]
  {
    assert Shift(v, 1) == 0 && Shift(v, 2) == 0 && Shift(v, 3) == 0;
  }

  lemma SmallApart(v: uint32, w: uint32)
    requires v < 256 && w < 256 && v != w
    ensures OneApart(Word(v), Word(w))
  {
    SmallWord(v);
    SmallWord(w);
    hide Word;
    assert Word(v)[0] != Word(w)[0];
  }

  /** Another command never passes for the same request. */
  lemma CommandDetected(a: Request, command: Command)
    requires command != a.command
    ensures Fingerprint(a) != Fingerprint(a.(command := command))
  {
    assert CommandNumber(a.command) != CommandNumber(command);
    SmallApart(CommandNumber(a.command), CommandNumber(command));
    hide Hash, Word, Padded, OneApart, CommandNumber;
    var back := Word(a.id) + (Word(a.pingId) + (Word(a.shutdownId) + (Word(Enabling(a.enabled))
                + (Padded(a.bootId, 9) + Padded(a.port, 24)))));
    var was, now := Word(CommandNumber(a.command)) + back, Word(CommandNumber(command)) + back;
    PartDetected([], Word(CommandNumber(a.command)), Word(CommandNumber(command)), back);
    assert [] + was == was && [] + now == now;
    assert Bytes(a) == was && Bytes(a.(command := command)) == now;
  }

  /** Asking for the same port with the other `enabled` never passes for a repeat. */
  lemma EnabledDetected(a: Request)
    ensures Fingerprint(a) != Fingerprint(a.(enabled := !a.enabled))
  {
    SmallApart(Enabling(a.enabled), Enabling(!a.enabled));
    hide Hash, Word, Padded, OneApart;
    var front := Word(CommandNumber(a.command)) + Word(a.id) + Word(a.pingId) + Word(a.shutdownId);
    var back := Padded(a.bootId, 9) + Padded(a.port, 24);
    PartDetected(front, Word(Enabling(a.enabled)), Word(Enabling(!a.enabled)), back);
    assert Bytes(a) == front + (Word(Enabling(a.enabled)) + back);
    assert Bytes(a.(enabled := !a.enabled)) == front + (Word(Enabling(!a.enabled)) + back);
  }

  // ---- The ring ----

  datatype Reply = Reply(ok: bool, code: string)

  datatype Entry = Entry(id: uint32, hash: uint32, reply: Reply)

  datatype Match = New | Same(reply: Reply) | Conflict

  const RING: nat := 16

  const NO_ENTRY: Entry := Entry(0, 0, Reply(false, "BAD_REQUEST"))

  function Min(a: nat, b: nat): nat { if a < b then a else b }

  /** The answer to a request whose id was remembered with entry e. */
  function Verdict(e: Entry, r: Request): Match {
    if e.hash == Fingerprint(r) then Same(e.reply) else Conflict
  }

  /** The last 16 of everything remembered. */
  function Retained(log: seq<Entry>): seq<Entry> { log[|log| - Min(|log|, RING)..] }

  predicate Holds(entries: seq<Entry>, id: uint32) { exists k :: 0 <= k < |entries| && entries[k].id == id }

  predicate DistinctIds(entries: seq<Entry>) {
    forall j, k | 0 <= j < k < |entries| :: entries[j].id != entries[k].id
  }

  lemma SlotsDiffer(n: nat, k: nat)
    requires k < n < k + RING
    ensures k % RING != n % RING
  {
  }

  /** The wrapped counter still names the slot, as 16 divides 2^32. */
  lemma NextWraps(n: nat)
    ensures n % WRAP % RING == n % RING && (n % WRAP + 1) % WRAP == (n + 1) % WRAP
  {
  }

  /** The most recent of the first n positions that lies in slot i. */
  function Latest(n: nat, i: nat): nat
    requires i < RING && i < n
  {
    n - 1 - (n - 1 - i) % RING
  }

  lemma LatestInSlot(n: nat, i: nat)
    requires i < RING && i < n
    ensures Latest(n, i) % RING == i && n - Min(n, RING) <= Latest(n, i) < n
  {
  }

  lemma RetainedGrows(log: seq<Entry>, e: Entry)
    requires DistinctIds(Retained(log)) && !Holds(Retained(log), e.id)
    ensures DistinctIds(Retained(log + [e])) && Holds(Retained(log + [e]), e.id)
  {
    var r, was := Retained(log + [e]), Retained(log);
    assert r[|r| - 1] == e;
    forall j, k | 0 <= j < k < |r|
      ensures r[j].id != r[k].id
    {
      var d := |was| + 1 - |r|;
      assert r[j] == was[j + d];
      if k < |r| - 1 {
        assert r[k] == was[k + d];
      }
    }
  }

  class ReplayCache {
    const entries: array<Entry>
    var next: uint32
    ghost var log: seq<Entry>

    ghost predicate Valid()
      reads this, entries
    {
      && entries.Length == RING && next == |log| % WRAP
      && (forall k | 0 <= k < |log| && |log| - RING <= k :: entries[k % RING] == log[k])
      && (forall i | |log| <= i < RING :: entries[i] == NO_ENTRY)
      && (forall k | 0 <= k < |log| :: log[k].id != 0)
      && DistinctIds(Retained(log))
    }

    constructor ()
      ensures Valid() && log == [] && fresh(entries)
    {
      entries := new Entry[RING](_ => NO_ENTRY);
      next := 0;
      log := [];
    }

    /** Whether the id is among the last 16 remembered, and with the same fingerprint. */
    method Lookup(r: Request) returns (m: Match)
      requires Valid() && r.id != 0
      ensures m == New <==> !Holds(Retained(log), r.id)
      ensures m != New ==> exists e :: e in Retained(log) && e.id == r.id && m == Verdict(e, r)
    {
      hide Fingerprint;
      var kept := Retained(log);
      for i := 0 to RING
        invariant forall j | 0 <= j < i :: entries[j].id != r.id
      {
        if entries[i].id != 0 && entries[i].id == r.id {
          LatestInSlot(|log|, i);
          var k := Latest(|log|, i) - (|log| - |kept|);
          assert kept[k] == entries[i] && kept[k] in kept;
          var hash := ComputeFingerprint(r);
          return if entries[i].hash == hash then Same(entries[i].reply) else Conflict;
        }
      }
      forall k | 0 <= k < |kept|
        ensures kept[k].id != r.id
      {
        var p := |log| - |kept| + k;
        assert kept[k] == log[p] && entries[p % RING] == log[p];
      }
      m := New;
    }

    /** Overwrites the oldest entry; callers looked the id up before. */
    method Remember(r: Request, reply: Reply)
      requires Valid() && r.id != 0 && !Holds(Retained(log), r.id)
      modifies this, entries
      ensures Valid() && log == old(log) + [Entry(r.id, Fingerprint(r), reply)]
      ensures Holds(Retained(log), r.id)
    {
      hide Fingerprint;
      var hash := ComputeFingerprint(r);
      var e := Entry(r.id, hash, reply);
      RetainedGrows(log, e);
      forall k | 0 <= k < |log| && |log| < k + RING
        ensures k % RING != |log| % RING
      {
        SlotsDiffer(|log|, k);
      }
      NextWraps(|log|);
      entries[next % RING] := e;
      next := (next + 1) % WRAP;
      log := log + [e];
    }
  }

  /** An id that was remembered stays retained until 16 others have followed. */
  lemma RetainedFor16(log: seq<Entry>, k: nat)
    requires k < |log| <= k + 16
    ensures Holds(Retained(log), log[k].id)
  {
    var at := k - (|log| - |Retained(log)|);
    assert Retained(log)[at] == log[k];
  }

  /** The same request but for one field, by one character, one byte or one choice. */
  ghost predicate NearMiss(a: Request, b: Request) {
    || (b == a.(port := b.port) && GoodText(a.port, 24) && GoodText(b.port, 24) && OneApart(a.port, b.port))
    || (b == a.(bootId := b.bootId) && GoodText(a.bootId, 9) && GoodText(b.bootId, 9) && OneApart(a.bootId, b.bootId))
    || (b == a.(pingId := b.pingId) && OneApart(Word(a.pingId), Word(b.pingId)))
    || (b == a.(shutdownId := b.shutdownId) && OneApart(Word(a.shutdownId), Word(b.shutdownId)))
    || (b == a.(command := b.command) && b.command != a.command)
    || (b == a.(enabled := b.enabled) && b.enabled != a.enabled)
  }

  /** A reused id with a near miss of the request is a conflict, never answered from
      the cache. */
  lemma NearMissConflicts(a: Request, b: Request, reply: Reply)
    requires NearMiss(a, b)
    ensures Verdict(Entry(a.id, Fingerprint(a), reply), b) == Conflict
  {
    hide Fingerprint, OneApart, Word, GoodText;
    if b == a.(port := b.port) && GoodText(a.port, 24) && GoodText(b.port, 24) && OneApart(a.port, b.port) {
      PortDetected(a, b.port);
    } else if b == a.(bootId := b.bootId) && GoodText(a.bootId, 9) && GoodText(b.bootId, 9)
              && OneApart(a.bootId, b.bootId) {
      BootIdDetected(a, b.bootId);
    } else if b == a.(command := b.command) && b.command != a.command {
      CommandDetected(a, b.command);
    } else if b == a.(enabled := b.enabled) && b.enabled != a.enabled {
      EnabledDetected(a);
    } else if OneApart(Word(a.pingId), Word(b.pingId)) {
      NumbersDetected(a, b.pingId);
    } else {
      NumbersDetected(a, b.shutdownId);
    }
  }
}
