/** The host's request printer and its round trip through the board's parser. */
module Printer {
  import opened Clock
  import opened Grammar
  import opened Protocol

  /** The keys in the order the host writes them. */
  function KeyOrder(command: Command): seq<Key> {
    match command
    case Status => [Version, Id, Cmd]
    case Pong => [Version, Id, Cmd, BootId, PingId]
    case ShutdownAck | ShutdownReady => [Version, Id, Cmd, BootId, ShutdownId]
    case PortSet => [Version, Id, Cmd, BootId, Port, Enabled]
    case Reboot => [Version, Id, Cmd, BootId]
  }

  function Plain(r: Request, key: Key): Member { Member(key, ValueOf(r, key), "", "", "", "") }

  function PlainMembers(r: Request, keys: seq<Key>): seq<Member> {
    seq(|keys|, i requires 0 <= i < |keys| => Plain(r, keys[i]))
  }

  function PrintedMembers(r: Request): seq<Member> { PlainMembers(r, KeyOrder(r.command)) }

  /** json.dumps with compact separators. */
  function Print(r: Request): string { Render(Layout("", PrintedMembers(r), "", "")) }

  lemma KeyOrderExact(command: Command)
    ensures forall i, j | 0 <= i < j < |KeyOrder(command)| :: KeyOrder(command)[i] != KeyOrder(command)[j]
    ensures forall key :: key in KeyOrder(command) <==> key in KeysOf(command)
  {
  }

  lemma CommandNameGood(command: Command)
    ensures GoodText(CommandName(command), Capacity(Cmd))
  {
  }

  lemma ValueFits(r: Request, key: Key)
    requires Sensible(r) && key in KeysOf(r.command)
    ensures Fits(key, ValueOf(r, key))
  {
    CommandNameGood(r.command);
  }

  lemma PrintedProper(r: Request)
    requires Sensible(r)
    ensures ProperMembers(PrintedMembers(r)) && DistinctKeys(PrintedMembers(r))
  {
    KeyOrderExact(r.command);
    hide KeyOrder, KeysOf, Fits, ValueOf, Sensible;
    forall i | 0 <= i < |KeyOrder(r.command)|
      ensures ProperMember(PrintedMembers(r)[i])
    {
      ValueFits(r, KeyOrder(r.command)[i]);
    }
  }

  lemma PrintedDenotes(r: Request)
    requires Sensible(r)
    ensures Denotes(FieldsOf(PrintedMembers(r)), r)
  {
    PrintedProper(r);
    KeyOrderExact(r.command);
    var members := PrintedMembers(r);
    FieldsByKey(members);
    hide KeyOrder, KeysOf, Fits, ValueOf, Sensible, FieldsOf;
    forall key
      ensures key in FieldsOf(members) <==> key in KeysOf(r.command)
      ensures key in FieldsOf(members) ==> FieldsOf(members)[key] == ValueOf(r, key)
    {
      if key in KeysOf(r.command) {
        var i :| 0 <= i < |KeyOrder(r.command)| && KeyOrder(r.command)[i] == key;
        assert members[i].key == key;
      }
      if key in FieldsOf(members) {
        var i :| 0 <= i < |members| && members[i].key == key;
        assert FieldsOf(members)[members[i].key] == members[i].value;
      }
    }
  }

  // ---- Every request fits a line ----

  function Pow10(k: nat): nat { if k == 0 then 1 else 10 * Pow10(k - 1) }

  lemma {:induction false} DecimalLength(n: nat, k: nat)
    requires k > 0 && n < Pow10(k)
    ensures |Decimal(n)| <= k
  {
    if n >= 10 {
      assert k > 1;
      DecimalLength(n / 10, k - 1);
    }
  }

  lemma NumberLength(n: uint32)
    ensures |Decimal(n)| <= 10
  {
    assert Pow10(10) == 10_000_000_000;
    DecimalLength(n, 10);
  }

  lemma MemberLength(r: Request, key: Key)
    requires Sensible(r) && key in KeysOf(r.command)
    ensures |MemberText(Plain(r, key))| <= 48
  {
    ValueFits(r, key);
    var v := ValueOf(r, key);
    if v.Number? {
      NumberLength(v.n);
    }
    assert |KeyName(key)| <= 11;
    assert |ValueText(v)| <= 33;
  }

  lemma {:induction false} MembersLength(members: seq<Member>)
    requires members != [] && forall i | 0 <= i < |members| :: |MemberText(members[i])| <= 48
    ensures |MembersText(members)| <= 49 * |members|
  {
    if |members| > 1 {
      MembersLength(members[1..]);
    }
  }

  lemma PrintFits(r: Request)
    requires Sensible(r)
    ensures |Print(r)| <= MAX_REQUEST
  {
    KeyOrderExact(r.command);
    assert |KeyOrder(r.command)| <= 6;
    hide KeyOrder, KeysOf, MemberText, Sensible;
    forall i | 0 <= i < |KeyOrder(r.command)|
      ensures |MemberText(PrintedMembers(r)[i])| <= 48
    {
      MemberLength(r, KeyOrder(r.command)[i]);
    }
    MembersLength(PrintedMembers(r));
  }

  function Total(sizes: seq<nat>): nat { if sizes == [] then 0 else sizes[0] + 1 + Total(sizes[1..]) }

  /** Members of known sizes, with the commas between them. */
  lemma {:induction false} MembersSize(members: seq<Member>, sizes: seq<nat>)
    requires members != [] && |sizes| == |members|
    requires forall i | 0 <= i < |members| :: |MemberText(members[i])| <= sizes[i]
    ensures |MembersText(members)| < Total(sizes)
  {
    if |members| > 1 {
      MembersSize(members[1..], sizes[1..]);
    }
  }

  // ---- A printed request travels as one frame ----

  /** No control characters. */
  predicate Plainly(s: string) { forall i | 0 <= i < |s| :: ' ' <= s[i] }

  lemma {:induction false} DecimalPlain(n: nat)
    ensures Plainly(Decimal(n))
  {
    if n >= 10 {
      DecimalPlain(n / 10);
    }
  }

  lemma KeyNamePlain(key: Key)
    ensures Plainly(KeyName(key))
  {
  }

  lemma ValuePlain(key: Key, v: Value)
    requires Fits(key, v)
    ensures Plainly(ValueText(v))
  {
    if v.Number? {
      DecimalPlain(v.n);
    }
  }

  lemma MemberPlain(r: Request, key: Key)
    requires Sensible(r) && key in KeysOf(r.command)
    ensures Plainly(MemberText(Plain(r, key)))
  {
    ValueFits(r, key);
    ValuePlain(key, ValueOf(r, key));
    KeyNamePlain(key);
    hide KeyName, ValueText, ValueOf, Fits, Sensible, KeysOf;
  }

  lemma {:induction false} MembersPlain(members: seq<Member>)
    requires members != [] && forall i | 0 <= i < |members| :: Plainly(MemberText(members[i]))
    ensures Plainly(MembersText(members))
  {
    if |members| > 1 {
      MembersPlain(members[1..]);
    }
  }

  lemma PrintPlain(r: Request)
    requires Sensible(r)
    ensures Print(r) != "" && Plainly(Print(r))
  {
    KeyOrderExact(r.command);
    assert KeyOrder(r.command) != [];
    hide KeyOrder, KeysOf, MemberText, Sensible;
    forall i | 0 <= i < |KeyOrder(r.command)|
      ensures Plainly(MemberText(PrintedMembers(r)[i]))
    {
      MemberPlain(r, KeyOrder(r.command)[i]);
    }
    MembersPlain(PrintedMembers(r));
  }

  // ---- Round trips ----

  /** Every request the host can print fits a line and parses back to itself. */
  lemma PrintParses(r: Request)
    requires Sensible(r)
    ensures |Print(r)| <= MAX_REQUEST && Parse(Print(r)) == Ok(r)
  {
    PrintFits(r);
    PrintedProper(r);
    PrintedDenotes(r);
    hide *;
    ParseExact(Print(r), r);
  }

  /** And so does every line that lays the same members out in another order, with
      any white space, up to 512 characters. */
  lemma VariantParses(r: Request, l: Layout)
    requires Sensible(r) && Proper(l) && Rearranged(l.members, PrintedMembers(r)) && |Render(l)| <= MAX_REQUEST
    ensures Parse(Render(l)) == Ok(r)
  {
    PrintParses(r);
    PrintedProper(r);
    RearrangedSaysSame(l, Layout("", PrintedMembers(r), "", ""));
  }

  /** Different requests never print the same line. */
  lemma PrintInjective(a: Request, b: Request)
    requires Sensible(a) && Sensible(b) && Print(a) == Print(b)
    ensures a == b
  {
    PrintParses(a);
    PrintParses(b);
  }
}
