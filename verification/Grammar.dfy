/** The request language: what a request is, how one may be laid out as a line of
    JSON, and what a layout denotes. Nothing here says how a line is parsed. */
module Grammar {
  import opened Clock

  datatype Command = Status | Pong | ShutdownAck | ShutdownReady | PortSet | Reboot

  datatype Request = Request(
    command: Command, id: uint32, pingId: uint32, shutdownId: uint32, bootId: string, port: string, enabled: bool)

  const MAX_REQUEST: nat := 512

  // ---- Values ----

  datatype Key = Version | Id | Cmd | BootId | PingId | ShutdownId | Port | Enabled

  datatype Value = Number(n: uint32) | Text(s: string) | Flag(b: bool)

  function KeyName(key: Key): string {
    match key
    case Version => "v"
    case Id => "id"
    case Cmd => "cmd"
    case BootId => "boot_id"
    case PingId => "ping_id"
    case ShutdownId => "shutdown_id"
    case Port => "port"
    case Enabled => "enabled"
  }

  /** The buffer behind a text value, terminating zero included. */
  function Capacity(key: Key): nat {
    match key
    case BootId => 9
    case Port => 24
    case _ => 32
  }

  predicate Printable(c: char) { ' ' <= c <= '~' && c != '\\' && c != '"' }

  predicate GoodText(s: string, capacity: nat) {
    |s| < capacity && forall i | 0 <= i < |s| :: Printable(s[i])
  }

  predicate Fits(key: Key, value: Value) {
    match key
    case Cmd | BootId | Port => value.Text? && GoodText(value.s, Capacity(key))
    case Enabled => value.Flag?
    case _ => value.Number?
  }

  // ---- Layouts ----

  predicate Blank(c: char) { c == ' ' || c == '\t' || c == '\r' }

  predicate Blanks(s: string) { forall i | 0 <= i < |s| :: Blank(s[i]) }

  /** A member with the white space before its key, around its colon and after its value. */
  datatype Member = Member(key: Key, value: Value, before: string, colon: string, gap: string, after: string)

  datatype Layout = Layout(lead: string, members: seq<Member>, inner: string, tail: string)

  function Digit(d: nat): char
    requires d < 10
  {
    '0' + d as char
  }

  function Decimal(n: nat): string {
    if n < 10 then [Digit(n)] else Decimal(n / 10) + [Digit(n % 10)]
  }

  function Quoted(s: string): string { "\"" + s + "\"" }

  function ValueText(value: Value): string {
    match value
    case Number(n) => Decimal(n)
    case Text(s) => Quoted(s)
    case Flag(b) => if b then "true" else "false"
  }

  function MemberText(m: Member): string {
    m.before + (Quoted(KeyName(m.key)) + (m.colon + (":" + (m.gap + (ValueText(m.value) + m.after)))))
  }

  function MembersText(members: seq<Member>): string
    requires members != []
  {
    if |members| == 1 then MemberText(members[0])
    else MemberText(members[0]) + ("," + MembersText(members[1..]))
  }

  function Render(l: Layout): string {
    l.lead + ("{" + ((if l.members == [] then l.inner else MembersText(l.members)) + ("}" + l.tail)))
  }

  predicate ProperMember(m: Member) {
    Fits(m.key, m.value) && Blanks(m.before) && Blanks(m.colon) && Blanks(m.gap) && Blanks(m.after)
  }

  predicate ProperMembers(members: seq<Member>) {
    forall i | 0 <= i < |members| :: ProperMember(members[i])
  }

  predicate DistinctKeys(members: seq<Member>) {
    forall i, j | 0 <= i < j < |members| :: members[i].key != members[j].key
  }

  predicate Proper(l: Layout) {
    && Blanks(l.lead) && Blanks(l.inner) && Blanks(l.tail)
    && ProperMembers(l.members) && DistinctKeys(l.members)
  }

  type Fields = map<Key, Value>

  /** The values by key. */
  function FieldsOf(members: seq<Member>): Fields {
    if members == [] then map[] else FieldsOf(members[1..])[members[0].key := members[0].value]
  }

  /** With distinct keys the order of the members does not matter. */
  lemma {:induction false} FieldsByKey(members: seq<Member>)
    requires DistinctKeys(members)
    ensures forall key :: key in FieldsOf(members) <==> exists i :: 0 <= i < |members| && members[i].key == key
    ensures forall i | 0 <= i < |members| :: FieldsOf(members)[members[i].key] == members[i].value
  {
    if members != [] {
      var first, others := members[0], members[1..];
      assert forall i | 0 < i < |members| :: members[i] == others[i - 1];
      FieldsByKey(others);
      forall key | key in FieldsOf(members)
        ensures exists i :: 0 <= i < |members| && members[i].key == key
      {
        if key == first.key {
          assert members[0].key == key;
        } else {
          var i :| 0 <= i < |others| && others[i].key == key;
          assert members[i + 1].key == key;
        }
      }
    }
  }

  // ---- Denotation ----

  function CommandName(command: Command): string {
    match command
    case Status => "status"
    case Pong => "pong"
    case ShutdownAck => "shutdown_ack"
    case ShutdownReady => "shutdown_ready"
    case PortSet => "port_set"
    case Reboot => "reboot"
  }

  /** The keys a command takes, no more and no fewer. */
  function KeysOf(command: Command): set<Key> {
    {Version, Id, Cmd}
    + (if command == Status then {} else {BootId})
    + (if command == Pong then {PingId} else {})
    + (if command == ShutdownAck || command == ShutdownReady then {ShutdownId} else {})
    + (if command == PortSet then {Port, Enabled} else {})
  }

  predicate BootIdText(s: string) {
    |s| == 8 && forall i | 0 <= i < 8 :: '0' <= s[i] <= '9' || 'A' <= s[i] <= 'F'
  }

  /** What a request must carry to be sendable: its own fields, and nothing else set. */
  predicate Sensible(r: Request) {
    && r.id != 0
    && (if r.command == Status then r.bootId == "" else BootIdText(r.bootId))
    && (r.command != Pong ==> r.pingId == 0)
    && (r.command != ShutdownAck && r.command != ShutdownReady ==> r.shutdownId == 0)
    && (if r.command == PortSet then GoodText(r.port, Capacity(Port)) else r.port == "" && !r.enabled)
  }

  function ValueOf(r: Request, key: Key): Value {
    match key
    case Version => Number(1)
    case Id => Number(r.id)
    case Cmd => Text(CommandName(r.command))
    case BootId => Text(r.bootId)
    case PingId => Number(r.pingId)
    case ShutdownId => Number(r.shutdownId)
    case Port => Text(r.port)
    case Enabled => Flag(r.enabled)
  }

  /** The fields that say `r`. */
  predicate Denotes(f: Fields, r: Request) {
    Sensible(r) && f.Keys == KeysOf(r.command) && forall key | key in f :: f[key] == ValueOf(r, key)
  }

  /** A line that says `r`: at most 512 characters, and some proper layout of it. */
  ghost predicate Says(line: string, r: Request) {
    |line| <= MAX_REQUEST && exists l :: Proper(l) && Render(l) == line && Denotes(FieldsOf(l.members), r)
  }
}
