/** The request parser: a cursor over a zero-terminated line. The functions give
    what the cursor loops compute; the lemmas say that they accept exactly the
    lines of the grammar. */
module Protocol {
  import opened Options
  import opened Clock
  import opened Grammar

  datatype Error = BadJson | BadRequest | UnsupportedVersion | UnknownCommand

  datatype Parsed<T> = Ok(value: T) | Err(error: Error)

  /** A token and the rest of the line, or no token. */
  datatype Token<T> = Token(value: T, rest: string) | NoToken

  // ---- Tokens ----

  function Space(s: string): (r: string)
    ensures |r| <= |s|
  {
    if s != "" && Blank(s[0]) then Space(s[1..]) else s
  }

  function TextBody(s: string, taken: string, capacity: nat): (t: Token<string>)
    ensures t.Token? ==> |t.rest| < |s|
  {
    if s == "" then NoToken
    else if s[0] == '"' then Token(taken, s[1..])
    else if !Printable(s[0]) || |taken| + 1 >= capacity then NoToken
    else TextBody(s[1..], taken + [s[0]], capacity)
  }

  function TextToken(s: string, capacity: nat): (t: Token<string>)
    ensures t.Token? ==> |t.rest| < |s|
  {
    if s == "" || s[0] != '"' then NoToken else TextBody(s[1..], "", capacity)
  }

  predicate IsDigit(c: char) { '0' <= c <= '9' }

  function DigitValue(c: char): nat
    requires IsDigit(c)
  {
    (c - '0') as nat
  }

  function Digits(s: string, value: uint32): (t: Token<uint32>)
    ensures t.Token? ==> |t.rest| <= |s| && (s != "" && IsDigit(s[0]) ==> |t.rest| < |s|)
  {
    if s == "" || !IsDigit(s[0]) then Token(value, s)
    else if value > (WRAP - 1 - DigitValue(s[0])) / 10 then NoToken
    else Digits(s[1..], value * 10 + DigitValue(s[0]))
  }

  function NumberToken(s: string): (t: Token<uint32>)
    ensures t.Token? ==> |t.rest| < |s|
  {
    if s == "" || !IsDigit(s[0]) then NoToken
    else if s[0] == '0' && |s| > 1 && IsDigit(s[1]) then NoToken
    else Digits(s, 0)
  }

  predicate StartsWith(s: string, prefix: string) { |prefix| <= |s| && s[..|prefix|] == prefix }

  function FlagToken(s: string): (t: Token<bool>)
    ensures t.Token? ==> |t.rest| < |s|
  {
    if StartsWith(s, "true") then Token(true, s[4..])
    else if StartsWith(s, "false") then Token(false, s[5..])
    else NoToken
  }

  function Valued<T>(t: Token<T>, f: T -> Value): Token<Value> {
    if t.NoToken? then NoToken else Token(f(t.value), t.rest)
  }

  function ValueToken(key: Key, s: string): (t: Token<Value>)
    ensures t.Token? ==> |t.rest| < |s|
  {
    match key
    case Cmd | BootId | Port => Valued(TextToken(s, Capacity(key)), x => Text(x))
    case Enabled => Valued(FlagToken(s), b => Flag(b))
    case _ => Valued(NumberToken(s), n => Number(n))
  }

  // ---- What tokens are: each is the text of a value followed by the rest ----

  lemma BlankCons(c: char, w: string)
    requires Blank(c) && Blanks(w)
    ensures Blanks([c] + w)
  {
  }

  lemma {:induction false} SpaceSplits(s: string) returns (w: string)
    ensures Blanks(w) && s == w + Space(s) && (Space(s) == "" || !Blank(Space(s)[0]))
  {
    if s != "" && Blank(s[0]) {
      hide Blanks, Blank;
      var v := SpaceSplits(s[1..]);
      w := [s[0]] + v;
      BlankCons(s[0], v);
      assert s == [s[0]] + (v + Space(s[1..]));
    } else {
      w := "";
    }
  }

  lemma {:induction false} SpaceSkips(w: string, rest: string)
    requires Blanks(w) && (rest == "" || !Blank(rest[0]))
    ensures Space(w + rest) == rest
  {
    if w == "" {
      assert w + rest == rest;
    } else {
      assert (w + rest)[1..] == w[1..] + rest;
      SpaceSkips(w[1..], rest);
    }
  }

  lemma {:induction false} TextSound(s: string, taken: string, capacity: nat)
    requires TextBody(s, taken, capacity).Token? && GoodText(taken, capacity)
    ensures var t := TextBody(s, taken, capacity);
            GoodText(t.value, capacity) && taken <= t.value && s == t.value[|taken|..] + ("\"" + t.rest)
  {
    if s[0] != '"' {
      TextSound(s[1..], taken + [s[0]], capacity);
      var t := TextBody(s, taken, capacity);
      assert t.value[|taken|] == s[0];
      assert t.value[|taken|..] == [s[0]] + t.value[|taken| + 1..];
    }
  }

  lemma {:induction false} TextComplete(text: string, rest: string, taken: string, capacity: nat)
    requires GoodText(taken + text, capacity)
    ensures TextBody(text + ("\"" + rest), taken, capacity) == Token(taken + text, rest)
  {
    var s := text + ("\"" + rest);
    if text == "" {
      assert s == "\"" + rest && s[1..] == rest && taken + text == taken;
    } else {
      assert s[1..] == text[1..] + ("\"" + rest);
      assert (taken + [text[0]]) + text[1..] == taken + text;
      assert Printable((taken + text)[|taken|]);
      TextComplete(text[1..], rest, taken + [text[0]], capacity);
    }
  }

  predicate AllDigits(s: string) { forall i | 0 <= i < |s| :: IsDigit(s[i]) }

  predicate DigitFree(s: string) { s == "" || !IsDigit(s[0]) }

  /** The number that digits spell out after a prefix worth v. */
  function Worth(v: nat, ds: string): nat
    requires AllDigits(ds)
    decreases |ds|
  {
    if ds == "" then v else Worth(v * 10 + DigitValue(ds[0]), ds[1..])
  }

  lemma {:induction false} WorthGrows(v: nat, ds: string)
    requires AllDigits(ds)
    ensures Worth(v, ds) >= v
    decreases |ds|
  {
    if ds != "" {
      WorthGrows(v * 10 + DigitValue(ds[0]), ds[1..]);
    }
  }

  lemma {:induction false} WorthSnoc(v: nat, ds: string, c: char)
    requires AllDigits(ds) && IsDigit(c)
    ensures AllDigits(ds + [c]) && Worth(v, ds + [c]) == Worth(v, ds) * 10 + DigitValue(c)
    decreases |ds|
  {
    if ds == "" {
      assert ds + [c] == [c] && [c][1..] == "";
    } else {
      assert (ds + [c])[1..] == ds[1..] + [c];
      WorthSnoc(v * 10 + DigitValue(ds[0]), ds[1..], c);
    }
  }

  lemma {:induction false} DigitsAre(v: uint32, ds: string, rest: string)
    requires AllDigits(ds) && DigitFree(rest)
    ensures Digits(ds + rest, v) == if Worth(v, ds) < WRAP then Token(Worth(v, ds), rest) else NoToken
    decreases |ds|
  {
    if ds == "" {
      assert ds + rest == rest;
    } else {
      var s, d := ds + rest, DigitValue(ds[0]);
      assert s[1..] == ds[1..] + rest;
      if v > (WRAP - 1 - d) / 10 {
        WorthGrows(v * 10 + d, ds[1..]);
      } else {
        DigitsAre(v * 10 + d, ds[1..], rest);
      }
    }
  }

  lemma {:induction false} DecimalForm(n: nat)
    ensures AllDigits(Decimal(n)) && Decimal(n) != "" && Worth(0, Decimal(n)) == n
    ensures Decimal(n)[0] == '0' ==> n == 0 && |Decimal(n)| == 1
  {
    if n >= 10 {
      DecimalForm(n / 10);
      WorthSnoc(0, Decimal(n / 10), Digit(n % 10));
    }
  }

  lemma NoWorth(ds: string)
    requires ds == ""
    ensures Worth(0, ds) == 0
  {
  }

  lemma {:induction false} DecimalUnique(ds: string)
    requires AllDigits(ds) && ds != "" && (ds[0] == '0' ==> |ds| == 1)
    ensures Decimal(Worth(0, ds)) == ds && (ds[0] != '0' ==> Worth(0, ds) > 0)
  {
    var n := |ds| - 1;
    var front, c := ds[..n], ds[n];
    assert ds == front + [c];
    WorthSnoc(0, front, c);
    hide Worth;
    if n > 0 {
      DecimalUnique(front);
    } else {
      NoWorth(front);
    }
  }

  /** A digit run is a number iff it has no leading zero and is at most 2^32 - 1. */
  lemma NumberExact(ds: string, rest: string)
    requires AllDigits(ds) && ds != "" && DigitFree(rest)
    ensures NumberToken(ds + rest) ==
            if (ds[0] != '0' || |ds| == 1) && Worth(0, ds) < WRAP then Token(Worth(0, ds), rest) else NoToken
  {
    DigitsAre(0, ds, rest);
    var s := ds + rest;
    assert |ds| > 1 ==> s[1] == ds[1];
    assert |ds| == 1 && rest != "" ==> s[1] == rest[0];
  }

  lemma {:induction false} DigitRun(s: string) returns (ds: string, rest: string)
    ensures AllDigits(ds) && DigitFree(rest) && s == ds + rest
  {
    if DigitFree(s) {
      ds, rest := "", s;
    } else {
      var ds';
      ds', rest := DigitRun(s[1..]);
      ds := [s[0]] + ds';
    }
  }

  /** Values read back: the text of any fitting value followed by something that
      cannot continue it. */
  lemma ValueComplete(key: Key, value: Value, rest: string)
    requires Fits(key, value) && DigitFree(rest)
    ensures ValueToken(key, ValueText(value) + rest) == Token(value, rest)
  {
    match value {
      case Number(n) =>
        DecimalForm(n);
        NumberExact(Decimal(n), rest);
      case Text(s) =>
        TextTokenComplete(s, rest, Capacity(key));
      case Flag(b) =>
        FlagComplete(b, rest);
    }
  }

  lemma TextTokenComplete(text: string, rest: string, capacity: nat)
    requires GoodText(text, capacity)
    ensures TextToken(Quoted(text) + rest, capacity) == Token(text, rest)
  {
    var s := Quoted(text) + rest;
    assert s[1..] == text + ("\"" + rest);
    assert "" + text == text;
    TextComplete(text, rest, "", capacity);
  }

  lemma FlagComplete(b: bool, rest: string)
    ensures FlagToken((if b then "true" else "false") + rest) == Token(b, rest)
  {
    var s := (if b then "true" else "false") + rest;
    if b {
      assert s[..4] == "true" && s[4..] == rest;
    } else {
      assert s[0] == 'f' && s[..5] == "false" && s[5..] == rest;
      assert "true"[0] == 't' && (|s| >= 4 ==> s[..4][0] == 'f');
    }
  }

  /** And whatever reads as a value is the text of a fitting value. */
  lemma ValueSound(key: Key, s: string)
    requires ValueToken(key, s).Token?
    ensures var t := ValueToken(key, s); Fits(key, t.value) && s == ValueText(t.value) + t.rest
  {
    var t := ValueToken(key, s);
    match key {
      case Cmd | BootId | Port =>
        TextTokenSound(s, Capacity(key));
      case Enabled =>
      case _ =>
        var ds, rest := DigitRun(s);
        NumberExact(ds, rest);
        DecimalUnique(ds);
    }
  }

  lemma TextTokenSound(s: string, capacity: nat)
    requires TextToken(s, capacity).Token? && capacity > 0
    ensures var t := TextToken(s, capacity); GoodText(t.value, capacity) && s == Quoted(t.value) + t.rest
  {
    TextSound(s[1..], "", capacity);
    var t := TextToken(s, capacity);
    assert t.value[0..] == t.value;
    assert s == "\"" + s[1..];
  }

  // ---- The object ----

  function KeyOf(name: string): Parsed<Key> {
    if name == "v" then Ok(Version)
    else if name == "id" then Ok(Id)
    else if name == "cmd" then Ok(Cmd)
    else if name == "boot_id" then Ok(BootId)
    else if name == "ping_id" then Ok(PingId)
    else if name == "shutdown_id" then Ok(ShutdownId)
    else if name == "port" then Ok(Port)
    else if name == "enabled" then Ok(Enabled)
    else Err(BadRequest)
  }

  predicate Next(s: string, c: char) { s != "" && s[0] == c }

  /** A key not seen before, up to and including the blanks after its colon. */
  function KeyToken(s: string, fields: Fields): (r: Parsed<(Key, string)>)
    ensures r.Ok? ==> r.value.0 !in fields && |r.value.1| < |s|
  {
    var name := TextToken(s, 32);
    if name.NoToken? then Err(BadJson)
    else
      var s := Space(name.rest);
      if !Next(s, ':') then Err(BadJson)
      else
        var key := KeyOf(name.value);
        if key.Err? || key.value in fields then Err(BadRequest)
        else Ok((key.value, Space(s[1..])))
  }

  /** A whole member, up to and including the blanks after its value. */
  function MemberToken(s: string, fields: Fields): (r: Parsed<(Key, Value, string)>)
    ensures r.Ok? ==> r.value.0 !in fields && |r.value.2| < |s|
  {
    var key := KeyToken(s, fields);
    if key.Err? then Err(key.error)
    else
      var value := ValueToken(key.value.0, key.value.1);
      if value.NoToken? then Err(BadJson) else Ok((key.value.0, value.value, Space(value.rest)))
  }

  function End(s: string, fields: Fields): Parsed<Fields> {
    if Space(s) == "" then Ok(fields) else Err(BadJson)
  }

  function Members(s: string, fields: Fields): Parsed<Fields>
    decreases |s|
  {
    var m := MemberToken(s, fields);
    if m.Err? then Err(m.error)
    else
      var fields, rest := fields[m.value.0 := m.value.1], m.value.2;
      if Next(rest, '}') then End(rest[1..], fields)
      else if !Next(rest, ',') || Next(Space(rest[1..]), '}') then Err(BadJson)
      else Members(Space(rest[1..]), fields)
  }

  function Object(s: string): Parsed<Fields> {
    if !Next(Space(s), '{') then Err(BadJson)
    else
      var s := Space(Space(s)[1..]);
      if Next(s, '}') then End(s[1..], map[]) else Members(s, map[])
  }

  // ---- The object is read exactly as laid out ----

  lemma {:induction false} KeyOfName(key: Key)
    ensures KeyOf(KeyName(key)) == Ok(key) && GoodText(KeyName(key), 32)
  {
  }

  lemma KeyOfSound(name: string)
    ensures KeyOf(name).Ok? ==> name == KeyName(KeyOf(name).value)
  {
  }

  lemma ValueTextStart(key: Key, value: Value, rest: string)
    requires Fits(key, value)
    ensures var s := ValueText(value) + rest; s != "" && !Blank(s[0])
  {
    if value.Number? {
      DecimalForm(value.n);
    }
  }

  /** What follows a member's text: a comma or the closing brace. */
  predicate Closes(rest: string) { Next(rest, ',') || Next(rest, '}') }

  lemma QuotedStart(s: string, rest: string)
    ensures var t := Quoted(s) + rest; t != "" && t[0] == '"'
  {
  }

  lemma MemberComplete(m: Member, rest: string, fields: Fields)
    requires ProperMember(m) && m.key !in fields && Closes(rest)
    ensures MemberToken(Space(MemberText(m) + rest), fields) == Ok((m.key, m.value, rest))
  {
    hide TextToken, ValueToken, Space, GoodText, Quoted, KeyOf, KeyName, ValueText, MemberText, Fits;
    var r5 := m.after + rest;
    var r4 := ValueText(m.value) + r5;
    var r3 := m.gap + r4;
    var r2 := ":" + r3;
    var r1 := m.colon + r2;
    var r0 := Quoted(KeyName(m.key)) + r1;
    MemberTextThen(m, rest);
    assert r0[0] == '"' by {
      QuotedStart(KeyName(m.key), r1);
    }
    SpaceSkips(m.before, r0);
    KeyOfName(m.key);
    TextTokenComplete(KeyName(m.key), r1, 32);
    SpaceSkips(m.colon, r2);
    assert r2[1..] == r3;
    ValueTextStart(m.key, m.value, r5);
    SpaceSkips(m.gap, r4);
    assert DigitFree(r5);
    ValueComplete(m.key, m.value, r5);
    SpaceSkips(m.after, rest);
  }

  lemma MemberTextThen(m: Member, rest: string)
    ensures MemberText(m) + rest ==
            m.before + (Quoted(KeyName(m.key)) + (m.colon + (":" + (m.gap + (ValueText(m.value) + (m.after + rest))))))
  {
  }

  lemma KeySound(s: string, fields: Fields) returns (colon: string, gap: string)
    requires KeyToken(s, fields).Ok?
    ensures var t := KeyToken(s, fields).value;
            && Blanks(colon) && Blanks(gap) && (t.1 == "" || !Blank(t.1[0]))
            && s == Quoted(KeyName(t.0)) + (colon + (":" + (gap + t.1)))
  {
    hide TextToken, Space, Blanks, GoodText, Quoted, KeyOf, KeyName;
    var name := TextToken(s, 32);
    TextTokenSound(s, 32);
    KeyOfSound(name.value);
    colon := SpaceSplits(name.rest);
    var s1 := Space(name.rest);
    gap := SpaceSplits(s1[1..]);
    assert s1 == ":" + s1[1..];
  }

  lemma MemberSound(s: string, fields: Fields) returns (m: Member)
    requires MemberToken(s, fields).Ok?
    ensures var t := MemberToken(s, fields).value;
            ProperMember(m) && m.before == "" && m.key == t.0 && m.value == t.1 && s == MemberText(m) + t.2
            && (t.2 == "" || !Blank(t.2[0]))
  {
    hide KeyToken, ValueToken, Space, Fits, Quoted, KeyName, ValueText, MemberText;
    var key := KeyToken(s, fields).value;
    var colon, gap := KeySound(s, fields);
    ValueSound(key.0, key.1);
    var value := ValueToken(key.0, key.1);
    var after := SpaceSplits(value.rest);
    m := Member(key.0, value.value, "", colon, gap, after);
    MemberTextThen(m, Space(value.rest));
    assert Blanks("");
  }

  predicate NewKeys(members: seq<Member>, fields: Fields) {
    forall i | 0 <= i < |members| :: members[i].key !in fields
  }

  lemma EndExact(s: string, fields: Fields)
    ensures End(s, fields) == if Blanks(s) then Ok(fields) else Err(BadJson)
  {
    if Blanks(s) {
      assert s + "" == s;
      SpaceSkips(s, "");
    } else {
      var w := SpaceSplits(s);
      assert Space(s) == "" ==> s == w;
    }
  }

  lemma {:induction false} MembersComplete(members: seq<Member>, fields: Fields, tail: string)
    requires members != [] && ProperMembers(members) && DistinctKeys(members) && NewKeys(members, fields)
    requires Blanks(tail)
    ensures var s := Space(MembersText(members) + ("}" + tail));
            Members(s, fields) == Ok(fields + FieldsOf(members)) && Next(s, '"')
    decreases |members|
  {
    hide MemberToken, Space, ProperMember, MemberText, End, FieldsOf, Blanks;
    var m, others := members[0], members[1..];
    var end := "}" + tail;
    var rest := if others == [] then end else "," + (MembersText(others) + end);
    assert MembersText(members) + end == MemberText(m) + rest;
    MemberComplete(m, rest, fields);
    MemberStart(Space(MemberText(m) + rest), fields);
    var added := fields[m.key := m.value];
    if others == [] {
      assert rest[1..] == tail;
      EndExact(tail, added);
      OneField(m, fields);
      assert [m] == members;
    } else {
      assert rest[1..] == MembersText(others) + end;
      assert forall i | 0 <= i < |others| :: others[i] == members[i + 1];
      MembersComplete(others, added, tail);
      assert [m] + others == members;
      MembersCons(m, others, fields);
    }
  }

  lemma OneField(m: Member, fields: Fields)
    ensures fields + FieldsOf([m]) == fields[m.key := m.value]
  {
    assert [m][1..] == [];
  }

  lemma MemberStart(s: string, fields: Fields)
    requires MemberToken(s, fields).Ok?
    ensures Next(s, '"')
  {
  }

  /** White space before a list of members goes into its first member. */
  function Indented(w: string, members: seq<Member>): seq<Member>
    requires members != []
  {
    members[0 := members[0].(before := w)]
  }

  lemma MemberIndented(m: Member, w: string)
    requires m.before == ""
    ensures MemberText(m.(before := w)) == w + MemberText(m)
  {
  }

  lemma IndentedText(w: string, members: seq<Member>)
    requires members != [] && members[0].before == ""
    ensures MembersText(Indented(w, members)) == w + MembersText(members)
    ensures FieldsOf(Indented(w, members)) == FieldsOf(members)
  {
    hide MemberText;
    MemberIndented(members[0], w);
    assert Indented(w, members)[1..] == members[1..];
  }

  lemma MembersCons(m: Member, others: seq<Member>, fields: Fields)
    requires DistinctKeys(others) && m.key !in fields && NewKeys(others, fields[m.key := m.value])
    ensures DistinctKeys([m] + others) && NewKeys([m] + others, fields)
    ensures fields[m.key := m.value] + FieldsOf(others) == fields + FieldsOf([m] + others)
  {
    FieldsByKey(others);
    assert m.key !in FieldsOf(others);
    assert ([m] + others)[1..] == others;
  }

  lemma NoKeys(fields: Fields)
    ensures DistinctKeys([]) && NewKeys([], fields)
  {
  }

  lemma IndentedKeys(w: string, members: seq<Member>, fields: Fields)
    requires members != [] && Blanks(w) && ProperMembers(members) && DistinctKeys(members) && NewKeys(members, fields)
    ensures ProperMembers(Indented(w, members))
    ensures DistinctKeys(Indented(w, members)) && NewKeys(Indented(w, members), fields)
  {
  }

  lemma {:induction false} MembersSound(s: string, fields: Fields) returns (members: seq<Member>, tail: string)
    requires Members(s, fields).Ok?
    ensures members != [] && ProperMembers(members) && DistinctKeys(members) && NewKeys(members, fields) && Blanks(tail)
    ensures members[0].before == "" && s == MembersText(members) + ("}" + tail)
    ensures Members(s, fields).value == fields + FieldsOf(members)
    decreases |s|
  {
    hide MemberToken, Space, ProperMember, MemberText, End, DistinctKeys, NewKeys;
    var t := MemberToken(s, fields).value;
    var m := MemberSound(s, fields);
    var added, rest := fields[t.0 := t.1], t.2;
    if Next(rest, '}') {
      EndExact(rest[1..], added);
      members, tail := [m], rest[1..];
      NoKeys(added);
      MembersCons(m, [], fields);
      assert [m] + [] == [m];
      assert rest == "}" + tail;
    } else {
      var w := SpaceSplits(rest[1..]);
      var others, tail' := MembersSound(Space(rest[1..]), added);
      IndentedText(w, others);
      tail := tail';
      IndentedKeys(w, others, added);
      MembersCons(m, Indented(w, others), fields);
      members := [m] + Indented(w, others);
      assert rest == "," + (w + Space(rest[1..]));
    }
  }

  /** Reading an object accepts exactly the proper layouts and yields their fields. */
  lemma ObjectComplete(l: Layout)
    requires Proper(l)
    ensures Object(Render(l)) == Ok(FieldsOf(l.members))
  {
    hide Space, MemberToken, End, Blanks, FieldsOf;
    var end := "}" + l.tail;
    var body := (if l.members == [] then l.inner else MembersText(l.members)) + end;
    var s := "{" + body;
    assert Render(l) == l.lead + s;
    SpaceSkips(l.lead, s);
    assert s[1..] == body;
    if l.members == [] {
      SpaceSkips(l.inner, end);
      assert end[1..] == l.tail;
      EndExact(l.tail, map[]);
      NoFields();
    } else {
      MembersComplete(l.members, map[], l.tail);
      assert map[] + FieldsOf(l.members) == FieldsOf(l.members);
    }
  }

  lemma NoFields()
    ensures FieldsOf([]) == map[]
  {
  }

  lemma ObjectSound(s: string) returns (l: Layout)
    requires Object(s).Ok?
    ensures Proper(l) && Render(l) == s && Object(s).value == FieldsOf(l.members)
  {
    hide Space, MemberToken, End, Blanks, FieldsOf, Members, MembersText;
    var lead := SpaceSplits(s);
    var s1 := Space(s);
    var w := SpaceSplits(s1[1..]);
    var s2 := Space(s1[1..]);
    assert s1 == "{" + (w + s2);
    if Next(s2, '}') {
      EndExact(s2[1..], map[]);
      NoFields();
      l := Layout(lead, [], w, s2[1..]);
      assert s2 == "}" + s2[1..];
    } else {
      var members, tail := MembersSound(s2, map[]);
      IndentedText(w, members);
      IndentedKeys(w, members, map[]);
      l := Layout(lead, Indented(w, members), "", tail);
      NoBlanks();
      assert map[] + FieldsOf(members) == FieldsOf(members);
      assert w + s2 == MembersText(Indented(w, members)) + ("}" + tail);
    }
  }

  lemma NoBlanks()
    ensures Blanks("")
  {
  }

  // ---- The request ----

  function CommandOf(name: string): Option<Command> {
    if name == "status" then Some(Status)
    else if name == "pong" then Some(Pong)
    else if name == "shutdown_ack" then Some(ShutdownAck)
    else if name == "shutdown_ready" then Some(ShutdownReady)
    else if name == "port_set" then Some(PortSet)
    else if name == "reboot" then Some(Reboot)
    else None
  }

  function NumberIn(f: Fields, key: Key): uint32 {
    if key in f && f[key].Number? then f[key].n else 0
  }

  function TextIn(f: Fields, key: Key): string {
    if key in f && f[key].Text? then f[key].s else ""
  }

  function RequestIn(f: Fields, command: Command): Request {
    Request(command, NumberIn(f, Id), NumberIn(f, PingId), NumberIn(f, ShutdownId),
            TextIn(f, BootId), TextIn(f, Port), Enabled in f && f[Enabled] == Flag(true))
  }

  /** The checks after the object was read, in their order. */
  function Check(f: Fields): Parsed<Request> {
    if Version !in f || Id !in f || Cmd !in f || NumberIn(f, Id) == 0 then Err(BadRequest)
    else if NumberIn(f, Version) != 1 then Err(UnsupportedVersion)
    else
      var command := CommandOf(TextIn(f, Cmd));
      if command.None? then Err(UnknownCommand)
      else if f.Keys != KeysOf(command.value) then Err(BadRequest)
      else if command.value != Status && !BootIdText(TextIn(f, BootId)) then Err(BadRequest)
      else Ok(RequestIn(f, command.value))
  }

  function Parse(line: string): Parsed<Request> {
    if |line| > 512 then Err(BadJson)
    else
      var fields := Object(line);
      if fields.Err? then Err(fields.error) else Check(fields.value)
  }

  /** Every value has the kind its key asks for. */
  predicate WellTyped(f: Fields) { forall key | key in f :: Fits(key, f[key]) }

  lemma ProperTyped(members: seq<Member>)
    requires ProperMembers(members) && DistinctKeys(members)
    ensures WellTyped(FieldsOf(members))
  {
    FieldsByKey(members);
  }

  lemma CommandOfName(command: Command)
    ensures CommandOf(CommandName(command)) == Some(command)
  {
  }

  lemma CommandOfSound(name: string)
    ensures CommandOf(name).Some? ==> name == CommandName(CommandOf(name).value)
  {
  }

  lemma CheckSound(f: Fields)
    requires WellTyped(f) && Check(f).Ok?
    ensures Denotes(f, Check(f).value)
  {
    CommandOfSound(TextIn(f, Cmd));
  }

  lemma CheckComplete(f: Fields, r: Request)
    requires Denotes(f, r)
    ensures Check(f) == Ok(r)
  {
    CommandOfName(r.command);
  }

  /** The parser accepts a line as `r` exactly when the line says `r`. */
  lemma ParseExact(line: string, r: Request)
    ensures Parse(line) == Ok(r) <==> Says(line, r)
  {
    hide Object, Check, Denotes, Render, FieldsOf, Proper;
    if Parse(line) == Ok(r) {
      var l := ObjectSound(line);
      LayoutTyped(l);
      CheckSound(FieldsOf(l.members));
    }
    if Says(line, r) {
      var l :| Proper(l) && Render(l) == line && Denotes(FieldsOf(l.members), r);
      ObjectComplete(l);
      CheckComplete(FieldsOf(l.members), r);
    }
  }

  lemma LayoutTyped(l: Layout)
    requires Proper(l)
    ensures WellTyped(FieldsOf(l.members))
  {
    ProperTyped(l.members);
  }

  /** Why a laid-out object of at most 512 characters is refused, in the order of the answers. */
  lemma LaidOutRefusals(l: Layout)
    requires Proper(l) && |Render(l)| <= MAX_REQUEST
    ensures var f, answer := FieldsOf(l.members), Parse(Render(l));
            var versioned := Version in f && Id in f && Cmd in f && f[Id] != Number(0);
            && (answer == Err(UnsupportedVersion) <==> versioned && f[Version] != Number(1))
            && (answer == Err(UnknownCommand) <==>
                  versioned && f[Version] == Number(1) && forall c: Command :: f[Cmd] != Text(CommandName(c)))
            && answer != Err(BadJson)
            && (answer == Err(BadRequest) <==>
                  !versioned || (f[Version] == Number(1) && (exists c: Command :: f[Cmd] == Text(CommandName(c)))
                                 && !exists r :: Denotes(f, r)))
  {
    hide Object, Denotes, Render, FieldsOf, Proper, CommandName, CommandOf;
    var f := FieldsOf(l.members);
    LayoutTyped(l);
    ObjectComplete(l);
    CommandOfSound(TextIn(f, Cmd));
    forall c: Command
      ensures CommandOf(CommandName(c)) == Some(c)
    {
      CommandOfName(c);
    }
    if Check(f).Ok? {
      CheckSound(f);
    } else {
      forall r
        ensures !Denotes(f, r)
      {
        if Denotes(f, r) {
          CheckComplete(f, r);
        }
      }
    }
  }

  /** Anything that is not a laid-out object is BAD_JSON or BAD_REQUEST. */
  lemma StrayLinesRefused(line: string)
    requires forall l | Proper(l) :: Render(l) != line
    ensures Parse(line) == Err(BadJson) || Parse(line) == Err(BadRequest)
  {
    hide Proper, Render, FieldsOf;
    if Object(line).Ok? {
      var l := ObjectSound(line);
    } else {
      ObjectErrors(line);
    }
  }

  lemma ObjectErrors(s: string)
    requires Object(s).Err?
    ensures Object(s).error == BadJson || Object(s).error == BadRequest
  {
    var s1 := Space(s);
    if Next(s1, '{') && !Next(Space(s1[1..]), '}') {
      MembersErrors(Space(s1[1..]), map[]);
    }
  }

  lemma {:induction false} MembersErrors(s: string, fields: Fields)
    requires Members(s, fields).Err?
    ensures Members(s, fields).error == BadJson || Members(s, fields).error == BadRequest
    decreases |s|
  {
    var m := MemberToken(s, fields);
    if m.Ok? {
      var rest := m.value.2;
      if Next(rest, ',') && !Next(Space(rest[1..]), '}') {
        MembersErrors(Space(rest[1..]), fields[m.value.0 := m.value.1]);
      }
    }
  }

  // ---- Rearranging a line ----

  /** Same keys with the same values, in any order and with any white space. */
  predicate Rearranged(a: seq<Member>, b: seq<Member>) {
    && (forall i | 0 <= i < |a| :: exists j :: 0 <= j < |b| && b[j].key == a[i].key && b[j].value == a[i].value)
    && (forall j | 0 <= j < |b| :: exists i :: 0 <= i < |a| && a[i].key == b[j].key && a[i].value == b[j].value)
  }

  /** Order and white space never change what a line says. */
  lemma RearrangedSaysSame(a: Layout, b: Layout)
    requires Proper(a) && Proper(b) && Rearranged(a.members, b.members)
    requires |Render(a)| <= MAX_REQUEST && |Render(b)| <= MAX_REQUEST
    ensures Parse(Render(a)) == Parse(Render(b))
  {
    RearrangedFields(a.members, b.members);
    hide Object, Check, Render, FieldsOf, Proper;
    ObjectComplete(a);
    ObjectComplete(b);
  }

  lemma RearrangedFields(a: seq<Member>, b: seq<Member>)
    requires DistinctKeys(a) && DistinctKeys(b) && Rearranged(a, b)
    ensures FieldsOf(a) == FieldsOf(b)
  {
    hide FieldsOf;
    FieldsByKey(a);
    FieldsByKey(b);
    forall key
      ensures key in FieldsOf(a) <==> key in FieldsOf(b)
      ensures key in FieldsOf(a) ==> FieldsOf(a)[key] == FieldsOf(b)[key]
    {
      if key in FieldsOf(a) {
        var i :| 0 <= i < |a| && a[i].key == key;
        var j :| 0 <= j < |b| && b[j].key == a[i].key && b[j].value == a[i].value;
        assert FieldsOf(b)[b[j].key] == b[j].value;
      }
      if key in FieldsOf(b) {
        var j :| 0 <= j < |b| && b[j].key == key;
        var i :| 0 <= i < |a| && a[i].key == b[j].key && a[i].value == b[j].value;
        assert a[i].key in FieldsOf(a);
      }
    }
  }

  // ---- The cursor loops ----

  /** A zero-terminated line: every read is of a character or of the terminator. */
  predicate Terminated(line: string) { forall i | 0 <= i < |line| :: line[i] != '\0' }

  function Char(line: string, p: nat): char
    requires p <= |line|
  {
    if p < |line| then line[p] else '\0'
  }

  method SkipSpace(line: string, p: nat) returns (q: nat)
    requires p <= |line|
    ensures p <= q <= |line| && line[q..] == Space(line[p..])
  {
    q := p;
    while Blank(Char(line, q))
      invariant p <= q <= |line| && Space(line[q..]) == Space(line[p..])
      decreases |line| - q
    {
      assert line[q..][1..] == line[q + 1..];
      q := q + 1;
    }
  }

  method ReadText(line: string, p: nat, capacity: nat) returns (ok: bool, text: string, q: nat)
    requires p <= |line| && Terminated(line)
    ensures ok == TextToken(line[p..], capacity).Token?
    ensures ok ==> p <= q <= |line| && TextToken(line[p..], capacity) == Token(text, line[q..])
  {
    ok, text, q := false, "", p;
    if Char(line, q) != '"' {
      return;
    }
    q := q + 1;
    assert line[p..][1..] == line[q..];
    while Char(line, q) != '\0' && Char(line, q) != '"'
      invariant p < q <= |line|
      invariant TextToken(line[p..], capacity) == TextBody(line[q..], text, capacity)
      decreases |line| - q
    {
      var c := line[q];
      assert line[q..][1..] == line[q + 1..];
      q := q + 1;
      if !Printable(c) || |text| + 1 >= capacity {
        return;
      }
      text := text + [c];
    }
    if Char(line, q) == '"' {
      assert line[q..][1..] == line[q + 1..];
      q := q + 1;
      ok := true;
    }
  }

  method ReadNumber(line: string, p: nat) returns (ok: bool, value: uint32, q: nat)
    requires p <= |line|
    ensures ok == NumberToken(line[p..]).Token?
    ensures ok ==> p <= q <= |line| && NumberToken(line[p..]) == Token(value, line[q..])
  {
    ok, value, q := false, 0, p;
    if !IsDigit(Char(line, p)) || (Char(line, p) == '0' && IsDigit(Char(line, p + 1))) {
      return;
    }
    while IsDigit(Char(line, q))
      invariant p <= q <= |line|
      invariant NumberToken(line[p..]) == Digits(line[q..], value)
      decreases |line| - q
    {
      var digit := DigitValue(line[q]);
      assert line[q..][1..] == line[q + 1..];
      q := q + 1;
      if value > (WRAP - 1 - digit) / 10 {
        return;
      }
      value := value * 10 + digit;
    }
    ok := true;
  }

  /** Compares up to the first difference, never past the terminator. */
  method Matches(line: string, p: nat, word: string) returns (same: bool)
    requires p <= |line| && Terminated(line) && Terminated(word)
    ensures same == StartsWith(line[p..], word)
  {
    var i := 0;
    while i < |word| && Char(line, p + i) == word[i]
      invariant i <= |word| && p + i <= |line| && line[p..p + i] == word[..i]
    {
      assert line[p..p + i + 1] == line[p..p + i] + [line[p + i]] && word[..i + 1] == word[..i] + [word[i]];
      i := i + 1;
    }
    same := i == |word|;
    if same {
      assert line[p..][..i] == line[p..p + i] && word[..i] == word;
    }
  }

  method ReadFlag(line: string, p: nat) returns (ok: bool, flag: bool, q: nat)
    requires p <= |line| && Terminated(line)
    ensures ok == FlagToken(line[p..]).Token?
    ensures ok ==> p <= q <= |line| && FlagToken(line[p..]) == Token(flag, line[q..])
  {
    ok, flag, q := true, true, p;
    var yes := Matches(line, p, "true");
    if yes {
      q := p + 4;
      assert line[p..][4..] == line[q..];
    } else {
      flag := false;
      ok := Matches(line, p, "false");
      if ok {
        q := p + 5;
        assert line[p..][5..] == line[q..];
      }
    }
  }

  method ReadValue(line: string, p: nat, key: Key) returns (ok: bool, value: Value, q: nat)
    requires p <= |line| && Terminated(line)
    ensures ok == ValueToken(key, line[p..]).Token?
    ensures ok ==> p <= q <= |line| && ValueToken(key, line[p..]) == Token(value, line[q..])
  {
    match key {
      case Cmd | BootId | Port =>
        var text;
        ok, text, q := ReadText(line, p, Capacity(key));
        value := Text(text);
      case Enabled =>
        var flag;
        ok, flag, q := ReadFlag(line, p);
        value := Flag(flag);
      case _ =>
        var n;
        ok, n, q := ReadNumber(line, p);
        value := Number(n);
    }
  }

  /** One member from its key to the blanks after its value. */
  method ReadMember(line: string, p: nat, fields: Fields) returns (member: Parsed<(Key, Value)>, q: nat)
    requires p <= |line| && Terminated(line)
    ensures p <= q <= |line|
    ensures var t := MemberToken(line[p..], fields);
            if t.Err? then member == Err(t.error)
            else member == Ok((t.value.0, t.value.1)) && line[q..] == t.value.2 && q > p
  {
    hide TextToken, ValueToken, KeyOf, Space;
    q := p;
    var ok, name, q1 := ReadText(line, p, 32);
    if !ok {
      return Err(BadJson), q;
    }
    q1 := SkipSpace(line, q1);
    if Char(line, q1) != ':' {
      return Err(BadJson), q;
    }
    assert line[q1..][1..] == line[q1 + 1..];
    q1 := SkipSpace(line, q1 + 1);
    var key := KeyOf(name);
    if key.Err? || key.value in fields {
      return Err(BadRequest), q;
    }
    var value, q2;
    ok, value, q2 := ReadValue(line, q1, key.value);
    if !ok {
      return Err(BadJson), q;
    }
    member := Ok((key.value, value));
    q := SkipSpace(line, q2);
  }

  method ReadEnd(line: string, p: nat, fields: Fields) returns (result: Parsed<Fields>)
    requires p <= |line| && Terminated(line)
    ensures result == End(line[p..], fields)
  {
    var q := SkipSpace(line, p);
    result := if Char(line, q) == '\0' then Ok(fields) else Err(BadJson);
  }

  method ReadObject(line: string) returns (result: Parsed<Fields>)
    requires Terminated(line)
    ensures result == Object(line)
  {
    hide MemberToken, Space, End;
    assert line[0..] == line;
    var p := SkipSpace(line, 0);
    if Char(line, p) != '{' {
      return Err(BadJson);
    }
    assert line[p..][1..] == line[p + 1..];
    p := SkipSpace(line, p + 1);
    var fields: Fields := map[];
    if Char(line, p) != '}' {
      result := ReadMembers(line, p);
    } else {
      assert line[p..][1..] == line[p + 1..];
      result := ReadEnd(line, p + 1, fields);
    }
  }

  method ReadMembers(line: string, start: nat) returns (result: Parsed<Fields>)
    requires Terminated(line) && start <= |line|
    ensures result == Members(line[start..], map[])
  {
    hide MemberToken, Space, End;
    var p, fields := start, map[];
    while true
      invariant start <= p <= |line| && Members(line[start..], map[]) == Members(line[p..], fields)
      decreases |line| - p
    {
      var member, q := ReadMember(line, p, fields);
      if member.Err? {
        return Err(member.error);
      }
      fields := fields[member.value.0 := member.value.1];
      if Char(line, q) == '}' {
        assert line[q..][1..] == line[q + 1..];
        result := ReadEnd(line, q + 1, fields);
        return;
      }
      if Char(line, q) != ',' {
        return Err(BadJson);
      }
      assert line[q..][1..] == line[q + 1..];
      p := SkipSpace(line, q + 1);
      if Char(line, p) == '}' {
        return Err(BadJson);
      }
    }
  }

  /** The request parser itself. */
  method ParseLine(line: string) returns (result: Parsed<Request>)
    requires Terminated(line)
    ensures result == Parse(line)
    ensures forall r :: result == Ok(r) <==> Says(line, r)
  {
    forall r
      ensures Parse(line) == Ok(r) <==> Says(line, r)
    {
      ParseExact(line, r);
    }
    hide Object, Says;
    if |line| > MAX_REQUEST {
      return Err(BadJson);
    }
    var fields := ReadObject(line);
    result := if fields.Err? then Err(fields.error) else Check(fields.value);
  }
}
