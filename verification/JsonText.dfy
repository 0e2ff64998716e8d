/** Outgoing messages: a bounded buffer that fails as a whole, and the escaping of
    text in it (section 7 of RFC 8259). */
module JsonText {
  import opened Options

  const MAX_MESSAGE: nat := 8192

  function HexDigit(n: nat): char
    requires n < 16
  {
    if n < 10 then '0' + n as char else 'a' + (n - 10) as char
  }

  function Escaped(c: char): string {
    if c == '"' || c == '\\' then ['\\', c]
    else if c < ' ' then ['\\', 'u', '0', '0', HexDigit(c as nat / 16), HexDigit(c as nat % 16)]
    else [c]
  }

  function EscapedText(s: string): string {
    if s == "" then "" else EscapedText(s[..|s| - 1]) + Escaped(s[|s| - 1])
  }

  /** A JSON string literal. */
  function Quoted(s: string): string { "\"" + EscapedText(s) + "\"" }

  // ---- Reading a literal back ----

  function HexValue(c: char): Option<nat> {
    if '0' <= c <= '9' then Some((c - '0') as nat)
    else if 'a' <= c <= 'f' then Some((c - 'a') as nat + 10)
    else None
  }

  /** The first character of the body of a literal and how many characters say it. */
  function ReadOne(s: string): Option<(char, nat)>
    requires s != ""
  {
    if s[0] == '"' || s[0] < ' ' then None
    else if s[0] != '\\' then Some((s[0], 1))
    else if |s| >= 2 && (s[1] == '"' || s[1] == '\\') then Some((s[1], 2))
    else if |s| >= 6 && s[1..4] == "u00" && HexValue(s[4]).Some? && HexValue(s[5]).Some? then
      Some(((HexValue(s[4]).value * 16 + HexValue(s[5]).value) as char, 6))
    else None
  }

  /** The text of a literal's body up to its closing quote, and what follows it. */
  function ReadBody(s: string): Option<(string, string)> {
    if s == "" then None
    else if s[0] == '"' then Some(("", s[1..]))
    else
      var one := ReadOne(s);
      if one.None? then None
      else
        var rest := ReadBody(s[one.value.1..]);
        if rest.None? then None else Some(([one.value.0] + rest.value.0, rest.value.1))
  }

  lemma EscapedReads(c: char, rest: string)
    requires c as nat < 256
    ensures ReadOne(Escaped(c) + rest) == Some((c, |Escaped(c)|)) && (Escaped(c) + rest)[0] != '"'
  {
    var s := Escaped(c) + rest;
    if c < ' ' && c != '"' && c != '\\' {
      var n := c as nat;
      assert s[1..4] == "u00";
      assert HexValue(s[4]) == Some(n / 16) && HexValue(s[5]) == Some(n % 16);
    }
  }

  predicate Bytes(s: string) { forall i | 0 <= i < |s| :: s[i] as nat < 256 }

  /** Front to back, so that reading can follow. */
  lemma {:induction false} EscapedCons(s: string)
    requires s != ""
    ensures EscapedText(s) == Escaped(s[0]) + EscapedText(s[1..])
  {
    var n := |s| - 1;
    if n > 0 {
      EscapedCons(s[..n]);
      assert s[..n][1..] == s[1..][..n - 1];
      assert s[1..][n - 1] == s[n];
    } else {
      assert s[..0] == "" && s[1..] == "";
    }
  }

  lemma {:induction false} BodyReads(s: string, rest: string)
    requires Bytes(s)
    ensures ReadBody(EscapedText(s) + "\"" + rest) == Some((s, rest))
    decreases |s|
  {
    if s == "" {
      assert EscapedText(s) + "\"" + rest == "\"" + rest;
    } else {
      EscapedCons(s);
      hide Escaped, EscapedText, ReadOne;
      var first, tail := Escaped(s[0]), EscapedText(s[1..]) + "\"" + rest;
      Appended(first, EscapedText(s[1..]) + "\"", rest);
      Appended(first, EscapedText(s[1..]), "\"");
      EscapedReads(s[0], tail);
      BodyReads(s[1..], rest);
      assert (first + tail)[|first|..] == tail;
      assert [s[0]] + s[1..] == s;
    }
  }

  /** Whatever text is quoted, a JSON reader gets that text back and finds the
      literal's end where it was put. */
  lemma QuotedReads(s: string, rest: string)
    requires Bytes(s)
    ensures (Quoted(s) + rest)[0] == '"' && ReadBody((Quoted(s) + rest)[1..]) == Some((s, rest))
  {
    assert (Quoted(s) + rest)[1..] == EscapedText(s) + "\"" + rest;
    BodyReads(s, rest);
  }

  /** And quoted text never ends a line early. */
  lemma {:induction false} QuotedOneLine(s: string)
    ensures '\n' !in EscapedText(s)
  {
    if s != "" {
      QuotedOneLine(s[..|s| - 1]);
      assert '\n' !in Escaped(s[|s| - 1]);
    }
  }

  // ---- The message buffer ----

  class JsonOutput {
    var data: string
    var ok: bool

    ghost predicate Valid()
      reads this
    {
      |data| < MAX_MESSAGE
    }

    constructor ()
      ensures Valid() && data == "" && ok
    {
      data, ok := "", true;
    }

    method Clear()
      modifies this
      ensures Valid() && data == "" && ok
    {
      data, ok := "", true;
    }

    /** Appends all of a text, or fails the whole message. */
    method Add(text: string)
      requires Valid()
      modifies this
      ensures Valid() && ok == (old(ok) && |old(data)| + |text| < MAX_MESSAGE)
      ensures data == if ok then old(data) + text else old(data)
    {
      if ok {
        if |text| >= MAX_MESSAGE - |data| {
          ok := false;
        } else {
          data := data + text;
        }
      }
    }

    /** Appends a text as a JSON string literal. */
    method AddQuoted(s: string)
      requires Valid()
      modifies this
      ensures Valid() && (ok ==> data == old(data) + Quoted(s))
      ensures ok == (old(ok) && |old(data)| + |Quoted(s)| < MAX_MESSAGE)
    {
      hide EscapedText, Escaped, Opened, Quoted;
      ghost var start := data;
      OpenedWhole(s);
      Add("\"");
      for i := 0 to |s|
        invariant Valid() && ok == (old(ok) && |start| + |Opened(s, i)| < MAX_MESSAGE)
        invariant ok ==> data == start + Opened(s, i)
      {
        OpenedNext(s, i);
        Add(Escaped(s[i]));
        Appended(start, Opened(s, i), Escaped(s[i]));
      }
      Add("\"");
      Appended(start, Opened(s, |s|), "\"");
    }
  }

  lemma Appended(start: string, text: string, more: string)
    ensures start + (text + more) == (start + text) + more
  {
  }

  /** A literal as far as its first i characters. */
  function Opened(s: string, i: nat): string
    requires i <= |s|
  {
    "\"" + EscapedText(s[..i])
  }

  lemma OpenedNext(s: string, i: nat)
    requires i < |s|
    ensures Opened(s, i + 1) == Opened(s, i) + Escaped(s[i])
  {
    assert s[..i + 1][..i] == s[..i];
  }

  lemma OpenedWhole(s: string)
    ensures Opened(s, 0) == "\"" && Quoted(s) == Opened(s, |s|) + "\""
  {
    assert s[..|s|] == s && s[..0] == "";
  }
}
