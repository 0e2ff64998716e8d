/** Line framing on both ends of the USB link, against plain splitting at line feeds. */
module Framing {
  import Grammar

  const LF: char := '\n'

  // ---- Splitting ----

  /** The complete lines of a stream, without their line feeds. */
  function Lines(stream: string): seq<string> {
    if stream == "" then []
    else
      var front, last := stream[..|stream| - 1], stream[|stream| - 1];
      if last == LF then Lines(front) + [Partial(front)] else Lines(front)
  }

  /** What follows the last line feed. */
  function Partial(stream: string): string {
    if stream == "" then ""
    else
      var front, last := stream[..|stream| - 1], stream[|stream| - 1];
      if last == LF then "" else Partial(front) + [last]
  }

  lemma LinesSnoc(stream: string, c: char)
    ensures Lines(stream + [c]) == if c == LF then Lines(stream) + [Partial(stream)] else Lines(stream)
    ensures Partial(stream + [c]) == if c == LF then "" else Partial(stream) + [c]
  {
    assert (stream + [c])[..|stream|] == stream;
  }

  /** The lines joined by line feeds, and the rest. */
  function Joined(lines: seq<string>, rest: string): string {
    if lines == [] then rest else lines[0] + ([LF] + Joined(lines[1..], rest))
  }

  predicate FreeOfLF(s: string) { forall i | 0 <= i < |s| :: s[i] != LF }

  /** Splitting loses nothing: lines free of line feeds that join back to the stream. */
  lemma {:induction false} SplitExact(stream: string)
    ensures Joined(Lines(stream), Partial(stream)) == stream
    ensures FreeOfLF(Partial(stream)) && forall i | 0 <= i < |Lines(stream)| :: FreeOfLF(Lines(stream)[i])
  {
    if stream != "" {
      var front, last := stream[..|stream| - 1], stream[|stream| - 1];
      SplitExact(front);
      assert stream == front + [last];
      if last == LF {
        JoinedSnoc(Lines(front), Partial(front));
      } else {
        JoinedMore(Lines(front), Partial(front), [last]);
      }
    }
  }

  lemma {:induction false} JoinedSnoc(lines: seq<string>, last: string)
    ensures Joined(lines + [last], "") == Joined(lines, last) + [LF]
  {
    if lines == [] {
      assert [last][1..] == [];
    } else {
      assert (lines + [last])[1..] == lines[1..] + [last];
      JoinedSnoc(lines[1..], last);
    }
  }

  lemma {:induction false} JoinedMore(lines: seq<string>, rest: string, more: string)
    ensures Joined(lines, rest + more) == Joined(lines, rest) + more
  {
    if lines != [] {
      JoinedMore(lines[1..], rest, more);
    }
  }

  lemma {:induction false} FeedFree(stream: string, more: string)
    requires FreeOfLF(more)
    ensures Lines(stream + more) == Lines(stream) && Partial(stream + more) == Partial(stream) + more
    decreases |more|
  {
    if more == "" {
      assert stream + more == stream;
    } else {
      var front, last := more[..|more| - 1], more[|more| - 1];
      assert stream + more == (stream + front) + [last];
      FeedFree(stream, front);
      LinesSnoc(stream + front, last);
    }
  }

  lemma Reassociate(before: string, head: string, others: string)
    ensures before + (head + ([LF] + others)) == ((before + head) + [LF]) + others
  {
  }

  lemma HeadTail(before: seq<string>, lines: seq<string>)
    requires lines != []
    ensures before + [lines[0]] + lines[1..] == before + lines
  {
  }

  /** And they are the only ones: splitting undoes joining. */
  lemma {:induction false} SplitUnique(before: string, lines: seq<string>, rest: string)
    requires FreeOfLF(rest) && forall i | 0 <= i < |lines| :: FreeOfLF(lines[i])
    requires Partial(before) == ""
    ensures Lines(before + Joined(lines, rest)) == Lines(before) + lines
    ensures Partial(before + Joined(lines, rest)) == rest
    decreases |lines|
  {
    if lines == [] {
      FeedFree(before, rest);
    } else {
      hide Lines, Partial, FreeOfLF;
      var head, others := lines[0], Joined(lines[1..], rest);
      FeedFree(before, head);
      LinesSnoc(before + head, LF);
      assert Partial(before) + head == head;
      SplitUnique((before + head) + [LF], lines[1..], rest);
      HeadTail(Lines(before), lines);
      Reassociate(before, head, others);
    }
  }

  // ---- The board's framer ----

  datatype Frame = Line(text: string) | TooLong | Invalid

  function Classify(segment: string): Frame {
    if '\0' in segment then Invalid else if |segment| > 512 then TooLong else Line(segment)
  }

  class Framer {
    const data: array<char>
    var used: nat
    var discard: bool
    var invalid: bool
    ghost var segment: string

    ghost predicate Valid()
      reads this, data
    {
      && data.Length == Grammar.MAX_REQUEST + 1 && used <= Grammar.MAX_REQUEST && FreeOfLF(segment)
      && invalid == ('\0' in segment) && discard == (invalid || |segment| > Grammar.MAX_REQUEST)
      && (!discard ==> data[..used] == segment)
    }

    constructor ()
      ensures Valid() && segment == "" && fresh(data)
    {
      data := new char[Grammar.MAX_REQUEST + 1](_ => '\0');
      used, discard, invalid := 0, false, false;
      segment := "";
    }

    method Reset()
      requires Valid()
      modifies this
      ensures Valid() && segment == ""
    {
      used, discard, invalid := 0, false, false;
      segment := "";
    }

    /** One byte; a frame is reported exactly at each line feed. */
    method Push(c: char) returns (complete: bool, frame: Frame)
      requires Valid()
      modifies this, data
      ensures Valid() && complete == (c == LF)
      ensures complete ==> frame == Classify(old(segment)) && segment == ""
      ensures !complete ==> segment == old(segment) + [c]
    {
      complete, frame := c == LF, TooLong;
      if c == LF {
        frame := if invalid then Invalid else if discard then TooLong else Line(data[..used]);
        data[used] := '\0';
        used, discard, invalid := 0, false, false;
        segment := "";
        return;
      }
      segment := segment + [c];
      if c == '\0' {
        invalid, discard := true, true;
      }
      if !discard {
        if used == Grammar.MAX_REQUEST {
          discard := true;
        } else {
          data[used] := c;
          used := used + 1;
        }
      }
    }
  }

  function Frames(lines: seq<string>): seq<Frame> {
    seq(|lines|, i requires 0 <= i < |lines| => Classify(lines[i]))
  }

  /** Pushing any byte stream reports exactly its classified lines. */
  method PushAll(stream: string) returns (frames: seq<Frame>)
    ensures frames == Frames(Lines(stream))
  {
    var framer := new Framer();
    frames := [];
    for i := 0 to |stream|
      invariant framer.Valid() && fresh(framer) && fresh(framer.data)
      invariant frames == Frames(Lines(stream[..i])) && framer.segment == Partial(stream[..i])
    {
      var complete, frame := framer.Push(stream[i]);
      if complete {
        frames := frames + [frame];
      }
      assert stream[..i + 1] == stream[..i] + [stream[i]];
      LinesSnoc(stream[..i], stream[i]);
    }
    assert stream[..|stream|] == stream;
  }

  // ---- The host's reader ----

  const MAX_RX_LINE: nat := 8192

  predicate Readable(line: string) { 0 < |line| <= 8192 }

  /** The lines handed to the JSON decoder. */
  function Kept(lines: seq<string>): seq<string> {
    if lines == [] then []
    else Kept(lines[..|lines| - 1]) + if Readable(lines[|lines| - 1]) then [lines[|lines| - 1]] else []
  }

  lemma KeptSnoc(lines: seq<string>, line: string)
    ensures Kept(lines + [line]) == Kept(lines) + if Readable(line) then [line] else []
  {
    assert (lines + [line])[..|lines|] == lines;
  }

  class JsonLines {
    var buffer: string
    var discarding: bool
    ghost var stream: string

    ghost predicate Valid()
      reads this
    {
      && discarding == (|Partial(stream)| > MAX_RX_LINE)
      && buffer == (if discarding then "" else Partial(stream))
    }

    constructor ()
      ensures Valid() && stream == ""
    {
      buffer, discarding, stream := "", false, "";
    }

    /** A line feed: the line so far is delivered unless it is empty or oversized. */
    method EndLine() returns (delivered: seq<string>)
      requires Valid()
      modifies this
      ensures Valid() && stream == old(stream) + [LF]
      ensures Kept(Lines(stream)) == Kept(Lines(old(stream))) + delivered
    {
      delivered := if !discarding && buffer != "" then [buffer] else [];
      KeptSnoc(Lines(stream), Partial(stream));
      LinesSnoc(stream, LF);
      stream := stream + [LF];
      buffer, discarding := "", false;
    }

    method Extend(chunk: string)
      requires Valid() && FreeOfLF(chunk)
      modifies this
      ensures Valid() && stream == old(stream) + chunk && Lines(stream) == Lines(old(stream))
    {
      FeedFree(stream, chunk);
      stream := stream + chunk;
      if !discarding {
        if |buffer| + |chunk| > MAX_RX_LINE {
          buffer, discarding := "", true;
        } else {
          buffer := buffer + chunk;
        }
      }
    }

    /** Delivers exactly the readable lines that `data` completes; the buffer stays
        within the bound whatever the chunk sizes. */
    method Feed(data: string) returns (messages: seq<string>)
      requires Valid()
      modifies this
      ensures Valid() && stream == old(stream) + data && |buffer| <= MAX_RX_LINE
      ensures Kept(Lines(stream)) == Kept(Lines(old(stream))) + messages
    {
      hide Lines, Partial, Kept, FreeOfLF, Chunks, Pending;
      ChunksFree(data);
      ChunksJoin(data);
      messages := [];
      Extend(Chunks(data)[0]);
      assert Kept(Lines(stream)) == Kept(Lines(old(stream))) + messages;
      assert stream + Pending(data, 1) == old(stream) + (Chunks(data)[0] + Pending(data, 1));
      var i := 1;
      while i < |Chunks(data)|
        invariant 1 <= i <= |Chunks(data)| && Valid()
        invariant stream + Pending(data, i) == old(stream) + data
        invariant Kept(Lines(stream)) == Kept(Lines(old(stream))) + messages
      {
        var delivered := NextChunk(Chunks(data)[i]);
        messages := messages + delivered;
        i := i + 1;
      }
      assert Valid() && |buffer| <= MAX_RX_LINE;
    }

    method NextChunk(chunk: string) returns (delivered: seq<string>)
      requires Valid() && FreeOfLF(chunk)
      modifies this
      ensures Valid() && stream == old(stream) + ([LF] + chunk)
      ensures Kept(Lines(stream)) == Kept(Lines(old(stream))) + delivered
    {
      hide Lines, Partial, Kept, FreeOfLF;
      delivered := EndLine();
      Extend(chunk);
    }
  }

  /** data.split("\n") */
  function Chunks(data: string): seq<string> { Lines(data) + [Partial(data)] }

  lemma ChunksFree(data: string)
    ensures |Chunks(data)| == |Lines(data)| + 1 && Pending(data, |Chunks(data)|) == ""
    ensures forall i | 0 <= i < |Chunks(data)| :: FreeOfLF(Chunks(data)[i])
  {
    SplitExact(data);
  }

  lemma ChunksJoin(data: string)
    ensures Chunks(data)[0] + Pending(data, 1) == data
    ensures forall i | 1 <= i < |Chunks(data)| :: Pending(data, i) == ([LF] + Chunks(data)[i]) + Pending(data, i + 1)
  {
    SplitExact(data);
    hide Lines, Partial;
    assert Lines(data)[0..] == Lines(data);
    forall i | 1 <= i < |Chunks(data)|
      ensures Pending(data, i) == ([LF] + Chunks(data)[i]) + Pending(data, i + 1)
    {
      PendingStep(data, i);
    }
  }

  lemma PendingStep(data: string, i: nat)
    requires 1 <= i < |Chunks(data)|
    ensures Pending(data, i) == ([LF] + Chunks(data)[i]) + Pending(data, i + 1)
  {
    hide Lines, Partial;
    var lines, rest := Lines(data), Partial(data);
    if i < |lines| {
      assert lines[i..][1..] == lines[i + 1..];
    }
  }

  /** The text of the chunks from i on, each after its line feed. */
  function Pending(data: string, i: nat): string
    requires 1 <= i <= |Lines(data)| + 1
  {
    if i > |Lines(data)| then "" else [LF] + Joined(Lines(data)[i..], Partial(data))
  }

  function Concat(chunks: seq<string>): string {
    if chunks == [] then "" else Concat(chunks[..|chunks| - 1]) + chunks[|chunks| - 1]
  }

  /** However a stream is cut into chunks, the same lines are delivered. */
  method FeedChunks(chunks: seq<string>) returns (messages: seq<string>)
    ensures messages == Kept(Lines(Concat(chunks)))
  {
    var reader := new JsonLines();
    messages := [];
    for i := 0 to |chunks|
      invariant reader.Valid() && fresh(reader)
      invariant reader.stream == Concat(chunks[..i]) && messages == Kept(Lines(Concat(chunks[..i])))
    {
      var more := reader.Feed(chunks[i]);
      messages := messages + more;
      assert chunks[..i + 1][..i] == chunks[..i];
    }
    assert chunks[..|chunks|] == chunks;
  }
}
