/** The two streaming parsers: the host's (frames.py, 256 bytes) and the
    Nano's (protocol.cpp, 128 bytes), against one specification of a stream. */
module Streams {
  import opened Common
  import opened Frames
  import opened NanoParser

  const MAX_INBOUND_BYTES: int := 128

  type Reading = Result<Frame, FrameErrorCode>

  // ---- what a stream means ----

  /** The complete lines of a stream, each with its LF. */
  function Lines(s: string): seq<string>
    decreases |s|
  {
    var i := Find(s, '\n');
    if i == |s| then [] else [s[..i + 1]] + Lines(s[i + 1..])
  }

  /** What follows the last LF. */
  function Rest(s: string): string
    decreases |s|
  {
    var i := Find(s, '\n');
    if i == |s| then s else Rest(s[i + 1..])
  }

  /** One reading a line: its decoding, or TOO_LONG beyond the limit. */
  function Judge(max: nat, decode: string -> Reading, line: string): Reading {
    if |line| > max then Err(TooLong) else decode(line)
  }

  function Expected(max: nat, decode: string -> Reading, s: string): seq<Reading> {
    JudgeAll(max, decode, Lines(s))
  }

  function JudgeAll(max: nat, decode: string -> Reading, lines: seq<string>): (r: seq<Reading>)
    ensures |r| == |lines|
  {
    seq(|lines|, i requires 0 <= i < |lines| => Judge(max, decode, lines[i]))
  }

  // ---- the parser, a byte at a time ----

  datatype Parser = Parser(buffer: string, discarding: bool)

  const EMPTY_PARSER := Parser("", false)

  function Push(max: nat, decode: string -> Reading, p: Parser, byte: char): (Parser, seq<Reading>) {
    if p.discarding then
      if byte == '\n' then (EMPTY_PARSER.(buffer := p.buffer), [Err(TooLong)]) else (p, [])
    else if |p.buffer| + 1 > max then
      if byte == '\n' then (Parser("", false), [Err(TooLong)]) else (Parser("", true), [])
    else if byte == '\n' then (Parser("", false), [decode(p.buffer + [byte])])
    else (Parser(p.buffer + [byte], false), [])
  }

  function PushAll(max: nat, decode: string -> Reading, p: Parser, bytes: string): (Parser, seq<Reading>)
    decreases |bytes|
  {
    if bytes == "" then (p, [])
    else
      var (q, now) := Push(max, decode, p, bytes[0]);
      var (r, later) := PushAll(max, decode, q, bytes[1..]);
      (r, now + later)
  }

  function FeedChunks(max: nat, decode: string -> Reading, p: Parser, chunks: seq<string>): (Parser, seq<Reading>)
    decreases |chunks|
  {
    if chunks == [] then (p, [])
    else
      var (q, now) := PushAll(max, decode, p, chunks[0]);
      var (r, later) := FeedChunks(max, decode, q, chunks[1..]);
      (r, now + later)
  }

  function Concat(chunks: seq<string>): string {
    if chunks == [] then "" else chunks[0] + Concat(chunks[1..])
  }

  /** The parser state a stream leads to: the unfinished line, or, once that is
      over the limit, an empty buffer waiting for its LF. */
  function After(max: nat, s: string): Parser {
    if |Rest(s)| > max then Parser("", true) else Parser(Rest(s), false)
  }

  // ---- equivalence ----

  lemma FindIs(s: string, i: nat)
    requires i < |s| && s[i] == '\n' && forall k :: 0 <= k < i ==> s[k] != '\n'
    ensures Find(s, '\n') == i
  {
  }

  lemma FirstLine(s: string, i: nat)
    requires i == Find(s, '\n') < |s|
    ensures Lines(s) == [s[..i + 1]] + Lines(s[i + 1..])
  {
    hide Find;
  }

  lemma FirstRest(s: string, i: nat)
    requires i == Find(s, '\n') < |s|
    ensures Rest(s) == Rest(s[i + 1..])
  {
    hide Find;
  }

  lemma LinesFrom(s: string, i: nat)
    requires i < |s| && s[i] == '\n' && forall k :: 0 <= k < i ==> s[k] != '\n'
    ensures Lines(s) == [s[..i + 1]] + Lines(s[i + 1..]) && Rest(s) == Rest(s[i + 1..])
  {
    hide Lines, Rest, Find;
    FindIs(s, i);
    FirstLine(s, i);
    FirstRest(s, i);
  }

  lemma NoLine(s: string)
    requires forall k :: 0 <= k < |s| ==> s[k] != '\n'
    ensures Lines(s) == [] && Rest(s) == s
  {
    assert Find(s, '\n') == |s|;
  }

  lemma {:induction false} AppendByte(s: string, byte: char)
    ensures byte == '\n' ==> Lines(s + [byte]) == Lines(s) + [Rest(s) + [byte]] && Rest(s + [byte]) == ""
    ensures byte != '\n' ==> Lines(s + [byte]) == Lines(s) && Rest(s + [byte]) == Rest(s) + [byte]
    decreases |s|
  {
    hide Lines, Rest;
    var i, t := Find(s, '\n'), s + [byte];
    assert forall k :: 0 <= k < |s| ==> t[k] == s[k];
    if i < |s| {
      var (head, tail) := (s[..i + 1], s[i + 1..]);
      assert t[i + 1..] == tail + [byte];
      assert t[..i + 1] == head;
      LinesFrom(s, i);
      LinesFrom(t, i);
      AppendByte(tail, byte);
      if byte == '\n' {
        assert [head] + (Lines(tail) + [Rest(tail) + [byte]]) == [head] + Lines(tail) + [Rest(tail) + [byte]];
      }
    } else {
      NoLine(s);
      if byte == '\n' {
        LinesFrom(t, |s|);
        NoLine(t[|s| + 1..]);
        assert t[..|s| + 1] == t;
      } else {
        NoLine(t);
      }
    }
  }

  lemma PushMatches(max: nat, decode: string -> Reading, s: string, byte: char)
    ensures var (q, out) := Push(max, decode, After(max, s), byte);
            q == After(max, s + [byte]) && Expected(max, decode, s + [byte]) == Expected(max, decode, s) + out
  {
    hide Lines, Rest;
    AppendByte(s, byte);
    assert Expected(max, decode, s + [byte]) ==
           Expected(max, decode, s) + (if byte == '\n' then [Judge(max, decode, Rest(s) + [byte])] else []);
  }

  lemma {:induction false} PushAllMatches(max: nat, decode: string -> Reading, s: string, bytes: string)
    ensures var (q, out) := PushAll(max, decode, After(max, s), bytes);
            q == After(max, s + bytes) && Expected(max, decode, s + bytes) == Expected(max, decode, s) + out
    decreases |bytes|
  {
    hide Push, After, Expected;
    if bytes == "" {
      assert s + bytes == s;
      assert Expected(max, decode, s) + [] == Expected(max, decode, s);
    } else {
      PushMatches(max, decode, s, bytes[0]);
      assert s + [bytes[0]] + bytes[1..] == s + bytes;
      PushAllMatches(max, decode, s + [bytes[0]], bytes[1..]);
    }
  }

  lemma {:induction false} ChunksMatch(max: nat, decode: string -> Reading, s: string, chunks: seq<string>)
    ensures var (q, out) := FeedChunks(max, decode, After(max, s), chunks);
            && q == After(max, s + Concat(chunks))
            && Expected(max, decode, s + Concat(chunks)) == Expected(max, decode, s) + out
    decreases |chunks|
  {
    hide PushAll, After, Expected;
    if chunks == [] {
      assert s + "" == s;
      assert Expected(max, decode, s) + [] == Expected(max, decode, s);
    } else {
      PushAllMatches(max, decode, s, chunks[0]);
      assert s + chunks[0] + Concat(chunks[1..]) == s + Concat(chunks);
      ChunksMatch(max, decode, s + chunks[0], chunks[1..]);
    }
  }

  /** However a stream is cut into chunks, a parser with any size limit reports
      exactly one reading for each line, in order: the line's decoding, or one
      TOO_LONG for a line over the limit; its buffer stays within the limit and
      it is back in step after every LF. */
  lemma ChunkingIrrelevant(max: nat, decode: string -> Reading, chunks: seq<string>)
    ensures var (q, out) := FeedChunks(max, decode, EMPTY_PARSER, chunks);
            var s := Concat(chunks);
            && out == Expected(max, decode, s)
            && |q.buffer| <= max
            && (q.discarding <==> |Rest(s)| > max)
            && (s != "" && s[|s| - 1] == '\n' ==> q == EMPTY_PARSER)
  {
    hide *;
    var s := Concat(chunks);
    BeforeAnyByte(max, decode);
    ChunksMatch(max, decode, "", chunks);
    assert "" + s == s;
    assert [] + FeedChunks(max, decode, EMPTY_PARSER, chunks).1 == FeedChunks(max, decode, EMPTY_PARSER, chunks).1;
    AfterIs(max, s);
    if s != "" && s[|s| - 1] == '\n' {
      AfterLine(max, s);
    }
  }

  lemma BeforeAnyByte(max: nat, decode: string -> Reading)
    ensures After(max, "") == EMPTY_PARSER && Expected(max, decode, "") == []
  {
  }

  lemma AfterIs(max: nat, s: string)
    ensures |After(max, s).buffer| <= max && (After(max, s).discarding <==> |Rest(s)| > max)
  {
    hide Rest;
  }

  lemma AfterLine(max: nat, s: string)
    requires s != "" && s[|s| - 1] == '\n'
    ensures After(max, s) == EMPTY_PARSER
  {
    hide Rest, Lines;
    assert s == s[..|s| - 1] + ['\n'];
    AppendByte(s[..|s| - 1], '\n');
  }

  // ---- the host's object ----

  function Accepted(out: seq<Reading>): seq<Frame> {
    if out == [] then []
    else (if out[0].Ok? then [out[0].value] else []) + Accepted(out[1..])
  }

  function Rejected(out: seq<Reading>): seq<FrameErrorCode> {
    if out == [] then []
    else (if out[0].Err? then [out[0].error] else []) + Rejected(out[1..])
  }

  lemma {:induction false} SortedAppend(out: seq<Reading>, more: seq<Reading>)
    ensures Accepted(out + more) == Accepted(out) + Accepted(more)
    ensures Rejected(out + more) == Rejected(out) + Rejected(more)
    decreases |out|
  {
    if out == [] {
      assert out + more == more;
    } else {
      assert (out + more)[1..] == out[1..] + more;
      SortedAppend(out[1..], more);
      var (a, r) := (if out[0].Ok? then [out[0].value] else [], if out[0].Err? then [out[0].error] else []);
      assert a + Accepted(out[1..]) + Accepted(more) == a + (Accepted(out[1..]) + Accepted(more));
      assert r + Rejected(out[1..]) + Rejected(more) == r + (Rejected(out[1..]) + Rejected(more));
    }
  }

  lemma AtMostOne(out: seq<Reading>)
    requires |out| <= 1
    ensures Accepted(out) == if out != [] && out[0].Ok? then [out[0].value] else []
    ensures Rejected(out) == if out != [] && out[0].Err? then [out[0].error] else []
  {
  }

  class HostParser {
    const maxBytes: nat
    var buffer: string
    var discarding: bool
    /** Every byte fed so far. */
    ghost var seen: string

    ghost predicate Valid()
      reads this
    {
      Parser(buffer, discarding) == After(maxBytes, seen)
    }

    constructor (maxBytes: nat)
      ensures Valid() && seen == "" && this.maxBytes == maxBytes
    {
      this.maxBytes := maxBytes;
      buffer, discarding, seen := "", false, "";
    }

    /** One call's frames and errors are those of the lines its bytes complete. */
    method Feed(chunk: string) returns (frames: seq<Frame>, errors: seq<FrameErrorCode>)
      requires Valid()
      modifies this
      ensures Valid() && seen == old(seen) + chunk && |buffer| <= maxBytes
      ensures var out := PushAll(maxBytes, Decode, After(maxBytes, old(seen)), chunk).1;
              && frames == Accepted(out) && errors == Rejected(out)
              && Expected(maxBytes, Decode, seen) == Expected(maxBytes, Decode, old(seen)) + out
    {
      hide Decode, Push, Expected, Accepted, Rejected, Lines;
      frames, errors := [], [];
      ghost var goal := PushAll(maxBytes, Decode, Parser(buffer, discarding), chunk);
      ghost var out: seq<Reading> := [];
      AtMostOne(out);
      assert chunk[0..] == chunk;
      for i := 0 to |chunk|
        invariant seen == old(seen) && |out| <= i
        invariant PushAll(maxBytes, Decode, Parser(buffer, discarding), chunk[i..]).0 == goal.0
        invariant out + PushAll(maxBytes, Decode, Parser(buffer, discarding), chunk[i..]).1 == goal.1
        invariant frames == Accepted(out) && errors == Rejected(out)
      {
        assert chunk[i..][1..] == chunk[i + 1..];
        var now := PushByte(chunk[i]);
        SortedAppend(out, now);
        AtMostOne(now);
        if now != [] {
          if now[0].Ok? {
            frames := frames + [now[0].value];
          } else {
            errors := errors + [now[0].error];
          }
        }
        out := out + now;
      }
      assert chunk[|chunk|..] == "" && out + [] == out;
      PushAllMatches(maxBytes, Decode, seen, chunk);
      seen := seen + chunk;
    }

    method PushByte(byte: char) returns (now: seq<Reading>)
      modifies `buffer, `discarding
      ensures |now| <= 1
      ensures (Parser(buffer, discarding), now) == Push(maxBytes, Decode, Parser(old(buffer), old(discarding)), byte)
    {
      hide Decode;
      if discarding {
        if byte == '\n' {
          discarding := false;
          return [Err(TooLong)];
        }
        return [];
      }
      buffer := buffer + [byte];
      if |buffer| > maxBytes {
        buffer := "";
        if byte == '\n' {
          return [Err(TooLong)];
        }
        discarding := true;
        return [];
      }
      if byte == '\n' {
        var candidate := buffer;
        buffer := "";
        var reading := DecodeFrame(candidate);
        return [reading];
      }
      now := [];
    }
  }

  // ---- the Nano's object ----

  class NanoFrameParser {
    const buffer: array<char>
    var length: nat
    var discarding: bool

    ghost predicate Valid()
      reads this
    {
      buffer.Length == MAX_INBOUND_BYTES + 1 && length <= MAX_INBOUND_BYTES
    }

    ghost function Value(): Parser
      requires Valid()
      reads this, buffer
    {
      Parser(buffer[..length], discarding)
    }

    constructor ()
      ensures Valid() && fresh(buffer) && Value() == EMPTY_PARSER
    {
      buffer := new char[MAX_INBOUND_BYTES + 1](_ => '\0');
      length, discarding := 0, false;
    }

    /** One byte: the same step as the host's parser, with a limit of 128. */
    method PushByte(byte: char) returns (reading: Option<Reading>)
      requires Valid()
      modifies this, buffer
      ensures Valid()
      ensures var (q, now) := Push(MAX_INBOUND_BYTES, NanoParse, old(Value()), byte);
              Value() == q && now == if reading.Some? then [reading.value] else []
    {
      hide NanoParse;
      if discarding {
        if byte == '\n' {
          discarding := false;
          return Some(Err(TooLong));
        }
        return None;
      }
      if length >= MAX_INBOUND_BYTES {
        length := 0;
        discarding := true;
        if byte == '\n' {
          discarding := false;
          return Some(Err(TooLong));
        }
        return None;
      }
      ghost var before := buffer[..length];
      buffer[length] := byte;
      length := length + 1;
      assert buffer[..length] == before + [byte];
      if byte != '\n' {
        return None;
      }
      buffer[length] := '\0';
      assert buffer[..length] == before + [byte];
      var parsed := ParseFrame(buffer[..length]);
      length := 0;
      return Some(parsed);
    }
  }
}
