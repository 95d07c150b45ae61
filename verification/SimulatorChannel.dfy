/** The simulated serial line (simulator.py): faults that corrupt, delay, repeat
    and reorder what a device sends. Whatever they do, the host's parser accepts
    only frames that were sent; this is the channel Delivery assumes. */
module SimulatorChannel {
  import opened Common
  import opened Crc
  import opened Frames
  import opened RoundTrip
  import opened Streams

  datatype Faults = Faults(corruptNext: bool, duplicateNext: bool, delayNext: bool, chunkSize: Option<nat>)

  datatype Channel = Channel(incoming: string, delayed: seq<string>, faults: Faults)

  const QUIET := Channel("", [], Faults(false, false, false, None))

  /** The check field replaced by zeros. */
  function Corrupt(encoded: string): string {
    (if '*' in encoded then encoded[..FindLast(encoded, '*') + 1] else "") + "0000\n"
  }

  function Damaged(c: Channel, encoded: string): string {
    if c.faults.corruptNext then Corrupt(encoded) else encoded
  }

  /** What `_enqueue` puts on the line at once. */
  function Emitted(c: Channel, encoded: string): seq<string> {
    if c.faults.delayNext then []
    else if c.faults.duplicateNext then [Damaged(c, encoded), Damaged(c, encoded)]
    else [Damaged(c, encoded)]
  }

  function Enqueue(c: Channel, encoded: string): Channel {
    Channel(c.incoming + Concat(Emitted(c, encoded)),
            if c.faults.delayNext then c.delayed + [Damaged(c, encoded)] else c.delayed,
            Faults(false, c.faults.duplicateNext && c.faults.delayNext, false, c.faults.chunkSize))
  }

  function Reversed(s: seq<string>): seq<string> {
    if s == [] then [] else Reversed(s[1..]) + [s[0]]
  }

  function InOrder(c: Channel, reverse: bool): seq<string> {
    if reverse then Reversed(c.delayed) else c.delayed
  }

  function Flush(c: Channel, reverse: bool): Channel {
    c.(incoming := c.incoming + Concat(InOrder(c, reverse)), delayed := [])
  }

  function ReadCount(c: Channel, maximum: nat): (n: nat)
    ensures n <= |c.incoming|
  {
    var n := if maximum < |c.incoming| then maximum else |c.incoming|;
    if c.faults.chunkSize.Some? && 0 < c.faults.chunkSize.value < n then c.faults.chunkSize.value else n
  }

  // ---- the object ----

  class SimulatorQueue {
    var incoming: string
    var delayed: seq<string>
    var faults: Faults

    function Value(): Channel
      reads this
    {
      Channel(incoming, delayed, faults)
    }

    constructor ()
      ensures Value() == QUIET
    {
      incoming, delayed, faults := "", [], Faults(false, false, false, None);
    }

    method Put(sent: string)
      modifies this
      ensures Value() == Enqueue(old(Value()), sent)
    {
      var encoded := sent;
      if faults.corruptNext {
        faults := faults.(corruptNext := false);
        encoded := if '*' in encoded then encoded[..FindLast(encoded, '*') + 1] + "0000\n" else "0000\n";
        assert "" + "0000\n" == "0000\n";
      }
      assert Concat([encoded]) == encoded + "" == encoded by {
        assert [encoded][1..] == [];
      }
      if faults.delayNext {
        faults := faults.(delayNext := false);
        delayed := delayed + [encoded];
        assert incoming + "" == incoming;
        return;
      }
      incoming := incoming + encoded;
      if faults.duplicateNext {
        faults := faults.(duplicateNext := false);
        assert [encoded, encoded][1..] == [encoded];
        assert incoming + encoded == old(incoming) + Concat([encoded, encoded]);
        incoming := incoming + encoded;
      }
    }

    method FlushDelayed(reverse: bool)
      modifies `incoming, `delayed
      ensures Value() == Flush(old(Value()), reverse)
    {
      var values := InOrder(Value(), reverse);
      for i := 0 to |values|
        invariant incoming + Concat(values[i..]) == old(incoming) + Concat(values)
      {
        assert values[i..][1..] == values[i + 1..];
        assert incoming + (values[i] + Concat(values[i + 1..])) == incoming + values[i] + Concat(values[i + 1..]);
        incoming := incoming + values[i];
      }
      assert values[|values|..] == [] && incoming + "" == incoming;
      delayed := [];
    }

    method Read(maximum: nat) returns (output: string)
      modifies `incoming
      ensures output + incoming == old(incoming) && |output| == ReadCount(old(Value()), maximum)
    {
      var count := if maximum < |incoming| then maximum else |incoming|;
      if faults.chunkSize.Some? && faults.chunkSize.value > 0 {
        count := if faults.chunkSize.value < count then faults.chunkSize.value else count;
      }
      output, incoming := incoming[..count], incoming[count..];
    }
  }

  // ---- runs ----

  datatype Act = Send(frame: Frame) | FlushAll(reverse: bool) | Receive(maximum: nat) | Configure(faults: Faults)

  /** A channel, the frames sent into it, the lines put on it in order, and the chunks read from it. */
  datatype Traffic = Traffic(channel: Channel, sent: seq<Frame>, wire: seq<string>, chunks: seq<string>)

  function Do(t: Traffic, a: Act): Traffic {
    match a
    case Send(frame) =>
      if Encode(frame).Err? then t
      else
        var encoded := Encode(frame).value;
        Traffic(Enqueue(t.channel, encoded), t.sent + [frame], t.wire + Emitted(t.channel, encoded), t.chunks)
    case FlushAll(reverse) => t.(channel := Flush(t.channel, reverse), wire := t.wire + InOrder(t.channel, reverse))
    case Receive(maximum) =>
      var n := ReadCount(t.channel, maximum);
      t.(channel := t.channel.(incoming := t.channel.incoming[n..]), chunks := t.chunks + [t.channel.incoming[..n]])
    case Configure(faults) => t.(channel := t.channel.(faults := faults))
  }

  function DoAll(t: Traffic, acts: seq<Act>): Traffic
    decreases |acts|
  {
    if acts == [] then t else DoAll(Do(t, acts[0]), acts[1..])
  }

  const SILENT := Traffic(QUIET, [], [], [])

  /** A line some sent frame became: its encoding, or that with its check field zeroed. */
  predicate LineOf(line: string, f: Frame) {
    Encode(f).Ok? && (line == Encode(f).value || line == Corrupt(Encode(f).value))
  }

  ghost predicate Genuine(line: string, sent: seq<Frame>) {
    exists f :: f in sent && LineOf(line, f)
  }

  ghost predicate AllGenuine(lines: seq<string>, sent: seq<Frame>) {
    forall i :: 0 <= i < |lines| ==> Genuine(lines[i], sent)
  }

  ghost predicate Faithful(t: Traffic) {
    && Concat(t.chunks) + t.channel.incoming == Concat(t.wire)
    && AllGenuine(t.wire, t.sent) && AllGenuine(t.channel.delayed, t.sent)
  }

  lemma {:induction false} ConcatAppend(a: seq<string>, b: seq<string>)
    ensures Concat(a + b) == Concat(a) + Concat(b)
    decreases |a|
  {
    if a == [] {
      assert a + b == b;
      assert "" + Concat(b) == Concat(b);
    } else {
      ConcatAppend(a[1..], b);
      assert (a + b)[1..] == a[1..] + b;
      assert a[0] + (Concat(a[1..]) + Concat(b)) == a[0] + Concat(a[1..]) + Concat(b);
    }
  }

  lemma ConcatOne(s: string)
    ensures Concat([s]) == s
  {
    assert [s][1..] == [];
    assert s + "" == s;
  }

  lemma {:induction false} ReversedGenuine(lines: seq<string>, sent: seq<Frame>)
    requires AllGenuine(lines, sent)
    ensures AllGenuine(Reversed(lines), sent)
    decreases |lines|
  {
    hide Genuine;
    if lines != [] {
      ReversedGenuine(lines[1..], sent);
    }
  }

  lemma GenuineGrows(lines: seq<string>, sent: seq<Frame>, f: Frame)
    requires AllGenuine(lines, sent)
    ensures AllGenuine(lines, sent + [f])
  {
    hide LineOf;
    forall i | 0 <= i < |lines| ensures Genuine(lines[i], sent + [f]) {
      assert Genuine(lines[i], sent);
      var g :| g in sent && LineOf(lines[i], g);
      assert g in sent + [f];
    }
  }

  lemma GenuineAppend(a: seq<string>, b: seq<string>, sent: seq<Frame>)
    requires AllGenuine(a, sent) && AllGenuine(b, sent)
    ensures AllGenuine(a + b, sent)
  {
    hide Genuine;
  }

  lemma SentGenuine(c: Channel, f: Frame, sent: seq<Frame>)
    requires Encode(f).Ok? && f in sent
    ensures AllGenuine(Emitted(c, Encode(f).value), sent) && Genuine(Damaged(c, Encode(f).value), sent)
  {
    hide Encode, Corrupt;
    assert LineOf(Damaged(c, Encode(f).value), f);
  }

  lemma DoFaithful(t: Traffic, a: Act)
    requires Faithful(t)
    ensures Faithful(Do(t, a))
  {
    hide AllGenuine, Genuine, Encode, Concat, Emitted, Damaged, Reversed;
    match a {
      case Send(frame) =>
        if Encode(frame).Ok? {
          SendFaithful(t, frame);
        }
      case FlushAll(reverse) =>
        var lines := InOrder(t.channel, reverse);
        ReversedGenuine(t.channel.delayed, t.sent);
        GenuineAppend(t.wire, lines, t.sent);
        ConcatAppend(t.wire, lines);
        assert Concat(t.chunks) + (t.channel.incoming + Concat(lines)) == Concat(t.chunks) + t.channel.incoming + Concat(lines);
        NothingGenuine(t.sent);
      case Receive(maximum) =>
        var (n, s) := (ReadCount(t.channel, maximum), t.channel.incoming);
        ConcatAppend(t.chunks, [s[..n]]);
        ConcatOne(s[..n]);
        assert s[..n] + s[n..] == s;
        assert Concat(t.chunks) + s[..n] + s[n..] == Concat(t.chunks) + (s[..n] + s[n..]);
      case Configure(faults) =>
    }
  }

  lemma NothingGenuine(sent: seq<Frame>)
    ensures AllGenuine([], sent)
  {
  }

  lemma SendFaithful(t: Traffic, frame: Frame)
    requires Faithful(t) && Encode(frame).Ok?
    ensures Faithful(Do(t, Send(frame)))
  {
    hide AllGenuine, Genuine, Encode, Concat, Emitted, Damaged;
    var encoded := Encode(frame).value;
    var sent := t.sent + [frame];
    var lines := Emitted(t.channel, encoded);
    SentGenuine(t.channel, frame, sent);
    GenuineGrows(t.wire, t.sent, frame);
    GenuineGrows(t.channel.delayed, t.sent, frame);
    GenuineAppend(t.wire, lines, sent);
    OneGenuine(Damaged(t.channel, encoded), sent);
    GenuineAppend(t.channel.delayed, [Damaged(t.channel, encoded)], sent);
    ConcatAppend(t.wire, lines);
    assert Concat(t.chunks) + (t.channel.incoming + Concat(lines)) == Concat(t.chunks) + t.channel.incoming + Concat(lines);
  }

  lemma OneGenuine(line: string, sent: seq<Frame>)
    requires Genuine(line, sent)
    ensures AllGenuine([line], sent)
  {
  }

  lemma {:induction false} RunFaithful(t: Traffic, acts: seq<Act>)
    requires Faithful(t)
    ensures Faithful(DoAll(t, acts))
    decreases |acts|
  {
    hide Faithful, Do;
    if acts != [] {
      DoFaithful(t, acts[0]);
      RunFaithful(Do(t, acts[0]), acts[1..]);
    }
  }

  // ---- what the host makes of it ----

  /** A frame's encoding is one line, and the zeroed check field keeps it so. */
  lemma LineShape(f: Frame, line: string)
    requires LineOf(line, f)
    ensures line != "" && line[|line| - 1] == '\n' && |line| <= MAX_FRAME_BYTES
    ensures forall i :: 0 <= i < |line| - 1 ==> line[i] != '\n'
    ensures line == Payload(f) + "*" + (if line == Encode(f).value then Hex4(Crc16(Payload(f))) else "0000") + "\n"
  {
    assert |Encode(f).value| <= MAX_FRAME_BYTES;
    hide Payload, Crc16, Hex4, Corrupt, Encode;
    ZeroedShape(f);
    EncodedIs(f);
    var p := Payload(f);
    PayloadOneLine(f);
    var check := if line == Encode(f).value then Hex4(Crc16(p)) else "0000";
    assert line == p + "*" + check + "\n";
    assert forall i :: 0 <= i < |p| ==> line[i] == p[i];
    assert forall i :: 0 <= i < 4 ==> line[|p| + 1 + i] == check[i];
  }

  lemma PayloadOneLine(f: Frame)
    requires Encode(f).Ok?
    ensures forall i :: 0 <= i < |Payload(f)| ==> Payload(f)[i] != '\n'
  {
    hide Payload;
    PayloadChars(f);
  }

  lemma SameParts(p: string, a: string, q: string, b: string)
    requires |a| == |b| == 4 && p + "*" + a + "\n" == q + "*" + b + "\n"
    ensures p == q && a == b
  {
    var (x, y) := (p + "*" + a + "\n", q + "*" + b + "\n");
    assert |x| == |p| + 6 && |y| == |q| + 6;
    assert forall i :: 0 <= i < |p| ==> x[i] == p[i] && y[i] == q[i];
    assert forall i :: 0 <= i < 4 ==> x[|p| + 1 + i] == a[i] && y[|q| + 1 + i] == b[i];
  }

  lemma NoCrBefore(p: string, check: string)
    requires IsHex4(check)
    ensures !EndsWithCr(p + "*" + check + "\n")
  {
    var line := p + "*" + check + "\n";
    assert line[|line| - 2] == check[3] && HexDigit(check[3]);
  }

  lemma EncodedIs(f: Frame)
    requires Encode(f).Ok?
    ensures Encode(f).value == Payload(f) + "*" + Hex4(Crc16(Payload(f))) + "\n"
    ensures IsHex4(Hex4(Crc16(Payload(f)))) && IsHex4("0000")
  {
    hide Payload, Crc16, Hex4;
    Hex4RoundTrip(Crc16(Payload(f)));
  }

  /** A line of a sent frame that decodes at all is that frame's encoding. */
  lemma AcceptedIsOwn(f: Frame, line: string)
    requires LineOf(line, f) && Decode(line).Ok?
    ensures line == Encode(f).value && Decode(line) == Ok(f)
  {
    assert Encode(f).Ok?;
    hide *;
    var g := Decode(line).value;
    EncodeDecode(line);
    LineShape(f, line);
    EncodedIs(f);
    var check := if line == Encode(f).value then Hex4(Crc16(Payload(f))) else "0000";
    NoCrBefore(Payload(f), check);
    EncodedIs(g);
    SameParts(Payload(g), Hex4(Crc16(Payload(g))), Payload(f), check);
    DecodeEncode(f);
  }

  /** The corruption fault destroys a frame exactly when its check field was not
      already 0000; it never turns one frame into another. */
  lemma CorruptExactly(f: Frame)
    requires Encode(f).Ok?
    ensures var line := Corrupt(Encode(f).value);
            && (Decode(line).Ok? <==> Hex4(Crc16(Payload(f))) == "0000")
            && (Decode(line).Ok? ==> Decode(line) == Ok(f))
  {
    assert Encode(f).value == Checked(Payload(f));
    assert LineOf(Corrupt(Encode(f).value), f) && LineOf(Encode(f).value, f);
    hide Payload, Crc16, Hex4, Decode, Corrupt, LineOf;
    var line := Corrupt(Encode(f).value);
    LineShape(f, line);
    if Decode(line).Ok? {
      AcceptedIsOwn(f, line);
      SameParts(Payload(f), Hex4(Crc16(Payload(f))), Payload(f), "0000") by {
        ZeroedShape(f);
      }
    }
    if Hex4(Crc16(Payload(f))) == "0000" {
      ZeroedShape(f);
      DecodeEncode(f);
    }
  }

  lemma ZeroedShape(f: Frame)
    requires Encode(f).Ok?
    ensures Corrupt(Encode(f).value) == Payload(f) + "*" + "0000" + "\n"
  {
    hide Payload, Crc16, Hex4;
    var p := Payload(f);
    var crc := Hex4(Crc16(p));
    PayloadChars(f);
    Hex4RoundTrip(Crc16(p));
    var encoded := Encode(f).value;
    assert encoded == p + "*" + crc + "\n" && encoded[|p|] == '*';
    assert forall i :: 0 <= i < 4 ==> encoded[|p| + 1 + i] == crc[i] && HexDigit(crc[i]);
    assert FindLast(encoded, '*') == |p|;
    assert encoded[..|p| + 1] == p + "*";
  }

  // ---- the whole way ----

  predicate OneLine(line: string) {
    line != "" && line[|line| - 1] == '\n' && forall i :: 0 <= i < |line| - 1 ==> line[i] != '\n'
  }

  lemma {:induction false} LinesOfWire(lines: seq<string>)
    requires forall i :: 0 <= i < |lines| ==> OneLine(lines[i])
    ensures Lines(Concat(lines)) == lines
    decreases |lines|
  {
    if lines == [] {
      NoLine("");
    } else {
      var (head, s) := (lines[0], Concat(lines));
      assert OneLine(head);
      assert s[..|head|] == head && s[|head|..] == Concat(lines[1..]);
      LinesFrom(s, |head| - 1);
      LinesOfWire(lines[1..]);
      assert lines == [head] + lines[1..];
    }
  }

  lemma {:induction false} LinesPrefix(s: string, t: string)
    ensures Lines(s) <= Lines(s + t)
    decreases |t|
  {
    hide Lines, Rest;
    if t == "" {
      assert s + t == s;
    } else {
      AppendByte(s, t[0]);
      LinesPrefix(s + [t[0]], t[1..]);
      assert s + [t[0]] + t[1..] == s + t;
    }
  }

  lemma WireLines(t: Traffic)
    requires Faithful(t)
    ensures Lines(Concat(t.chunks)) <= t.wire
    ensures forall i :: 0 <= i < |t.wire| ==> |t.wire[i]| <= MAX_FRAME_BYTES
  {
    hide Lines, Concat, LineOf;
    forall i | 0 <= i < |t.wire| ensures OneLine(t.wire[i]) && |t.wire[i]| <= MAX_FRAME_BYTES {
      assert Genuine(t.wire[i], t.sent);
      var f :| f in t.sent && LineOf(t.wire[i], f);
      LineShape(f, t.wire[i]);
    }
    LinesOfWire(t.wire);
    LinesPrefix(Concat(t.chunks), t.channel.incoming);
  }

  /** Whatever the faults, and however the bytes are cut into reads, the host's
      parser accepts only frames that were sent. */
  lemma OnlySentFramesArrive(acts: seq<Act>)
    ensures var t := DoAll(SILENT, acts);
            var (q, out) := FeedChunks(MAX_FRAME_BYTES, Decode, EMPTY_PARSER, t.chunks);
            |out| <= |t.wire| && forall i :: 0 <= i < |out| && out[i].Ok? ==> out[i].value in t.sent
  {
    hide DoAll, Lines, Rest, Concat, FeedChunks, Decode, LineOf, Faithful, AllGenuine;
    SilentFaithful();
    RunFaithful(SILENT, acts);
    var t := DoAll(SILENT, acts);
    var (q, out) := FeedChunks(MAX_FRAME_BYTES, Decode, EMPTY_PARSER, t.chunks);
    ChunkingIrrelevant(MAX_FRAME_BYTES, Decode, t.chunks);
    WireLines(t);
    var lines := Lines(Concat(t.chunks));
    forall i | 0 <= i < |out| && out[i].Ok? ensures out[i].value in t.sent {
      assert lines[i] == t.wire[i];
      var f := SenderOf(t, i);
      AcceptedIsOwn(f, t.wire[i]);
    }
  }

  lemma SenderOf(t: Traffic, i: nat) returns (f: Frame)
    requires Faithful(t) && i < |t.wire|
    ensures f in t.sent && LineOf(t.wire[i], f)
  {
    hide LineOf;
    assert Genuine(t.wire[i], t.sent);
    f :| f in t.sent && LineOf(t.wire[i], f);
  }

  lemma SilentFaithful()
    ensures Faithful(SILENT)
  {
  }

  // ---- with no fault configured ----

  predicate NoFaults(acts: seq<Act>) {
    forall i :: 0 <= i < |acts| ==> !acts[i].Configure?
  }

  predicate Exact(t: Traffic) {
    && t.channel.delayed == [] && t.channel.faults == QUIET.faults
    && |t.wire| == |t.sent|
    && forall i :: 0 <= i < |t.sent| ==> Encode(t.sent[i]).Ok? && t.wire[i] == Encode(t.sent[i]).value
  }

  lemma {:induction false} RunExact(t: Traffic, acts: seq<Act>)
    requires Exact(t) && NoFaults(acts)
    ensures Exact(DoAll(t, acts))
    decreases |acts|
  {
    hide Encode, Concat, Corrupt;
    if acts != [] {
      assert !acts[0].Configure?;
      RunExact(Do(t, acts[0]), acts[1..]);
    }
  }

  /** Without faults the host accepts exactly what was sent, in order, up to what has been read. */
  lemma QuietChannelIsExact(acts: seq<Act>)
    requires NoFaults(acts)
    ensures var t := DoAll(SILENT, acts);
            var (q, out) := FeedChunks(MAX_FRAME_BYTES, Decode, EMPTY_PARSER, t.chunks);
            |out| <= |t.sent| && forall i :: 0 <= i < |out| ==> out[i] == Ok(t.sent[i])
  {
    hide DoAll, Lines, Rest, Concat, FeedChunks, Decode, Encode, Faithful;
    SilentFaithful();
    RunFaithful(SILENT, acts);
    RunExact(SILENT, acts);
    var t := DoAll(SILENT, acts);
    ChunkingIrrelevant(MAX_FRAME_BYTES, Decode, t.chunks);
    WireLines(t);
    var (q, out) := FeedChunks(MAX_FRAME_BYTES, Decode, EMPTY_PARSER, t.chunks);
    var lines := Lines(Concat(t.chunks));
    forall i | 0 <= i < |out| ensures out[i] == Ok(t.sent[i]) {
      assert lines[i] == t.wire[i];
      DecodeEncode(t.sent[i]);
    }
  }
}
