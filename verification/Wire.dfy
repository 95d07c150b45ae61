/** From the board's state to the host's records: the frames main.cpp writes,
    their sizes, and what the coordinator makes of a RESULT. */
module Wire {
  import opened Common
  import opened Crc
  import opened Frames
  import opened RoundTrip
  import opened Decimal
  import F = Firmware
  import opened Conservation
  import opened Runs

  function StateName(s: F.DeviceState): (name: string)
    ensures 1 <= |name| <= 11
  {
    match s
    case Idle => "idle"
    case Armed => "armed"
    case Pouring => "pouring"
    case Settling => "settling"
    case Complete => "complete"
    case TimedOut => "timed_out"
    case Interrupted => "interrupted"
  }

  /** The low `digits` hexadecimal digits of a number, upper case (hex64_to_ascii with 16). */
  function HexText(n: nat, digits: nat): (s: string)
    ensures |s| == digits && forall i :: 0 <= i < |s| ==> HexDigit(s[i])
  {
    if digits == 0 then "" else NibbleRoundTrip(n % 16, Nibble(0)); HexText(n / 16, digits - 1) + [HexChar(n % 16)]
  }

  predicate IsIdentity(s: string) {
    |s| == 16 && forall i :: 0 <= i < |s| ==> HexDigit(s[i])
  }

  // ---- what the board sends ----

  function ResultFields(device: string, boot: U32, r: F.Outcome): seq<(string, string)> {
    [("boot", HexText(boot, 16)),
     ("seq", Print(r.sequence)),
     ("sid", if r.attributed then r.sid else "none"),
     ("attr", if r.attributed then "1" else "0"),
     ("st", StateName(r.status)),
     ("pulses", Print(r.pulses)),
     ("life", Print(r.lifetime)),
     ("start", Print(r.startedMs)),
     ("end", Print(r.endedMs)),
     ("fault", r.fault),
     ("dev", device)]
  }

  function StatusFields(boot: U32, s: F.Snapshot, now: U32): seq<(string, string)> {
    [("state", StateName(s.state)),
     ("boot", HexText(boot, 16)),
     ("seq", if s.sequence == 0 then "none" else Print(s.sequence)),
     ("sid", if s.attributed && s.sid != "" then s.sid else "none"),
     ("attributed", if s.attributed then "1" else "0"),
     ("pulses", Print(s.sessionPulses)),
     ("lifetime", Print(s.lifetime)),
     ("uptime", Print(now)),
     ("next", Print(s.nextSequence)),
     ("retained", Print(s.retained)),
     ("arm_left", Print(s.armRemainingMs))]
  }

  function FieldsLength(fields: seq<(string, string)>): nat {
    if fields == [] then 0 else 2 + |fields[0].0| + |fields[0].1| + FieldsLength(fields[1..])
  }

  /** The size send_fields computes before it writes anything. */
  function FrameLength(f: Frame): nat {
    4 + 1 + 1 + |f.requestId| + 1 + |f.operation| + 6 + FieldsLength(f.fields)
  }

  function InternalError(requestId: string, operation: string): Frame {
    Frame("E", requestId, "ERROR", [("code", "INTERNAL"), ("op", operation)])
  }

  /** The bytes send_fields writes: the frame, or an INTERNAL error in its
      place when the frame is over the limit, or nothing. */
  function SendFields(f: Frame): string
    decreases if f.operation == "ERROR" then 0 else 1
  {
    if FrameLength(f) <= MAX_FRAME_BYTES then Checked(Payload(f))
    else if f.operation != "ERROR" then SendFields(InternalError(f.requestId, f.operation))
    else ""
  }

  lemma FieldsAt(fields: seq<(string, string)>, i: nat)
    requires i < |fields|
    ensures FieldsText(fields[i..]) == FieldText(fields[i]) + FieldsText(fields[i + 1..])
    ensures FieldsLength(fields[i..]) == |FieldText(fields[i])| + FieldsLength(fields[i + 1..])
  {
    assert fields[i..][1..] == fields[i + 1..];
  }

  lemma NoFields()
    ensures FieldsText([]) == "" && FieldsLength([]) == 0
  {
  }

  /** Its loops: one pass to add up the size, one to write with a running check. */
  method WriteFrame(f: Frame) returns (written: string)
    requires |f.kind| == 1
    ensures written == SendFields(f)
    decreases if f.operation == "ERROR" then 0 else 1
  {
    hide FieldsText, FieldsLength, Payload, CrcFrom, Hex4;
    NoFields();
    assert f.fields[0..] == f.fields && f.fields[|f.fields|..] == [];
    var length := 4 + 1 + 1 + |f.requestId| + 1 + |f.operation| + 6;
    for i := 0 to |f.fields|
      invariant length + FieldsLength(f.fields[i..]) == FrameLength(f)
    {
      FieldsAt(f.fields, i);
      length := length + 2 + |f.fields[i].0| + |f.fields[i].1|;
    }
    if length > MAX_FRAME_BYTES {
      if f.operation != "ERROR" {
        written := WriteFrame(InternalError(f.requestId, f.operation));
        return;
      }
      return "";
    }
    written := "KP1|" + f.kind + "|" + f.requestId + "|" + f.operation;
    var crc := CrcOver(PRESET, written);
    PayloadText(f);
    for i := 0 to |f.fields|
      invariant written + FieldsText(f.fields[i..]) == Payload(f)
      invariant crc == CrcFrom(PRESET, written)
    {
      FieldsAt(f.fields, i);
      var text := FieldText(f.fields[i]);
      CrcSplits(PRESET, written, text);
      assert written + text + FieldsText(f.fields[i + 1..]) == written + (text + FieldsText(f.fields[i + 1..]));
      crc := CrcOver(crc, text);
      written := written + text;
    }
    assert written + "" == written;
    written := written + "*" + Hex4(crc) + "\n";
  }

  method CrcOver(start: Word, text: string) returns (crc: Word)
    ensures crc == CrcFrom(start, text)
  {
    crc := start;
    for i := 0 to |text|
      invariant CrcFrom(crc, text[i..]) == CrcFrom(start, text)
    {
      crc := ShiftIn(crc, text[i]);
      assert text[i..][1..] == text[i + 1..];
    }
    assert text[|text|..] == "";
  }

  lemma {:induction false} CrcSplits(w: Word, a: string, b: string)
    ensures CrcFrom(w, a + b) == CrcFrom(CrcFrom(w, a), b)
    decreases |a|
  {
    if a == "" {
      assert a + b == b;
    } else {
      assert (a + b)[1..] == a[1..] + b;
      CrcSplits(AddByte(w, a[0]), a[1..], b);
    }
  }

  function FieldText(field: (string, string)): string {
    "|" + field.0 + "=" + field.1
  }

  function FieldsText(fields: seq<(string, string)>): string {
    if fields == [] then "" else FieldText(fields[0]) + FieldsText(fields[1..])
  }

  lemma {:induction false} JoinText(head: string, fields: seq<(string, string)>)
    ensures Join([head] + FieldTokens(fields), '|') == head + FieldsText(fields)
    decreases |fields|
  {
    if fields == [] {
      assert [head] + FieldTokens(fields) == [head];
      assert head + "" == head;
    } else {
      var (token, text) := (FieldToken(fields[0]), FieldsText(fields[1..]));
      JoinText(token, fields[1..]);
      TokensCons(fields);
      JoinCons(head, FieldTokens(fields));
      assert head + ['|'] + (token + text) == head + (['|'] + token + text);
      assert FieldText(fields[0]) == ['|'] + token;
    }
  }

  lemma TokensCons(fields: seq<(string, string)>)
    requires fields != []
    ensures FieldTokens(fields) == [FieldToken(fields[0])] + FieldTokens(fields[1..])
  {
  }

  lemma JoinCons(head: string, tokens: seq<string>)
    requires tokens != []
    ensures Join([head] + tokens, '|') == head + ['|'] + Join(tokens, '|')
  {
    assert ([head] + tokens)[1..] == tokens;
  }

  lemma PayloadText(f: Frame)
    ensures Payload(f) == "KP1|" + f.kind + "|" + f.requestId + "|" + f.operation + FieldsText(f.fields)
  {
    var ft := FieldTokens(f.fields);
    JoinText(f.operation, f.fields);
    hide FieldTokens, FieldsText;
    var t3 := [f.operation] + ft;
    var t2 := [f.requestId] + t3;
    var t1 := [f.kind] + t2;
    JoinCons(f.requestId, t3);
    JoinCons(f.kind, t2);
    JoinCons("KP1", t1);
    hide Join;
    assert ["KP1", f.kind, f.requestId, f.operation] + ft == ["KP1"] + t1;
  }

  lemma {:induction false} FieldsTextLength(fields: seq<(string, string)>)
    ensures |FieldsText(fields)| == FieldsLength(fields)
    decreases |fields|
  {
    if fields != [] {
      FieldsTextLength(fields[1..]);
    }
  }

  /** The computed size is the size written. */
  lemma FrameLengthExact(f: Frame)
    requires |f.kind| == 1
    ensures |Checked(Payload(f))| == FrameLength(f)
  {
    PayloadText(f);
    FieldsTextLength(f.fields);
  }

  // ---- sizes ----

  lemma ElevenFields(f: seq<(string, string)>)
    requires |f| == 11
    ensures FieldsLength(f) == 22
              + |f[0].0| + |f[1].0| + |f[2].0| + |f[3].0| + |f[4].0| + |f[5].0| + |f[6].0| + |f[7].0| + |f[8].0| + |f[9].0| + |f[10].0|
              + |f[0].1| + |f[1].1| + |f[2].1| + |f[3].1| + |f[4].1| + |f[5].1| + |f[6].1| + |f[7].1| + |f[8].1| + |f[9].1| + |f[10].1|
  {
    FieldsLengthTail(f, 0);
    FieldsLengthTail(f, 1);
    FieldsLengthTail(f, 2);
    FieldsLengthTail(f, 3);
    FieldsLengthTail(f, 4);
    FieldsLengthTail(f, 5);
    FieldsLengthTail(f, 6);
    FieldsLengthTail(f, 7);
    FieldsLengthTail(f, 8);
    FieldsLengthTail(f, 9);
    FieldsLengthTail(f, 10);
    assert f[0..] == f && f[11..] == [];
  }

  lemma FieldsLengthTail(f: seq<(string, string)>, k: nat)
    requires k < |f|
    ensures FieldsLength(f[k..]) == 2 + |f[k].0| + |f[k].1| + FieldsLength(f[k + 1..])
  {
    assert f[k..][1..] == f[k + 1..];
  }

  function ResultFrame(device: string, boot: U32, r: F.Outcome): Frame {
    Frame("R", "00000000", "RESULT", ResultFields(device, boot, r))
  }

  function StatusFrame(requestId: string, boot: U32, s: F.Snapshot, now: U32): Frame {
    Frame("R", requestId, "STATUS", StatusFields(boot, s, now))
  }

  lemma FaultLengths(r: F.Outcome)
    requires GoodOutcome(r)
    ensures 1 <= |r.fault| <= 17
  {
  }

  /** A RESULT of a well-formed outcome never exceeds 253 bytes. */
  lemma ResultFits(device: string, boot: U32, r: F.Outcome)
    requires IsIdentity(device) && GoodOutcome(r)
    ensures FrameLength(ResultFrame(device, boot, r)) <= 253
  {
    hide HexText, Print, FieldsLength, F.ValidSid;
    ElevenFields(ResultFields(device, boot, r));
    MachineWidths(r.sequence);
    MachineWidths(r.pulses);
    MachineWidths(r.lifetime);
    MachineWidths(r.startedMs);
    MachineWidths(r.endedMs);
    FaultLengths(r);
    SidLength(r);
  }

  lemma SidLength(r: F.Outcome)
    requires GoodOutcome(r)
    ensures |if r.attributed then r.sid else "none"| <= 32
  {
  }

  /** What a snapshot of a reachable machine can hold: the time left to arm and
      a nonzero pulse count exclude each other. */
  lemma SnapshotBounds(m: F.Machine, now: U32)
    requires Inv(m)
    ensures var s := F.TakeSnapshot(m, now);
            && s.retained <= 4 && s.sessionPulses <= INT64_MAX
            && (s.attributed ==> |s.sid| == 32)
            && (s.armRemainingMs == 0 || s.sessionPulses == 0)
  {
    if m.active.None? && |m.results| > 0 {
      assert InStore(m.results[|m.results| - 1], Frontier(m), m.lifetime);
    }
  }

  /** A STATUS of any reachable state takes at most 245 of the 256 bytes, for any request. */
  lemma StatusFits(requestId: string, boot: U32, m: F.Machine, now: U32)
    requires Inv(m) && |requestId| == 8
    ensures FrameLength(StatusFrame(requestId, boot, F.TakeSnapshot(m, now), now)) <= 245
  {
    hide HexText, Print, FieldsLength, F.ValidSid, F.TakeSnapshot, Inv;
    var s := F.TakeSnapshot(m, now);
    SnapshotBounds(m, now);
    ElevenFields(StatusFields(boot, s, now));
    MachineWidths(s.sequence);
    MachineWidths(s.sessionPulses);
    MachineWidths(s.lifetime);
    MachineWidths(now);
    MachineWidths(s.nextSequence);
    MachineWidths(s.retained);
    MachineWidths(s.armRemainingMs);
  }

  /** So the INTERNAL fallback never replaces a STATUS or a RESULT. */
  lemma FallbackNeverFires(device: string, boot: U32, cfg: F.Config, ops: seq<F.Op>, now: U32, requestId: string)
    requires IsIdentity(device) && |requestId| == 8
    ensures var m := F.Run(cfg, F.FRESH, ops);
            var status := StatusFrame(requestId, boot, F.TakeSnapshot(m, now), now);
            && SendFields(status) == Checked(Payload(status))
            && forall i :: 0 <= i < |m.results| ==>
                 SendFields(ResultFrame(device, boot, m.results[i])) == Checked(Payload(ResultFrame(device, boot, m.results[i])))
  {
    hide FrameLength, Checked, Payload, StatusFrame, ResultFrame, F.Run, F.TakeSnapshot, GoodOutcome;
    PowerOnConsistent(cfg, ops);
    var m := F.Run(cfg, F.FRESH, ops);
    StatusFits(requestId, boot, m, now);
    forall i | 0 <= i < |m.results|
      ensures SendFields(ResultFrame(device, boot, m.results[i])) == Checked(Payload(ResultFrame(device, boot, m.results[i])))
    {
      assert InStore(m.results[i], Frontier(m), m.lifetime);
      ResultFits(device, boot, m.results[i]);
    }
  }

  /** The widest result and snapshot the machine's invariant allows. */
  const WIDEST_RESULT: F.Outcome :=
    F.Outcome(UINT32_MAX - 1, "00000000000000000000000000000000", true, F.Interrupted, INT64_MAX, UINT64_MAX,
              UINT32_MAX, UINT32_MAX, "session_saturated")

  const WIDEST: F.Machine := F.Machine(0, "session_saturated", UINT64_MAX, F.Interrupted, UINT32_MAX, None, [WIDEST_RESULT])

  lemma FullWidths()
    ensures |Print(UINT32_MAX)| == |Print(UINT32_MAX - 1)| == 10 && |Print(INT64_MAX)| == 19 && |Print(UINT64_MAX)| == 20
  {
    hide Print;
    PowersOfTen();
    assert Pow10(10) == 10 * Pow10(9) && Pow10(19) == 10 * Pow10(18);
    PrintWidth(UINT32_MAX, 9);
    PrintWidth(UINT32_MAX - 1, 9);
    PrintWidth(INT64_MAX, 18);
    PrintWidth(UINT64_MAX, 19);
    MachineWidths(UINT32_MAX);
    MachineWidths(UINT32_MAX - 1);
    MachineWidths(INT64_MAX);
    MachineWidths(UINT64_MAX);
  }

  lemma WidestConsistent()
    ensures Consistent(WIDEST)
  {
    assert PulseSum([]) == 0;
    assert WIDEST.results[..0] == [];
  }

  /** Both bounds are tight. */
  lemma BoundsReached(requestId: string, device: string, boot: U32)
    requires |requestId| == 8 && IsIdentity(device)
    ensures Consistent(WIDEST)
    ensures FrameLength(StatusFrame(requestId, boot, F.TakeSnapshot(WIDEST, UINT32_MAX), UINT32_MAX)) == 245
    ensures FrameLength(ResultFrame(device, boot, WIDEST_RESULT)) == 253
  {
    hide HexText, Print, FieldsLength, Consistent, F.ValidSid;
    WidestConsistent();
    FullWidths();
    MachineWidths(0);
    MachineWidths(1);
    ElevenFields(ResultFields(device, boot, WIDEST_RESULT));
    ElevenFields(StatusFields(boot, F.TakeSnapshot(WIDEST, UINT32_MAX), UINT32_MAX));
  }

  // ---- what the host sends ----

  function ArmRequest(requestId: string, boot: string, sequence: nat, sid: string, ttl: nat): Frame {
    Frame("Q", requestId, "ARM", [("boot", boot), ("seq", Print(sequence)), ("sid", sid), ("ttl", Print(ttl))])
  }

  function CancelRequest(requestId: string, boot: string, sequence: nat, sid: string): Frame {
    Frame("Q", requestId, "CANCEL", [("boot", boot), ("seq", Print(sequence)), ("sid", sid)])
  }

  function AckRequest(requestId: string, device: string, boot: string, sequence: nat): Frame {
    Frame("Q", requestId, "ACK", [("dev", device), ("boot", boot), ("seq", Print(sequence))])
  }

  /** Every command that changes the machine fits the Nano's 128-byte buffer;
      the longest is a maximum-width ARM of 113 bytes. */
  lemma CommandsFit(requestId: string, device: string, boot: string, sequence: U32, sid: string, ttl: U32)
    requires IsRequestId(requestId) && IsIdentity(device) && IsIdentity(boot) && F.ValidSid(sid)
    ensures FrameLength(ArmRequest(requestId, boot, sequence, sid, ttl)) <= 113
    ensures FrameLength(CancelRequest(requestId, boot, sequence, sid)) <= 113
    ensures FrameLength(AckRequest(requestId, device, boot, sequence)) <= 113
  {
    hide Print;
    MachineWidths(sequence);
    MachineWidths(ttl);
    ShortFields(ArmRequest(requestId, boot, sequence, sid, ttl).fields);
    ShortFields(CancelRequest(requestId, boot, sequence, sid).fields);
    ShortFields(AckRequest(requestId, device, boot, sequence).fields);
  }

  lemma ShortFields(f: seq<(string, string)>)
    requires 3 <= |f| <= 4
    ensures FieldsLength(f) == 6 + |f[0].0| + |f[0].1| + |f[1].0| + |f[1].1| + |f[2].0| + |f[2].1|
                               + (if |f| == 4 then 2 + |f[3].0| + |f[3].1| else 0)
  {
    FieldsLengthTail(f, 0);
    FieldsLengthTail(f, 1);
    FieldsLengthTail(f, 2);
    assert f[0..] == f;
    if |f| == 4 {
      FieldsLengthTail(f, 3);
      assert f[4..] == [];
    } else {
      assert f[3..] == [];
    }
  }
}
