/** What the coordinator makes of a RESULT frame, end to end from the board. */
module HostResult {
  import opened Common
  import opened Frames
  import opened RoundTrip
  import opened Decimal
  import opened PulseIntegrity
  import opened Wire
  import F = Firmware
  import opened Conservation
  import opened Runs

  datatype DeviceResult = DeviceResult(
    device: string, boot: string, sequence: nat, sid: Option<string>, attributed: bool,
    status: F.DeviceState, pulses: nat, lifetime: nat, startedMs: nat, endedMs: nat, fault: string)

  /** The terminal states by their names; every other name is refused. */
  function TerminalState(name: string): Option<F.DeviceState> {
    if name == "complete" then Some(F.Complete)
    else if name == "timed_out" then Some(F.TimedOut)
    else if name == "interrupted" then Some(F.Interrupted)
    else None
  }

  /** The fields a result must have, looked up together. */
  datatype Texts = Texts(dev: string, boot: string, seq_: string, sid: string, attr: string, st: string,
                         pulses: string, life: string, start: string, end: string, fault: string)

  function Required(fields: seq<(string, string)>): Option<Texts> {
    var (dev, boot, sequence, sid, attr) :=
      (Lookup(fields, "dev"), Lookup(fields, "boot"), Lookup(fields, "seq"), Lookup(fields, "sid"), Lookup(fields, "attr"));
    var (st, pulses, life, start, end, fault) :=
      (Lookup(fields, "st"), Lookup(fields, "pulses"), Lookup(fields, "life"), Lookup(fields, "start"), Lookup(fields, "end"), Lookup(fields, "fault"));
    if dev.None? || boot.None? || sequence.None? || sid.None? || attr.None? || st.None? || pulses.None?
       || life.None? || start.None? || end.None? || fault.None? then None
    else Some(Texts(dev.value, boot.value, sequence.value, sid.value, attr.value, st.value,
                    pulses.value, life.value, start.value, end.value, fault.value))
  }

  /** The session id is a 32-digit lower-case one exactly when the result is
      attributed, and otherwise the word none. */
  predicate SidConsistent(t: Texts) {
    && (t.attr == "0" || t.attr == "1")
    && ((t.attr == "1") == F.ValidSid(t.sid) || (t.attr == "0" && t.sid == "none"))
  }

  function ReadTexts(t: Texts): Result<DeviceResult, Rejected> {
    var (sequence, pulses, life, started, ended) :=
      (PyInt(t.seq_), PyInt(t.pulses), PyInt(t.life), PyInt(t.start), PyInt(t.end));
    if TerminalState(t.st).None? || !IsIdentity(t.dev) || !IsIdentity(t.boot) || !SidConsistent(t) || !IsFaultToken(t.fault) then
      Err(MeasurementRejected)
    else if sequence.None? || pulses.None? || life.None? || started.None? || ended.None? then Err(MeasurementRejected)
    else if !(1 <= sequence.value <= UINT32_MAX) then Err(MeasurementRejected)
    else if !(0 <= pulses.value <= INT64_MAX) || !(pulses.value <= life.value <= UINT64_MAX) then Err(MeasurementRejected)
    else
      var elapsed := ElapsedU32(started.value, ended.value);
      if elapsed.Err? || !Plausible(pulses.value, elapsed.value) then Err(MeasurementRejected)
      else if TerminalState(t.st).value == F.TimedOut && pulses.value != 0 then Err(MeasurementRejected)
      else Ok(DeviceResult(t.dev, t.boot, sequence.value, if t.sid == "none" then None else Some(t.sid), t.attr == "1",
                           TerminalState(t.st).value, pulses.value, life.value, started.value, ended.value, t.fault))
  }

  /** `_device_result`: a result, or a reason to quarantine the frame. */
  function ReadResult(fields: seq<(string, string)>): Result<DeviceResult, Rejected> {
    match Required(fields)
    case None => Err(MeasurementRejected)
    case Some(t) => ReadTexts(t)
  }

  // ---- composition ----

  /** The one thing the host may refuse in a result the board really produced. */
  predicate WithinEnvelope(r: F.Outcome) {
    var elapsed := ElapsedU32(r.startedMs, r.endedMs);
    elapsed.Ok? && Plausible(r.pulses, elapsed.value)
  }

  function Meant(device: string, boot: U32, r: F.Outcome): DeviceResult {
    DeviceResult(device, HexText(boot, 16), r.sequence, if r.attributed then Some(r.sid) else None, r.attributed,
                 r.status, r.pulses, r.lifetime, r.startedMs, r.endedMs, r.fault)
  }

  function ResultTexts(device: string, boot: U32, r: F.Outcome): Texts {
    Texts(device, HexText(boot, 16), Print(r.sequence), if r.attributed then r.sid else "none",
          if r.attributed then "1" else "0", StateName(r.status), Print(r.pulses), Print(r.lifetime),
          Print(r.startedMs), Print(r.endedMs), r.fault)
  }

  const RESULT_KEYS: seq<string> := ["boot", "seq", "sid", "attr", "st", "pulses", "life", "start", "end", "fault", "dev"]

  /** A length and one or two characters tell a result's keys apart. */
  function KeyNumber(s: string): int
    requires |s| >= 2
  {
    match |s|
    case 2 => 4
    case 3 => if s[0] == 'e' then 8 else if s[0] == 'd' then 10 else if s[1] == 'e' then 1 else 2
    case 4 => if s[0] == 'b' then 0 else if s[0] == 'a' then 3 else 6
    case 5 => if s[0] == 's' then 7 else 9
    case _ => 5
  }

  lemma KeysDistinct()
    ensures forall i, j :: 0 <= i < j < 11 ==> RESULT_KEYS[i] != RESULT_KEYS[j]
  {
    assert KeyNumber(RESULT_KEYS[0]) == 0 && KeyNumber(RESULT_KEYS[1]) == 1 && KeyNumber(RESULT_KEYS[2]) == 2;
    assert KeyNumber(RESULT_KEYS[3]) == 3 && KeyNumber(RESULT_KEYS[4]) == 4 && KeyNumber(RESULT_KEYS[5]) == 5;
    assert KeyNumber(RESULT_KEYS[6]) == 6 && KeyNumber(RESULT_KEYS[7]) == 7 && KeyNumber(RESULT_KEYS[8]) == 8;
    assert KeyNumber(RESULT_KEYS[9]) == 9 && KeyNumber(RESULT_KEYS[10]) == 10;
    assert forall k :: 0 <= k < 11 ==> |RESULT_KEYS[k]| >= 2 && KeyNumber(RESULT_KEYS[k]) == k;
  }

  lemma LookupResultField(device: string, boot: U32, r: F.Outcome, k: nat)
    requires k < 11
    ensures Lookup(ResultFields(device, boot, r), RESULT_KEYS[k]) == Some(ResultFields(device, boot, r)[k].1)
  {
    hide HexText, Print, StateName, Lookup;
    KeysDistinct();
    var f := ResultFields(device, boot, r);
    assert forall i :: 0 <= i < 11 ==> f[i].0 == RESULT_KEYS[i];
    FieldAt(f, k);
  }

  lemma ResultFieldsRequired(device: string, boot: U32, r: F.Outcome)
    ensures Required(ResultFields(device, boot, r)) == Some(ResultTexts(device, boot, r))
  {
    hide HexText, Print, StateName, Lookup;
    forall k | 0 <= k < 11
      ensures Lookup(ResultFields(device, boot, r), RESULT_KEYS[k]) == Some(ResultFields(device, boot, r)[k].1)
    {
      LookupResultField(device, boot, r, k);
    }
    assert RESULT_KEYS[0] == "boot" && RESULT_KEYS[1] == "seq" && RESULT_KEYS[2] == "sid" && RESULT_KEYS[3] == "attr"
        && RESULT_KEYS[4] == "st" && RESULT_KEYS[5] == "pulses" && RESULT_KEYS[6] == "life" && RESULT_KEYS[7] == "start"
        && RESULT_KEYS[8] == "end" && RESULT_KEYS[9] == "fault" && RESULT_KEYS[10] == "dev";
  }

  lemma {:induction false} FieldAt(f: seq<(string, string)>, k: nat)
    requires k < |f| && forall i :: 0 <= i < k ==> f[i].0 != f[k].0
    ensures Lookup(f, f[k].0) == Some(f[k].1)
    decreases k
  {
    if k > 0 {
      assert f[1..][k - 1] == f[k];
      assert forall i :: 0 <= i < k - 1 ==> f[1..][i] == f[i + 1];
      FieldAt(f[1..], k - 1);
    }
  }

  lemma StateNames(s: F.DeviceState)
    ensures TerminalState(StateName(s)) == if F.Terminal(s) then Some(s) else None
    ensures IsValue(StateName(s))
  {
  }

  lemma FaultTokens(fault: string)
    requires fault in FAULTS
    ensures IsValue(fault)
  {
  }

  /** Every result of every reachable machine state passes all of the host's
      structural checks and is read back field for field; only the duration and
      rate envelope can refuse it. */
  lemma ResultReadBack(device: string, boot: U32, r: F.Outcome)
    requires IsIdentity(device) && GoodOutcome(r)
    ensures ReadResult(ResultFields(device, boot, r)) ==
              if WithinEnvelope(r) then Ok(Meant(device, boot, r)) else Err(MeasurementRejected)
  {
    hide HexText, Print, PyInt, ResultFields, Required, F.ValidSid, ElapsedU32, Plausible, StateName, TerminalState;
    ResultFieldsRequired(device, boot, r);
    PyIntPrint(r.sequence);
    PyIntPrint(r.pulses);
    PyIntPrint(r.lifetime);
    PyIntPrint(r.startedMs);
    PyIntPrint(r.endedMs);
    StateNames(r.status);
    FaultTokens(r.fault);
    NoneIsNoSid(r.sid);
  }

  lemma NoneIsNoSid(sid: string)
    ensures !F.ValidSid("none")
    ensures F.ValidSid(sid) ==> sid != "none"
  {
  }

  lemma PrintIsValue(n: U64)
    ensures IsValue(Print(n))
  {
    MachineWidths(n);
    ValuePrint(n);
  }

  lemma SidIsValue(sid: string)
    requires F.ValidSid(sid)
    ensures IsValue(sid)
  {
  }

  lemma ResultFrameValid(device: string, boot: U32, r: F.Outcome)
    requires IsIdentity(device) && GoodOutcome(r)
    ensures ValidHeader(ResultFrame(device, boot, r)) && ValidFields(ResultFields(device, boot, r))
  {
    hide HexText, Print, F.ValidSid, StateName, IsValue;
    var f := ResultFields(device, boot, r);
    PrintIsValue(r.sequence);
    PrintIsValue(r.pulses);
    PrintIsValue(r.lifetime);
    PrintIsValue(r.startedMs);
    PrintIsValue(r.endedMs);
    StateNames(r.status);
    FaultTokens(r.fault);
    if r.attributed {
      SidIsValue(r.sid);
    }
    WordsAreValues(device);
    WordsAreValues(HexText(boot, 16));
  }

  lemma WordsAreValues(identity: string)
    requires IsIdentity(identity)
    ensures IsValue(identity) && IsValue("none") && IsValue("0") && IsValue("1")
  {
  }

  /** From the board's memory to the host's record: the bytes the board writes
      for a retained result decode on the host to exactly that result, unless
      it falls outside the envelope. */
  lemma ResultDelivered(device: string, boot: U32, cfg: F.Config, ops: seq<F.Op>, i: nat)
    requires IsIdentity(device)
    ensures var m := F.Run(cfg, F.FRESH, ops);
            i < |m.results| ==>
              var frame := Decode(SendFields(ResultFrame(device, boot, m.results[i])));
              && frame == Ok(ResultFrame(device, boot, m.results[i]))
              && ReadResult(frame.value.fields) ==
                   (if WithinEnvelope(m.results[i]) then Ok(Meant(device, boot, m.results[i])) else Err(MeasurementRejected))
  {
    hide F.Run, ReadResult, ResultFields, Decode, Checked, Payload, GoodOutcome, ValidFields, FrameLength, ValidHeader, WithinEnvelope;
    var m := F.Run(cfg, F.FRESH, ops);
    if i < |m.results| {
      var r := m.results[i];
      PowerOnConsistent(cfg, ops);
      assert InStore(r, Frontier(m), m.lifetime);
      ResultFrameValid(device, boot, r);
      ResultFits(device, boot, r);
      FrameLengthExact(ResultFrame(device, boot, r));
      DecodeEncode(ResultFrame(device, boot, r));
      ResultReadBack(device, boot, r);
    }
  }

  // ---- what a record guarantees ----

  /** The number a field's text stands for. */
  predicate Numbered(fields: seq<(string, string)>, key: string, n: int) {
    Lookup(fields, key).Some? && PyInt(Lookup(fields, key).value) == Some(n)
  }

  /** Whatever line a record was read from, its numbers are those of the texts under
      their names, in range and inside the envelope of its own duration; its status
      ends an event, a time-out has no pulses, and an attributed one a session id. */
  lemma RecordGuarantees(fields: seq<(string, string)>, r: DeviceResult)
    requires ReadResult(fields) == Ok(r)
    ensures Lookup(fields, "dev") == Some(r.device) && Lookup(fields, "boot") == Some(r.boot)
    ensures IsIdentity(r.device) && IsIdentity(r.boot)
    ensures Numbered(fields, "seq", r.sequence) && Numbered(fields, "pulses", r.pulses) && Numbered(fields, "life", r.lifetime)
    ensures Numbered(fields, "start", r.startedMs) && Numbered(fields, "end", r.endedMs)
    ensures 1 <= r.sequence < 0x1_0000_0000 && r.pulses <= r.lifetime < 0x1_0000_0000_0000_0000
    ensures r.startedMs < 0x1_0000_0000 && r.endedMs < 0x1_0000_0000
    ensures var duration := (r.endedMs - r.startedMs) % 0x1_0000_0000;
            duration < 0x8000_0000 && r.pulses <= 100000 + 10 * duration && r.pulses <= 1000000000
    ensures Lookup(fields, "st") == Some(StateName(r.status)) && r.status in {F.Complete, F.TimedOut, F.Interrupted}
    ensures r.status == F.TimedOut ==> r.pulses == 0
    ensures Lookup(fields, "attr") == Some(if r.attributed then "1" else "0")
    ensures r.attributed ==> r.sid.Some? && F.ValidSid(r.sid.value) && Lookup(fields, "sid") == r.sid
    ensures Lookup(fields, "fault") == Some(r.fault) && IsFaultToken(r.fault)
  {
    hide Lookup, PyInt, IsIdentity, F.ValidSid, IsFaultToken, Plausible;
    var t := Required(fields).value;
    PlausibleInNumbers(r.pulses, ElapsedU32(r.startedMs, r.endedMs).value);
    if r.attributed {
      NoneIsNoSid(t.sid);
    }
  }
}
