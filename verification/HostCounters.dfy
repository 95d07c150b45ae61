/** A COUNTERS reply from the board's memory to the host's snapshot. */
module HostCounters {
  import opened Common
  import opened Frames
  import opened RoundTrip
  import opened Decimal
  import opened PulseIntegrity
  import opened Wire
  import opened HostResult
  import F = Firmware
  import opened Runs

  /** What a reply says of the board; the noise gate is fixed when the firmware is built. */
  datatype Counters = Counters(accepted: U64, recovery: U64, rejected: U32, fault: string)

  function CountersFields(c: Counters, gateUs: U32): seq<(string, string)> {
    [("accepted", Print(c.accepted)),
     ("rejected", Print(c.rejected)),
     ("noise_gate_us", Print(gateUs)),
     ("recovery", Print(c.recovery)),
     ("fault", c.fault)]
  }

  function CountersFrame(requestId: string, c: Counters, gateUs: U32): Frame {
    Frame("R", requestId, "COUNTERS", CountersFields(c, gateUs))
  }

  function CountersOf(m: F.Machine, rejected: U32): Counters {
    Counters(m.lifetime, m.recovery, rejected, m.fault)
  }

  // ---- the board's fault text ----

  /** A fault text every field can carry. */
  predicate BoardFault(fault: string) {
    IsValue(fault) && |fault| <= 18
  }

  lemma BoardFaults()
    ensures BoardFault("none") && BoardFault("result_store_full") && BoardFault("sequence_exhausted")
    ensures BoardFault("session_saturated") && BoardFault("lifetime_saturated") && BoardFault("counter_saturated")
  {
  }

  predicate FaultKept(m: F.Machine, n: F.Machine) {
    BoardFault(m.fault) ==> BoardFault(n.fault)
  }

  lemma FinalizeFault(m: F.Machine, status: F.DeviceState, ended: U32, fault: string)
    ensures FaultKept(m, F.Finalize(m, status, ended, fault).m)
  {
    hide BoardFault;
    BoardFaults();
  }

  lemma TickFault(cfg: F.Config, m: F.Machine, now: U32)
    ensures FaultKept(m, F.Tick(cfg, m, now).m)
  {
    hide BoardFault, F.Finalize, F.Due;
    if m.active.Some? {
      FinalizeFault(m, F.TimedOut, m.active.value.armDeadlineMs, "none");
      var s := F.Settle(cfg, m, now);
      FinalizeFault(s, F.Complete, s.active.value.settleDeadlineMs, "none");
    }
  }

  lemma PulsesFault(cfg: F.Config, m: F.Machine, count: U32, captured: U32)
    ensures FaultKept(m, F.AddPulses(cfg, m, count, captured).m)
  {
    hide BoardFault, F.Finalize, F.Due, F.After, F.Tick;
    BoardFaults();
    TickFault(cfg, m, captured);
    var n := F.AdvanceTo(cfg, m, captured).m;
    FinalizeFault(n.(lifetime := UINT64_MAX, fault := "lifetime_saturated"), F.Interrupted, captured, "lifetime_saturated");
    if n.active.Some? && !F.LifetimeFull(n, count) {
      var counted := n.(lifetime := n.lifetime + count);
      FinalizeFault(counted.(active := Some(n.active.value.(pulses := F.MAX_RESULT_PULSES)), fault := "session_saturated"),
                    F.Interrupted, captured, "session_saturated");
    }
  }

  lemma CallFault(cfg: F.Config, m: F.Machine, op: F.Op)
    ensures FaultKept(m, F.Apply(cfg, m, op).m)
  {
    hide BoardFault, F.Finalize, F.Due, F.Tick, F.AddPulses, F.Known, F.ValidSid, F.IndexOf;
    BoardFaults();
    match op {
      case OpArm(_, _, at, _) => TickFault(cfg, m, Wrap(at));
      case OpCancel(_, _, at) =>
        TickFault(cfg, m, Wrap(at));
        FinalizeFault(F.Tick(cfg, m, Wrap(at)).m, F.Interrupted, Wrap(at), "cancelled");
      case OpPulses(count, at) => PulsesFault(cfg, m, count, Wrap(at));
      case OpBatch(count, first, at) =>
        PulsesFault(cfg, m, 1, Wrap(first));
        if count > 1 {
          PulsesFault(cfg, F.AddPulses(cfg, m, 1, Wrap(first)).m, count - 1, Wrap(at));
        }
      case OpTick(at) => TickFault(cfg, m, Wrap(at));
      case OpMarkSaturated(at) => FinalizeFault(m.(fault := "counter_saturated"), F.Interrupted, Wrap(at), "counter_saturated");
      case OpAck(_) =>
    }
  }

  lemma {:induction false} RunFault(cfg: F.Config, m: F.Machine, ops: seq<F.Op>)
    requires BoardFault(m.fault)
    ensures BoardFault(F.Run(cfg, m, ops).fault)
    decreases |ops|
  {
    hide F.Apply, BoardFault;
    if ops != [] {
      CallFault(cfg, m, ops[0]);
      RunFault(cfg, F.Apply(cfg, m, ops[0]).m, ops[1..]);
    }
  }

  // ---- size ----

  lemma FiveFields(f: seq<(string, string)>)
    requires |f| == 5
    ensures FieldsLength(f) == 10 + |f[0].0| + |f[1].0| + |f[2].0| + |f[3].0| + |f[4].0|
                                  + |f[0].1| + |f[1].1| + |f[2].1| + |f[3].1| + |f[4].1|
  {
    FieldsLengthTail(f, 0);
    FieldsLengthTail(f, 1);
    FieldsLengthTail(f, 2);
    FieldsLengthTail(f, 3);
    FieldsLengthTail(f, 4);
    assert f[0..] == f && f[5..] == [];
  }

  lemma CountersFit(requestId: string, c: Counters, gateUs: U32)
    requires |requestId| == 8 && BoardFault(c.fault)
    ensures FrameLength(CountersFrame(requestId, c, gateUs)) <= 159
  {
    hide Print, FieldsLength, IsValue;
    FiveFields(CountersFields(c, gateUs));
    MachineWidths(c.accepted);
    MachineWidths(c.recovery);
    MachineWidths(c.rejected);
    MachineWidths(gateUs);
  }

  // ---- reading it back ----

  /** The host's snapshot of a reply: refused exactly when recovery exceeds the
      accepted count, the fault is no token, or the accepted count is outside the
      envelope for the reported uptime. */
  lemma CountersParsed(c: Counters, gateUs: U32, uptime: U32)
    ensures ParseCounterSnapshot(CountersFields(c, gateUs), uptime) ==
              if IsFaultToken(c.fault) && c.recovery <= c.accepted && Plausible(c.accepted, uptime)
              then Ok(CounterSnapshot(c.accepted, c.recovery, c.rejected, gateUs, c.fault))
              else Err(MeasurementRejected)
  {
    LookupCounters(c, gateUs);
    UnsignedPrint(c.accepted, UINT64_MAX);
    UnsignedPrint(c.recovery, UINT64_MAX);
    UnsignedPrint(c.rejected, UINT32_MAX);
    UnsignedPrint(gateUs, UINT32_MAX);
    hide Print, Lookup, CountersFields, Unsigned, IsFaultToken, Plausible;
  }

  lemma UnsignedPrint(n: nat, maximum: int)
    requires n <= maximum
    ensures Unsigned(Print(n), maximum) == Ok(n)
  {
    ValuePrint(n);
  }

  /** In numbers: a reply is taken if and only if its fault is a token, it claims no
      more recovery than edges, and no more edges than 100000 and ten for each
      millisecond of the uptime, nor more than a thousand million. The last bound
      is the tighter one from 99990000 ms on, a little under 28 hours. */
  lemma EnvelopeInNumbers(c: Counters, gateUs: U32, uptime: U32)
    ensures ParseCounterSnapshot(CountersFields(c, gateUs), uptime).Ok? <==>
              && IsFaultToken(c.fault) && c.recovery <= c.accepted
              && c.accepted <= (if uptime < 99990000 then 100000 + 10 * uptime else 1000000000)
  {
    CountersParsed(c, gateUs, uptime);
    PlausibleInNumbers(c.accepted, uptime);
    hide Plausible, ParseCounterSnapshot, CountersFields, IsFaultToken;
  }

  lemma LookupCounters(c: Counters, gateUs: U32)
    ensures var f := CountersFields(c, gateUs);
            && Lookup(f, "accepted") == Some(Print(c.accepted)) && Lookup(f, "rejected") == Some(Print(c.rejected))
            && Lookup(f, "noise_gate_us") == Some(Print(gateUs)) && Lookup(f, "recovery") == Some(Print(c.recovery))
            && Lookup(f, "fault") == Some(c.fault)
  {
    hide Print;
    var f := CountersFields(c, gateUs);
    assert "accepted"[0] != "recovery"[0] && "accepted"[0] != "rejected"[0] && "recovery"[2] != "rejected"[2];
    FieldAt(f, 0);
    FieldAt(f, 1);
    FieldAt(f, 2);
    FieldAt(f, 3);
    FieldAt(f, 4);
  }

  /** From any run of the board: every COUNTERS reply fits the frame and passes
      the host's reading of it, unless the accepted count is outside the envelope
      for the uptime reported beside it. */
  lemma CountersDelivered(cfg: F.Config, ops: seq<F.Op>, requestId: string, rejected: U32, gateUs: U32, uptime: U32)
    requires IsRequestId(requestId)
    ensures var c := CountersOf(F.Run(cfg, F.FRESH, ops), rejected);
            var frame := CountersFrame(requestId, c, gateUs);
            && FrameLength(frame) <= 159
            && Decode(SendFields(frame)) == Ok(frame)
            && ParseCounterSnapshot(frame.fields, uptime) ==
                 if Plausible(c.accepted, uptime) then Ok(CounterSnapshot(c.accepted, c.recovery, c.rejected, gateUs, c.fault))
                 else Err(MeasurementRejected)
  {
    var c := CountersOf(F.Run(cfg, F.FRESH, ops), rejected);
    FreshFault();
    hide *;
    RunFault(cfg, F.FRESH, ops);
    CountersConsistent(cfg, ops, rejected);
    CountersParsed(c, gateUs, uptime);
    CountersSent(requestId, c, gateUs);
  }

  // ---- after a rollover ----

  /** Counters inside the envelope for the time the board has truly been up pass
      the host's reading of the reported, 32-bit uptime, if and only if that clock
      has not rolled over, or has since run long enough for the count: a board with
      more than the burst allowance is refused at the start of every rollover
      period, for a tenth of a millisecond a pulse. */
  lemma RolloverRefusesExactly(c: Counters, gateUs: U32, uptime: nat)
    requires IsFaultToken(c.fault) && c.recovery <= c.accepted <= PulseLimit(uptime)
    ensures ParseCounterSnapshot(CountersFields(c, gateUs), Wrap(uptime)).Ok? <==>
              uptime < TWO_32 || c.accepted <= BURST_ALLOWANCE + 10 * Wrap(uptime)
  {
    hide CountersFields, IsFaultToken, ParseCounterSnapshot;
    CountersParsed(c, gateUs, Wrap(uptime));
    if uptime < TWO_32 {
      assert Wrap(uptime) == uptime;
    }
  }

  /** Every run of the board that stays inside the envelope of its true uptime is
      such a board. */
  lemma RolloverDelivered(cfg: F.Config, ops: seq<F.Op>, rejected: U32, gateUs: U32, uptime: nat)
    requires F.Run(cfg, F.FRESH, ops).lifetime <= PulseLimit(uptime)
    ensures var c := CountersOf(F.Run(cfg, F.FRESH, ops), rejected);
            ParseCounterSnapshot(CountersFields(c, gateUs), Wrap(uptime)).Ok? <==>
              uptime < TWO_32 || c.accepted <= BURST_ALLOWANCE + 10 * Wrap(uptime)
  {
    var c := CountersOf(F.Run(cfg, F.FRESH, ops), rejected);
    FreshFault();
    hide F.Run, F.FRESH, BoardFault, PulseLimit, ParseCounterSnapshot, CountersFields, Wrap;
    RunFault(cfg, F.FRESH, ops);
    BoardFaultToken(c.fault);
    CountersConsistent(cfg, ops, rejected);
    RolloverRefusesExactly(c, gateUs, uptime);
  }

  lemma BoardFaultToken(fault: string)
    requires BoardFault(fault)
    ensures IsFaultToken(fault)
  {
  }

  /** One pulse more than the allowance, one second after power-up, and nothing
      since: refused when the clock comes round. */
  lemma RolloverExample(cfg: F.Config, gateUs: U32)
    ensures var m := F.Run(cfg, F.FRESH, [F.OpPulses(BURST_ALLOWANCE + 1, 1000)]);
            && m.lifetime == BURST_ALLOWANCE + 1 <= PulseLimit(1000) <= PulseLimit(TWO_32)
            && ParseCounterSnapshot(CountersFields(CountersOf(m, 0), gateUs), Wrap(TWO_32)).Err?
  {
    OnePour(cfg, BURST_ALLOWANCE + 1, 1000);
    LimitMonotone(1000, TWO_32);
    assert Wrap(TWO_32) == 0;
    assert BURST_ALLOWANCE + 1 <= PulseLimit(1000);
    hide F.Run, F.FRESH, PulseLimit, ParseCounterSnapshot, CountersFields, Wrap;
    RolloverDelivered(cfg, [F.OpPulses(BURST_ALLOWANCE + 1, 1000)], 0, gateUs, TWO_32);
  }

  lemma OnePour(cfg: F.Config, count: U32, at: nat)
    requires count > 0
    ensures F.Run(cfg, F.FRESH, [F.OpPulses(count, at)]).lifetime == count
  {
    var op := F.OpPulses(count, at);
    assert [op][1..] == [];
    assert F.Run(cfg, F.Apply(cfg, F.FRESH, op).m, [op][1..]) == F.Apply(cfg, F.FRESH, op).m;
  }

  lemma FreshFault()
    ensures BoardFault(F.FRESH.fault)
  {
    BoardFaults();
  }

  lemma CountersConsistent(cfg: F.Config, ops: seq<F.Op>, rejected: U32)
    ensures var c := CountersOf(F.Run(cfg, F.FRESH, ops), rejected);
            c.recovery <= c.accepted && c.fault == F.Run(cfg, F.FRESH, ops).fault
  {
    hide F.Run, Consistent;
    FreshConsistent();
    CountersMonotone(cfg, F.FRESH, ops);
  }

  lemma CountersSent(requestId: string, c: Counters, gateUs: U32)
    requires IsRequestId(requestId) && BoardFault(c.fault)
    ensures var frame := CountersFrame(requestId, c, gateUs);
            && FrameLength(frame) <= 159 && Decode(SendFields(frame)) == Ok(frame)
            && frame.fields == CountersFields(c, gateUs) && IsFaultToken(c.fault)
  {
    var frame := CountersFrame(requestId, c, gateUs);
    CountersFit(requestId, c, gateUs);
    CountersValid(requestId, c, gateUs);
    FrameLengthExact(frame);
    hide Payload, Checked, Decode, ValidFields, ValidHeader, FrameLength, CountersFields;
    DecodeEncode(frame);
  }

  lemma CountersValid(requestId: string, c: Counters, gateUs: U32)
    requires IsRequestId(requestId) && BoardFault(c.fault)
    ensures ValidHeader(CountersFrame(requestId, c, gateUs)) && ValidFields(CountersFields(c, gateUs))
  {
    hide Print, IsValue;
    PrintIsValue(c.accepted);
    PrintIsValue(c.recovery);
    PrintIsValue(c.rejected);
    PrintIsValue(gateUs);
    assert "accepted"[0] != "recovery"[0] && "accepted"[0] != "rejected"[0] && "recovery"[2] != "rejected"[2];
  }
}
