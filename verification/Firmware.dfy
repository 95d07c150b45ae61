/** The firmware session machine (session_machine.cpp) as a function from one
    state to the next, over the Nano's bounded integers and wrapping clock. */
module Firmware {
  import opened Common

  const RESULT_CAPACITY: int := 4
  const MAX_RESULT_PULSES: int := INT64_MAX
  const FAULT_CHARS: int := 17

  datatype DeviceState = Idle | Armed | Pouring | Settling | Complete | TimedOut | Interrupted

  datatype MachineError = NoError | Busy | Stale | InvalidState | Range | Saturated

  datatype Active = Active(
    sequence: U32, sid: string, attributed: bool, phase: DeviceState, pulses: U64,
    armedMs: U32, startedMs: U32, lastPulseMs: U32, armDeadlineMs: U32, settleDeadlineMs: U32)

  datatype Outcome = Outcome(
    sequence: U32, sid: string, attributed: bool, status: DeviceState, pulses: U64,
    lifetime: U64, startedMs: U32, endedMs: U32, fault: string)

  /** The two flow timers; the constructor's arm timeout is stored but never read. */
  datatype Config = Config(flowGapMs: U32, settlingMs: U32)

  datatype Machine = Machine(
    recovery: U64, fault: string, lifetime: U64, state: DeviceState, nextSequence: U32,
    active: Option<Active>, results: seq<Outcome>)

  /** What a machine call leaves behind: the new state, the returned error and
      its boolean out-parameter (`produced_result`, `duplicate` or `already`). */
  datatype Reply = Reply(m: Machine, error: MachineError, flag: bool)

  const FRESH := Machine(0, "none", 0, Idle, 1, None, [])

  predicate Due(now: U32, deadline: U32) {
    Wrap(now - deadline) < TWO_31
  }

  predicate After(now: U32, deadline: U32) {
    0 < Wrap(now - deadline) < TWO_31
  }

  predicate ValidSid(sid: string) {
    |sid| == 32 && forall i :: 0 <= i < |sid| ==> '0' <= sid[i] <= '9' || 'a' <= sid[i] <= 'f'
  }

  /** A fault text as strncpy leaves it in the 18-byte field of a result. */
  function FaultField(fault: string): string {
    if |fault| <= FAULT_CHARS then fault else fault[..FAULT_CHARS]
  }

  function ClosedEvent(a: Active, lifetime: U64, status: DeviceState, ended: U32, fault: string): Outcome {
    Outcome(a.sequence, a.sid, a.attributed, status, a.pulses, lifetime,
            if a.phase == Armed then a.armedMs else a.startedMs, ended, FaultField(fault))
  }

  function Finalize(m: Machine, status: DeviceState, ended: U32, fault: string): Reply {
    if m.active.None? then
      Reply(m, InvalidState, false)
    else if |m.results| >= RESULT_CAPACITY then
      Reply(m.(fault := "result_store_full"), Busy, false)
    else
      Reply(m.(active := None, state := status,
               results := m.results + [ClosedEvent(m.active.value, m.lifetime, status, ended, fault)]),
            NoError, true)
  }

  /** The POURING to SETTLING step of a tick. */
  function Settle(cfg: Config, m: Machine, now: U32): Machine
    requires m.active.Some?
    ensures Settle(cfg, m, now).active.Some?
  {
    var a := m.active.value;
    var gapAt := Wrap(a.lastPulseMs + cfg.flowGapMs);
    if a.phase == Pouring && Due(now, gapAt) then
      m.(active := Some(a.(phase := Settling, settleDeadlineMs := Wrap(gapAt + cfg.settlingMs))), state := Settling)
    else
      m
  }

  function Tick(cfg: Config, m: Machine, now: U32): Reply {
    if m.active.None? then
      Reply(m, NoError, false)
    else if m.active.value.phase == Armed && Due(now, m.active.value.armDeadlineMs) then
      Finalize(m, TimedOut, m.active.value.armDeadlineMs, "none")
    else
      var s := Settle(cfg, m, now);
      if s.active.value.phase == Settling && Due(now, s.active.value.settleDeadlineMs) then
        Finalize(s, Complete, s.active.value.settleDeadlineMs, "none")
      else
        Reply(s, NoError, false)
  }

  function AddRecovery(m: Machine, count: U32): Machine {
    if UINT64_MAX - m.recovery < count then m.(recovery := UINT64_MAX)
    else m.(recovery := m.recovery + count)
  }

  predicate Known(results: seq<Outcome>, sid: string, sequence: U32) {
    exists i :: 0 <= i < |results| && results[i].sequence == sequence && results[i].sid == sid
  }

  predicate ActiveIs(m: Machine, sid: string, sequence: U32) {
    m.active.Some? && m.active.value.sequence == sequence && m.active.value.sid == sid
  }

  function Arm(cfg: Config, m0: Machine, sid: string, sequence: U32, now: U32, ttl: U32): Reply {
    var m := Tick(cfg, m0, now).m;
    if !ValidSid(sid) || ttl == 0 || ttl >= TWO_31 then Reply(m, Range, false)
    else if ActiveIs(m, sid, sequence) || Known(m.results, sid, sequence) then Reply(m, NoError, true)
    else if m.active.Some? || |m.results| >= RESULT_CAPACITY then Reply(m, Busy, false)
    else if sequence != m.nextSequence then Reply(m, Stale, false)
    else if m.nextSequence == UINT32_MAX then Reply(m.(fault := "sequence_exhausted"), Saturated, false)
    else
      Reply(m.(nextSequence := m.nextSequence + 1, state := Armed,
               active := Some(Active(sequence, sid, true, Armed, 0, now, 0, 0, Wrap(now + ttl), 0))),
            NoError, false)
  }

  /** `flag` is `duplicate`; a result is produced exactly when the error is
      NoError, the call is no duplicate and the event had pulses. */
  function Cancel(cfg: Config, m0: Machine, sid: string, sequence: U32, now: U32): Reply {
    var m := Tick(cfg, m0, now).m;
    if Known(m.results, sid, sequence) then Reply(m, NoError, true)
    else if !ActiveIs(m, sid, sequence) then Reply(m, Stale, false)
    else if m.active.value.pulses == 0 then Reply(m.(active := None, state := Idle), NoError, false)
    else
      var f := Finalize(m, Interrupted, now, "cancelled");
      Reply(f.m, f.error, false)
  }

  /** An edge later than the arm or settle deadline first advances time. */
  function AdvanceTo(cfg: Config, m: Machine, captured: U32): Reply {
    if m.active.Some? && m.active.value.phase == Armed && After(captured, m.active.value.armDeadlineMs) then
      Tick(cfg, m, captured)
    else if m.active.Some? && m.active.value.phase == Settling && After(captured, m.active.value.settleDeadlineMs) then
      Tick(cfg, m, captured)
    else
      Reply(m, NoError, false)
  }

  function OpenUnattributed(m: Machine, count: U32, captured: U32): Reply
    requires m.active.None?
  {
    if |m.results| >= RESULT_CAPACITY then
      Reply(AddRecovery(m, count).(fault := "result_store_full"), Busy, false)
    else if m.nextSequence == UINT32_MAX then
      Reply(AddRecovery(m.(fault := "sequence_exhausted"), count), Saturated, false)
    else
      Reply(m.(nextSequence := m.nextSequence + 1, state := Pouring,
               active := Some(Active(m.nextSequence, "", false, Pouring, count, captured, captured, captured, 0, 0))),
            NoError, false)
  }

  function JoinActive(m: Machine, count: U32, captured: U32): Reply
    requires m.active.Some?
  {
    var a := m.active.value;
    if a.pulses > MAX_RESULT_PULSES || MAX_RESULT_PULSES - a.pulses < count then
      var full := m.(active := Some(a.(pulses := MAX_RESULT_PULSES)), fault := "session_saturated");
      Reply(Finalize(full, Interrupted, captured, full.fault).m, Saturated, true)
    else
      Reply(m.(state := Pouring,
               active := Some(a.(startedMs := if a.phase == Armed then captured else a.startedMs,
                                 pulses := a.pulses + count, lastPulseMs := captured,
                                 settleDeadlineMs := 0, phase := Pouring))),
            NoError, false)
  }

  predicate LifetimeFull(m: Machine, count: U32) {
    UINT64_MAX - m.lifetime < count
  }

  function AddPulses(cfg: Config, m0: Machine, count: U32, captured: U32): Reply {
    if count == 0 then Reply(m0, Range, false)
    else
      var adv := AdvanceTo(cfg, m0, captured);
      if LifetimeFull(adv.m, count) then
        var full := adv.m.(lifetime := UINT64_MAX, fault := "lifetime_saturated");
        if full.active.Some? && full.active.value.pulses > 0 then
          Reply(Finalize(full, Interrupted, captured, full.fault).m, Saturated, true)
        else
          Reply(full, Saturated, adv.flag)
      else
        var m := adv.m.(lifetime := adv.m.lifetime + count);
        var r := if m.active.None? then OpenUnattributed(m, count, captured) else JoinActive(m, count, captured);
        Reply(r.m, r.error, adv.flag || r.flag)
  }

  function AddPulseBatch(cfg: Config, m: Machine, count: U32, first: U32, last: U32): Reply {
    if count == 0 then Reply(m, Range, false)
    else
      var one := AddPulses(cfg, m, 1, first);
      if count == 1 then one
      else
        var rest := AddPulses(cfg, one.m, count - 1, last);
        Reply(rest.m, if one.error != NoError then one.error else rest.error, one.flag || rest.flag)
  }

  function MarkCounterSaturated(m0: Machine, now: U32): Reply {
    var m := m0.(fault := "counter_saturated");
    if m.active.None? then Reply(m, Saturated, false)
    else
      var f := Finalize(m, Interrupted, now, "counter_saturated");
      Reply(f.m, if f.error == NoError then Saturated else f.error, f.flag)
  }

  /** The first index holding a sequence number, or the length when there is none. */
  function IndexOf(results: seq<Outcome>, sequence: U32): (i: nat)
    ensures i <= |results|
    ensures forall j :: 0 <= j < i ==> results[j].sequence != sequence
    ensures i < |results| ==> results[i].sequence == sequence
  {
    if results == [] || results[0].sequence == sequence then 0
    else
      var i := IndexOf(results[1..], sequence);
      assert forall j :: 0 < j < i + 1 ==> results[j] == results[1..][j - 1];
      i + 1
  }

  function Terminal(s: DeviceState): bool {
    s == Complete || s == TimedOut || s == Interrupted
  }

  function Acknowledge(m: Machine, sequence: U32): Reply {
    var i := IndexOf(m.results, sequence);
    if i == |m.results| then Reply(m, NoError, true)
    else
      Reply(m.(results := m.results[..i] + m.results[i + 1..],
               state := if m.active.None? && Terminal(m.state) then Idle else m.state),
            NoError, false)
  }

  datatype Snapshot = Snapshot(
    state: DeviceState, sequence: U32, sid: string, attributed: bool, sessionPulses: U64, lifetime: U64,
    armRemainingMs: U32, nextSequence: U32, retained: nat, recovery: U64, fault: string)

  function TakeSnapshot(m: Machine, now: U32): Snapshot {
    var left := if m.active.Some? && m.active.value.phase == Armed && !Due(now, m.active.value.armDeadlineMs)
                then Wrap(m.active.value.armDeadlineMs - now) else 0;
    if m.active.Some? then
      var a := m.active.value;
      Snapshot(m.state, a.sequence, a.sid, a.attributed, a.pulses, m.lifetime, left, m.nextSequence, |m.results|, m.recovery, m.fault)
    else if |m.results| > 0 then
      var r := m.results[|m.results| - 1];
      Snapshot(m.state, r.sequence, r.sid, r.attributed, r.pulses, m.lifetime, left, m.nextSequence, |m.results|, m.recovery, m.fault)
    else
      Snapshot(m.state, 0, "", false, 0, m.lifetime, left, m.nextSequence, 0, m.recovery, m.fault)
  }

  /** One call of the machine. Times are unbounded milliseconds since boot; the
      machine itself only ever sees them truncated to 32 bits. */
  datatype Op =
    | OpArm(sid: string, sequence: U32, at: nat, ttl: U32)
    | OpCancel(sid: string, sequence: U32, at: nat)
    | OpPulses(count: U32, at: nat)
    | OpBatch(count: U32, first: nat, at: nat)
    | OpTick(at: nat)
    | OpMarkSaturated(at: nat)
    | OpAck(sequence: U32)

  function Apply(cfg: Config, m: Machine, op: Op): Reply {
    match op
    case OpArm(sid, sequence, at, ttl) => Arm(cfg, m, sid, sequence, Wrap(at), ttl)
    case OpCancel(sid, sequence, at) => Cancel(cfg, m, sid, sequence, Wrap(at))
    case OpPulses(count, at) => AddPulses(cfg, m, count, Wrap(at))
    case OpBatch(count, first, at) => AddPulseBatch(cfg, m, count, Wrap(first), Wrap(at))
    case OpTick(at) => Tick(cfg, m, Wrap(at))
    case OpMarkSaturated(at) => MarkCounterSaturated(m, Wrap(at))
    case OpAck(sequence) => Acknowledge(m, sequence)
  }

  function Run(cfg: Config, m: Machine, ops: seq<Op>): Machine
    decreases |ops|
  {
    if ops == [] then m else Run(cfg, Apply(cfg, m, ops[0]).m, ops[1..])
  }
}
