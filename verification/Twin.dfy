/** The host's device model (device_machine.py): the same sessions on
    unbounded integers and an unbounded clock, as functions and as the object
    whose methods update it. */
module Twin {
  import opened Common
  import opened Firmware

  datatype TwinConfig = TwinConfig(armTimeoutMs: nat, flowGapMs: nat, settlingMs: nat, capacity: nat)

  /** What the Python constructor accepts. */
  predicate ValidConfig(c: TwinConfig) {
    && 1 <= c.armTimeoutMs < TWO_31 && 1 <= c.flowGapMs < TWO_31 && 1 <= c.settlingMs < TWO_31
    && 1 <= c.capacity <= 16
  }

  datatype TwinActive = TwinActive(
    sequence: nat, sid: Option<string>, attributed: bool, phase: DeviceState, pulses: nat,
    armedMs: nat, startedMs: Option<nat>, lastPulseMs: Option<nat>,
    armDeadlineMs: Option<nat>, settleDeadlineMs: Option<nat>)

  datatype TwinResult = TwinResult(
    sequence: nat, sid: Option<string>, attributed: bool, status: DeviceState, pulses: nat,
    lifetime: nat, startedMs: nat, endedMs: nat, fault: string)

  /** `results` is the ordered dictionary, as its values in insertion order. */
  datatype TwinMachine = TwinMachine(
    state: DeviceState, lifetime: nat, nextSequence: nat, active: Option<TwinActive>,
    results: seq<TwinResult>, recovery: nat, fault: string, lastNowMs: nat)

  datatype Raised = Fine | DomainError | BusyConflict | StaleConflict | SaturatedConflict

  datatype TwinReply = TwinReply(t: TwinMachine, raised: Raised, flag: bool)

  const NEW_TWIN := TwinMachine(Idle, 0, 1, None, [], 0, "none", 0)

  function Max(a: nat, b: nat): nat {
    if a < b then b else a
  }

  /** The position of a key in the ordered dictionary, or its length. */
  function KeyIndex(results: seq<TwinResult>, sequence: nat): (i: nat)
    ensures i <= |results|
    ensures forall j :: 0 <= j < i ==> results[j].sequence != sequence
    ensures i < |results| ==> results[i].sequence == sequence
  {
    if results == [] || results[0].sequence == sequence then 0
    else
      var i := KeyIndex(results[1..], sequence);
      assert forall j :: 0 < j < i + 1 ==> results[j] == results[1..][j - 1];
      i + 1
  }

  function Put(results: seq<TwinResult>, r: TwinResult): seq<TwinResult> {
    var i := KeyIndex(results, r.sequence);
    if i < |results| then results[i := r] else results + [r]
  }

  function Close(t: TwinMachine, status: DeviceState, ended: nat, fault: string): TwinMachine
    requires t.active.Some?
  {
    var a := t.active.value;
    var r := TwinResult(a.sequence, a.sid, a.attributed, status, a.pulses, t.lifetime,
                        if a.startedMs.Some? then a.startedMs.value else a.armedMs, ended, fault);
    t.(results := Put(t.results, r), active := None, state := status)
  }

  /** `flag` tells whether the tick returned a result. */
  function TwinTick(c: TwinConfig, t0: TwinMachine, now: nat): TwinReply {
    var t := t0.(lastNowMs := Max(t0.lastNowMs, now));
    if t.active.None? then TwinReply(t, Fine, false)
    else
      var a := t.active.value;
      if a.phase == Armed then
        if a.armDeadlineMs.Some? && now >= a.armDeadlineMs.value then
          TwinReply(Close(t, TimedOut, a.armDeadlineMs.value, "none"), Fine, true)
        else TwinReply(t, Fine, false)
      else
        var b := if a.phase == Pouring && a.lastPulseMs.Some? && now >= a.lastPulseMs.value + c.flowGapMs
                 then a.(phase := Settling, settleDeadlineMs := Some(a.lastPulseMs.value + c.flowGapMs + c.settlingMs))
                 else a;
        var s := if b.phase == a.phase then t else t.(active := Some(b), state := Settling);
        if b.phase == Settling && b.settleDeadlineMs.Some? && now >= b.settleDeadlineMs.value then
          TwinReply(Close(s, Complete, b.settleDeadlineMs.value, "none"), Fine, true)
        else TwinReply(s, Fine, false)
  }

  function TwinArm(c: TwinConfig, t0: TwinMachine, sid: string, sequence: nat, now: nat, ttl: nat): TwinReply {
    var t := TwinTick(c, t0, now).t;
    if sid == "" || |sid| > 64 then TwinReply(t, DomainError, false)
    else if t.active.Some? && t.active.value.sequence == sequence && t.active.value.sid == Some(sid) then
      TwinReply(t, Fine, true)
    else
      var i := KeyIndex(t.results, sequence);
      if i < |t.results| && t.results[i].sid == Some(sid) then TwinReply(t, Fine, true)
      else if t.active.Some? then TwinReply(t, BusyConflict, false)
      else if |t.results| >= c.capacity then TwinReply(t, BusyConflict, false)
      else if sequence != t.nextSequence then TwinReply(t, StaleConflict, false)
      else if !(1 <= ttl < TWO_31) then TwinReply(t, DomainError, false)
      else if t.nextSequence > UINT32_MAX then TwinReply(t.(fault := "sequence_exhausted"), SaturatedConflict, false)
      else
        TwinReply(t.(nextSequence := t.nextSequence + 1, state := Armed,
                     active := Some(TwinActive(t.nextSequence, Some(sid), true, Armed, 0, now, None, None, Some(now + ttl), None))),
                  Fine, false)
  }

  function TwinCancel(c: TwinConfig, t0: TwinMachine, sid: string, sequence: nat, now: nat): TwinReply {
    var t := TwinTick(c, t0, now).t;
    var i := KeyIndex(t.results, sequence);
    if i < |t.results| && t.results[i].sid == Some(sid) then TwinReply(t, Fine, true)
    else if t.active.None? || t.active.value.sequence != sequence || t.active.value.sid != Some(sid) then
      TwinReply(t, StaleConflict, false)
    else if t.active.value.pulses == 0 then TwinReply(t.(active := None, state := Idle), Fine, false)
    else TwinReply(Close(t, Interrupted, now, "none"), Fine, false)
  }

  function TwinAdvanceTo(c: TwinConfig, t: TwinMachine, now: nat): TwinMachine {
    if t.active.Some? && t.active.value.phase == Armed then
      if t.active.value.armDeadlineMs.Some? && now > t.active.value.armDeadlineMs.value
      then TwinTick(c, t, now).t else t
    else if t.active.Some? && t.active.value.phase == Settling then
      if t.active.value.settleDeadlineMs.Some? && now > t.active.value.settleDeadlineMs.value
      then TwinTick(c, t, now).t else t
    else t
  }

  function TwinOpen(c: TwinConfig, t: TwinMachine, count: nat, now: nat): TwinReply
    requires t.active.None?
  {
    if |t.results| >= c.capacity then
      TwinReply(t.(recovery := t.recovery + count, fault := "result_store_full"), Fine, false)
    else if t.nextSequence > UINT32_MAX then
      TwinReply(t.(fault := "sequence_exhausted"), SaturatedConflict, false)
    else
      TwinReply(t.(nextSequence := t.nextSequence + 1, state := Pouring,
                   active := Some(TwinActive(t.nextSequence, None, false, Pouring, count, now, Some(now), Some(now), None, None))),
                Fine, false)
  }

  function TwinJoin(t: TwinMachine, count: nat, now: nat): TwinReply
    requires t.active.Some?
  {
    var a := t.active.value;
    if a.pulses > MAX_RESULT_PULSES || a.pulses > MAX_RESULT_PULSES - count then
      var full := t.(active := Some(a.(pulses := MAX_RESULT_PULSES)), fault := "session_saturated");
      TwinReply(Close(full, Interrupted, now, full.fault), SaturatedConflict, false)
    else
      TwinReply(t.(state := Pouring,
                   active := Some(a.(startedMs := if a.phase == Armed then Some(now) else a.startedMs,
                                     pulses := a.pulses + count, lastPulseMs := Some(now),
                                     settleDeadlineMs := None, phase := Pouring))),
                Fine, false)
  }

  function TwinPulse(c: TwinConfig, t0: TwinMachine, count: nat, now: nat): TwinReply {
    if count == 0 then TwinReply(t0, DomainError, false)
    else if t0.lifetime > UINT64_MAX - count then
      var full := t0.(lifetime := UINT64_MAX, fault := "lifetime_saturated");
      TwinReply(if full.active.Some? && full.active.value.pulses > 0
                then Close(full, Interrupted, now, full.fault) else full, SaturatedConflict, false)
    else
      var a := TwinAdvanceTo(c, t0, now);
      var i := if a.active.None? && Terminal(a.state) then a.(state := Idle) else a;
      var t := i.(lifetime := i.lifetime + count, lastNowMs := Max(i.lastNowMs, now));
      if t.active.None? then TwinOpen(c, t, count, now) else TwinJoin(t, count, now)
  }

  function TwinAcknowledge(t: TwinMachine, sequence: nat): TwinReply {
    var i := KeyIndex(t.results, sequence);
    TwinReply(t.(results := if i < |t.results| then t.results[..i] + t.results[i + 1..] else t.results,
                 state := if t.active.None? && Terminal(t.state) then Idle else t.state),
              Fine, i == |t.results|)
  }

  class DeviceSessionMachine {
    const config: TwinConfig
    var state: DeviceState
    var lifetime: nat
    var nextSequence: nat
    var active: Option<TwinActive>
    var results: seq<TwinResult>
    var recovery: nat
    var fault: string
    var lastNowMs: nat

    ghost function Value(): TwinMachine
      reads this
    {
      TwinMachine(state, lifetime, nextSequence, active, results, recovery, fault, lastNowMs)
    }

    constructor (config: TwinConfig)
      requires ValidConfig(config)
      ensures Value() == NEW_TWIN && this.config == config
    {
      this.config := config;
      state, lifetime, nextSequence, active, results := Idle, 0, 1, None, [];
      recovery, fault, lastNowMs := 0, "none", 0;
    }

    method CloseEvent(status: DeviceState, ended: nat, faultText: string)
      requires active.Some?
      modifies this
      ensures Value() == Close(old(Value()), status, ended, faultText)
    {
      var a := active.value;
      var started := if a.startedMs.Some? then a.startedMs.value else a.armedMs;
      results := Put(results, TwinResult(a.sequence, a.sid, a.attributed, status, a.pulses, lifetime, started, ended, faultText));
      active := None;
      state := status;
    }

    method TickAt(now: nat) returns (produced: bool)
      modifies this
      ensures TwinReply(Value(), Fine, produced) == TwinTick(config, old(Value()), now)
    {
      produced := false;
      lastNowMs := Max(lastNowMs, now);
      if active.None? {
        return;
      }
      if active.value.phase == Armed {
        if active.value.armDeadlineMs.Some? && now >= active.value.armDeadlineMs.value {
          CloseEvent(TimedOut, active.value.armDeadlineMs.value, "none");
          produced := true;
        }
        return;
      }
      if active.value.phase == Pouring && active.value.lastPulseMs.Some? {
        var gapAt := active.value.lastPulseMs.value + config.flowGapMs;
        if now >= gapAt {
          active := Some(active.value.(phase := Settling, settleDeadlineMs := Some(gapAt + config.settlingMs)));
          state := Settling;
        }
      }
      if active.value.phase == Settling && active.value.settleDeadlineMs.Some? && now >= active.value.settleDeadlineMs.value {
        CloseEvent(Complete, active.value.settleDeadlineMs.value, "none");
        produced := true;
      }
    }

    method ArmEvent(sid: string, sequence: nat, now: nat, ttl: nat) returns (raised: Raised, duplicate: bool)
      modifies this
      ensures TwinReply(Value(), raised, duplicate) == TwinArm(config, old(Value()), sid, sequence, now, ttl)
    {
      var _ := TickAt(now);
      if sid == "" || |sid| > 64 {
        return DomainError, false;
      }
      if active.Some? && active.value.sequence == sequence && active.value.sid == Some(sid) {
        return Fine, true;
      }
      var i := KeyIndex(results, sequence);
      if i < |results| && results[i].sid == Some(sid) {
        return Fine, true;
      }
      if active.Some? || |results| >= config.capacity {
        return BusyConflict, false;
      }
      if sequence != nextSequence {
        return StaleConflict, false;
      }
      if !(1 <= ttl < TWO_31) {
        return DomainError, false;
      }
      if nextSequence > UINT32_MAX {
        fault := "sequence_exhausted";
        return SaturatedConflict, false;
      }
      active := Some(TwinActive(nextSequence, Some(sid), true, Armed, 0, now, None, None, Some(now + ttl), None));
      nextSequence := nextSequence + 1;
      state := Armed;
      return Fine, false;
    }

    method CancelEvent(sid: string, sequence: nat, now: nat) returns (raised: Raised, duplicate: bool)
      modifies this
      ensures TwinReply(Value(), raised, duplicate) == TwinCancel(config, old(Value()), sid, sequence, now)
    {
      var _ := TickAt(now);
      var i := KeyIndex(results, sequence);
      if i < |results| && results[i].sid == Some(sid) {
        return Fine, true;
      }
      if active.None? || active.value.sequence != sequence || active.value.sid != Some(sid) {
        return StaleConflict, false;
      }
      if active.value.pulses == 0 {
        active := None;
        state := Idle;
        return Fine, false;
      }
      CloseEvent(Interrupted, now, "none");
      return Fine, false;
    }

    method Pulse(count: nat, now: nat) returns (raised: Raised)
      modifies this
      ensures Value() == TwinPulse(config, old(Value()), count, now).t
      ensures raised == TwinPulse(config, old(Value()), count, now).raised
    {
      hide TwinTick, Close, TwinOpen, TwinJoin;
      if count == 0 {
        return DomainError;
      }
      if lifetime > UINT64_MAX - count {
        lifetime := UINT64_MAX;
        fault := "lifetime_saturated";
        if active.Some? && active.value.pulses > 0 {
          CloseEvent(Interrupted, now, fault);
        }
        return SaturatedConflict;
      }
      if active.Some? && active.value.phase == Armed {
        if active.value.armDeadlineMs.Some? && now > active.value.armDeadlineMs.value {
          var _ := TickAt(now);
        }
      } else if active.Some? && active.value.phase == Settling {
        if active.value.settleDeadlineMs.Some? && now > active.value.settleDeadlineMs.value {
          var _ := TickAt(now);
        }
      }
      assert Value() == TwinAdvanceTo(config, old(Value()), now);
      if active.None? && Terminal(state) {
        state := Idle;
      }
      lifetime := lifetime + count;
      lastNowMs := Max(lastNowMs, now);
      if active.None? {
        raised := OpenEvent(count, now);
      } else {
        raised := JoinEvent(count, now);
      }
    }

    method OpenEvent(count: nat, now: nat) returns (raised: Raised)
      requires active.None?
      modifies this
      ensures TwinReply(Value(), raised, false) == TwinOpen(config, old(Value()), count, now)
    {
      if |results| >= config.capacity {
        recovery := recovery + count;
        fault := "result_store_full";
        return Fine;
      }
      if nextSequence > UINT32_MAX {
        fault := "sequence_exhausted";
        return SaturatedConflict;
      }
      active := Some(TwinActive(nextSequence, None, false, Pouring, count, now, Some(now), Some(now), None, None));
      nextSequence := nextSequence + 1;
      state := Pouring;
      return Fine;
    }

    method JoinEvent(count: nat, now: nat) returns (raised: Raised)
      requires active.Some?
      modifies this
      ensures TwinReply(Value(), raised, false) == TwinJoin(old(Value()), count, now)
    {
      if active.value.pulses > MAX_RESULT_PULSES || active.value.pulses > MAX_RESULT_PULSES - count {
        active := Some(active.value.(pulses := MAX_RESULT_PULSES));
        fault := "session_saturated";
        CloseEvent(Interrupted, now, fault);
        return SaturatedConflict;
      }
      if active.value.phase == Armed {
        active := Some(active.value.(startedMs := Some(now)));
      }
      active := Some(active.value.(pulses := active.value.pulses + count, lastPulseMs := Some(now),
                                   settleDeadlineMs := None, phase := Pouring));
      state := Pouring;
      return Fine;
    }

    method Acknowledge(sequence: nat) returns (already: bool)
      modifies this
      ensures TwinReply(Value(), Fine, already) == TwinAcknowledge(old(Value()), sequence)
    {
      var i := KeyIndex(results, sequence);
      already := i == |results|;
      if !already {
        results := results[..i] + results[i + 1..];
      }
      if active.None? && Terminal(state) {
        state := Idle;
      }
    }
  }
}
