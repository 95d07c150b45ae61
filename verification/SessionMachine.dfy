/** The firmware's SessionMachine object: fields updated in place and a
    four-slot result array, each method proved against module Firmware. */
module SessionMachineObject {
  import opened Common
  import opened Firmware

  class SessionMachine {
    const cfg: Config
    var recovery: U64
    var fault: string
    var lifetime: U64
    var state: DeviceState
    var nextSequence: U32
    var activePresent: bool
    var active: Active
    const results: array<Outcome>
    var resultCount: nat

    ghost predicate Valid()
      reads this
    {
      results.Length == RESULT_CAPACITY && resultCount <= RESULT_CAPACITY
    }

    ghost function Value(): Machine
      requires Valid()
      reads this, results
    {
      Machine(recovery, fault, lifetime, state, nextSequence,
              if activePresent then Some(active) else None, results[..resultCount])
    }

    constructor (flowGapMs: U32, settlingMs: U32)
      ensures Valid() && fresh(results) && cfg == Config(flowGapMs, settlingMs)
      ensures Value() == FRESH
    {
      cfg := Config(flowGapMs, settlingMs);
      recovery, fault, lifetime, state, nextSequence := 0, "none", 0, Idle, 1;
      activePresent := false;
      active := Active(0, "", false, Idle, 0, 0, 0, 0, 0, 0);
      results := new Outcome[RESULT_CAPACITY](_ => Outcome(0, "", false, Idle, 0, 0, 0, 0, ""));
      resultCount := 0;
    }

    method FinalizeEvent(status: DeviceState, ended: U32, faultText: string) returns (error: MachineError)
      requires Valid()
      modifies this, results
      ensures Valid()
      ensures Value() == Finalize(old(Value()), status, ended, faultText).m
      ensures error == Finalize(old(Value()), status, ended, faultText).error
    {
      if !activePresent {
        return InvalidState;
      }
      if resultCount >= RESULT_CAPACITY {
        fault := "result_store_full";
        return Busy;
      }
      ghost var before := results[..resultCount];
      results[resultCount] := ClosedEvent(active, lifetime, status, ended, faultText);
      resultCount := resultCount + 1;
      assert results[..resultCount] == before + [results[resultCount - 1]];
      activePresent := false;
      state := status;
      error := NoError;
    }

    method TickAt(now: U32) returns (error: MachineError, produced: bool)
      requires Valid()
      modifies this, results
      ensures Valid()
      ensures Reply(Value(), error, produced) == Tick(cfg, old(Value()), now)
    {
      produced := false;
      if !activePresent {
        return NoError, false;
      }
      if active.phase == Armed && Due(now, active.armDeadlineMs) {
        error := FinalizeEvent(TimedOut, active.armDeadlineMs, "none");
        produced := error == NoError;
        return;
      }
      if active.phase == Pouring {
        var gapAt := Wrap(active.lastPulseMs + cfg.flowGapMs);
        if Due(now, gapAt) {
          active := active.(phase := Settling, settleDeadlineMs := Wrap(gapAt + cfg.settlingMs));
          state := Settling;
        }
      }
      assert Value() == Settle(cfg, old(Value()), now);
      if active.phase == Settling && Due(now, active.settleDeadlineMs) {
        error := FinalizeEvent(Complete, active.settleDeadlineMs, "none");
        produced := error == NoError;
        return;
      }
      error := NoError;
    }

    /** The linear search ARM and CANCEL make through the retained results. */
    method Retains(sid: string, sequence: U32) returns (found: bool)
      requires Valid()
      ensures found == Known(Value().results, sid, sequence)
    {
      for i := 0 to resultCount
        invariant forall j :: 0 <= j < i ==> !(results[j].sequence == sequence && results[j].sid == sid)
      {
        if results[i].sequence == sequence && results[i].sid == sid {
          assert Value().results[i] == results[i];
          return true;
        }
      }
      found := false;
    }

    method ArmEvent(sid: string, sequence: U32, now: U32, ttl: U32) returns (error: MachineError, duplicate: bool)
      requires Valid()
      modifies this, results
      ensures Valid()
      ensures Reply(Value(), error, duplicate) == Arm(cfg, old(Value()), sid, sequence, now, ttl)
    {
      duplicate := false;
      var _, _ := TickAt(now);
      if !ValidSid(sid) || ttl == 0 || ttl >= TWO_31 {
        return Range, false;
      }
      if activePresent && active.sequence == sequence && active.sid == sid {
        return NoError, true;
      }
      var known := Retains(sid, sequence);
      if known {
        return NoError, true;
      }
      if activePresent || resultCount >= RESULT_CAPACITY {
        return Busy, false;
      }
      if sequence != nextSequence {
        return Stale, false;
      }
      if nextSequence == UINT32_MAX {
        fault := "sequence_exhausted";
        return Saturated, false;
      }
      nextSequence := nextSequence + 1;
      activePresent := true;
      active := Active(sequence, sid, true, Armed, 0, now, 0, 0, Wrap(now + ttl), 0);
      state := Armed;
      error := NoError;
    }

    method CancelEvent(sid: string, sequence: U32, now: U32)
      returns (error: MachineError, duplicate: bool, produced: bool)
      requires Valid()
      modifies this, results
      ensures Valid()
      ensures Reply(Value(), error, duplicate) == Cancel(cfg, old(Value()), sid, sequence, now)
      ensures produced <==> error == NoError && |Value().results| == |Tick(cfg, old(Value()), now).m.results| + 1
    {
      duplicate, produced := false, false;
      var _, _ := TickAt(now);
      var known := Retains(sid, sequence);
      if known {
        return NoError, true, false;
      }
      if !activePresent || active.sequence != sequence || active.sid != sid {
        return Stale, false, false;
      }
      if active.pulses == 0 {
        activePresent := false;
        state := Idle;
        return NoError, false, false;
      }
      error := FinalizeEvent(Interrupted, now, "cancelled");
      produced := error == NoError;
    }

    method AddRecoveryPulses(count: U32)
      requires Valid()
      modifies `recovery
      ensures Value() == AddRecovery(old(Value()), count)
    {
      if UINT64_MAX - recovery < count {
        recovery := UINT64_MAX;
      } else {
        recovery := recovery + count;
      }
    }

    /** An edge later than the open deadline advances time first. */
    method AdvancePast(captured: U32) returns (produced: bool)
      requires Valid()
      modifies this, results
      ensures Valid()
      ensures Value() == AdvanceTo(cfg, old(Value()), captured).m
      ensures produced == AdvanceTo(cfg, old(Value()), captured).flag
    {
      hide Tick, Due, After;
      produced := false;
      if activePresent && active.phase == Armed && After(captured, active.armDeadlineMs) {
        var _, p := TickAt(captured);
        produced := p;
      } else if activePresent && active.phase == Settling && After(captured, active.settleDeadlineMs) {
        var _, p := TickAt(captured);
        produced := p;
      }
    }

    method Pulses(count: U32, captured: U32) returns (error: MachineError, produced: bool)
      requires Valid()
      modifies this, results
      ensures Valid()
      ensures Reply(Value(), error, produced) == AddPulses(cfg, old(Value()), count, captured)
    {
      hide AdvanceTo, OpenUnattributed, JoinActive, Finalize;
      produced := false;
      if count == 0 {
        return Range, false;
      }
      produced := AdvancePast(captured);
      if UINT64_MAX - lifetime < count {
        lifetime := UINT64_MAX;
        fault := "lifetime_saturated";
        if activePresent && active.pulses > 0 {
          var _ := FinalizeEvent(Interrupted, captured, fault);
          produced := true;
        }
        return Saturated, produced;
      }
      lifetime := lifetime + count;
      if !activePresent {
        error := OpenEvent(count, captured);
      } else {
        var p;
        error, p := JoinEvent(count, captured);
        produced := produced || p;
      }
    }

    method OpenEvent(count: U32, captured: U32) returns (error: MachineError)
      requires Valid() && !activePresent
      modifies this
      ensures Valid()
      ensures Reply(Value(), error, false) == OpenUnattributed(old(Value()), count, captured)
    {
      if resultCount >= RESULT_CAPACITY {
        AddRecoveryPulses(count);
        fault := "result_store_full";
        return Busy;
      }
      if nextSequence == UINT32_MAX {
        fault := "sequence_exhausted";
        AddRecoveryPulses(count);
        return Saturated;
      }
      active := Active(nextSequence, "", false, Pouring, count, captured, captured, captured, 0, 0);
      nextSequence := nextSequence + 1;
      activePresent := true;
      state := Pouring;
      error := NoError;
    }

    method JoinEvent(count: U32, captured: U32) returns (error: MachineError, produced: bool)
      requires Valid() && activePresent
      modifies this, results
      ensures Valid()
      ensures Reply(Value(), error, produced) == JoinActive(old(Value()), count, captured)
    {
      if active.pulses > MAX_RESULT_PULSES || MAX_RESULT_PULSES - active.pulses < count {
        active := active.(pulses := MAX_RESULT_PULSES);
        fault := "session_saturated";
        var _ := FinalizeEvent(Interrupted, captured, fault);
        return Saturated, true;
      }
      if active.phase == Armed {
        active := active.(startedMs := captured);
      }
      active := active.(pulses := active.pulses + count, lastPulseMs := captured, settleDeadlineMs := 0, phase := Pouring);
      state := Pouring;
      return NoError, false;
    }

    method PulseBatch(count: U32, first: U32, last: U32) returns (error: MachineError, produced: bool)
      requires Valid()
      modifies this, results
      ensures Valid()
      ensures Reply(Value(), error, produced) == AddPulseBatch(cfg, old(Value()), count, first, last)
    {
      produced := false;
      if count == 0 {
        return Range, false;
      }
      var firstError, firstProduced := Pulses(1, first);
      produced := firstProduced;
      if count == 1 {
        return firstError, produced;
      }
      var restError, restProduced := Pulses(count - 1, last);
      produced := produced || restProduced;
      error := if firstError != NoError then firstError else restError;
    }

    method MarkSaturated(now: U32) returns (error: MachineError, produced: bool)
      requires Valid()
      modifies this, results
      ensures Valid()
      ensures Reply(Value(), error, produced) == MarkCounterSaturated(old(Value()), now)
    {
      produced := false;
      fault := "counter_saturated";
      if !activePresent {
        return Saturated, false;
      }
      var outcome := FinalizeEvent(Interrupted, now, "counter_saturated");
      produced := outcome == NoError;
      error := if outcome == NoError then Saturated else outcome;
    }

    /** Finds the result and shifts every later one a slot to the left. */
    method Acknowledged(sequence: U32) returns (already: bool)
      requires Valid()
      modifies this, results
      ensures Valid()
      ensures Reply(Value(), NoError, already) == Acknowledge(old(Value()), sequence)
    {
      ghost var was := results[..resultCount];
      for index := 0 to resultCount
        invariant results[..resultCount] == was
        invariant forall j :: 0 <= j < index ==> was[j].sequence != sequence
      {
        if results[index].sequence == sequence {
          assert was[index] == results[index];
          ShiftLeft(index);
          resultCount := resultCount - 1;
          FirstIndex(was, sequence, index);
          assert results[..resultCount] == was[..index] + was[index + 1..];
          if !activePresent && (state == Complete || state == TimedOut || state == Interrupted) {
            state := Idle;
          }
          return false;
        }
        assert was[index] == results[index];
      }
      already := true;
    }

    method TakeReading(now: U32) returns (s: Snapshot)
      requires Valid()
      ensures s == TakeSnapshot(Value(), now)
    {
      var left := 0;
      if activePresent && active.phase == Armed && !Due(now, active.armDeadlineMs) {
        left := Wrap(active.armDeadlineMs - now);
      }
      s := Snapshot(state, 0, "", false, 0, lifetime, left, nextSequence, resultCount, recovery, fault);
      if activePresent {
        s := s.(sequence := active.sequence, sid := active.sid, attributed := active.attributed, sessionPulses := active.pulses);
      } else if resultCount > 0 {
        var latest := results[resultCount - 1];
        s := s.(sequence := latest.sequence, sid := latest.sid, attributed := latest.attributed, sessionPulses := latest.pulses);
      }
    }

    method ShiftLeft(index: nat)
      requires Valid() && index < resultCount
      modifies results
      ensures forall j :: 0 <= j < index ==> results[j] == old(results[j])
      ensures forall j :: index <= j < resultCount - 1 ==> results[j] == old(results[j + 1])
    {
      var move := index;
      while move + 1 < resultCount
        invariant index <= move < resultCount
        invariant forall j :: 0 <= j < index ==> results[j] == old(results[j])
        invariant forall j :: index <= j < move ==> results[j] == old(results[j + 1])
        invariant forall j :: move <= j < resultCount ==> results[j] == old(results[j])
      {
        results[move] := results[move + 1];
        move := move + 1;
      }
    }
  }

  lemma FirstIndex(rs: seq<Outcome>, sequence: U32, index: nat)
    requires index < |rs| && rs[index].sequence == sequence
    requires forall j :: 0 <= j < index ==> rs[j].sequence != sequence
    ensures IndexOf(rs, sequence) == index
  {
  }
}
