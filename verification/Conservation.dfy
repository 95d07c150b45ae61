/** What every run of the firmware machine keeps: the four-slot store and its
    sequence numbers, the shape of every retained result, and the pulse books. */
module Conservation {
  import opened Common
  import opened Firmware

  /** The shape the host later demands of a result. */
  predicate GoodOutcome(r: Outcome) {
    && 1 <= r.sequence
    && Terminal(r.status)
    && (if r.attributed then ValidSid(r.sid) else r.sid == "")
    && r.pulses <= MAX_RESULT_PULSES
    && r.pulses <= r.lifetime
    && (r.status == TimedOut ==> r.pulses == 0)
    && r.fault in FAULTS
  }

  /** Every fault text a result can carry, after truncation to its field. */
  const FAULTS: set<string> :=
    {"none", "cancelled", "lifetime_saturate", "session_saturated", "counter_saturated"}

  predicate GoodActive(a: Active) {
    && 1 <= a.sequence
    && a.phase in {Armed, Pouring, Settling}
    && (a.phase == Armed <==> a.pulses == 0)
    && (if a.attributed then ValidSid(a.sid) else a.sid == "")
    && a.pulses <= MAX_RESULT_PULSES
  }

  /** A store of well-formed results, strictly ascending in sequence and below `bound`. */
  predicate Store(results: seq<Outcome>, bound: int, lifetime: int) {
    && (forall i, j :: 0 <= i < j < |results| ==> results[i].sequence < results[j].sequence)
    && (forall i :: 0 <= i < |results| ==> InStore(results[i], bound, lifetime))
  }

  predicate InStore(r: Outcome, bound: int, lifetime: int) {
    GoodOutcome(r) && r.sequence < bound && r.lifetime <= lifetime
  }

  function OpenEvents(m: Machine): nat {
    if m.active.Some? then 1 else 0
  }

  /** Every sequence number below the frontier is settled: acknowledged, retained or cancelled. */
  function Frontier(m: Machine): int {
    m.nextSequence - OpenEvents(m)
  }

  /** The open event always carries the newest sequence number, and together
      with the retained results it never needs more than the four slots. */
  predicate Inv(m: Machine) {
    && 1 <= m.nextSequence
    && |m.results| + OpenEvents(m) <= RESULT_CAPACITY
    && Store(m.results, Frontier(m), m.lifetime)
    && (m.active.Some? ==>
          && GoodActive(m.active.value)
          && m.active.value.sequence == m.nextSequence - 1
          && m.active.value.pulses <= m.lifetime)
  }

  function PulseSum(rs: seq<Outcome>): nat {
    if rs == [] then 0 else PulseSum(rs[..|rs| - 1]) + rs[|rs| - 1].pulses
  }

  function ActivePulses(m: Machine): nat {
    if m.active.Some? then m.active.value.pulses else 0
  }

  /** Pulses the machine still holds: retained, in the open event, or in recovery. */
  function Held(m: Machine): nat {
    PulseSum(m.results) + ActivePulses(m) + m.recovery
  }

  lemma {:induction false} PulseSumAppend(a: seq<Outcome>, b: seq<Outcome>)
    ensures PulseSum(a + b) == PulseSum(a) + PulseSum(b)
  {
    if b == [] {
      assert a + b == a;
    } else {
      var n := |b| - 1;
      PulseSumAppend(a, b[..n]);
      assert (a + b)[..|a + b| - 1] == a + b[..n];
    }
  }

  lemma StoreAppend(rs: seq<Outcome>, r: Outcome, bound: int, lifetime: int)
    requires Store(rs, bound, lifetime) && r.sequence == bound && InStore(r, bound + 1, lifetime)
    ensures Store(rs + [r], bound + 1, lifetime)
    ensures PulseSum(rs + [r]) == PulseSum(rs) + r.pulses
  {
    var all := rs + [r];
    assert all[..|rs|] == rs;
    forall i | 0 <= i < |all| ensures InStore(all[i], bound + 1, lifetime) {
      assert i < |rs| ==> InStore(rs[i], bound, lifetime);
    }
  }

  // ---- one lemma per internal step ----

  /** A step that keeps the invariant, only appends results, all of them at or
      beyond the old frontier, and never moves a sequence number back. */
  ghost predicate Keeps(m: Machine, n: Machine) {
    && Inv(n)
    && m.results <= n.results
    && m.nextSequence <= n.nextSequence
    && Frontier(m) <= Frontier(n)
    && forall i :: |m.results| <= i < |n.results| ==> Frontier(m) <= n.results[i].sequence
  }

  /** With an event open the store has a free slot, so `finalize` never reports BUSY. */
  lemma FinalizeKeeps(m: Machine, status: DeviceState, ended: U32, fault: string)
    requires Inv(m) && m.active.Some? && Terminal(status) && FaultField(fault) in FAULTS
    requires status == TimedOut ==> m.active.value.pulses == 0
    ensures var r := Finalize(m, status, ended, fault);
            && Keeps(m, r.m) && r.error == NoError && r.flag
            && r.m.active.None? && r.m.nextSequence == m.nextSequence
            && r.m.lifetime == m.lifetime && r.m.recovery == m.recovery
            && Held(r.m) == Held(m)
  {
    var closed := ClosedEvent(m.active.value, m.lifetime, status, ended, fault);
    StoreAppend(m.results, closed, m.nextSequence - 1, m.lifetime);
  }

  lemma TickKeeps(cfg: Config, m: Machine, now: U32)
    requires Inv(m)
    ensures var r := Tick(cfg, m, now);
            && Keeps(m, r.m) && r.error == NoError
            && r.m.nextSequence == m.nextSequence
            && r.m.lifetime == m.lifetime && r.m.recovery == m.recovery
            && Held(r.m) == Held(m)
  {
    hide Store, Due, Finalize, PulseSum;
    if m.active.Some? {
      if m.active.value.phase == Armed && Due(now, m.active.value.armDeadlineMs) {
        FinalizeKeeps(m, TimedOut, m.active.value.armDeadlineMs, "none");
      } else {
        var s := Settle(cfg, m, now);
        assert Inv(s) && Held(s) == Held(m);
        if s.active.value.phase == Settling && Due(now, s.active.value.settleDeadlineMs) {
          FinalizeKeeps(s, Complete, s.active.value.settleDeadlineMs, "none");
        }
      }
    }
  }

  /** Whether adding pulses hits one of the two clamps. */
  predicate PulsesClamp(cfg: Config, m: Machine, count: U32, captured: U32) {
    && count > 0
    && var n := AdvanceTo(cfg, m, captured).m;
       LifetimeFull(n, count) || (n.active.Some? && MAX_RESULT_PULSES - n.active.value.pulses < count)
  }

  predicate BatchClamps(cfg: Config, m: Machine, count: U32, first: U32, last: U32) {
    && count > 0
    && (PulsesClamp(cfg, m, 1, first)
        || (count > 1 && PulsesClamp(cfg, AddPulses(cfg, m, 1, first).m, count - 1, last)))
  }

  lemma OpenKeeps(m: Machine, count: U32, captured: U32)
    requires Inv(m) && m.active.None? && 0 < count <= m.lifetime
    requires Held(m) + count <= m.lifetime
    ensures var n := OpenUnattributed(m, count, captured).m;
            && Keeps(m, n) && n.lifetime == m.lifetime && Held(n) == Held(m) + count
            && m.recovery <= n.recovery <= m.recovery + count
  {
  }

  lemma JoinKeeps(m: Machine, count: U32, captured: U32)
    requires Inv(m) && m.active.Some? && 0 < count
    requires m.active.value.pulses + count <= m.lifetime
    ensures var n := JoinActive(m, count, captured).m;
            && Keeps(m, n) && n.lifetime == m.lifetime && n.recovery == m.recovery
            && Held(m) <= Held(n) <= Held(m) + count
            && (m.active.value.pulses + count <= MAX_RESULT_PULSES ==> Held(n) == Held(m) + count)
  {
    var a := m.active.value;
    if MAX_RESULT_PULSES - a.pulses < count {
      var full := m.(active := Some(a.(pulses := MAX_RESULT_PULSES)), fault := "session_saturated");
      assert GoodActive(full.active.value);
      FinalizeKeeps(full, Interrupted, captured, "session_saturated");
    }
  }

  lemma LifetimeFullKeeps(m: Machine, captured: U32)
    requires Inv(m)
    ensures var full := m.(lifetime := UINT64_MAX, fault := "lifetime_saturated");
            && Inv(full) && Keeps(m, full) && Held(full) == Held(m) && full.recovery == m.recovery
            && (m.active.Some? ==>
                  var n := Finalize(full, Interrupted, captured, "lifetime_saturated").m;
                  Keeps(m, n) && n.lifetime == UINT64_MAX && n.recovery == m.recovery && Held(n) == Held(m))
  {
    var full := m.(lifetime := UINT64_MAX, fault := "lifetime_saturated");
    assert "lifetime_saturated"[..FAULT_CHARS] == "lifetime_saturate";
    if m.active.Some? {
      FinalizeKeeps(full, Interrupted, captured, "lifetime_saturated");
    }
  }

  lemma LifetimeGrows(m: Machine, lifetime: U64)
    requires Inv(m) && m.lifetime <= lifetime
    ensures var n := m.(lifetime := lifetime); Inv(n) && Keeps(m, n) && Held(n) == Held(m)
  {
  }

  lemma CountedKeeps(m: Machine, count: U32, captured: U32)
    requires Inv(m) && Held(m) + count <= m.lifetime && 0 < count
    ensures var n := if m.active.None? then OpenUnattributed(m, count, captured).m else JoinActive(m, count, captured).m;
            && Keeps(m, n) && n.lifetime == m.lifetime
            && m.recovery <= n.recovery <= m.recovery + count
            && Held(n) <= Held(m) + count
            && (m.active.None? || m.active.value.pulses + count <= MAX_RESULT_PULSES ==> Held(n) == Held(m) + count)
  {
    if m.active.None? {
      OpenKeeps(m, count, captured);
    } else {
      JoinKeeps(m, count, captured);
    }
  }

  /** Adding pulses keeps the invariant. Below the two clamps every pulse is
      held afterwards; at a clamp the machine holds no more than it counted, so
      the saturating branch of the recovery counter is never taken. */
  lemma AddPulsesKeeps(cfg: Config, m: Machine, count: U32, captured: U32)
    requires Inv(m) && Held(m) <= m.lifetime
    ensures var n := AddPulses(cfg, m, count, captured).m;
            && Keeps(m, n)
            && m.lifetime <= n.lifetime <= m.lifetime + count
            && m.recovery <= n.recovery
            && n.recovery - m.recovery <= n.lifetime - m.lifetime
            && Held(n) <= Held(m) + (n.lifetime - m.lifetime)
            && (!PulsesClamp(cfg, m, count, captured) ==>
                  n.lifetime == m.lifetime + count && Held(n) == Held(m) + count)
  {
    hide Inv, Held, Keeps, Due, After, Tick, OpenUnattributed, JoinActive, Finalize;
    AdvanceKeeps(cfg, m, captured);
    var adv := AdvanceTo(cfg, m, captured).m;
    var n := AddPulses(cfg, m, count, captured).m;
    if count > 0 {
      if LifetimeFull(adv, count) {
        LifetimeFullKeeps(adv, captured);
        KeepsChain(m, adv, n);
      } else {
        var grown := adv.(lifetime := adv.lifetime + count);
        LifetimeGrows(adv, adv.lifetime + count);
        KeepsChain(m, adv, grown);
        CountedKeeps(grown, count, captured);
        KeepsChain(m, grown, n);
      }
    } else {
      KeepsSelf(m);
    }
  }

  lemma AdvanceKeeps(cfg: Config, m: Machine, captured: U32)
    requires Inv(m)
    ensures var n := AdvanceTo(cfg, m, captured).m;
            Inv(n) && Keeps(m, n) && n.lifetime == m.lifetime && n.recovery == m.recovery && Held(n) == Held(m)
            && n.nextSequence == m.nextSequence
  {
    hide Tick, Held, Due, After, Store, GoodActive;
    TickKeeps(cfg, m, captured);
  }

  lemma KeepsSelf(m: Machine)
    requires Inv(m)
    ensures Keeps(m, m)
  {
  }

  lemma KeepsInv(m: Machine, n: Machine)
    requires Keeps(m, n)
    ensures Inv(n)
  {
  }

  lemma KeepsChain(l: Machine, m: Machine, n: Machine)
    requires Keeps(l, m) && Keeps(m, n)
    ensures Keeps(l, n) && Inv(m) && Inv(n)
  {
  }

  lemma BatchKeeps(cfg: Config, m: Machine, count: U32, first: U32, last: U32)
    requires Inv(m) && Held(m) <= m.lifetime
    ensures var n := AddPulseBatch(cfg, m, count, first, last).m;
            && Keeps(m, n)
            && m.lifetime <= n.lifetime <= m.lifetime + count
            && m.recovery <= n.recovery
            && n.recovery - m.recovery <= n.lifetime - m.lifetime
            && Held(n) <= Held(m) + (n.lifetime - m.lifetime)
            && (!BatchClamps(cfg, m, count, first, last) ==>
                  n.lifetime == m.lifetime + count && Held(n) == Held(m) + count)
  {
    hide Inv, Held, Keeps, AddPulses, PulsesClamp;
    KeepsSelf(m);
    if count > 0 {
      AddPulsesKeeps(cfg, m, 1, first);
      if count > 1 {
        var one := AddPulses(cfg, m, 1, first).m;
        KeepsInv(m, one);
        AddPulsesKeeps(cfg, one, count - 1, last);
        KeepsChain(m, one, AddPulses(cfg, one, count - 1, last).m);
      }
    }
  }

  lemma ArmKeeps(cfg: Config, m: Machine, sid: string, sequence: U32, now: U32, ttl: U32)
    requires Inv(m)
    ensures var n := Arm(cfg, m, sid, sequence, now, ttl).m;
            Keeps(m, n) && n.lifetime == m.lifetime && n.recovery == m.recovery && Held(n) == Held(m)
  {
    hide Due, Settle, Tick, Finalize, GoodOutcome;
    TickKeeps(cfg, m, now);
  }

  lemma CancelKeeps(cfg: Config, m: Machine, sid: string, sequence: U32, now: U32)
    requires Inv(m)
    ensures var n := Cancel(cfg, m, sid, sequence, now).m;
            Keeps(m, n) && n.lifetime == m.lifetime && n.recovery == m.recovery && Held(n) == Held(m)
  {
    hide Due, Settle, Tick, Finalize, GoodOutcome;
    TickKeeps(cfg, m, now);
    var t := Tick(cfg, m, now).m;
    if t.active.Some? {
      FinalizeKeeps(t, Interrupted, now, "cancelled");
    }
  }

  lemma MarkSaturatedKeeps(m: Machine, now: U32)
    requires Inv(m)
    ensures var n := MarkCounterSaturated(m, now).m;
            Keeps(m, n) && n.lifetime == m.lifetime && n.recovery == m.recovery && Held(n) == Held(m)
  {
    var f := m.(fault := "counter_saturated");
    if f.active.Some? {
      FinalizeKeeps(f, Interrupted, now, "counter_saturated");
    }
  }

  /** The results an acknowledgement takes out of the store: one or none. */
  function Removed(m: Machine, sequence: U32): seq<Outcome> {
    var i := IndexOf(m.results, sequence);
    m.results[i..if i == |m.results| then i else i + 1]
  }

  lemma StoreRemove(rs: seq<Outcome>, i: nat, bound: int, lifetime: int)
    requires i < |rs| && Store(rs, bound, lifetime)
    ensures Store(rs[..i] + rs[i + 1..], bound, lifetime)
  {
    hide InStore;
    var rest := rs[..i] + rs[i + 1..];
    assert forall j :: 0 <= j < |rest| ==> rest[j] == rs[if j < i then j else j + 1];
  }

  lemma SumRemove(rs: seq<Outcome>, i: nat)
    requires i < |rs|
    ensures PulseSum(rs[..i] + rs[i + 1..]) + rs[i].pulses == PulseSum(rs)
  {
    var (front, back) := (rs[..i + 1], rs[i + 1..]);
    SumLast(front);
    assert front[..i] == rs[..i];
    hide PulseSum;
    assert rs == front + back;
    PulseSumAppend(front, back);
    PulseSumAppend(rs[..i], back);
  }

  lemma SumLast(rs: seq<Outcome>)
    requires rs != []
    ensures PulseSum(rs) == PulseSum(rs[..|rs| - 1]) + rs[|rs| - 1].pulses
  {
  }

  lemma AcknowledgeKeeps(m: Machine, sequence: U32)
    requires Inv(m)
    ensures var n := Acknowledge(m, sequence).m;
            && Inv(n) && n.nextSequence == m.nextSequence && n.lifetime == m.lifetime
            && n.recovery == m.recovery && n.active == m.active
            && Held(n) + PulseSum(Removed(m, sequence)) == Held(m)
  {
    hide Store;
    var i := IndexOf(m.results, sequence);
    if i < |m.results| {
      StoreRemove(m.results, i, Frontier(m), m.lifetime);
      SumRemove(m.results, i);
      assert Removed(m, sequence) == [m.results[i]];
    } else {
      assert Removed(m, sequence) == [];
    }
  }

  // ---- the books over whole runs ----

  /** A machine with what has happened to it so far: the results acknowledged,
      the pulses fed in, and whether one of the two clamps ever fired. */
  datatype Books = Books(m: Machine, acked: seq<Outcome>, fed: nat, clamped: bool)

  predicate Clamps(cfg: Config, m: Machine, op: Op) {
    match op
    case OpPulses(count, at) => PulsesClamp(cfg, m, count, Wrap(at))
    case OpBatch(count, first, at) => BatchClamps(cfg, m, count, Wrap(first), Wrap(at))
    case _ => false
  }

  function Fed(op: Op): nat {
    match op
    case OpPulses(count, _) => count
    case OpBatch(count, _, _) => count
    case _ => 0
  }

  function Record(cfg: Config, b: Books, op: Op): Books {
    Books(Apply(cfg, b.m, op).m,
          if op.OpAck? then b.acked + Removed(b.m, op.sequence) else b.acked,
          b.fed + Fed(op),
          b.clamped || Clamps(cfg, b.m, op))
  }

  function RecordAll(cfg: Config, b: Books, ops: seq<Op>): Books
    decreases |ops|
  {
    if ops == [] then b else RecordAll(cfg, Record(cfg, b, ops[0]), ops[1..])
  }

  const OPENING := Books(FRESH, [], 0, false)

  /** Every pulse the machine accounts for: acknowledged, retained, in the open event, or in recovery. */
  function Accounted(b: Books): nat {
    PulseSum(b.acked) + Held(b.m)
  }

  /** No two results ever finalized share a sequence number. */
  ghost predicate DistinctHistory(b: Books) {
    && (forall i, j :: 0 <= i < j < |b.acked| ==> b.acked[i].sequence != b.acked[j].sequence)
    && (forall i, j :: 0 <= i < |b.acked| && 0 <= j < |b.m.results| ==> b.acked[i].sequence != b.m.results[j].sequence)
    && (forall i :: 0 <= i < |b.acked| ==> b.acked[i].sequence < Frontier(b.m))
  }

  ghost predicate Balanced(b: Books) {
    && Inv(b.m)
    && Accounted(b) <= b.m.lifetime <= b.fed
    && (!b.clamped ==> Accounted(b) == b.m.lifetime == b.fed)
    && DistinctHistory(b)
  }

  lemma HistoryGrows(b: Books, n: Machine)
    requires Balanced(b) && Keeps(b.m, n)
    ensures DistinctHistory(b.(m := n))
  {
    forall i, j | 0 <= i < |b.acked| && 0 <= j < |n.results|
      ensures b.acked[i].sequence != n.results[j].sequence
    {
      if j < |b.m.results| {
        assert n.results[j] == b.m.results[j];
      }
    }
  }

  lemma HistoryAcknowledged(b: Books, sequence: U32)
    requires Balanced(b)
    ensures DistinctHistory(b.(m := Acknowledge(b.m, sequence).m, acked := b.acked + Removed(b.m, sequence)))
  {
    hide GoodOutcome, GoodActive, PulseSum, Accounted;
    var i := IndexOf(b.m.results, sequence);
    var n := Acknowledge(b.m, sequence).m;
    if i < |b.m.results| {
      assert Removed(b.m, sequence) == [b.m.results[i]];
      assert InStore(b.m.results[i], Frontier(b.m), b.m.lifetime);
      forall j | 0 <= j < |n.results| ensures n.results[j] == b.m.results[if j < i then j else j + 1] {
      }
    } else {
      assert Removed(b.m, sequence) == [];
    }
  }

  /** Conservation, one call at a time. */
  lemma RecordKeepsBalance(cfg: Config, b: Books, op: Op)
    requires Balanced(b)
    ensures Balanced(Record(cfg, b, op))
  {
    hide Store, GoodActive, InStore, PulseSum, Removed, DistinctHistory, Keeps, Arm, Cancel, Tick, AddPulses, AddPulseBatch,
      MarkCounterSaturated, Acknowledge, PulsesClamp, BatchClamps, Frontier, Inv, Held;
    match op {
      case OpArm(sid, sequence, at, ttl) => ArmKeeps(cfg, b.m, sid, sequence, Wrap(at), ttl);
      case OpCancel(sid, sequence, at) => CancelKeeps(cfg, b.m, sid, sequence, Wrap(at));
      case OpPulses(count, at) => AddPulsesKeeps(cfg, b.m, count, Wrap(at));
      case OpBatch(count, first, at) => BatchKeeps(cfg, b.m, count, Wrap(first), Wrap(at));
      case OpTick(at) => TickKeeps(cfg, b.m, Wrap(at));
      case OpMarkSaturated(at) => MarkSaturatedKeeps(b.m, Wrap(at));
      case OpAck(sequence) =>
        AcknowledgeKeeps(b.m, sequence);
        PulseSumAppend(b.acked, Removed(b.m, sequence));
        HistoryAcknowledged(b, sequence);
    }
    if !op.OpAck? {
      var n := Apply(cfg, b.m, op).m;
      KeepsInv(b.m, n);
      HistoryGrows(b, n);
      HistoryFrame(b.(m := n), Record(cfg, b, op));
    } else {
      HistoryFrame(b.(m := Acknowledge(b.m, op.sequence).m, acked := b.acked + Removed(b.m, op.sequence)), Record(cfg, b, op));
    }
  }

  lemma HistoryFrame(b: Books, c: Books)
    requires DistinctHistory(b) && b.m == c.m && b.acked == c.acked
    ensures DistinctHistory(c)
  {
  }

  /** Pulse conservation: in every run of the machine from power-on, whatever is
      acknowledged, cancelled, timed out, refused a slot or out of sequence
      numbers, the lifetime counter equals acknowledged + retained + open + recovery
      pulses and equals the pulses fed in, until a clamp fires; it is never below. */
  lemma {:induction false} RunsBalance(cfg: Config, b: Books, ops: seq<Op>)
    requires Balanced(b)
    ensures Balanced(RecordAll(cfg, b, ops))
    decreases |ops|
  {
    if ops != [] {
      RecordKeepsBalance(cfg, b, ops[0]);
      RunsBalance(cfg, Record(cfg, b, ops[0]), ops[1..]);
    }
  }
}
