/** Theorems about every run of the firmware machine. */
module Runs {
  import opened Common
  import opened Firmware
  import opened Conservation

  lemma {:induction false} RecordAllRuns(cfg: Config, b: Books, ops: seq<Op>)
    ensures RecordAll(cfg, b, ops).m == Run(cfg, b.m, ops)
    decreases |ops|
  {
    if ops != [] {
      RecordAllRuns(cfg, Record(cfg, b, ops[0]), ops[1..]);
    }
  }

  lemma FreshInv()
    ensures Inv(FRESH) && Held(FRESH) == 0 && FRESH.lifetime == 0 && FRESH.results == []
  {
    hide Inv, Held, Store, PulseSum, Frontier;
    EmptyStore(FRESH);
  }

  lemma EmptyStore(m: Machine)
    requires m.active.None? && m.results == [] && m.recovery == 0 && m.nextSequence == 1
    ensures Inv(m) && Held(m) == 0
  {
    hide GoodOutcome, GoodActive, InStore;
  }

  lemma OpeningBalanced()
    ensures Balanced(OPENING)
  {
    hide Inv, Held, Frontier;
    FreshInv();
  }

  /** The books of any run from power-on: what was acknowledged, what is
      retained, the open event and the recovery counter add up to the lifetime
      counter and to the edges fed in, exactly until a clamp fires and never
      more; and no two results of a boot ever share a sequence number. */
  lemma PulsesConserved(cfg: Config, ops: seq<Op>)
    ensures var b := RecordAll(cfg, OPENING, ops);
            var total := PulseSum(b.acked) + PulseSum(b.m.results) + ActivePulses(b.m) + b.m.recovery;
            && b.m == Run(cfg, FRESH, ops)
            && total <= b.m.lifetime <= b.fed
            && (!b.clamped ==> total == b.m.lifetime == b.fed)
            && DistinctHistory(b)
  {
    hide RecordAll, Run, DistinctHistory, PulseSum;
    OpeningBalanced();
    RunsBalance(cfg, OPENING, ops);
    RecordAllRuns(cfg, OPENING, ops);
  }

  /** What every state of every run from power-on satisfies. */
  ghost predicate Consistent(m: Machine) {
    Inv(m) && Held(m) <= m.lifetime
  }

  lemma FreshConsistent()
    ensures Consistent(FRESH)
  {
    hide Inv, Held;
    FreshInv();
  }

  lemma {:induction false} RunsConsistent(cfg: Config, m: Machine, ops: seq<Op>)
    requires Consistent(m)
    ensures Consistent(Run(cfg, m, ops))
    decreases |ops|
  {
    if ops != [] {
      StepConsistent(cfg, m, ops[0]);
      RunsConsistent(cfg, Apply(cfg, m, ops[0]).m, ops[1..]);
    }
  }

  lemma PowerOnConsistent(cfg: Config, ops: seq<Op>)
    ensures Consistent(Run(cfg, FRESH, ops))
  {
    hide Run, Consistent;
    FreshConsistent();
    RunsConsistent(cfg, FRESH, ops);
  }

  /** Two machine states as the host compares them from COUNTERS snapshots. */
  ghost predicate CountersAdvance(m: Machine, n: Machine) {
    && m.lifetime <= n.lifetime
    && m.recovery <= n.recovery
    && n.recovery - m.recovery <= n.lifetime - m.lifetime
    && m.nextSequence <= n.nextSequence
  }

  lemma StepConsistent(cfg: Config, m: Machine, op: Op)
    requires Consistent(m)
    ensures Consistent(Apply(cfg, m, op).m) && CountersAdvance(m, Apply(cfg, m, op).m)
  {
    hide Inv, Held, Arm, Cancel, Tick, AddPulses, AddPulseBatch, MarkCounterSaturated, Acknowledge, PulsesClamp, BatchClamps, Removed;
    match op {
      case OpArm(sid, sequence, at, ttl) => ArmKeeps(cfg, m, sid, sequence, Wrap(at), ttl);
      case OpCancel(sid, sequence, at) => CancelKeeps(cfg, m, sid, sequence, Wrap(at));
      case OpPulses(count, at) => AddPulsesKeeps(cfg, m, count, Wrap(at));
      case OpBatch(count, first, at) => BatchKeeps(cfg, m, count, Wrap(first), Wrap(at));
      case OpTick(at) => TickKeeps(cfg, m, Wrap(at));
      case OpMarkSaturated(at) => MarkSaturatedKeeps(m, Wrap(at));
      case OpAck(sequence) => AcknowledgeKeeps(m, sequence);
    }
  }

  /** Every call but an acknowledgement only appends results, at or beyond the frontier. */
  lemma CallKeeps(cfg: Config, m: Machine, op: Op)
    requires Inv(m) && Held(m) <= m.lifetime && !op.OpAck?
    ensures Keeps(m, Apply(cfg, m, op).m)
  {
    hide Inv, Held, Arm, Cancel, Tick, AddPulses, AddPulseBatch, MarkCounterSaturated, PulsesClamp, BatchClamps, Keeps;
    match op {
      case OpArm(sid, sequence, at, ttl) => ArmKeeps(cfg, m, sid, sequence, Wrap(at), ttl);
      case OpCancel(sid, sequence, at) => CancelKeeps(cfg, m, sid, sequence, Wrap(at));
      case OpPulses(count, at) => AddPulsesKeeps(cfg, m, count, Wrap(at));
      case OpBatch(count, first, at) => BatchKeeps(cfg, m, count, Wrap(first), Wrap(at));
      case OpTick(at) => TickKeeps(cfg, m, Wrap(at));
      case OpMarkSaturated(at) => MarkSaturatedKeeps(m, Wrap(at));
    }
  }

  /** Any two COUNTERS readings of one boot, taken in order, satisfy every
      monotonicity check the host's recovery checkpoint makes. */
  lemma {:induction false} CountersMonotone(cfg: Config, m: Machine, ops: seq<Op>)
    requires Consistent(m)
    ensures var n := Run(cfg, m, ops);
            m.recovery <= m.lifetime && n.recovery <= n.lifetime && CountersAdvance(m, n)
    decreases |ops|
  {
    if ops != [] {
      StepConsistent(cfg, m, ops[0]);
      CountersMonotone(cfg, Apply(cfg, m, ops[0]).m, ops[1..]);
    }
  }

  /** The saturating branch of the recovery counter is unreachable: whenever a
      pulse count is accepted at all, the recovery counter has room for it. */
  lemma RecoveryNeverSaturates(cfg: Config, m: Machine, count: U32, captured: U32)
    requires Consistent(m)
    ensures var adv := AdvanceTo(cfg, m, captured).m;
            !LifetimeFull(adv, count) ==> adv.recovery + count <= UINT64_MAX
  {
    AdvanceKeeps(cfg, m, captured);
  }

  /** With an event open, closing it always finds a free slot. */
  lemma FinalizeNeverBusy(cfg: Config, ops: seq<Op>, status: DeviceState, ended: U32, fault: string)
    ensures var m := Run(cfg, FRESH, ops);
            && |m.results| <= RESULT_CAPACITY
            && (m.active.Some? ==> Finalize(m, status, ended, fault).error == NoError
                                   && m.active.value.sequence == m.nextSequence - 1)
  {
    PowerOnConsistent(cfg, ops);
  }

  /** The one condition under which ARM opens an event. */
  predicate ArmOpens(cfg: Config, m: Machine, sid: string, sequence: U32, now: U32, ttl: U32) {
    var t := Tick(cfg, m, now).m;
    && ValidSid(sid) && 0 < ttl < TWO_31
    && t.active.None? && |t.results| < RESULT_CAPACITY
    && sequence == t.nextSequence < UINT32_MAX
    && !Known(t.results, sid, sequence)
  }

  /** ARM either opens the event with exactly the next sequence number, or
      changes nothing a tick at that time would not have changed (bar the fault
      text on exhaustion). */
  lemma ArmOpensExactly(cfg: Config, m: Machine, sid: string, sequence: U32, now: U32, ttl: U32)
    requires Inv(m)
    ensures var r := Arm(cfg, m, sid, sequence, now, ttl);
            var t := Tick(cfg, m, now).m;
            && (ArmOpens(cfg, m, sid, sequence, now, ttl) <==> r.error == NoError && !r.flag)
            && (ArmOpens(cfg, m, sid, sequence, now, ttl) <==> r.m.nextSequence == m.nextSequence + 1)
            && (!ArmOpens(cfg, m, sid, sequence, now, ttl) ==> r.m.(fault := t.fault) == t)
  {
    TickKeeps(cfg, m, now);
  }

  /** An ARM that opened an event, retried any number of times with anything in
      between, under any session id, never opens a second event for that
      sequence number. */
  lemma ArmRetryIsIdempotent(cfg: Config, m: Machine, sid: string, sequence: U32, now: U32, ttl: U32,
                             between: seq<Op>, sid': string, now': U32, ttl': U32)
    requires Consistent(m) && ArmOpens(cfg, m, sid, sequence, now, ttl)
    ensures var n := Run(cfg, Arm(cfg, m, sid, sequence, now, ttl).m, between);
            var r := Arm(cfg, n, sid', sequence, now', ttl');
            && !ArmOpens(cfg, n, sid', sequence, now', ttl')
            && r.m.nextSequence == n.nextSequence
            && (r.error == NoError ==> r.flag)
  {
    hide Held;
    var armed := Arm(cfg, m, sid, sequence, now, ttl).m;
    ArmKeeps(cfg, m, sid, sequence, now, ttl);
    ArmOpensExactly(cfg, m, sid, sequence, now, ttl);
    TickKeeps(cfg, m, now);
    CountersMonotone(cfg, armed, between);
    RunsConsistent(cfg, armed, between);
    var n := Run(cfg, armed, between);
    TickKeeps(cfg, n, now');
    ArmOpensExactly(cfg, n, sid', sequence, now', ttl');
  }
}
