/** Results do not depend on how often the main loop runs. */
module Timing {
  import opened Common
  import opened Firmware
  import opened Conservation
  import opened Runs
  import opened Twin
  import opened Refinement

  predicate Nondecreasing(ts: seq<nat>) {
    forall i, j :: 0 <= i <= j < |ts| ==> ts[i] <= ts[j]
  }

  function Ticks(ts: seq<nat>): (ops: seq<Op>)
    ensures |ops| == |ts|
  {
    seq(|ts|, i requires 0 <= i < |ts| => OpTick(ts[i]))
  }

  // ---- ticks ----

  lemma TwoTwinTicks(c: TwinConfig, t: TwinMachine, first: nat, second: nat)
    requires first <= second
    ensures TwinTick(c, TwinTick(c, t, first).t, second).t == TwinTick(c, t, second).t
  {
    hide Put;
  }

  /** On the host model any nondecreasing run of ticks is its last tick alone. */
  lemma {:induction false} TwinTicksCollapse(c: TwinConfig, t: TwinMachine, ts: seq<nat>)
    requires ts != [] && Nondecreasing(ts)
    ensures TwinRun(c, t, Ticks(ts)) == TwinTick(c, t, ts[|ts| - 1]).t
    decreases |ts|
  {
    hide TwinTick;
    assert Ticks(ts)[1..] == Ticks(ts[1..]);
    if |ts| > 1 {
      TwinTicksCollapse(c, TwinTick(c, t, ts[0]).t, ts[1..]);
      TwoTwinTicks(c, t, ts[0], ts[|ts| - 1]);
    } else {
      assert Ticks(ts[1..]) == [];
    }
  }

  lemma TwoTicks(cfg: Config, m: Machine, t: TwinMachine, now: nat, first: nat, second: nat)
    requires Timers(cfg) && Agrees(cfg, m, t, now) && now <= first <= second < now + TWO_31
    ensures Tick(cfg, Tick(cfg, m, Wrap(first)).m, Wrap(second)).m == Tick(cfg, m, Wrap(second)).m
  {
    hide Due, After, Inv, SameResults, Wrap;
    if m.active.Some? {
      var b := t.active.value;
      match b.phase
      case Armed =>
        DueIsUnbounded(first, b.armDeadlineMs.value);
        DueIsUnbounded(second, b.armDeadlineMs.value);
      case Pouring =>
        var gapAt := b.lastPulseMs.value + cfg.flowGapMs;
        WrapAdd(b.lastPulseMs.value, cfg.flowGapMs);
        WrapAdd(gapAt, cfg.settlingMs);
        DueIsUnbounded(first, gapAt);
        DueIsUnbounded(second, gapAt);
        if gapAt <= second {
          DueIsUnbounded(second, gapAt + cfg.settlingMs);
        }
        if gapAt <= first {
          DueIsUnbounded(first, gapAt + cfg.settlingMs);
        }
      case Settling =>
        DueIsUnbounded(first, b.settleDeadlineMs.value);
        DueIsUnbounded(second, b.settleDeadlineMs.value);
    }
  }

  /** On the board, within half the clock from the last call, any nondecreasing
      run of ticks leaves exactly what its last tick alone leaves, down to the
      end time of a result it closes. */
  lemma {:induction false} TicksCollapse(cfg: Config, m: Machine, t: TwinMachine, now: nat, ts: seq<nat>)
    requires Timers(cfg) && Agrees(cfg, m, t, now)
    requires ts != [] && Nondecreasing(ts) && now <= ts[0] && ts[|ts| - 1] < now + TWO_31
    ensures Run(cfg, m, Ticks(ts)) == Tick(cfg, m, Wrap(ts[|ts| - 1])).m
    decreases |ts|
  {
    hide Tick, TwinTick, Agrees;
    assert Ticks(ts)[1..] == Ticks(ts[1..]);
    if |ts| > 1 {
      var m1, t1 := Tick(cfg, m, Wrap(ts[0])).m, TwinTick(HostConfig(cfg), t, ts[0]).t;
      TickAgreesAt(cfg, m, t, now, ts[0]);
      TicksCollapse(cfg, m1, t1, ts[0], ts[1..]);
      TwoTicks(cfg, m, t, now, ts[0], ts[|ts| - 1]);
    } else {
      assert Ticks(ts[1..]) == [];
    }
  }

  lemma TickAgreesAt(cfg: Config, m: Machine, t: TwinMachine, now: nat, at: nat)
    requires Timers(cfg) && Agrees(cfg, m, t, now) && now <= at < now + TWO_31
    ensures Agrees(cfg, Tick(cfg, m, Wrap(at)).m, TwinTick(HostConfig(cfg), t, at).t, at)
  {
    TickMatches(cfg, m, t, now, at);
    TickKeeps(cfg, m, Wrap(at));
  }

  // ---- the arm deadline ----

  /** Calls that neither deliver pulses nor cancel: ticks, acknowledgements and ARM requests. */
  predicate Quiet(op: Op) {
    op.OpTick? || op.OpAck? || op.OpArm?
  }

  /** The session with this sequence number ended at its deadline without a pulse. */
  ghost predicate Expired(m: Machine, sequence: U32, deadline: nat) {
    && sequence < Frontier(m)
    && forall i :: 0 <= i < |m.results| && m.results[i].sequence == sequence ==>
         m.results[i].status == TimedOut && m.results[i].pulses == 0 && m.results[i].endedMs == Wrap(deadline)
  }

  ghost predicate ArmedUntil(t: TwinMachine, m: Machine, a: Active, deadline: nat) {
    m.active == Some(a) && a.phase == Armed && t.active.Some? && t.active.value.armDeadlineMs == Some(deadline)
  }

  lemma ArmedTick(cfg: Config, m: Machine, t: TwinMachine, now: nat, a: Active, deadline: nat, at: nat)
    requires Timers(cfg) && Agrees(cfg, m, t, now) && now <= at < now + TWO_31
    requires ArmedUntil(t, m, a, deadline)
    ensures var n := Tick(cfg, m, Wrap(at)).m;
            && (at < deadline ==> n == m && ArmedUntil(TwinTick(HostConfig(cfg), t, at).t, n, a, deadline))
            && (at >= deadline ==> Expired(n, a.sequence, deadline))
  {
    hide Due;
    DueIsUnbounded(at, deadline);
    forall i | 0 <= i < |m.results| ensures m.results[i].sequence < a.sequence {
      assert InStore(m.results[i], Frontier(m), m.lifetime);
    }
  }

  lemma ExpiredTick(cfg: Config, m: Machine, sequence: U32, deadline: nat, at: U32)
    requires Inv(m) && Expired(m, sequence, deadline)
    ensures Expired(Tick(cfg, m, at).m, sequence, deadline)
  {
    hide Tick, Store;
    TickKeeps(cfg, m, at);
    ExpiredKeeps(m, Tick(cfg, m, at).m, sequence, deadline);
  }

  lemma ExpiredKeeps(m: Machine, n: Machine, sequence: U32, deadline: nat)
    requires Expired(m, sequence, deadline) && Keeps(m, n)
    ensures Expired(n, sequence, deadline)
  {
    forall i | 0 <= i < |n.results| && n.results[i].sequence == sequence
      ensures n.results[i].status == TimedOut && n.results[i].pulses == 0 && n.results[i].endedMs == Wrap(deadline)
    {
      assert i < |m.results|;
      assert n.results[i] == m.results[i];
    }
  }

  lemma ExpiredAcknowledge(m: Machine, sequence: U32, deadline: nat, acked: U32)
    requires Expired(m, sequence, deadline)
    ensures Expired(Acknowledge(m, acked).m, sequence, deadline)
  {
    var i := IndexOf(m.results, acked);
    var n := Acknowledge(m, acked).m;
    if i < |m.results| {
      assert forall j :: 0 <= j < |n.results| ==> n.results[j] == m.results[if j < i then j else j + 1];
    }
  }

  /** Before the deadline the session is untouched; from the deadline on it is closed. */
  ghost predicate DeadlineDecides(m: Machine, t: TwinMachine, now: nat, a: Active, deadline: nat) {
    if now < deadline then ArmedUntil(t, m, a, deadline) else Expired(m, a.sequence, deadline)
  }

  lemma QuietStep(cfg: Config, m: Machine, t: TwinMachine, now: nat, a: Active, deadline: nat, op: Op)
    requires Timers(cfg) && Agrees(cfg, m, t, now) && Admissible(op, now) && Quiet(op)
    requires DeadlineDecides(m, t, now, a, deadline)
    ensures DeadlineDecides(Apply(cfg, m, op).m, TwinApply(HostConfig(cfg), t, op).t, EndTime(op, now), a, deadline)
  {
    hide Tick, TwinTick, Simulates, Timely, Store, Known, Due;
    if op.OpAck? {
      if now >= deadline {
        ExpiredAcknowledge(m, a.sequence, deadline, op.sequence);
      }
    } else {
      if now < deadline {
        ArmedTick(cfg, m, t, now, a, deadline, op.at);
      } else {
        ExpiredTick(cfg, m, a.sequence, deadline, Wrap(op.at));
      }
      if op.OpArm? {
        var n := Tick(cfg, m, Wrap(op.at)).m;
        TickAgreesAt(cfg, m, t, now, op.at);
        SameOpenEvent(cfg, n, TwinTick(HostConfig(cfg), t, op.at).t, op.at);
        TickKeeps(cfg, m, Wrap(op.at));
        ArmKeeps(cfg, n, op.sid, op.sequence, Wrap(op.at), op.ttl);
        ArmLeavesOpenEvent(cfg, m, op.sid, op.sequence, Wrap(op.at), op.ttl, a.sequence, deadline);
      }
    }
  }

  lemma SameOpenEvent(cfg: Config, m: Machine, t: TwinMachine, now: nat)
    requires Agrees(cfg, m, t, now)
    ensures m.active.Some? == t.active.Some?
  {
  }

  lemma ArmLeavesOpenEvent(cfg: Config, m: Machine, sid: string, sequence: U32, now: U32, ttl: U32, closed: U32, deadline: nat)
    requires Inv(m)
    ensures var n := Tick(cfg, m, now).m;
            var r := Arm(cfg, m, sid, sequence, now, ttl).m;
            && (n.active.Some? ==> r.active == n.active)
            && (Expired(n, closed, deadline) ==> Expired(r, closed, deadline))
  {
    hide Tick, Store, Known;
    TickKeeps(cfg, m, now);
  }

  lemma {:induction false} QuietRun(cfg: Config, m: Machine, t: TwinMachine, now: nat, a: Active, deadline: nat, ops: seq<Op>)
    requires Timers(cfg) && Agrees(cfg, m, t, now) && Held(m) <= m.lifetime && Usable(cfg, m, now, ops)
    requires forall op :: op in ops ==> Quiet(op)
    requires DeadlineDecides(m, t, now, a, deadline)
    ensures DeadlineDecides(Run(cfg, m, ops), TwinRun(HostConfig(cfg), t, ops), Clock(now, ops), a, deadline)
    decreases |ops|
  {
    hide Agrees, Held, Admissible, Fits, Apply, TwinApply, DeadlineDecides, Quiet;
    if ops != [] {
      AgreesInv(cfg, m, t, now);
      StepMatches(cfg, m, t, now, ops[0]);
      StepConsistent(cfg, m, ops[0]);
      QuietStep(cfg, m, t, now, a, deadline, ops[0]);
      QuietRun(cfg, Apply(cfg, m, ops[0]).m, TwinApply(HostConfig(cfg), t, ops[0]).t, EndTime(ops[0], now), a, deadline, ops[1..]);
    }
  }

  /** The first edge after an ARM, captured at `at` after any quiet calls,
      belongs to the armed session exactly when it was captured no later than
      the deadline and no call had already reached the deadline; in the other
      case the session ends at its deadline without a pulse. DrainTiming lifts
      this to drained batches, where the order of calls and edges is the loop's. */
  lemma FirstEdgeDecided(cfg: Config, m: Machine, t: TwinMachine, now: nat, a: Active, deadline: nat,
                         ops: seq<Op>, count: U32, at: nat)
    requires Timers(cfg) && Agrees(cfg, m, t, now) && Held(m) <= m.lifetime && Usable(cfg, m, now, ops)
    requires forall op :: op in ops ==> Quiet(op)
    requires ArmedUntil(t, m, a, deadline) && now < deadline && a.pulses == 0
    requires Clock(now, ops) <= at < Clock(now, ops) + TWO_31 && count > 0
    requires !PulsesClamp(cfg, Run(cfg, m, ops), count, Wrap(at))
    ensures var n := AddPulses(cfg, Run(cfg, m, ops), count, Wrap(at)).m;
            var joins := Clock(now, ops) < deadline && at <= deadline;
            && (joins <==> n.active.Some? && n.active.value.sequence == a.sequence)
            && (joins ==> n.active == Some(a.(phase := Pouring, pulses := count, startedMs := Wrap(at), lastPulseMs := Wrap(at), settleDeadlineMs := 0)))
            && (!joins ==> Expired(n, a.sequence, deadline))
  {
    hide AddPulses, Run, TwinRun, Usable, Clock, Agrees, Held, PulsesClamp, Inv, Expired;
    QuietRun(cfg, m, t, now, a, deadline, ops);
    RunMatches(cfg, m, t, now, ops);
    AgreesInv(cfg, m, t, now);
    RunsConsistent(cfg, m, ops);
    EdgeDecided(cfg, Run(cfg, m, ops), TwinRun(HostConfig(cfg), t, ops), Clock(now, ops), a, deadline, count, at);
  }

  lemma EdgeDecided(cfg: Config, m: Machine, t: TwinMachine, now: nat, a: Active, deadline: nat, count: U32, at: nat)
    requires Timers(cfg) && Agrees(cfg, m, t, now) && Held(m) <= m.lifetime && a.pulses == 0
    requires DeadlineDecides(m, t, now, a, deadline) && now <= at < now + TWO_31 && count > 0
    requires !PulsesClamp(cfg, m, count, Wrap(at))
    ensures var n := AddPulses(cfg, m, count, Wrap(at)).m;
            var joins := now < deadline && at <= deadline;
            && (joins <==> n.active.Some? && n.active.value.sequence == a.sequence)
            && (joins ==> n.active == Some(a.(phase := Pouring, pulses := count, startedMs := Wrap(at), lastPulseMs := Wrap(at), settleDeadlineMs := 0)))
            && (!joins ==> Expired(n, a.sequence, deadline))
  {
    hide Due, After, Tick, TwinTick, Store, Held, Simulates, Timely;
    AddPulsesKeeps(cfg, m, count, Wrap(at));
    var n := AddPulses(cfg, m, count, Wrap(at)).m;
    if now < deadline {
      TimelyDeadline(cfg, m, t, now, a, deadline);
      DueIsUnbounded(at, deadline);
      ArmedTick(cfg, m, t, now, a, deadline, at);
      if at > deadline {
        ExpiredThroughEdge(cfg, m, count, Wrap(at), a.sequence, deadline);
      }
    } else {
      ExpiredKeeps(m, n, a.sequence, deadline);
    }
  }

  lemma TimelyDeadline(cfg: Config, m: Machine, t: TwinMachine, now: nat, a: Active, deadline: nat)
    requires Agrees(cfg, m, t, now) && ArmedUntil(t, m, a, deadline)
    ensures now < deadline < now + TWO_31 && a.armDeadlineMs == Wrap(deadline)
  {
  }

  lemma ExpiredThroughEdge(cfg: Config, m: Machine, count: U32, captured: U32, sequence: U32, deadline: nat)
    requires Inv(m) && Held(m) <= m.lifetime && count > 0 && !PulsesClamp(cfg, m, count, captured)
    requires Expired(AdvanceTo(cfg, m, captured).m, sequence, deadline)
    ensures Expired(AddPulses(cfg, m, count, captured).m, sequence, deadline)
  {
    hide AdvanceTo, Store, Held, Keeps, OpenUnattributed, JoinActive;
    AdvanceKeeps(cfg, m, captured);
    var adv := AdvanceTo(cfg, m, captured).m;
    var grown := adv.(lifetime := adv.lifetime + count);
    LifetimeGrows(adv, adv.lifetime + count);
    CountedKeeps(grown, count, captured);
    ExpiredKeeps(grown, AddPulses(cfg, m, count, captured).m, sequence, deadline);
  }

  // ---- the end of a pour ----

  /** When a pour ends: a tick within half a turn of the last call leaves it open
      before the gap and the settling time after its last edge are both over, and
      from then on closes it as complete, with the pulses it had, at that moment
      and not at the tick's. */
  lemma PourEndsExactly(cfg: Config, m: Machine, t: TwinMachine, now: nat, lastPulse: nat, at: nat)
    requires Timers(cfg) && Agrees(cfg, m, t, now) && now <= at < now + TWO_31
    requires m.active.Some? && m.active.value.phase == Pouring && t.active.Some? && t.active.value.lastPulseMs == Some(lastPulse)
    ensures var n := Tick(cfg, m, Wrap(at)).m;
            var end := lastPulse + cfg.flowGapMs + cfg.settlingMs;
            && (at < end ==> n.active.Some? && n.results == m.results && n.active.value.pulses == m.active.value.pulses)
            && (at >= end ==>
                  && n.active.None? && |n.results| == |m.results| + 1 && n.results[..|m.results|] == m.results
                  && var r := n.results[|m.results|];
                  && r.status == Complete && r.sequence == m.active.value.sequence && r.sid == m.active.value.sid
                  && r.pulses == m.active.value.pulses && r.endedMs == Wrap(end))
  {
    hide Due, SameResults, Store, Wrap;
    var gapAt := lastPulse + cfg.flowGapMs;
    WrapAdd(lastPulse, cfg.flowGapMs);
    WrapAdd(gapAt, cfg.settlingMs);
    DueIsUnbounded(at, gapAt);
    if gapAt <= at {
      DueIsUnbounded(at, gapAt + cfg.settlingMs);
    }
  }
}
