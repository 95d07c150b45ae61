/** The firmware machine on its wrapping 32-bit clock simulates the host's
    unbounded-time model, step for step and across any number of rollovers. */
module Refinement {
  import opened Common
  import opened Firmware
  import opened Conservation
  import opened Runs
  import opened Twin

  /** The flow timers both sides run with; the host model's own bounds. */
  predicate Timers(cfg: Config) {
    1 <= cfg.flowGapMs < TWO_31 && 1 <= cfg.settlingMs < TWO_31
  }

  function HostConfig(cfg: Config): TwinConfig {
    TwinConfig(15000, cfg.flowGapMs, cfg.settlingMs, RESULT_CAPACITY)
  }

  // ---- the simulation relation ----

  predicate SameSid(sid: string, attributed: bool, twin: Option<string>) {
    (if attributed then sid != "" else sid == "") && twin == if attributed then Some(sid) else None
  }

  predicate SameTime(t: U32, twin: Option<nat>) {
    twin.Some? && t == Wrap(twin.value)
  }

  predicate SameActive(a: Active, b: TwinActive) {
    && a.sequence == b.sequence && a.attributed == b.attributed && SameSid(a.sid, a.attributed, b.sid)
    && a.phase == b.phase && a.phase in {Armed, Pouring, Settling} && a.pulses == b.pulses
    && a.armedMs == Wrap(b.armedMs)
    && (if a.phase == Armed then b.startedMs.None? && SameTime(a.armDeadlineMs, b.armDeadlineMs)
        else SameTime(a.startedMs, b.startedMs) && SameTime(a.lastPulseMs, b.lastPulseMs))
    && (a.phase == Settling ==> SameTime(a.settleDeadlineMs, b.settleDeadlineMs))
  }

  /** Results agree in everything but the fault text, where a cancelled event is
      "cancelled" on the board and "none" in the host model. */
  predicate SameResult(r: Outcome, s: TwinResult) {
    && r.sequence == s.sequence && r.attributed == s.attributed && SameSid(r.sid, r.attributed, s.sid)
    && r.status == s.status && r.pulses == s.pulses && r.lifetime == s.lifetime
    && r.startedMs == Wrap(s.startedMs) && r.endedMs == Wrap(s.endedMs)
    && s.fault == "none" && r.fault == (if r.status == Interrupted then "cancelled" else "none")
  }

  predicate SameResults(rs: seq<Outcome>, ss: seq<TwinResult>) {
    |rs| == |ss| && forall i :: 0 <= i < |rs| ==> SameResult(rs[i], ss[i])
  }

  ghost predicate Simulates(m: Machine, t: TwinMachine) {
    && m.lifetime == t.lifetime && m.recovery == t.recovery && m.nextSequence == t.nextSequence
    && m.active.Some? == t.active.Some?
    && (m.active.Some? ==> SameActive(m.active.value, t.active.value))
    && SameResults(m.results, t.results)
  }

  /** The open event's next deadline is still ahead, by less than half the clock. */
  predicate Timely(cfg: Config, t: TwinMachine, now: nat) {
    t.active.Some? ==>
      var a := t.active.value;
      match a.phase
      case Armed => a.armDeadlineMs.Some? && now < a.armDeadlineMs.value < now + TWO_31
      case Pouring => a.lastPulseMs.Some? && a.lastPulseMs.value <= now < a.lastPulseMs.value + cfg.flowGapMs
      case Settling => a.settleDeadlineMs.Some? && now < a.settleDeadlineMs.value <= now + cfg.settlingMs
      case _ => false
  }

  /** How the host model performs each machine call. */
  function TwinApply(c: TwinConfig, t: TwinMachine, op: Op): TwinReply {
    match op
    case OpArm(sid, sequence, at, ttl) => TwinArm(c, t, sid, sequence, at, ttl)
    case OpCancel(sid, sequence, at) => TwinCancel(c, t, sid, sequence, at)
    case OpPulses(count, at) => TwinPulse(c, t, count, at)
    case OpBatch(count, first, at) =>
      if count <= 1 then TwinPulse(c, t, count, first)
      else TwinPulse(c, TwinPulse(c, t, 1, first).t, count - 1, at)
    case OpTick(at) => TwinTick(c, t, at)
    case OpMarkSaturated(at) => TwinReply(t, Fine, false)
    case OpAck(sequence) => TwinAcknowledge(t, sequence)
  }

  /** The clock after a call; an acknowledgement and an empty pulse count have no time. */
  function EndTime(op: Op, now: nat): nat {
    match op
    case OpBatch(count, first, at) => if count == 0 then now else if count == 1 then first else at
    case OpPulses(count, at) => if count == 0 then now else at
    case OpAck(_) => now
    case _ => op.at
  }

  /** Calls come in time order, less than 2^31 ms apart, with usable arguments. */
  predicate Admissible(op: Op, now: nat) {
    match op
    case OpArm(sid, _, at, ttl) => ValidSid(sid) && 0 < ttl < TWO_31 && now <= at < now + TWO_31
    case OpCancel(sid, _, at) => sid != "" && now <= at < now + TWO_31
    case OpBatch(count, first, at) => now <= first < now + TWO_31 && first <= at < first + TWO_31
    case OpMarkSaturated(_) => false
    case OpAck(_) => true
    case _ => now <= op.at < now + TWO_31
  }

  /** No counter clamps and sequence numbers remain. */
  predicate Fits(cfg: Config, m: Machine, op: Op) {
    !Clamps(cfg, m, op) && m.nextSequence < UINT32_MAX
  }

  // ---- clock arithmetic ----

  lemma WrapAdd(x: nat, y: nat)
    ensures Wrap(Wrap(x) + y) == Wrap(x + y)
  {
    assert x == TWO_32 * (x / TWO_32) + Wrap(x);
    ModShift(Wrap(x) + y, x / TWO_32);
  }

  lemma ModShift(x: int, k: int)
    ensures Wrap(x + TWO_32 * k) == Wrap(x)
  {
  }

  /** Comparing truncated times is comparing the times, within half the clock. */
  lemma DueIsUnbounded(now: nat, deadline: nat)
    requires -TWO_31 < now - deadline < TWO_31
    ensures Due(Wrap(now), Wrap(deadline)) <==> now >= deadline
    ensures After(Wrap(now), Wrap(deadline)) <==> now > deadline
  {
    var d := now - deadline;
    assert Wrap(now) - Wrap(deadline) == d + TWO_32 * (deadline / TWO_32 - now / TWO_32);
    ModShift(d, deadline / TWO_32 - now / TWO_32);
  }

  // ---- one lemma per internal step ----

  lemma KeyIndexMatches(rs: seq<Outcome>, ss: seq<TwinResult>, sequence: U32)
    requires SameResults(rs, ss)
    ensures IndexOf(rs, sequence) == KeyIndex(ss, sequence)
  {
    var i, j := IndexOf(rs, sequence), KeyIndex(ss, sequence);
    assert i < |rs| ==> SameResult(rs[i], ss[i]);
    assert j < |ss| ==> SameResult(rs[j], ss[j]);
  }

  lemma CloseMatches(m: Machine, t: TwinMachine, status: DeviceState, ended: nat, fault: string)
    requires Inv(m) && Simulates(m, t) && m.active.Some?
    requires status in {Complete, TimedOut, Interrupted}
    requires fault == if status == Interrupted then "cancelled" else "none"
    ensures Simulates(Finalize(m, status, Wrap(ended), fault).m, Close(t, status, ended, "none"))
  {
    KeyIndexMatches(m.results, t.results, m.active.value.sequence);
    var i := IndexOf(m.results, m.active.value.sequence);
    assert i < |m.results| ==> InStore(m.results[i], Frontier(m), m.lifetime);
  }

  ghost predicate TickAgrees(cfg: Config, m: Machine, t: TwinMachine, at: nat) {
    && Simulates(Tick(cfg, m, Wrap(at)).m, TwinTick(HostConfig(cfg), t, at).t)
    && Timely(cfg, TwinTick(HostConfig(cfg), t, at).t, at)
  }

  lemma ArmedTickMatches(cfg: Config, m: Machine, t: TwinMachine, now: nat, at: nat)
    requires Inv(m) && Simulates(m, t) && Timely(cfg, t, now)
    requires now <= at < now + TWO_31
    requires m.active.Some? && m.active.value.phase == Armed
    ensures TickAgrees(cfg, m, t, at)
  {
    hide SameResults, Store, Inv, Due, After;
    var b := t.active.value;
    DueIsUnbounded(at, b.armDeadlineMs.value);
    var u := t.(lastNowMs := Max(t.lastNowMs, at));
    assert Simulates(m, u);
    CloseMatches(m, u, TimedOut, b.armDeadlineMs.value, "none");
  }

  lemma PouringTickMatches(cfg: Config, m: Machine, t: TwinMachine, now: nat, at: nat)
    requires Timers(cfg) && Inv(m) && Simulates(m, t) && Timely(cfg, t, now)
    requires now <= at < now + TWO_31
    requires m.active.Some? && m.active.value.phase == Pouring
    ensures TickAgrees(cfg, m, t, at)
  {
    hide SameResults, Store, Inv, Due, After, Finalize, Put, Wrap;
    var last := t.active.value.lastPulseMs.value;
    var gapAt := last + cfg.flowGapMs;
    WrapAdd(last, cfg.flowGapMs);
    WrapAdd(gapAt, cfg.settlingMs);
    DueIsUnbounded(at, gapAt);
    if at >= gapAt {
      SettledMatches(cfg, m, t, at, gapAt + cfg.settlingMs);
    }
  }

  lemma SettlingTickMatches(cfg: Config, m: Machine, t: TwinMachine, now: nat, at: nat)
    requires Timers(cfg) && Inv(m) && Simulates(m, t) && Timely(cfg, t, now)
    requires now <= at < now + TWO_31
    requires m.active.Some? && m.active.value.phase == Settling
    ensures TickAgrees(cfg, m, t, at)
  {
    hide SameResults, Store, Inv, Due, After, Wrap;
    var deadline := t.active.value.settleDeadlineMs.value;
    SettledMatches(cfg, m, t, at, deadline);
  }

  lemma TickMatches(cfg: Config, m: Machine, t: TwinMachine, now: nat, at: nat)
    requires Timers(cfg) && Inv(m) && Simulates(m, t) && Timely(cfg, t, now)
    requires now <= at < now + TWO_31
    ensures TickAgrees(cfg, m, t, at)
  {
    if m.active.Some? {
      hide SameResults, Inv, Tick, TwinTick;
      match m.active.value.phase
      case Armed => ArmedTickMatches(cfg, m, t, now, at);
      case Pouring => PouringTickMatches(cfg, m, t, now, at);
      case Settling => SettlingTickMatches(cfg, m, t, now, at);
    }
  }

  lemma SettledMatches(cfg: Config, m: Machine, t: TwinMachine, at: nat, deadline: nat)
    requires Inv(m) && Simulates(m, t) && m.active.Some? && m.active.value.phase in {Pouring, Settling}
    requires -TWO_31 < at - deadline < TWO_31
    ensures var s := m.(active := Some(m.active.value.(phase := Settling, settleDeadlineMs := Wrap(deadline))), state := Settling);
            var u := t.(active := Some(t.active.value.(phase := Settling, settleDeadlineMs := Some(deadline))),
                        state := Settling, lastNowMs := Max(t.lastNowMs, at));
            && (Due(Wrap(at), Wrap(deadline)) <==> at >= deadline)
            && Simulates(s, u)
            && Simulates(Finalize(s, Complete, Wrap(deadline), "none").m, Close(u, Complete, deadline, "none"))
  {
    var s := m.(active := Some(m.active.value.(phase := Settling, settleDeadlineMs := Wrap(deadline))), state := Settling);
    var u := t.(active := Some(t.active.value.(phase := Settling, settleDeadlineMs := Some(deadline))),
                state := Settling, lastNowMs := Max(t.lastNowMs, at));
    DueIsUnbounded(at, deadline);
    assert Inv(s) && Simulates(s, u);
    CloseMatches(s, u, Complete, deadline, "none");
  }

  // ---- one lemma per call ----

  ghost predicate Agrees(cfg: Config, m: Machine, t: TwinMachine, now: nat) {
    Inv(m) && Simulates(m, t) && Timely(cfg, t, now)
  }

  /** The two sides report the same thing to whoever asked. */
  predicate SameReply(e: MachineError, r: Raised) {
    && (e == NoError <==> r == Fine)
    && (e == Busy <==> r == BusyConflict)
    && (e == Stale <==> r == StaleConflict)
  }

  lemma KnownMatches(rs: seq<Outcome>, ss: seq<TwinResult>, bound: int, lifetime: int, sid: string, sequence: U32)
    requires SameResults(rs, ss) && Store(rs, bound, lifetime) && sid != ""
    ensures var i := KeyIndex(ss, sequence);
            Known(rs, sid, sequence) <==> i < |ss| && ss[i].sid == Some(sid)
  {
    hide GoodOutcome, PulseSum;
    KeyIndexMatches(rs, ss, sequence);
    var i := KeyIndex(ss, sequence);
    if i < |ss| {
      assert SameResult(rs[i], ss[i]);
    }
  }

  lemma ArmMatches(cfg: Config, m: Machine, t: TwinMachine, now: nat, op: Op)
    requires Timers(cfg) && Agrees(cfg, m, t, now) && op.OpArm? && Admissible(op, now) && Fits(cfg, m, op)
    ensures var r := Apply(cfg, m, op);
            var s := TwinApply(HostConfig(cfg), t, op);
            Agrees(cfg, r.m, s.t, op.at) && SameReply(r.error, s.raised) && r.flag == s.flag
  {
    hide Tick, TwinTick, SameResults, Store, Due, Held, Known, PulseSum, GoodOutcome;
    TickMatches(cfg, m, t, now, op.at);
    TickKeeps(cfg, m, Wrap(op.at));
    ArmKeeps(cfg, m, op.sid, op.sequence, Wrap(op.at), op.ttl);
    var n, u := Tick(cfg, m, Wrap(op.at)).m, TwinTick(HostConfig(cfg), t, op.at).t;
    KnownMatches(n.results, u.results, Frontier(n), n.lifetime, op.sid, op.sequence);
    SameLength(n.results, u.results);
    WrapAdd(op.at, op.ttl);
  }

  lemma SameLength(rs: seq<Outcome>, ss: seq<TwinResult>)
    requires SameResults(rs, ss)
    ensures |rs| == |ss|
  {
  }

  lemma CancelMatches(cfg: Config, m: Machine, t: TwinMachine, now: nat, op: Op)
    requires Timers(cfg) && Agrees(cfg, m, t, now) && op.OpCancel? && Admissible(op, now)
    ensures var r := Apply(cfg, m, op);
            var s := TwinApply(HostConfig(cfg), t, op);
            Agrees(cfg, r.m, s.t, op.at) && SameReply(r.error, s.raised) && r.flag == s.flag
  {
    hide Tick, TwinTick, SameResults, Store, Due, Held, Known, PulseSum, GoodOutcome, Put;
    TickMatches(cfg, m, t, now, op.at);
    TickKeeps(cfg, m, Wrap(op.at));
    CancelKeeps(cfg, m, op.sid, op.sequence, Wrap(op.at));
    var n, u := Tick(cfg, m, Wrap(op.at)).m, TwinTick(HostConfig(cfg), t, op.at).t;
    KnownMatches(n.results, u.results, Frontier(n), n.lifetime, op.sid, op.sequence);
    if n.active.Some? {
      CloseMatches(n, u, Interrupted, op.at, "cancelled");
      FinalizeKeeps(n, Interrupted, Wrap(op.at), "cancelled");
    }
  }

  lemma AdvanceMatches(cfg: Config, m: Machine, t: TwinMachine, now: nat, at: nat)
    requires Timers(cfg) && Agrees(cfg, m, t, now) && now <= at < now + TWO_31
    ensures var n := AdvanceTo(cfg, m, Wrap(at)).m;
            var u := TwinAdvanceTo(HostConfig(cfg), t, at);
            Inv(n) && Simulates(n, u)
  {
    hide Tick, TwinTick, SameResults, Due, After, Inv;
    TickMatches(cfg, m, t, now, at);
    TickKeeps(cfg, m, Wrap(at));
    if m.active.Some? && m.active.value.phase == Armed {
      DueIsUnbounded(at, t.active.value.armDeadlineMs.value);
    } else if m.active.Some? && m.active.value.phase == Settling {
      DueIsUnbounded(at, t.active.value.settleDeadlineMs.value);
    }
  }

  lemma CountedMatches(cfg: Config, n: Machine, u: TwinMachine, count: U32, at: nat)
    requires Timers(cfg) && Simulates(n, u) && 0 < count && n.recovery + count <= UINT64_MAX
    requires n.active.None? ==> n.nextSequence < UINT32_MAX
    requires n.active.Some? ==> n.active.value.pulses + count <= MAX_RESULT_PULSES
    ensures var m := if n.active.None? then OpenUnattributed(n, count, Wrap(at)).m else JoinActive(n, count, Wrap(at)).m;
            var t := if u.active.None? then TwinOpen(HostConfig(cfg), u, count, at).t else TwinJoin(u, count, at).t;
            Simulates(m, t) && Timely(cfg, t, at)
  {
    hide SameResults, Wrap, Finalize, Close;
    SameLength(n.results, u.results);
  }

  /** A sequence number is left, or the flowing event needs none. */
  predicate Numbered(m: Machine) {
    m.nextSequence < UINT32_MAX || (m.active.Some? && m.active.value.phase == Pouring)
  }

  lemma PulseMatches(cfg: Config, m: Machine, t: TwinMachine, now: nat, count: U32, at: nat)
    requires Timers(cfg) && Agrees(cfg, m, t, now) && now <= at < now + TWO_31
    requires Held(m) <= m.lifetime && !PulsesClamp(cfg, m, count, Wrap(at)) && Numbered(m)
    ensures var n := AddPulses(cfg, m, count, Wrap(at)).m;
            var u := TwinPulse(HostConfig(cfg), t, count, at).t;
            if count == 0 then n == m && u == t else Agrees(cfg, n, u, at)
  {
    hide AdvanceTo, TwinAdvanceTo, SameResults, Due, After, Held, OpenUnattributed, JoinActive, TwinOpen, TwinJoin, Inv, Timely, Wrap, Finalize, Close;
    AdvanceMatches(cfg, m, t, now, at);
    AdvanceKeeps(cfg, m, Wrap(at));
    AddPulsesKeeps(cfg, m, count, Wrap(at));
    if count > 0 {
      var n, u := AdvanceTo(cfg, m, Wrap(at)).m, TwinAdvanceTo(HostConfig(cfg), t, at);
      RecoveryBelowLifetime(n);
      AdvanceNumbered(cfg, m, Wrap(at));
      var i := if u.active.None? && Terminal(u.state) then u.(state := Idle) else u;
      CountedMatches(cfg, n.(lifetime := n.lifetime + count),
                     i.(lifetime := i.lifetime + count, lastNowMs := Max(i.lastNowMs, at)), count, at);
    }
  }

  lemma AdvanceNumbered(cfg: Config, m: Machine, captured: U32)
    requires Inv(m) && Numbered(m)
    ensures var n := AdvanceTo(cfg, m, captured).m; n.active.None? ==> n.nextSequence < UINT32_MAX
  {
    hide Tick, Inv, Keeps, Held;
    AdvanceKeeps(cfg, m, captured);
  }

  lemma RecoveryBelowLifetime(m: Machine)
    ensures m.recovery <= Held(m)
  {
  }

  lemma AcknowledgeMatches(cfg: Config, m: Machine, t: TwinMachine, now: nat, sequence: U32)
    requires Agrees(cfg, m, t, now)
    ensures var r := Acknowledge(m, sequence);
            var s := TwinAcknowledge(t, sequence);
            Agrees(cfg, r.m, s.t, now) && SameReply(r.error, s.raised) && r.flag == s.flag
  {
    hide SameResults, Inv, Held, PulseSum, Removed;
    KeyIndexMatches(m.results, t.results, sequence);
    SameLength(m.results, t.results);
    AcknowledgeKeeps(m, sequence);
    var i := IndexOf(m.results, sequence);
    if i < |m.results| {
      RemoveMatches(m.results, t.results, i);
    }
  }

  lemma RemoveMatches(rs: seq<Outcome>, ss: seq<TwinResult>, i: nat)
    requires SameResults(rs, ss) && i < |rs|
    ensures SameResults(rs[..i] + rs[i + 1..], ss[..i] + ss[i + 1..])
  {
  }

  lemma BatchMatches(cfg: Config, m: Machine, t: TwinMachine, now: nat, count: U32, first: nat, at: nat)
    requires Timers(cfg) && Agrees(cfg, m, t, now) && Held(m) <= m.lifetime
    requires now <= first < now + TWO_31 && first <= at < first + TWO_31
    requires !BatchClamps(cfg, m, count, Wrap(first), Wrap(at)) && m.nextSequence < UINT32_MAX
    ensures var op := OpBatch(count, first, at);
            var n := AddPulseBatch(cfg, m, count, Wrap(first), Wrap(at)).m;
            var u := TwinApply(HostConfig(cfg), t, op).t;
            if count == 0 then n == m && u == t else Agrees(cfg, n, u, EndTime(op, now))
  {
    hide Agrees, Held, AdvanceTo, AddPulses, TwinPulse;
    if count <= 1 {
      PulseMatches(cfg, m, t, now, count, first);
    } else {
      PulseMatches(cfg, m, t, now, 1, first);
      FirstEdge(cfg, m, Wrap(first));
      AgreesInv(cfg, m, t, now);
      AddPulsesKeeps(cfg, m, 1, Wrap(first));
      PulseMatches(cfg, AddPulses(cfg, m, 1, Wrap(first)).m, TwinPulse(HostConfig(cfg), t, 1, first).t, first, count - 1, at);
    }
  }

  lemma AgreesInv(cfg: Config, m: Machine, t: TwinMachine, now: nat)
    requires Agrees(cfg, m, t, now)
    ensures Inv(m)
  {
  }

  lemma FirstEdge(cfg: Config, m: Machine, first: U32)
    requires !PulsesClamp(cfg, m, 1, first) && m.nextSequence < UINT32_MAX
    ensures Numbered(AddPulses(cfg, m, 1, first).m)
  {
    hide Due, After, Wrap;
  }

  lemma StepMatches(cfg: Config, m: Machine, t: TwinMachine, now: nat, op: Op)
    requires Timers(cfg) && Agrees(cfg, m, t, now) && Held(m) <= m.lifetime
    requires Admissible(op, now) && Fits(cfg, m, op)
    ensures var r := Apply(cfg, m, op);
            var s := TwinApply(HostConfig(cfg), t, op);
            && Agrees(cfg, r.m, s.t, EndTime(op, now))
            && (op.OpArm? || op.OpCancel? || op.OpAck? ==> SameReply(r.error, s.raised) && r.flag == s.flag)
  {
    hide Held, PulsesClamp, BatchClamps, Arm, Cancel, Tick, AddPulses, AddPulseBatch, Acknowledge,
      TwinArm, TwinCancel, TwinTick, TwinPulse, TwinAcknowledge, Simulates, Timely, Inv;
    match op {
      case OpArm(_, _, _, _) => ArmMatches(cfg, m, t, now, op);
      case OpCancel(_, _, _) => CancelMatches(cfg, m, t, now, op);
      case OpPulses(count, at) => PulseMatches(cfg, m, t, now, count, at);
      case OpBatch(count, first, at) => BatchMatches(cfg, m, t, now, count, first, at);
      case OpTick(at) =>
        TickMatches(cfg, m, t, now, at);
        TickKeeps(cfg, m, Wrap(at));
      case OpAck(sequence) => AcknowledgeMatches(cfg, m, t, now, sequence);
    }
  }

  /** Every call of a run is admissible when it comes and fits the counters. */
  ghost predicate Usable(cfg: Config, m: Machine, now: nat, ops: seq<Op>)
    decreases |ops|
  {
    ops == [] || (Admissible(ops[0], now) && Fits(cfg, m, ops[0])
                  && Usable(cfg, Apply(cfg, m, ops[0]).m, EndTime(ops[0], now), ops[1..]))
  }

  function TwinRun(c: TwinConfig, t: TwinMachine, ops: seq<Op>): TwinMachine
    decreases |ops|
  {
    if ops == [] then t else TwinRun(c, TwinApply(c, t, ops[0]).t, ops[1..])
  }

  function Clock(now: nat, ops: seq<Op>): nat
    decreases |ops|
  {
    if ops == [] then now else Clock(EndTime(ops[0], now), ops[1..])
  }

  /** Wraparound refinement: on every usable run the board, which sees only
      32-bit times, stays in step with the unbounded-time model: same open
      event, same results in order, same counters and sequence, every
      timestamp equal modulo 2^32, over any number of rollovers. */
  lemma {:induction false} RunMatches(cfg: Config, m: Machine, t: TwinMachine, now: nat, ops: seq<Op>)
    requires Timers(cfg) && Agrees(cfg, m, t, now) && Held(m) <= m.lifetime && Usable(cfg, m, now, ops)
    ensures Agrees(cfg, Run(cfg, m, ops), TwinRun(HostConfig(cfg), t, ops), Clock(now, ops))
    decreases |ops|
  {
    hide Agrees, Held, Admissible, Fits, Apply, TwinApply;
    if ops != [] {
      StepMatches(cfg, m, t, now, ops[0]);
      AgreesInv(cfg, m, t, now);
      StepConsistent(cfg, m, ops[0]);
      RunMatches(cfg, Apply(cfg, m, ops[0]).m, TwinApply(HostConfig(cfg), t, ops[0]).t, EndTime(ops[0], now), ops[1..]);
    }
  }

  lemma PowerOnAgrees(cfg: Config, now: nat)
    ensures Agrees(cfg, FRESH, NEW_TWIN, now) && Held(FRESH) <= FRESH.lifetime
  {
  }

  /** From power-on, where both sides start in step. */
  lemma PowerOnMatches(cfg: Config, now: nat, ops: seq<Op>)
    requires Timers(cfg) && Usable(cfg, FRESH, now, ops)
    ensures Simulates(Run(cfg, FRESH, ops), TwinRun(HostConfig(cfg), NEW_TWIN, ops))
  {
    hide Run, TwinRun, Usable, Clock, SameResults;
    PowerOnAgrees(cfg, now);
    RunMatches(cfg, FRESH, NEW_TWIN, now, ops);
  }
}
