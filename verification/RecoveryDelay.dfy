/** How soon after power-up a board can have anything in its recovery counter. */
module RecoveryDelay {
  import opened Common
  import opened Firmware
  import opened Conservation
  import opened Refinement

  /** The shortest time from a last pulse to its result. */
  function Pour(cfg: Config): nat {
    cfg.flowGapMs + cfg.settlingMs
  }

  /** Timers short enough for five pours in half the clock; the shipped ones take 2.25 s a pour. */
  predicate ShortTimers(cfg: Config) {
    Timers(cfg) && 5 * Pour(cfg) < TWO_31
  }

  /** Calls a board makes with no command from the host but acknowledgements, in time order. */
  predicate Alone(op: Op, now: nat) {
    match op
    case OpPulses(_, at) => now <= at
    case OpBatch(_, first, at) => now <= first <= at
    case OpTick(at) => now <= at
    case OpAck(_) => true
    case _ => false
  }

  predicate AllAlone(now: nat, ops: seq<Op>)
    decreases |ops|
  {
    ops == [] || (Alone(ops[0], now) && AllAlone(EndTime(ops[0], now), ops[1..]))
  }

  /** Numbers used up so far, not counting an open event's. */
  function Settled(m: Machine): int {
    Frontier(m) - 1
  }

  /** Every result took its pour's time, counted from the last pulse of the one before. */
  predicate Paced(cfg: Config, m: Machine, now: nat) {
    && m.recovery == 0 && |m.results| <= Settled(m)
    && Settled(m) * Pour(cfg) <= now
    && (m.active.Some? ==>
          var a := m.active.value;
          && a.phase in {Pouring, Settling}
          && Settled(m) * Pour(cfg) <= a.lastPulseMs <= now
          && (a.phase == Settling ==> a.settleDeadlineMs == a.lastPulseMs + Pour(cfg)))
  }

  lemma Fewer(n: int, pour: nat, now: nat)
    requires n * pour <= now < 4 * pour
    ensures n < 4
  {
  }

  lemma OneMore(n: int, pour: nat)
    ensures (n + 1) * pour == n * pour + pour
  {
  }

  lemma DueSoon(now: nat, deadline: nat)
    requires now < TWO_31 && deadline < TWO_31
    ensures Wrap(now) == now && Wrap(deadline) == deadline
    ensures Due(now, deadline) <==> deadline <= now
    ensures After(now, deadline) <==> deadline < now
  {
  }

  lemma TickPaced(cfg: Config, m: Machine, now: nat, at: nat)
    requires ShortTimers(cfg) && Paced(cfg, m, now) && now <= at < 4 * Pour(cfg)
    ensures Paced(cfg, Tick(cfg, m, Wrap(at)).m, at)
  {
    hide Due, Wrap;
    if m.active.Some? {
      var a := m.active.value;
      Fewer(Settled(m), Pour(cfg), at);
      OneMore(Settled(m), Pour(cfg));
      DueSoon(at, a.lastPulseMs + cfg.flowGapMs);
      DueSoon(at, a.lastPulseMs + Pour(cfg));
    } else {
      DueSoon(at, at);
    }
  }

  lemma AdvancePaced(cfg: Config, m: Machine, now: nat, at: nat)
    requires ShortTimers(cfg) && Paced(cfg, m, now) && now <= at < 4 * Pour(cfg)
    ensures Paced(cfg, AdvanceTo(cfg, m, Wrap(at)).m, at)
  {
    hide Due, After, Wrap, Tick;
    TickPaced(cfg, m, now, at);
  }

  lemma PulsesPaced(cfg: Config, m: Machine, now: nat, count: U32, at: nat)
    requires ShortTimers(cfg) && Paced(cfg, m, now) && now <= at < 4 * Pour(cfg)
    requires !PulsesClamp(cfg, m, count, Wrap(at))
    ensures Paced(cfg, AddPulses(cfg, m, count, Wrap(at)).m, if count == 0 then now else at)
  {
    hide Due, After, Wrap, AdvanceTo;
    AdvancePaced(cfg, m, now, at);
    var n := AdvanceTo(cfg, m, Wrap(at)).m;
    Fewer(Settled(n), Pour(cfg), at);
    DueSoon(at, at);
  }

  lemma AckPaced(cfg: Config, m: Machine, now: nat, sequence: U32)
    requires Paced(cfg, m, now)
    ensures Paced(cfg, Acknowledge(m, sequence).m, now)
  {
  }

  lemma StepPaced(cfg: Config, m: Machine, now: nat, op: Op)
    requires ShortTimers(cfg) && Paced(cfg, m, now) && Alone(op, now) && EndTime(op, now) < 4 * Pour(cfg) && !Clamps(cfg, m, op)
    ensures Paced(cfg, Apply(cfg, m, op).m, EndTime(op, now))
  {
    hide Paced, Tick, AddPulses, Acknowledge, PulsesClamp, Wrap;
    match op {
      case OpPulses(count, at) => if count > 0 { PulsesPaced(cfg, m, now, count, at); } else { NoPulses(cfg, m, Wrap(at)); }
      case OpBatch(count, first, at) =>
        if count > 0 {
          PulsesPaced(cfg, m, now, 1, first);
          if count > 1 { PulsesPaced(cfg, AddPulses(cfg, m, 1, Wrap(first)).m, first, count - 1, at); }
        }
      case OpTick(at) => TickPaced(cfg, m, now, at);
      case OpAck(sequence) => AckPaced(cfg, m, now, sequence);
    }
  }

  lemma NoPulses(cfg: Config, m: Machine, at: U32)
    ensures AddPulses(cfg, m, 0, at).m == m
  {
  }

  lemma ClockForward(op: Op, now: nat)
    requires Alone(op, now)
    ensures now <= EndTime(op, now)
  {
  }

  lemma {:induction false} ClockMonotone(now: nat, ops: seq<Op>)
    requires AllAlone(now, ops)
    ensures now <= Clock(now, ops)
    decreases |ops|
  {
    if ops != [] {
      ClockForward(ops[0], now);
      ClockMonotone(EndTime(ops[0], now), ops[1..]);
    }
  }

  lemma {:induction false} RunPaced(cfg: Config, b: Books, now: nat, ops: seq<Op>)
    requires ShortTimers(cfg) && Paced(cfg, b.m, now) && AllAlone(now, ops) && Clock(now, ops) < 4 * Pour(cfg)
    requires !RecordAll(cfg, b, ops).clamped
    ensures Paced(cfg, RecordAll(cfg, b, ops).m, Clock(now, ops))
    decreases |ops|
  {
    hide Paced, Apply, Clamps, Alone;
    if ops != [] {
      var c := Record(cfg, b, ops[0]);
      ClampsLast(cfg, c, ops[1..]);
      ClockMonotone(EndTime(ops[0], now), ops[1..]);
      StepPaced(cfg, b.m, now, ops[0]);
      RunPaced(cfg, c, EndTime(ops[0], now), ops[1..]);
    }
  }

  lemma {:induction false} ClampsLast(cfg: Config, b: Books, ops: seq<Op>)
    ensures b.clamped ==> RecordAll(cfg, b, ops).clamped
    decreases |ops|
  {
    hide Apply, Clamps;
    if ops != [] {
      ClampsLast(cfg, Record(cfg, b, ops[0]), ops[1..]);
    }
  }

  /** A board left to itself needs four whole pours after power-up before its
      recovery counter can move: nine seconds with the shipped timers. */
  lemma RecoveryTakesFourPours(cfg: Config, ops: seq<Op>)
    requires ShortTimers(cfg) && AllAlone(0, ops)
    ensures var b := RecordAll(cfg, OPENING, ops);
            !b.clamped && b.m.recovery > 0 ==> 4 * Pour(cfg) <= Clock(0, ops)
  {
    hide *;
    OpeningPaced(cfg);
    if Clock(0, ops) < 4 * Pour(cfg) && !RecordAll(cfg, OPENING, ops).clamped {
      RunPaced(cfg, OPENING, 0, ops);
      PacedRecovers(cfg, RecordAll(cfg, OPENING, ops).m, Clock(0, ops));
    }
  }

  lemma OpeningPaced(cfg: Config)
    ensures Paced(cfg, OPENING.m, 0)
  {
  }

  lemma PacedRecovers(cfg: Config, m: Machine, now: nat)
    requires Paced(cfg, m, now)
    ensures m.recovery == 0
  {
  }
}
