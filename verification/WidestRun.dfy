/** A run from power-on that ends with the widest frames: every sequence number
    used, every counter at its limit. */
module WidestRun {
  import opened Common
  import opened Firmware
  import opened Wire
  import Refinement

  /** All calls of the run happen at one time, the last one before the clock wraps. */
  const AT: nat := UINT32_MAX

  const SID: string := "00000000000000000000000000000000"

  function Quiet(next: U32, lifetime: U64, state: DeviceState): Machine {
    Machine(0, "none", lifetime, state, next, None, [])
  }

  lemma {:induction false} RunAppend(cfg: Config, m: Machine, a: seq<Op>, b: seq<Op>)
    ensures Run(cfg, m, a + b) == Run(cfg, Run(cfg, m, a), b)
    decreases |a|
  {
    hide Apply;
    if a == [] {
      assert a + b == b;
    } else {
      assert (a + b)[1..] == a[1..] + b;
      RunAppend(cfg, Apply(cfg, m, a[0]).m, a[1..], b);
    }
  }

  lemma RunOne(cfg: Config, m: Machine, op: Op)
    ensures Run(cfg, m, [op]) == Apply(cfg, m, op).m
  {
    hide Apply;
    assert [op][1..] == [];
    assert Run(cfg, Apply(cfg, m, op).m, [op][1..]) == Apply(cfg, m, op).m;
  }

  /** One armed and cancelled session uses up a sequence number. */
  function Burn(next: U32): seq<Op> {
    [OpArm(SID, next, AT, 1)] + [OpCancel(SID, next, AT)]
  }

  function BurnUpTo(next: nat, limit: U32): seq<Op>
    requires 1 <= next <= limit
    decreases limit - next
  {
    if next == limit then [] else Burn(next) + BurnUpTo(next + 1, limit)
  }

  function Opened(next: U32, lifetime: U64): Machine
    requires next < UINT32_MAX
  {
    Machine(0, "none", lifetime, Armed, next + 1,
            Some(Active(next, SID, true, Armed, 0, UINT32_MAX, 0, 0, 0, 0)), [])
  }

  function Flowing(next: U32, lifetime: U64, pulses: U64): Machine
    requires next < UINT32_MAX
  {
    Machine(0, "none", lifetime, Pouring, next + 1,
            Some(Active(next, SID, true, Pouring, pulses, UINT32_MAX, UINT32_MAX, UINT32_MAX, 0, 0)), [])
  }

  lemma ArmOpens(cfg: Config, next: U32, lifetime: U64, state: DeviceState)
    requires next < UINT32_MAX
    ensures Apply(cfg, Quiet(next, lifetime, state), OpArm(SID, next, AT, 1)).m == Opened(next, lifetime)
  {
  }

  lemma CancelBurns(cfg: Config, next: U32, lifetime: U64)
    requires next < UINT32_MAX
    ensures Apply(cfg, Opened(next, lifetime), OpCancel(SID, next, AT)).m == Quiet(next + 1, lifetime, Idle)
  {
  }

  lemma {:induction false} Burned(cfg: Config, next: nat, limit: U32)
    requires 1 <= next <= limit < UINT32_MAX
    ensures Run(cfg, Quiet(next, 0, Idle), BurnUpTo(next, limit)) == Quiet(limit, 0, Idle)
    decreases limit - next
  {
    hide Run, Apply;
    if next == limit {
      NothingRuns(cfg, Quiet(next, 0, Idle));
    } else {
      ArmOpens(cfg, next, 0, Idle);
      CancelBurns(cfg, next, 0);
      var (arm, cancel) := (OpArm(SID, next, AT, 1), OpCancel(SID, next, AT));
      RunOne(cfg, Quiet(next, 0, Idle), arm);
      RunOne(cfg, Opened(next, 0), cancel);
      RunAppend(cfg, Quiet(next, 0, Idle), [arm], [cancel]);
      RunAppend(cfg, Quiet(next, 0, Idle), Burn(next), BurnUpTo(next + 1, limit));
      Burned(cfg, next + 1, limit);
    }
  }

  lemma NothingRuns(cfg: Config, m: Machine)
    ensures Run(cfg, m, []) == m
  {
  }

  /** As many full batches as it takes. */
  function Pump(total: nat): seq<Op>
    decreases total
  {
    if total == 0 then []
    else if total <= UINT32_MAX then [OpPulses(total, AT)]
    else [OpPulses(UINT32_MAX, AT)] + Pump(total - UINT32_MAX)
  }

  lemma FirstPulses(cfg: Config, next: U32, lifetime: U64, count: U32)
    requires next < UINT32_MAX && 0 < count && lifetime + count <= UINT64_MAX
    ensures Apply(cfg, Opened(next, lifetime), OpPulses(count, AT)).m == Flowing(next, lifetime + count, count)
  {
  }

  lemma MorePulses(cfg: Config, next: U32, lifetime: U64, pulses: U64, count: U32)
    requires next < UINT32_MAX && 0 < count && lifetime + count <= UINT64_MAX && pulses + count <= MAX_RESULT_PULSES
    ensures Apply(cfg, Flowing(next, lifetime, pulses), OpPulses(count, AT)).m == Flowing(next, lifetime + count, pulses + count)
  {
  }

  lemma {:induction false} Pumped(cfg: Config, next: U32, lifetime: nat, pulses: nat, total: nat)
    requires next < UINT32_MAX && lifetime + total <= UINT64_MAX && pulses + total <= MAX_RESULT_PULSES
    ensures Run(cfg, Flowing(next, lifetime, pulses), Pump(total)) == Flowing(next, lifetime + total, pulses + total)
    decreases total
  {
    hide Run, Apply, Flowing;
    var m := Flowing(next, lifetime, pulses);
    if total == 0 {
      NothingRuns(cfg, m);
    } else if total <= UINT32_MAX {
      MorePulses(cfg, next, lifetime, pulses, total);
      RunOne(cfg, m, OpPulses(total, AT));
    } else {
      MorePulses(cfg, next, lifetime, pulses, UINT32_MAX);
      RunOne(cfg, m, OpPulses(UINT32_MAX, AT));
      RunAppend(cfg, m, [OpPulses(UINT32_MAX, AT)], Pump(total - UINT32_MAX));
      Pumped(cfg, next, lifetime + UINT32_MAX, pulses + UINT32_MAX, total - UINT32_MAX);
    }
  }

  /** An armed session that takes `total` pulses. */
  function Fill(next: U32, total: nat): seq<Op>
    requires 0 < total
  {
    [OpArm(SID, next, AT, 1)] + [OpPulses(1, AT)] + Pump(total - 1)
  }

  lemma Filled(cfg: Config, next: U32, lifetime: nat, state: DeviceState, total: nat)
    requires next < UINT32_MAX && 0 < total <= MAX_RESULT_PULSES && lifetime + total <= UINT64_MAX
    ensures Run(cfg, Quiet(next, lifetime, state), Fill(next, total)) == Flowing(next, lifetime + total, total)
  {
    hide Run, Apply, Flowing, Opened, Pump;
    var m := Quiet(next, lifetime, state);
    var (arm, one) := (OpArm(SID, next, AT, 1), OpPulses(1, AT));
    ArmOpens(cfg, next, lifetime, state);
    FirstPulses(cfg, next, lifetime, 1);
    RunOne(cfg, m, arm);
    RunOne(cfg, Opened(next, lifetime), one);
    RunAppend(cfg, m, [arm], [one]);
    RunAppend(cfg, m, [arm] + [one], Pump(total - 1));
    Pumped(cfg, next, lifetime + 1, 1, total - 1);
  }

  lemma CancelCloses(cfg: Config, next: U32, lifetime: U64, pulses: U64) returns (closed: Outcome)
    requires Refinement.Timers(cfg) && next < UINT32_MAX && 0 < pulses <= MAX_RESULT_PULSES
    ensures closed.sequence == next
    ensures Apply(cfg, Flowing(next, lifetime, pulses), OpCancel(SID, next, AT)).m
            == Machine(0, "none", lifetime, Interrupted, next + 1, None, [closed])
  {
    var m := Flowing(next, lifetime, pulses);
    closed := ClosedEvent(m.active.value, lifetime, Interrupted, UINT32_MAX, "cancelled");
    assert Tick(cfg, m, UINT32_MAX).m == m;
    hide Tick, ClosedEvent, ValidSid;
    assert m.results + [closed] == [closed];
  }

  lemma AckEmpties(cfg: Config, next: U32, after: U32, lifetime: U64, closed: Outcome)
    requires closed.sequence == next
    ensures Apply(cfg, Machine(0, "none", lifetime, Interrupted, after, None, [closed]), OpAck(next)).m == Quiet(after, lifetime, Idle)
  {
    var rs := [closed];
    assert IndexOf(rs, next) == 0;
    assert rs[..0] + rs[1..] == [];
  }

  /** Closing it by a cancel and acknowledging the result leaves only its pulses in the lifetime counter. */
  lemma Discarded(cfg: Config, next: U32, lifetime: U64, pulses: U64)
    requires Refinement.Timers(cfg) && next < UINT32_MAX && 0 < pulses <= MAX_RESULT_PULSES
    ensures var closed := Apply(cfg, Flowing(next, lifetime, pulses), OpCancel(SID, next, AT)).m;
            Apply(cfg, closed, OpAck(next)).m == Quiet(next + 1, lifetime, Idle)
  {
    hide *;
    var closed := CancelCloses(cfg, next, lifetime, pulses);
    AckEmpties(cfg, next, next + 1, lifetime, closed);
  }

  const BEFORE_LAST: nat := UINT32_MAX - 2

  /** Use up the numbers, spend half of the lifetime counter on a result that is
      acknowledged, and overfill the last session by one pulse. */
  function WidestOps(): seq<Op> {
    BurnUpTo(1, BEFORE_LAST)
    + (Fill(BEFORE_LAST, INT64_MAX) + [OpCancel(SID, BEFORE_LAST, AT)] + [OpAck(BEFORE_LAST)])
    + (Fill(UINT32_MAX - 1, INT64_MAX) + [OpPulses(1, AT)])
  }

  lemma Overfilled(cfg: Config)
    ensures Apply(cfg, Flowing(UINT32_MAX - 1, INT64_MAX + INT64_MAX, INT64_MAX), OpPulses(1, AT)).m == WIDEST
  {
  }

  lemma FreshIsQuiet()
    ensures FRESH == Quiet(1, 0, Idle)
  {
  }

  lemma SpendRuns(cfg: Config)
    requires Refinement.Timers(cfg)
    ensures Run(cfg, Quiet(BEFORE_LAST, 0, Idle), Fill(BEFORE_LAST, INT64_MAX) + [OpCancel(SID, BEFORE_LAST, AT)] + [OpAck(BEFORE_LAST)])
            == Quiet(UINT32_MAX - 1, INT64_MAX, Idle)
  {
    hide Run, Apply, Fill, Flowing, Quiet;
    var m := Quiet(BEFORE_LAST, 0, Idle);
    var (fill, cancel, ack) := (Fill(BEFORE_LAST, INT64_MAX), OpCancel(SID, BEFORE_LAST, AT), OpAck(BEFORE_LAST));
    Filled(cfg, BEFORE_LAST, 0, Idle, INT64_MAX);
    var full := Flowing(BEFORE_LAST, INT64_MAX, INT64_MAX);
    Discarded(cfg, BEFORE_LAST, INT64_MAX, INT64_MAX);
    RunOne(cfg, full, cancel);
    RunOne(cfg, Apply(cfg, full, cancel).m, ack);
    RunAppend(cfg, m, fill, [cancel]);
    RunAppend(cfg, m, fill + [cancel], [ack]);
  }

  /** The run reaches the widest state under any timers a board can have. */
  lemma WidestReached(cfg: Config)
    requires Refinement.Timers(cfg)
    ensures Run(cfg, FRESH, WidestOps()) == WIDEST
  {
    hide Run, Apply, Fill, Flowing, Quiet, BurnUpTo;
    var (burn, fill, over) := (BurnUpTo(1, BEFORE_LAST), Fill(UINT32_MAX - 1, INT64_MAX), [OpPulses(1, AT)]);
    var spend := Fill(BEFORE_LAST, INT64_MAX) + [OpCancel(SID, BEFORE_LAST, AT)] + [OpAck(BEFORE_LAST)];
    FreshIsQuiet();
    Burned(cfg, 1, BEFORE_LAST);
    SpendRuns(cfg);
    Filled(cfg, UINT32_MAX - 1, INT64_MAX, Idle, INT64_MAX);
    Overfilled(cfg);
    RunOne(cfg, Flowing(UINT32_MAX - 1, INT64_MAX + INT64_MAX, INT64_MAX), OpPulses(1, AT));
    RunAppend(cfg, FRESH, burn, spend);
    RunAppend(cfg, Quiet(UINT32_MAX - 1, INT64_MAX, Idle), fill, over);
    RunAppend(cfg, FRESH, burn + spend, fill + over);
  }
}
