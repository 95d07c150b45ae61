/** Where the refinement's hypotheses are needed: what the board and its
    unbounded-time model do outside them. */
module Divergence {
  import opened Common
  import opened Firmware
  import opened Twin

  /** The board's wrapping comparison, for any two times at all: a deadline
      counts as reached in every other half of the clock's period, starting with
      the half right after it. */
  lemma DueExactly(now: nat, deadline: nat)
    ensures Due(Wrap(now), Wrap(deadline)) <==> ((now - deadline) / TWO_31) % 2 == 0
  {
    var d := now - deadline;
    WrapDifference(now, deadline);
    assert Wrap(Wrap(now) - Wrap(deadline)) == Wrap(d);
    var (q, r) := (d / TWO_31, d % TWO_31);
    assert d == (q / 2) * TWO_32 + (q % 2) * TWO_31 + r;
    Remainder(q / 2, (q % 2) * TWO_31 + r);
  }

  lemma Remainder(k: int, r: int)
    requires 0 <= r < TWO_32
    ensures Wrap(k * TWO_32 + r) == r
  {
  }

  lemma WrapDifference(a: nat, b: nat)
    ensures Wrap(Wrap(a) - Wrap(b)) == Wrap(a - b)
  {
    var k := b / TWO_32 - a / TWO_32;
    assert Wrap(a) - Wrap(b) == k * TWO_32 + (a - b);
    var (q, r) := ((a - b) / TWO_32, (a - b) % TWO_32);
    assert k * TWO_32 + (a - b) == (k + q) * TWO_32 + r;
    Remainder(k + q, r);
    Remainder(q, r);
  }

  /** So an armed event times out on the board exactly in those halves, while the
      model times it out at every later tick: the two part whenever a tick comes
      an odd number of half periods late. */
  lemma LateTickParts(cfg: Config, m: Machine, deadline: nat, now: nat)
    requires m.active.Some? && m.active.value.phase == Armed && m.active.value.armDeadlineMs == Wrap(deadline)
    requires |m.results| < RESULT_CAPACITY && deadline <= now
    ensures Tick(cfg, m, Wrap(now)).flag <==> ((now - deadline) / TWO_31) % 2 == 0
  {
    DueExactly(now, deadline);
  }

  /** With no sequence numbers left, the model counts pulses it can never report;
      the board counts the same pulses into recovery. */
  lemma ExhaustionDiverges(c: TwinConfig, t: TwinMachine, cfg: Config, m: Machine, count: U32, now: nat)
    requires 0 < count
    requires t.active.None? && |t.results| < c.capacity && t.nextSequence > UINT32_MAX && t.lifetime + count <= UINT64_MAX
    requires m.active.None? && |m.results| < RESULT_CAPACITY && m.nextSequence == UINT32_MAX
    requires m.lifetime + count <= UINT64_MAX && m.recovery <= m.lifetime
    ensures var u := TwinPulse(c, t, count, now).t;
            u.lifetime == t.lifetime + count && u.recovery == t.recovery && u.results == t.results && u.active.None?
    ensures var n := AddPulses(cfg, m, count, Wrap(now)).m;
            n.lifetime == m.lifetime + count && n.recovery == m.recovery + count && n.results == m.results && n.active.None?
  {
  }
}
