/** The pulse interrupt and the main loop around the machine (main.cpp). */
module MainLoop {
  import opened Common
  import opened Firmware
  import opened Conservation
  import opened Runs
  import opened SessionMachineObject
  import opened Announcements

  // ---- batches ----

  /** The machine fed one edge at a time. */
  function EdgeByEdge(cfg: Config, m: Machine, times: seq<U32>): Machine
    decreases |times|
  {
    if times == [] then m else EdgeByEdge(cfg, AddPulses(cfg, m, 1, times[0]).m, times[1..])
  }

  /** Room for `count` more pulses before either clamp. */
  predicate Room(m: Machine, count: int) {
    && m.lifetime + count <= UINT64_MAX
    && (m.active.Some? ==> m.active.value.pulses + count <= MAX_RESULT_PULSES)
  }

  /** The states an edge can leave behind: an event is flowing, or there is
      none and the store or the sequence numbers are used up. */
  predicate Steady(m: Machine) {
    if m.active.Some? then m.active.value.phase == Pouring
    else if |m.results| >= RESULT_CAPACITY then m.fault == "result_store_full"
    else m.nextSequence == UINT32_MAX && m.fault == "sequence_exhausted"
  }

  lemma FirstEdgeSteadies(cfg: Config, m: Machine, captured: U32, more: nat)
    requires Room(m, 1 + more) && 1 + more <= UINT32_MAX
    ensures var n := AddPulses(cfg, m, 1, captured).m; Steady(n) && Room(n, more)
  {
    hide Due, After, FaultField;
  }

  /** On a steady state pulse counts add up, whatever the earlier timestamp. */
  lemma SteadyAdds(cfg: Config, m: Machine, a: U32, b: U32, t1: U32, t2: U32)
    requires Steady(m) && 0 < a && 0 < b && a + b <= UINT32_MAX && Room(m, a + b)
    ensures var n := AddPulses(cfg, m, a, t1).m;
            && Steady(n) && Room(n, b)
            && AddPulses(cfg, n, b, t2).m == AddPulses(cfg, m, a + b, t2).m
  {
  }

  lemma {:induction false} SteadyEdges(cfg: Config, m: Machine, times: seq<U32>)
    requires Steady(m) && 0 < |times| <= UINT32_MAX && Room(m, |times|)
    ensures EdgeByEdge(cfg, m, times) == AddPulses(cfg, m, |times|, times[|times| - 1]).m
    decreases |times|
  {
    hide AddPulses, Steady, Room;
    if |times| > 1 {
      SteadyAdds(cfg, m, 1, |times| - 1, times[0], times[|times| - 1]);
      SteadyEdges(cfg, AddPulses(cfg, m, 1, times[0]).m, times[1..]);
    }
  }

  /** Batching is exact: short of saturation, handing the machine a drained
      batch as (count, first time, last time) reaches the very state that
      feeding every edge at its own time reaches, from every start state. */
  lemma BatchIsExact(cfg: Config, m: Machine, times: seq<U32>)
    requires 0 < |times| <= UINT32_MAX && Room(m, |times|)
    ensures AddPulseBatch(cfg, m, |times|, times[0], times[|times| - 1]).m == EdgeByEdge(cfg, m, times)
  {
    hide AddPulses, Steady, Room;
    FirstEdgeSteadies(cfg, m, times[0], |times| - 1);
    if |times| > 1 {
      SteadyEdges(cfg, AddPulses(cfg, m, 1, times[0]).m, times[1..]);
    } else {
      assert times[1..] == [];
    }
  }

  /** Beyond the session clamp it is not: single edges close the full event and
      open a new one for the rest, a batch loses the rest. */
  lemma SaturatedBatchDiffers(cfg: Config)
    ensures var a := Active(1, "", false, Pouring, MAX_RESULT_PULSES - 1, 0, 0, 0, 0, 0);
            var m := Machine(0, "none", MAX_RESULT_PULSES - 1, Pouring, 2, Some(a), []);
            && Consistent(m)
            && AddPulseBatch(cfg, m, 4, 0, 0).m != EdgeByEdge(cfg, m, [0, 0, 0, 0])
  {
    var a := Active(1, "", false, Pouring, MAX_RESULT_PULSES - 1, 0, 0, 0, 0, 0);
    var m := Machine(0, "none", MAX_RESULT_PULSES - 1, Pouring, 2, Some(a), []);
    assert AddPulseBatch(cfg, m, 4, 0, 0).m.active.None?;
    var m1 := AddPulses(cfg, m, 1, 0).m;
    var m2 := AddPulses(cfg, m1, 1, 0).m;
    var m3 := AddPulses(cfg, m2, 1, 0).m;
    var m4 := AddPulses(cfg, m3, 1, 0).m;
    assert m4.active.Some?;
    assert EdgeByEdge(cfg, m, [0, 0, 0, 0]) == m4 by {
      assert [0][1..] == [] && [0, 0][1..] == [0] && [0, 0, 0][1..] == [0, 0] && [0, 0, 0, 0][1..] == [0, 0, 0];
      assert EdgeByEdge(cfg, m4, [0][1..]) == m4;
      assert EdgeByEdge(cfg, m3, [0]) == m4;
      assert EdgeByEdge(cfg, m2, [0, 0]) == m4;
      assert EdgeByEdge(cfg, m1, [0, 0, 0]) == m4;
    }
  }

  // ---- the interrupt and the linearization points ----

  /** The globals the interrupt writes. */
  datatype Front = Front(
    pending: U32, firstMs: U32, lastMs: U32, lastAcceptedUs: U32, rejected: U32, saturated: bool)

  const QUIET_FRONT := Front(0, 0, 0, 0, 0, false)

  /** An edge inside the noise gate after the last accepted one is rejected; a gate of 0 is off. */
  predicate Gated(gateUs: U32, f: Front, nowUs: U32) {
    gateUs > 0 && f.lastAcceptedUs != 0 && Wrap(nowUs - f.lastAcceptedUs) < gateUs
  }

  function Interrupt(gateUs: U32, f: Front, nowUs: U32, nowMs: U32): Front {
    if Gated(gateUs, f, nowUs) then
      f.(rejected := if f.rejected == UINT32_MAX then f.rejected else f.rejected + 1)
    else if f.pending != UINT32_MAX then
      f.(lastAcceptedUs := nowUs, firstMs := if f.pending == 0 then nowMs else f.firstMs,
         pending := f.pending + 1, lastMs := nowMs)
    else
      f.(lastAcceptedUs := nowUs, saturated := true, lastMs := nowMs)
  }

  function Drained(f: Front): Front {
    f.(pending := 0, saturated := false)
  }

  /** The machine calls one drain makes. */
  function DrainOps(f: Front): seq<Op> {
    if f.pending == 0 then []
    else [OpBatch(f.pending, f.firstMs, f.lastMs)] + (if f.saturated then [OpMarkSaturated(f.lastMs)] else [])
  }

  /** The board: interrupt globals, the machine with its books, and what the
      books need: accepted edges, edges dropped on a full counter, and the
      capture times of the edges still pending. */
  datatype Board = Board(front: Front, books: Books, accepted: nat, dropped: nat, captured: seq<U32>)

  const POWERED := Board(QUIET_FRONT, OPENING, 0, 0, [])

  /** What can happen: an edge, or a drain followed by the calls of a command or a tick. */
  datatype Event = Edge(us: nat, ms: nat) | Linearized(calls: seq<Op>)

  function Handle(gateUs: U32, cfg: Config, b: Board, e: Event): Board {
    match e
    case Edge(us, ms) =>
      var f := Interrupt(gateUs, b.front, Wrap(us), Wrap(ms));
      if Gated(gateUs, b.front, Wrap(us)) then b.(front := f)
      else if b.front.pending == UINT32_MAX then b.(front := f, accepted := b.accepted + 1, dropped := b.dropped + 1)
      else b.(front := f, accepted := b.accepted + 1, captured := b.captured + [Wrap(ms)])
    case Linearized(calls) =>
      b.(front := Drained(b.front), books := RecordAll(cfg, b.books, DrainOps(b.front) + calls), captured := [])
  }

  function HandleAll(gateUs: U32, cfg: Config, b: Board, es: seq<Event>): Board
    decreases |es|
  {
    if es == [] then b else HandleAll(gateUs, cfg, Handle(gateUs, cfg, b, es[0]), es[1..])
  }

  /** Commands and ticks feed no pulses of their own. */
  predicate NoPulses(ops: seq<Op>) {
    forall op :: op in ops ==> Fed(op) == 0
  }

  ghost predicate InStep(b: Board) {
    && Balanced(b.books)
    && b.front.pending == |b.captured|
    && (b.captured != [] ==> b.front.firstMs == b.captured[0])
    && (b.captured != [] && !b.front.saturated ==> b.front.lastMs == b.captured[|b.captured| - 1])
    && b.accepted == b.front.pending + b.books.fed + b.dropped
  }

  lemma {:induction false} RecordAllSplits(cfg: Config, b: Books, xs: seq<Op>, ys: seq<Op>)
    ensures RecordAll(cfg, b, xs + ys) == RecordAll(cfg, RecordAll(cfg, b, xs), ys)
    decreases |xs|
  {
    if xs == [] {
      assert xs + ys == ys;
    } else {
      assert (xs + ys)[1..] == xs[1..] + ys;
      RecordAllSplits(cfg, Record(cfg, b, xs[0]), xs[1..], ys);
    }
  }

  lemma {:induction false} NoPulsesFeedNothing(cfg: Config, b: Books, ops: seq<Op>)
    requires NoPulses(ops)
    ensures RecordAll(cfg, b, ops).fed == b.fed
    decreases |ops|
  {
    if ops != [] {
      NoPulsesFeedNothing(cfg, Record(cfg, b, ops[0]), ops[1..]);
    }
  }

  lemma DrainFeeds(cfg: Config, b: Books, f: Front)
    ensures RecordAll(cfg, b, DrainOps(f)).fed == b.fed + f.pending
  {
    if f.pending > 0 {
      var batch := OpBatch(f.pending, f.firstMs, f.lastMs);
      var rest := if f.saturated then [OpMarkSaturated(f.lastMs)] else [];
      assert DrainOps(f)[1..] == rest;
      NoPulsesFeedNothing(cfg, Record(cfg, b, batch), rest);
    }
  }

  lemma HandleInStep(gateUs: U32, cfg: Config, b: Board, e: Event)
    requires InStep(b) && (e.Linearized? ==> NoPulses(e.calls))
    ensures InStep(Handle(gateUs, cfg, b, e))
  {
    hide Balanced, RecordAll, DrainOps, NoPulses, Wrap;
    if e.Linearized? {
      var drained := RecordAll(cfg, b.books, DrainOps(b.front));
      RecordAllSplits(cfg, b.books, DrainOps(b.front), e.calls);
      DrainFeeds(cfg, b.books, b.front);
      NoPulsesFeedNothing(cfg, drained, e.calls);
      RunsBalance(cfg, b.books, DrainOps(b.front) + e.calls);
    }
  }

  /** No accepted edge is lost or counted twice: at every linearization point
      of every run, accepted edges are those still pending in the interrupt
      counter, those the machine accounts for, and none else, until one of the
      three counters clamps; clamped or not, the books never exceed the edges. */
  lemma {:induction false} EdgesConserved(gateUs: U32, cfg: Config, b: Board, es: seq<Event>)
    requires InStep(b)
    requires forall e :: e in es && e.Linearized? ==> NoPulses(e.calls)
    ensures var n := HandleAll(gateUs, cfg, b, es);
            && InStep(n)
            && n.front.pending + Accounted(n.books) <= n.front.pending + n.books.m.lifetime <= n.accepted
            && (n.dropped == 0 && !n.books.clamped ==> n.accepted == n.front.pending + Accounted(n.books))
    decreases |es|
  {
    hide Handle, NoPulses, Accounted, Inv, DistinctHistory;
    if es != [] {
      HandleInStep(gateUs, cfg, b, es[0]);
      EdgesConserved(gateUs, cfg, Handle(gateUs, cfg, b, es[0]), es[1..]);
    }
  }

  /** The same from power-on, where nothing has been counted yet. */
  lemma PoweredEdgesConserved(gateUs: U32, cfg: Config, es: seq<Event>)
    requires forall e :: e in es && e.Linearized? ==> NoPulses(e.calls)
    ensures var n := HandleAll(gateUs, cfg, POWERED, es);
            && n.front.pending + Accounted(n.books) <= n.accepted
            && (n.dropped == 0 && !n.books.clamped ==> n.accepted == n.front.pending + Accounted(n.books))
  {
    hide *;
    PoweredIs();
    OpeningBalanced();
    NothingYetInStep(POWERED);
    EdgesConserved(gateUs, cfg, POWERED, es);
  }

  lemma PoweredIs()
    ensures POWERED.books == OPENING && POWERED.books.fed == 0 && POWERED.front.pending == 0 && !POWERED.front.saturated
    ensures POWERED.accepted == 0 && POWERED.dropped == 0 && POWERED.captured == []
  {
  }

  lemma NothingYetInStep(b: Board)
    requires Balanced(b.books) && b.books.fed == 0 && b.front.pending == 0 && !b.front.saturated
    requires b.accepted == 0 && b.dropped == 0 && b.captured == []
    ensures InStep(b)
  {
    hide Balanced;
  }

  /** A drain hands the machine exactly the pending edges, each at the time it was captured. */
  lemma DrainIsExact(gateUs: U32, cfg: Config, b: Board)
    requires InStep(b) && !b.front.saturated && Room(b.books.m, b.front.pending)
    ensures Handle(gateUs, cfg, b, Linearized([])).books.m == EdgeByEdge(cfg, b.books.m, b.captured)
  {
    hide Balanced, AddPulseBatch, AddPulses, Room, Wrap;
    RecordAllRuns(cfg, b.books, DrainOps(b.front) + []);
    assert DrainOps(b.front) + [] == DrainOps(b.front);
    if b.front.pending > 0 {
      BatchIsExact(cfg, b.books.m, b.captured);
      U32Time(b.front.firstMs);
      U32Time(b.front.lastMs);
      assert DrainOps(b.front)[1..] == [];
      assert Run(cfg, b.books.m, DrainOps(b.front)) == Apply(cfg, b.books.m, DrainOps(b.front)[0]).m;
    }
  }

  lemma U32Time(t: U32)
    ensures Wrap(t) == t
  {
  }

  // ---- the object ----

  class MainBoard {
    const gateUs: U32
    const machine: SessionMachine
    var front: Front
    var lastEmitted: U32
    /** The results put on the wire so far. */
    var output: seq<Outcome>

    ghost predicate Valid()
      reads this, machine
    {
      machine.Valid()
    }

    constructor (gateUs: U32, flowGapMs: U32, settlingMs: U32)
      ensures Valid() && fresh(machine) && fresh(machine.results)
      ensures front == QUIET_FRONT && machine.Value() == FRESH && this.gateUs == gateUs && lastEmitted == 0 && output == []
    {
      this.gateUs := gateUs;
      machine := new SessionMachine(flowGapMs, settlingMs);
      front, lastEmitted, output := QUIET_FRONT, 0, [];
    }

    method PulseIsr(nowUs: U32, nowMs: U32)
      modifies this`front
      ensures front == Interrupt(gateUs, old(front), nowUs, nowMs)
    {
      if gateUs > 0 && front.lastAcceptedUs != 0 && Wrap(nowUs - front.lastAcceptedUs) < gateUs {
        if front.rejected != UINT32_MAX {
          front := front.(rejected := front.rejected + 1);
        }
        return;
      }
      front := front.(lastAcceptedUs := nowUs);
      if front.pending != UINT32_MAX {
        if front.pending == 0 {
          front := front.(firstMs := nowMs);
        }
        front := front.(pending := front.pending + 1);
      } else {
        front := front.(saturated := true);
      }
      front := front.(lastMs := nowMs);
    }

    /** One pass over the store. */
    method EmitNewResults()
      requires Valid()
      modifies this`lastEmitted, this`output
      ensures output == old(output) + Announced(machine.Value().results, old(lastEmitted))
      ensures lastEmitted == LastAfter(machine.Value().results, old(lastEmitted))
    {
      var count := machine.resultCount;
      ghost var store := machine.results[..count];
      for index := 0 to count
        invariant output + Announced(store[index..], lastEmitted) == old(output) + Announced(store, old(lastEmitted))
        invariant LastAfter(store[index..], lastEmitted) == LastAfter(store, old(lastEmitted))
      {
        var result := machine.results[index];
        assert store[index..][0] == result && store[index..][1..] == store[index + 1..];
        if result.sequence > lastEmitted {
          output := output + [result];
          lastEmitted := result.sequence;
        }
      }
      assert store[count..] == [];
    }

    /** capture_pending_batch then apply_pending_batch; a batch is followed by a pass. */
    method Drain()
      requires Valid()
      modifies this, machine, machine.results
      ensures Valid() && front == Drained(old(front))
      ensures machine.Value() == Run(machine.cfg, old(machine.Value()), DrainOps(old(front)))
      ensures output == old(output) + Said(old(front).pending > 0, machine.Value().results, old(lastEmitted))
      ensures lastEmitted == SaidLast(old(front).pending > 0, machine.Value().results, old(lastEmitted))
    {
      hide AddPulseBatch, MarkCounterSaturated, Wrap, Announced, LastAfter;
      var batch := front;
      front := front.(pending := 0, saturated := false);
      if batch.pending > 0 {
        ApplyBatch(batch);
        EmitNewResults();
      }
    }

    /** The machine calls of one drained batch. */
    method ApplyBatch(batch: Front)
      requires Valid() && batch.pending > 0
      modifies machine, machine.results
      ensures Valid() && machine.Value() == Run(machine.cfg, old(machine.Value()), DrainOps(batch))
    {
      hide AddPulseBatch, MarkCounterSaturated, Wrap;
      U32Time(batch.firstMs);
      U32Time(batch.lastMs);
      var _, _ := machine.PulseBatch(batch.pending, batch.firstMs, batch.lastMs);
      ghost var rest := DrainOps(batch)[1..];
      assert rest == if batch.saturated then [OpMarkSaturated(batch.lastMs)] else [];
      assert Run(machine.cfg, old(machine.Value()), DrainOps(batch)) == Run(machine.cfg, machine.Value(), rest);
      if batch.saturated {
        ghost var before := machine.Value();
        var _, _ := machine.MarkSaturated(batch.lastMs);
        assert rest[1..] == [];
        assert Run(machine.cfg, before, rest) == Run(machine.cfg, machine.Value(), []);
      }
    }

    /** A timer tick drains first, so pending edges are ordered before it; a
        result it closes is followed by a pass. */
    method TickLinearized(boundary: U32)
      requires Valid()
      modifies this, machine, machine.results
      ensures Valid() && front == Drained(old(front))
      ensures var drained := Run(machine.cfg, old(machine.Value()), DrainOps(old(front)));
              var ticked := Tick(machine.cfg, drained, boundary);
              var last := SaidLast(old(front).pending > 0, drained.results, old(lastEmitted));
              && machine.Value() == ticked.m
              && output == old(output) + Said(old(front).pending > 0, drained.results, old(lastEmitted)) + Said(ticked.flag, ticked.m.results, last)
              && lastEmitted == SaidLast(ticked.flag, ticked.m.results, last)
    {
      hide Announced, LastAfter, Tick;
      Drain();
      var _, produced := machine.TickAt(boundary);
      if produced {
        EmitNewResults();
      }
    }
  }
}
