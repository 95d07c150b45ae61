/** Which session the first edge after an ARM belongs to, over runs of the
    interrupt and the main loop, where every linearization point drains first. */
module DrainTiming {
  import opened Common
  import opened Firmware
  import opened Conservation
  import opened Runs
  import opened Twin
  import opened Refinement
  import opened Timing
  import opened MainLoop

  /** Linearization points with no cancel or pulses of their own, and edges the noise gate rejects. */
  predicate QuietEvents(gateUs: U32, cfg: Config, b: Board, es: seq<Event>)
    decreases |es|
  {
    es == []
    || ((match es[0]
         case Edge(us, _) => Gated(gateUs, b.front, Wrap(us))
         case Linearized(calls) => forall op :: op in calls ==> Quiet(op))
        && QuietEvents(gateUs, cfg, Handle(gateUs, cfg, b, es[0]), es[1..]))
  }

  function CallsOf(es: seq<Event>): seq<Op> {
    if es == [] then [] else (if es[0].Linearized? then es[0].calls else []) + CallsOf(es[1..])
  }

  /** Nothing is pending. */
  predicate Empty(b: Board) {
    b.front.pending == 0 && !b.front.saturated && b.captured == []
  }

  lemma {:induction false} QuietHandled(gateUs: U32, cfg: Config, b: Board, es: seq<Event>)
    requires Empty(b) && QuietEvents(gateUs, cfg, b, es)
    ensures var n := HandleAll(gateUs, cfg, b, es);
            Empty(n) && n.books == RecordAll(cfg, b.books, CallsOf(es))
    ensures forall op :: op in CallsOf(es) ==> Quiet(op)
    decreases |es|
  {
    hide RecordAll, Quiet;
    if es != [] {
      QuietEvent(gateUs, cfg, b, es[0]);
      QuietHandled(gateUs, cfg, Handle(gateUs, cfg, b, es[0]), es[1..]);
      if es[0].Linearized? {
        RecordAllSplits(cfg, b.books, es[0].calls, CallsOf(es[1..]));
      } else {
        assert [] + CallsOf(es[1..]) == CallsOf(es[1..]);
      }
    } else {
      NoCalls(cfg, b.books);
    }
  }

  lemma NoCalls(cfg: Config, b: Books)
    ensures RecordAll(cfg, b, []) == b
  {
  }

  lemma QuietEvent(gateUs: U32, cfg: Config, b: Board, e: Event)
    requires Empty(b) && (e.Edge? ==> Gated(gateUs, b.front, Wrap(e.us)))
    ensures var n := Handle(gateUs, cfg, b, e);
            Empty(n) && n.books == if e.Linearized? then RecordAll(cfg, b.books, e.calls) else b.books
  {
    hide RecordAll, Gated;
    if e.Linearized? {
      assert DrainOps(b.front) + e.calls == e.calls;
    }
  }

  /** Edges pending since the first of them, captured at `first`. */
  predicate PendingSince(b: Board, first: nat) {
    && 0 < b.front.pending == |b.captured| && b.front.firstMs == b.captured[0] == Wrap(first)
    && (!b.front.saturated ==> b.front.lastMs == b.captured[|b.captured| - 1])
  }

  predicate AllEdges(es: seq<Event>) {
    forall i :: 0 <= i < |es| ==> es[i].Edge?
  }

  lemma {:induction false} EdgesPend(gateUs: U32, cfg: Config, b: Board, es: seq<Event>, first: nat)
    requires PendingSince(b, first) && AllEdges(es)
    ensures var n := HandleAll(gateUs, cfg, b, es); PendingSince(n, first) && n.books == b.books
    decreases |es|
  {
    hide Gated, Wrap;
    if es != [] {
      assert es[0].Edge?;
      var n := Handle(gateUs, cfg, b, es[0]);
      EdgePends(gateUs, cfg, b, es[0], first);
      assert forall i :: 0 <= i < |es[1..]| ==> es[1..][i] == es[i + 1];
      EdgesPend(gateUs, cfg, n, es[1..], first);
    }
  }

  lemma EdgePends(gateUs: U32, cfg: Config, b: Board, e: Event, first: nat)
    requires PendingSince(b, first) && e.Edge?
    ensures var n := Handle(gateUs, cfg, b, e); PendingSince(n, first) && n.books == b.books
  {
    hide Gated, Wrap;
  }

  lemma FirstEdgePends(gateUs: U32, cfg: Config, b: Board, us: nat, ms: nat)
    requires Empty(b) && !Gated(gateUs, b.front, Wrap(us))
    ensures var n := Handle(gateUs, cfg, b, Edge(us, ms)); PendingSince(n, ms) && n.books == b.books
  {
    hide Gated, Wrap;
  }

  /** A drain feeds the pending edges as one batch. */
  lemma DrainFeedsBatch(gateUs: U32, cfg: Config, b: Board)
    requires 0 < b.front.pending && !b.front.saturated
    ensures Handle(gateUs, cfg, b, Linearized([])).books.m
            == AddPulseBatch(cfg, b.books.m, b.front.pending, b.front.firstMs, b.front.lastMs).m
  {
    hide AddPulseBatch, Clamps, Wrap;
    U32Time(b.front.firstMs);
    U32Time(b.front.lastMs);
    var op := OpBatch(b.front.pending, b.front.firstMs, b.front.lastMs);
    assert DrainOps(b.front) + [] == [op] && [op][1..] == [];
    assert RecordAll(cfg, Record(cfg, b.books, op), [op][1..]) == Record(cfg, b.books, op);
  }

  // ---- the batch ----

  /** What the session with this sequence number is after `count` edges, the
      first captured at `first` and the last stamped `last`. */
  ghost predicate Decided(n: Machine, a: Active, deadline: nat, joins: bool, count: U32, first: nat, last: U32) {
    && (joins <==> n.active.Some? && n.active.value.sequence == a.sequence)
    && (joins ==> n.active == Some(a.(phase := Pouring, pulses := count, startedMs := Wrap(first), lastPulseMs := last, settleDeadlineMs := 0)))
    && (!joins ==> Expired(n, a.sequence, deadline))
  }

  lemma SteadyNoClamp(cfg: Config, m: Machine, count: U32, at: U32)
    requires Steady(m) && Room(m, count)
    ensures !PulsesClamp(cfg, m, count, at) && AdvanceTo(cfg, m, at).m == m
  {
    hide Due, After, Tick;
  }

  lemma RoomNoClamp(cfg: Config, m: Machine, at: U32)
    requires Room(m, 1)
    ensures !PulsesClamp(cfg, m, 1, at)
  {
    hide Due, After, FaultField;
  }

  lemma RestDecided(cfg: Config, m: Machine, a: Active, deadline: nat, joins: bool, first: nat, rest: U32, last: U32)
    requires Consistent(m) && Decided(m, a, deadline, joins, 1, first, Wrap(first)) && Steady(m) && Room(m, rest) && 0 < rest < UINT32_MAX
    ensures Decided(AddPulses(cfg, m, rest, last).m, a, deadline, joins, rest + 1, first, last)
  {
    SteadyNoClamp(cfg, m, rest, last);
    if joins {
      hide Expired, Wrap, Inv;
    } else {
      hide Wrap, Held, Steady, Room, PulsesClamp;
      ExpiredThroughEdge(cfg, m, rest, last, a.sequence, deadline);
      StillConsistent(cfg, m, rest, last);
      OtherSequence(AddPulses(cfg, m, rest, last).m, a.sequence, deadline);
    }
  }

  lemma StillConsistent(cfg: Config, m: Machine, count: U32, at: U32)
    requires Consistent(m)
    ensures Consistent(AddPulses(cfg, m, count, at).m)
  {
    U32Time(at);
    StepConsistent(cfg, m, OpPulses(count, at));
  }

  lemma OtherSequence(m: Machine, sequence: U32, deadline: nat)
    requires Consistent(m) && Expired(m, sequence, deadline)
    ensures m.active.Some? ==> m.active.value.sequence != sequence
  {
  }

  lemma BatchDecided(cfg: Config, m: Machine, a: Active, deadline: nat, joins: bool, count: U32, first: nat, last: U32)
    requires Consistent(m) && 0 < count <= UINT32_MAX && Room(m, count) && (count == 1 ==> last == Wrap(first))
    requires Decided(AddPulses(cfg, m, 1, Wrap(first)).m, a, deadline, joins, 1, first, Wrap(first))
    ensures Decided(AddPulseBatch(cfg, m, count, Wrap(first), last).m, a, deadline, joins, count, first, last)
  {
    hide AddPulses, Consistent, Decided, Room, Steady, Wrap;
    FirstEdgeSteadies(cfg, m, Wrap(first), count - 1);
    StillConsistent(cfg, m, 1, Wrap(first));
    if count > 1 {
      RestDecided(cfg, AddPulses(cfg, m, 1, Wrap(first)).m, a, deadline, joins, first, count - 1, last);
    }
  }

  // ---- the theorem ----

  lemma FirstDecided(cfg: Config, m: Machine, t: TwinMachine, now: nat, a: Active, deadline: nat, ops: seq<Op>, first: nat)
    requires Timers(cfg) && Agrees(cfg, m, t, now) && Held(m) <= m.lifetime && Usable(cfg, m, now, ops)
    requires forall op :: op in ops ==> Quiet(op)
    requires ArmedUntil(t, m, a, deadline) && now < deadline && a.pulses == 0
    requires Clock(now, ops) <= first < Clock(now, ops) + TWO_31 && Room(Run(cfg, m, ops), 1)
    ensures Decided(AddPulses(cfg, Run(cfg, m, ops), 1, Wrap(first)).m, a, deadline,
                    Clock(now, ops) < deadline && first <= deadline, 1, first, Wrap(first))
  {
    RoomNoClamp(cfg, Run(cfg, m, ops), Wrap(first));
    hide AddPulses, Run, Usable, Clock, Agrees, Held, PulsesClamp, Expired, Room, Wrap, ArmedUntil;
    FirstEdgeDecided(cfg, m, t, now, a, deadline, ops, 1, first);
  }

  /** The board's events after an ARM: quiet ones, the first accepted edge, and more edges behind it. */
  function FirstBatch(before: seq<Event>, us: nat, first: nat, more: seq<Event>): seq<Event> {
    before + [Edge(us, first)] + more
  }

  lemma {:induction false} HandleSplits(gateUs: U32, cfg: Config, b: Board, x: seq<Event>, y: seq<Event>)
    ensures HandleAll(gateUs, cfg, b, x + y) == HandleAll(gateUs, cfg, HandleAll(gateUs, cfg, b, x), y)
    decreases |x|
  {
    hide Handle;
    if x == [] {
      assert x + y == y;
    } else {
      assert (x + y)[1..] == x[1..] + y;
      HandleSplits(gateUs, cfg, Handle(gateUs, cfg, b, x[0]), x[1..], y);
    }
  }

  lemma OneEvent(gateUs: U32, cfg: Config, b: Board, e: Event)
    ensures HandleAll(gateUs, cfg, b, [e]) == Handle(gateUs, cfg, b, e)
  {
    hide Handle;
    assert [e][1..] == [];
    assert HandleAll(gateUs, cfg, Handle(gateUs, cfg, b, e), [e][1..]) == Handle(gateUs, cfg, b, e);
  }

  lemma BatchPends(gateUs: U32, cfg: Config, b: Board, before: seq<Event>, us: nat, first: nat, more: seq<Event>)
    requires Empty(b) && QuietEvents(gateUs, cfg, b, before) && AllEdges(more)
    requires !Gated(gateUs, HandleAll(gateUs, cfg, b, before).front, Wrap(us))
    ensures var n := HandleAll(gateUs, cfg, b, FirstBatch(before, us, first, more));
            && PendingSince(n, first) && n.books.m == Run(cfg, b.books.m, CallsOf(before))
            && forall op :: op in CallsOf(before) ==> Quiet(op)
  {
    hide Handle, HandleAll, QuietEvents, Gated, AllEdges, RecordAll, Run, CallsOf, Quiet, PendingSince, Empty;
    QuietHandled(gateUs, cfg, b, before);
    RecordAllRuns(cfg, b.books, CallsOf(before));
    HandleSplits(gateUs, cfg, b, before + [Edge(us, first)], more);
    HandleSplits(gateUs, cfg, b, before, [Edge(us, first)]);
    OneEvent(gateUs, cfg, HandleAll(gateUs, cfg, b, before), Edge(us, first));
    FirstEdgePends(gateUs, cfg, HandleAll(gateUs, cfg, b, before), us, first);
    EdgesPend(gateUs, cfg, HandleAll(gateUs, cfg, b, before + [Edge(us, first)]), more, first);
  }

  /** After an ARM, whatever linearization points and rejected edges come first,
      and whatever edges gather behind the first accepted one before the next
      drain: that drain gives the whole batch to the armed session exactly when
      the first edge was captured no later than the deadline and no call had
      reached the deadline before it. An edge captured before the deadline so
      always joins and one captured after it never does; then the session has
      ended at its deadline without a pulse. */
  lemma DrainedEdgeDecided(gateUs: U32, cfg: Config, b: Board, t: TwinMachine, now: nat, a: Active, deadline: nat,
                           before: seq<Event>, us: nat, first: nat, more: seq<Event>)
    requires Timers(cfg) && Agrees(cfg, b.books.m, t, now) && Held(b.books.m) <= b.books.m.lifetime && Empty(b)
    requires ArmedUntil(t, b.books.m, a, deadline) && now < deadline && a.pulses == 0
    requires QuietEvents(gateUs, cfg, b, before) && Usable(cfg, b.books.m, now, CallsOf(before))
    requires !Gated(gateUs, HandleAll(gateUs, cfg, b, before).front, Wrap(us)) && AllEdges(more)
    requires var clock := Clock(now, CallsOf(before)); clock <= first < clock + TWO_31
    requires var p := HandleAll(gateUs, cfg, b, FirstBatch(before, us, first, more));
             !p.front.saturated && Room(p.books.m, p.front.pending)
    ensures var clock := Clock(now, CallsOf(before));
            var p := HandleAll(gateUs, cfg, b, FirstBatch(before, us, first, more));
            var joins := clock < deadline && first <= deadline;
            && Decided(Handle(gateUs, cfg, p, Linearized([])).books.m, a, deadline, joins, p.front.pending, first, p.front.lastMs)
            && (first < deadline ==> joins) && (first > deadline ==> !joins)
  {
    var p := HandleAll(gateUs, cfg, b, FirstBatch(before, us, first, more));
    var ops := CallsOf(before);
    var joins := Clock(now, ops) < deadline && first <= deadline;
    BatchPends(gateUs, cfg, b, before, us, first, more);
    PendingFacts(p, first);
    RoomForOne(p.books.m, p.front.pending);
    hide *;
    RunStays(cfg, b.books.m, t, now, ops);
    FirstDecided(cfg, b.books.m, t, now, a, deadline, ops, first);
    BatchDecided(cfg, p.books.m, a, deadline, joins, p.front.pending, first, p.front.lastMs);
    DrainFeedsBatch(gateUs, cfg, p);
  }

  lemma PendingFacts(b: Board, first: nat)
    requires PendingSince(b, first)
    ensures 0 < b.front.pending && b.front.firstMs == Wrap(first)
    ensures b.front.pending == 1 && !b.front.saturated ==> b.front.lastMs == Wrap(first)
  {
  }

  lemma RoomForOne(m: Machine, count: int)
    requires Room(m, count) && 0 < count
    ensures Room(m, 1)
  {
  }

  lemma RunStays(cfg: Config, m: Machine, t: TwinMachine, now: nat, ops: seq<Op>)
    requires Timers(cfg) && Agrees(cfg, m, t, now) && Held(m) <= m.lifetime
    ensures Consistent(Run(cfg, m, ops))
  {
    AgreesInv(cfg, m, t, now);
    RunsConsistent(cfg, m, ops);
  }
}
