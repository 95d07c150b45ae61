/** Every stream in which a context does come back has passes and failures that
    charge its pulses to the wrong one. */
module StreamConverse {
  import opened CounterStream
  import opened Attribution
  import opened CounterRuns
  import opened StreamRuns

  // ---- where a context comes back ----

  /** A reading in the context of an earlier one, with another in between right before it. */
  lemma Returning(rs: seq<Reading>) returns (i: nat, m: nat)
    requires !Grouped(rs)
    ensures i + 1 < m < |rs| && rs[i].context == rs[m].context && rs[m - 1].context != rs[m].context
  {
    var a, j, k :| 0 <= a < j < k < |rs| && rs[a].context == rs[k].context && rs[j].context != rs[a].context;
    i, m := a, j + 1;
    while rs[m].context != rs[a].context
      invariant j < m <= k && rs[m - 1].context != rs[a].context
      decreases k - m
    {
      m := m + 1;
    }
  }

  /** The place in the stream of its m-th rise. */
  lemma {:induction false} RisePosition(rs: seq<Reading>, m: nat) returns (n: nat)
    requires m < |Rises(0, rs)|
    ensures n < |rs| && Rises(0, rs[..n]) == Rises(0, rs)[..m] && rs[n] == Rises(0, rs)[m]
    ensures rs[n].value.Some? && rs[n].value.value > Level(0, rs[..n])
    decreases |rs|
  {
    hide Level;
    var before := rs[..|rs| - 1];
    if m < |Rises(0, before)| {
      n := RisePosition(before, m);
      assert before[..n] == rs[..n];
      assert Rises(0, rs)[..m] == Rises(0, before)[..m];
    } else {
      n := |rs| - 1;
      assert Rises(0, rs)[..m] == Rises(0, before);
    }
  }

  lemma {:induction false} RiseCharges(rs: seq<Reading>, r: Reading)
    requires r in Rises(0, rs)
    ensures Share(0, rs, r.context) > 0
    decreases |rs|
  {
    if r in Rises(0, rs[..|rs| - 1]) {
      RiseCharges(rs[..|rs| - 1], r);
    }
  }

  /** A context charged something has a reading above the level. */
  lemma {:induction false} ChargedReading(level: int, rs: seq<Reading>, context: Context) returns (i: nat)
    requires Share(level, rs, context) > 0
    ensures i < |rs| && rs[i].context == context && rs[i].value.Some? && rs[i].value.value > level
    decreases |rs|
  {
    var n := |rs| - 1;
    LevelAtLeast(level, rs[..n]);
    if Share(level, rs[..n], context) > 0 {
      i := ChargedReading(level, rs[..n], context);
    } else {
      i := n;
    }
  }

  // ---- the first pass: everything waits, due at 0.1 s ----

  function Outage(first: seq<Reading>): PassInput {
    PassInput(0.0, first, _ => Choice(true, 0.0))
  }

  predicate AllAt(items: seq<Item>, deadline: real) {
    forall i :: 0 <= i < |items| ==> items[i].deadline == deadline
  }

  lemma {:induction false} NormalizeAt(items: seq<Item>, deadline: real)
    requires AllAt(items, deadline)
    ensures AllAt(Normalize(items), deadline)
    decreases |items|
  {
    hide SameValue, Subsumes;
    if |items| > 1 {
      var (a, b) := (items[0], items[1]);
      if SameValue(a.reading, b.reading) {
        NormalizeAt([Item(a.deadline, Max(a.attempt, b.attempt), a.reading)] + items[2..], deadline);
      } else if Subsumes(a.reading, b.reading) {
        NormalizeAt([Item(a.deadline, Max(a.attempt, b.attempt), b.reading)] + items[2..], deadline);
      } else {
        NormalizeAt([b.(deadline := MaxReal(b.deadline, a.deadline))] + items[2..], deadline);
      }
    }
  }

  lemma FirstDelays()
    ensures RetryDelay(0) == 0.1 && RetryDelay(1) == 0.1
  {
    assert Pow2(0) == 1;
  }

  lemma ScheduleAt(queue: seq<Item>, r: Reading, attempt: nat)
    requires AllAt(queue, 0.1) && attempt <= 1
    ensures AllAt(Schedule(0.0, queue, r, attempt), 0.1)
  {
    FirstDelays();
    hide RetryDelay, Sorted, Normalize;
    var items := queue + [Item(0.0 + RetryDelay(attempt), attempt, r)];
    SortedSubset(items);
    forall i | 0 <= i < |Sorted(items)| ensures Sorted(items)[i].deadline == 0.1 {
      assert Sorted(items)[i] in items;
    }
    NormalizeAt(Sorted(items), 0.1);
  }

  lemma {:induction false} FailingProcess(s: Stream, observed: seq<Reading>, choices: seq<Choice>)
    requires |choices| == |observed| && AllAt(s.queue, 0.1) && forall i :: 0 <= i < |choices| ==> choices[i] == Choice(true, 0.0)
    ensures var n := Process(s, Fresh(observed), choices); n.commits == s.commits && AllAt(n.queue, 0.1)
    decreases |observed|
  {
    hide Schedule, Defers, AllAt;
    if observed != [] {
      ScheduleAt(s.queue, observed[0], 0);
      ScheduleAt(s.queue, observed[0], 1);
      assert Fresh(observed)[1..] == Fresh(observed[1..]);
      FailingProcess(Step(s, observed[0], 0, choices[0]), observed[1..], choices[1..]);
    }
  }

  lemma OutageWaits(first: seq<Reading>)
    ensures var n := PassOn(NEW_STREAM, Outage(first)); n.commits == [] && AllAt(n.queue, 0.1)
  {
    hide Process;
    assert Retries([]) + Fresh(first) == Fresh(first);
    FailingProcess(NEW_STREAM, first, Choices(Outage(first).choice, |first|));
  }

  // ---- the second pass: the returning reading waits behind them, due at 0.16 s ----

  function Arrival(r: Reading): PassInput {
    PassInput(0.06, [r], _ => Choice(false, 0.06))
  }

  lemma {:induction false} NormalizeFixed(items: seq<Item>)
    requires WellFormed(items)
    ensures Normalize(items) == items
    decreases |items|
  {
    if |items| > 1 {
      var rs := Readings(items);
      assert items == [items[0]] + items[1..] && items[1..] == [items[1]] + items[2..];
      WellFormedSplits([items[0]], items[1..]);
      assert rs[0].context != rs[1].context && rs[0].value.value < rs[1].value.value;
      NormalizeFixed(items[1..]);
      assert items[1].(deadline := MaxReal(items[1].deadline, items[0].deadline)) == items[1];
    }
  }

  /** A higher reading in another context goes to the end of the queue. */
  lemma QueuedLast(queue: seq<Item>, item: Item)
    requires WellFormed(queue) && queue != [] && item.reading.value.Some?
    requires var last := queue[|queue| - 1];
             && last.deadline <= item.deadline && last.reading.context != item.reading.context
             && last.reading.value.Some? && last.reading.value.value < item.reading.value.value
    ensures WellFormed(queue + [item])
  {
    var (all, q) := (queue + [item], Readings(queue));
    assert Readings(all) == q + [item.reading];
    assert forall i :: 0 <= i < |q| ==> q[i].value.value <= q[|q| - 1].value.value;
    forall i | 0 < i < |all| ensures Readings(all)[i - 1].context != Readings(all)[i].context {
      assert i < |q| ==> q[i - 1].context != q[i].context;
    }
  }

  lemma ArrivalScheduled(queue: seq<Item>, r: Reading)
    requires WellFormed(queue + [Item(0.16, 0, r)])
    ensures Schedule(0.06, queue, r, 0) == queue + [Item(0.16, 0, r)]
  {
    FirstDelays();
    hide WellFormed, RetryDelay, Sorted, Normalize;
    SortedWellFormed(queue + [Item(0.16, 0, r)]);
    NormalizeFixed(queue + [Item(0.16, 0, r)]);
  }

  lemma ArrivalDefers(queue: seq<Item>, r: Reading)
    requires queue != [] && r.value.Some? && queue[|queue| - 1].reading.value.Some?
    requires queue[|queue| - 1].reading.value.value < r.value.value
    ensures Defers(queue, r, 0)
  {
    assert Blocks(queue[|queue| - 1].reading, r, 0);
  }

  lemma ArrivalSteps(s: Stream, r: Reading)
    requires AllAt(s.queue, 0.1)
    ensures PassOn(s, Arrival(r)) == Step(s, r, 0, Choice(false, 0.06))
  {
    hide Step, Process;
    NoneDue(s.queue, 0.06);
    assert Retries([]) + Fresh([r]) == Fresh([r]);
    var choices := Choices(Arrival(r).choice, 1);
    assert choices == [Choice(false, 0.06)];
    assert s.(queue := s.queue) == s;
    OneObserved(s, r, Choice(false, 0.06));
  }

  lemma ArrivalWaits(s: Stream, r: Reading)
    requires WellFormed(s.queue) && AllAt(s.queue, 0.1) && s.queue != [] && r.value.Some?
    requires var last := s.queue[|s.queue| - 1].reading;
             last.context != r.context && last.value.Some? && last.value.value < r.value.value
    ensures PassOn(s, Arrival(r)) == Stream(s.queue + [Item(0.16, 0, r)], s.commits) && WellFormed(s.queue + [Item(0.16, 0, r)])
  {
    hide WellFormed, Schedule, Defers, PassOn;
    QueuedLast(s.queue, Item(0.16, 0, r));
    ArrivalScheduled(s.queue, r);
    ArrivalDefers(s.queue, r);
    ArrivalSteps(s, r);
  }

  lemma SortedWellFormed(items: seq<Item>)
    requires WellFormed(items)
    ensures Sorted(items) == items
  {
    SortedQueueRises(Readings(items));
    SortedStays(items);
  }

  // ---- the third pass: all but the returning reading are due ----

  lemma {:induction false} DueFront(a: seq<Item>, item: Item, now: real)
    requires item.deadline > now && forall i :: 0 <= i < |a| ==> a[i].deadline <= now
    ensures Due(a + [item], now) == a && NotDue(a + [item], now) == [item]
    decreases |a|
  {
    if a == [] {
      assert a + [item] == [item] && [item][1..] == [];
    } else {
      assert (a + [item])[1..] == a[1..] + [item];
      DueFront(a[1..], item, now);
    }
  }

  /** A due boundary of the returning context, before the last due one. */
  lemma UnsafeThen(s: Stream, q: seq<Item>, r: Reading, i: nat)
    requires s == Stream(q + [Item(0.16, 0, r)], []) && AllAt(q, 0.1) && i + 1 < |q|
    requires q[i].reading.context == r.context && q[i].reading.value.Some? && q[i].reading.value.value > 0
    ensures !Safe(s, 0.12)
  {
    hide Level;
    EmptyLevel();
    DueFront(q, Item(0.16, 0, r), 0.12);
    var (due, later) := (Readings(q), Readings([Item(0.16, 0, r)]));
    assert due[i].context == later[0].context && due[i] == q[i].reading;
  }

  function Given(choices: seq<Choice>): nat -> Choice {
    (i: nat) => if i < |choices| then choices[i] else Choice(false, 0.0)
  }

  function Later(rest: seq<Reading>, choices: seq<Choice>): PassInput {
    PassInput(0.12, rest, Given(choices))
  }

  lemma GivenChoices(choices: seq<Choice>)
    ensures Choices(Given(choices), |choices|) == choices
  {
  }

  /** Where the first pass leaves a rising stream: the last reading queued is its last rise. */
  lemma LastIsLastRise(s: Stream, seen: seq<Reading>, context: Context)
    requires OnTrack(s, seen, context) && s.commits == [] && Rises(0, seen) != []
    ensures s.queue != [] && s.queue[|s.queue| - 1].reading == Rises(0, seen)[|Rises(0, seen)| - 1]
  {
    hide *;
    var (q, rise) := (Readings(s.queue), Rises(0, seen));
    OnTrackFacts(s, seen, context);
    RisesStrict(seen);
    LastValue(q, seen);
    LastSettled(q, seen);
    SameValueSame(rise, q[|q| - 1]);
  }

  lemma OnTrackFacts(s: Stream, seen: seq<Reading>, context: Context)
    requires OnTrack(s, seen, context) && s.commits == []
    ensures Strict(Readings(s.queue)) && AllSettled(Readings(s.queue), [], seen)
    ensures Level(0, Readings(s.queue)) == Level(0, seen)
  {
    hide Level, Share, Settled, Rises;
    assert [] + Readings(s.queue) == Readings(s.queue);
  }

  lemma LastValue(q: seq<Reading>, seen: seq<Reading>)
    requires Strict(q) && Level(0, q) == Level(0, seen) > 0
    ensures q != [] && q[|q| - 1].value.Some? && q[|q| - 1].value.value == Level(0, seen)
  {
    EmptyLevel();
    hide Level;
    assert [] + q == q;
    QueueLevel([], q);
  }

  lemma LastSettled(q: seq<Reading>, seen: seq<Reading>)
    requires q != [] && AllSettled(q, [], seen)
    ensures var r := q[|q| - 1]; r.value.Some? && (r.value.value <= 0 || r in Rises(0, seen))
  {
    hide Rises;
    EmptyLevel();
    assert Settled(q[|q| - 1], [], seen);
  }

  lemma SameValueSame(rise: seq<Reading>, r: Reading)
    requires Strict(rise) && r in rise && r.value == rise[|rise| - 1].value
    ensures r == rise[|rise| - 1]
  {
    var k :| 0 <= k < |rise| && rise[k] == r;
  }

  lemma ContextQueued(s: Stream, seen: seq<Reading>, r: Reading) returns (i: nat)
    requires OnTrack(s, seen, r.context) && s.commits == [] && r in Rises(0, seen)
    ensures i < |s.queue| && s.queue[i].reading.context == r.context
    ensures s.queue[i].reading.value.Some? && s.queue[i].reading.value.value > 0
  {
    hide Share, Level, Rises;
    RiseCharges(seen, r);
    var q := Readings(s.queue);
    assert [] + q == q;
    i := ChargedReading(0, q, r.context);
  }

  lemma FirstPassOnTrack(first: seq<Reading>, later: seq<Reading>, context: Context)
    requires Rising(first + later)
    ensures OnTrack(PassOn(NEW_STREAM, Outage(first)), first, context)
  {
    hide OnTrack, PassOn, Rising;
    NewOnTrack(context);
    assert [] + (first + later) == first + later && [] + first == first;
    OnTrackPass(NEW_STREAM, [], Outage(first), later, context);
  }

  // ---- put together ----

  /** The state before the third pass, and what makes it unsafe. */
  lemma TwoPasses(first: seq<Reading>, r: Reading, rest: seq<Reading>, earlier: Reading)
    requires Rising(first + ([r] + rest)) && r.value.Some? && r.value.value > Level(0, first)
    requires earlier in Rises(0, first) && earlier.context == r.context
    requires Rises(0, first)[|Rises(0, first)| - 1].context != r.context
    ensures var n := PassOn(PassOn(NEW_STREAM, Outage(first)), Arrival(r));
            && WellFormed(n.queue) && !Safe(n, 0.12) && Continues(n, rest)
            && forall context :: SameCharges(n.commits + Readings(n.queue), first + [r], context)
  {
    hide Level, Share, Rising, Safe, PassOn, Rises;
    var s := PassOn(NEW_STREAM, Outage(first));
    OutageWaits(first);
    FirstPassOnTrack(first, [r] + rest, r.context);
    LastIsLastRise(s, first, r.context);
    RisesStrict(first);
    ArrivalWaits(s, r);
    var n := PassOn(s, Arrival(r));
    var i := ContextQueued(s, first, earlier);
    assert s.queue[i].reading.context != s.queue[|s.queue| - 1].reading.context;
    UnsafeThen(n, s.queue, r, i);
    ArrivalReadings(s, r);
    forall context ensures SameCharges(n.commits + Readings(n.queue), first + [r], context) {
      FirstPassOnTrack(first, [r] + rest, context);
      assert n.commits + Readings(n.queue) == s.commits + Readings(s.queue) + [r];
      ChargesExtend(s.commits + Readings(s.queue), first, [r], context);
    }
    ArrivalContinues(s, n, first, r, rest);
  }

  lemma ArrivalReadings(s: Stream, r: Reading)
    ensures Readings(s.queue + [Item(0.16, 0, r)]) == Readings(s.queue) + [r]
  {
  }

  lemma ArrivalContinues(s: Stream, n: Stream, first: seq<Reading>, r: Reading, rest: seq<Reading>)
    requires Within(Readings(s.queue), first) && Readings(n.queue) == Readings(s.queue) + [r] && Rising(first + ([r] + rest))
    ensures Continues(n, rest)
  {
    hide Rising, Continues;
    assert first + [r] + (rest + []) == first + ([r] + rest);
    forall x | x in Readings(n.queue) ensures x in first + [r] {
    }
    RisingContinues(n, first + [r], rest, []);
  }

  lemma ThreeObserved(first: seq<Reading>, r: Reading, rest: seq<Reading>, choices: seq<Choice>)
    ensures Observed([Outage(first), Arrival(r), Later(rest, choices)]) == first + [r] + rest
    ensures Run(NEW_STREAM, [Outage(first), Arrival(r), Later(rest, choices)]) ==
              PassOn(PassOn(PassOn(NEW_STREAM, Outage(first)), Arrival(r)), Later(rest, choices))
  {
    hide PassOn;
    var (a, b, c) := (Outage(first), Arrival(r), Later(rest, choices));
    assert [a, b, c][1..] == [b, c] && [b, c][1..] == [c] && [c][1..] == [];
    assert Observed([c]) == rest + [] == rest;
    assert Observed([b, c]) == [r] + rest;
    assert forall s :: Run(s, [c]) == PassOn(s, c) by {
      assert forall s :: Run(s, []) == s;
    }
    assert forall s :: Run(s, [b, c]) == Run(PassOn(s, b), [c]);
  }

  /** Three passes 60 ms apart mischarge any nondecreasing stream that is not
      grouped: storage fails while everything up to the returning reading arrives;
      that one is observed before the others are due again; then the others are
      retried. */
  lemma ReturningMischarges(rs: seq<Reading>) returns (ps: seq<PassInput>, context: Context)
    requires Rising(rs) && !Grouped(Rises(0, rs))
    ensures Timed(NEW_STREAM, ps) && Observed(ps) == rs && Charged(Run(NEW_STREAM, ps), context) < Share(0, rs, context)
  {
    hide Rising, Grouped, Rises, Level, Share, PassOn, Run, Observed, WellFormed, Safe, Continues, Timed, InTime;
    var i, m := Returning(Rises(0, rs));
    var k := RisePosition(rs, m);
    var (first, r, rest) := (rs[..k], rs[k], rs[k + 1..]);
    assert rs == first + ([r] + rest);
    assert Rises(0, first)[i] == Rises(0, rs)[i] && Rises(0, first)[m - 1] == Rises(0, rs)[m - 1];
    TwoPasses(first, r, rest, Rises(0, first)[i]);
    var n := PassOn(PassOn(NEW_STREAM, Outage(first)), Arrival(r));
    var choices, c := UnsafePassMischarges(n, 0.12, rest);
    ps, context := [Outage(first), Arrival(r), Later(rest, choices)], c;
    ThreeObserved(first, r, rest, choices);
    assert first + [r] + rest == rs;
    ChargesExtend(n.commits + Readings(n.queue), first + [r], rest, context);
    LaterIs(n, rest, choices);
    ThreeTimed(first, r, rest, choices);
  }

  lemma ThreeTimed(first: seq<Reading>, r: Reading, rest: seq<Reading>, choices: seq<Choice>)
    requires var n := PassOn(PassOn(NEW_STREAM, Outage(first)), Arrival(r));
             |choices| == |Due(n.queue, 0.12)| + |rest| && InTime(choices, 0.12)
    ensures Timed(NEW_STREAM, [Outage(first), Arrival(r), Later(rest, choices)])
  {
    hide PassOn, Due;
    var (a, b, c) := (Outage(first), Arrival(r), Later(rest, choices));
    var s := PassOn(NEW_STREAM, a);
    var n := PassOn(s, b);
    GivenChoices(choices);
    AllAtOnce(NEW_STREAM, a, 0.0);
    AllAtOnce(s, b, 0.06);
    assert Timed(PassOn(n, c), []);
    assert [c][1..] == [] && Timed(n, [c]);
    assert [b, c][1..] == [c] && Timed(s, [b, c]);
    assert [a, b, c][1..] == [b, c];
  }

  lemma AllAtOnce(s: Stream, p: PassInput, clock: real)
    requires p.now <= clock && forall i: nat :: p.choice(i).clock == clock
    ensures InTime(Met(s, p), p.now) && LastClock(p.now, Met(s, p)) <= clock
  {
    hide Due;
  }

  lemma LaterIs(s: Stream, rest: seq<Reading>, choices: seq<Choice>)
    requires |choices| == |Due(s.queue, 0.12)| + |rest|
    ensures PassOn(s, Later(rest, choices)) == Pass(s, 0.12, rest, choices)
  {
    hide Pass;
    GivenChoices(choices);
  }

  /** The exact condition on a stream, which a caller can check before any of it
      is queued: every run the event loop can make of it, whatever its split into
      passes, its failures and its timing, charges each context what a run without
      failures would, if and only if no context comes back after another one has
      counted pulses. */
  lemma TransparentExactly(rs: seq<Reading>)
    requires Rising(rs)
    ensures Grouped(Rises(0, rs)) <==>
              forall ps, context :: Observed(ps) == rs && Timed(NEW_STREAM, ps) ==> Charged(Run(NEW_STREAM, ps), context) == Share(0, rs, context)
  {
    hide Rising, Grouped, Rises, Level, Share, Run, Observed, Timed;
    if Grouped(Rises(0, rs)) {
      forall ps, context | Observed(ps) == rs && Timed(NEW_STREAM, ps) ensures Charged(Run(NEW_STREAM, ps), context) == Share(0, rs, context) {
        GroupedIsTransparent(ps, context);
      }
    } else {
      var ps, context := ReturningMischarges(rs);
    }
  }
}
