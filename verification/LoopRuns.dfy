/** Whole runs of the coordinator's loop, over every stream and result at once. */
module LoopRuns {
  import opened Common
  import opened CounterStream
  import opened Attribution
  import opened CounterRuns
  import opened StreamRuns
  import opened StreamConverse
  import opened Coordinator
  import opened ResultOwner

  /** One pass of the loop: its time, what arrived, and what each processing step meets. */
  datatype LoopPass = LoopPass(now: real, arrived: seq<Event>, choice: nat -> Choice)

  /** What the steps of this pass meet. */
  function LoopMet(c: Coord, p: LoopPass): (choices: seq<Choice>)
    ensures |choices| == |DueItems(c.queue, p.now)| + |p.arrived|
  {
    Choices(p.choice, |DueItems(c.queue, p.now)| + |p.arrived|)
  }

  function PassLoop(c: Coord, p: LoopPass): Coord {
    PassCoord(c, p.now, p.arrived, LoopMet(c, p))
  }

  function RunLoop(c: Coord, ps: seq<LoopPass>): Coord
    decreases |ps|
  {
    if ps == [] then c else RunLoop(PassLoop(c, ps[0]), ps[1..])
  }

  function Arrived(ps: seq<LoopPass>): seq<Event> {
    if ps == [] then [] else ps[0].arrived + Arrived(ps[1..])
  }

  /** A run the event loop can make, as `Timed` says of one stream. */
  predicate TimedLoop(c: Coord, ps: seq<LoopPass>)
    decreases |ps|
  {
    ps == []
    || (InTime(LoopMet(c, ps[0]), ps[0].now)
        && (|ps| > 1 ==> LastClock(ps[0].now, LoopMet(c, ps[0])) + PAUSE <= ps[1].now)
        && TimedLoop(PassLoop(c, ps[0]), ps[1..]))
  }

  const NEW_LOOP := Coord([], [], false)

  lemma PassLost(c: Coord, p: LoopPass)
    requires !PassLoop(c, p).lost
    ensures !c.lost
  {
    hide RunTasks, Tasks, DueItems, LaterItems;
    var choices := Choices(p.choice, |DueItems(c.queue, p.now)| + |p.arrived|);
    if c.lost { LostForGood(c.(queue := LaterItems(c.queue, p.now)), Tasks(DueItems(c.queue, p.now), p.arrived, choices)); }
  }

  lemma {:induction false} RunLost(c: Coord, ps: seq<LoopPass>)
    requires !RunLoop(c, ps).lost
    ensures !c.lost
    decreases |ps|
  {
    hide PassLoop;
    if ps != [] {
      RunLost(PassLoop(c, ps[0]), ps[1..]);
      PassLost(c, ps[0]);
    }
  }

  lemma {:induction false} ReadingsOfAppend(a: seq<Event>, b: seq<Event>, id: StreamId)
    ensures ReadingsOf(a + b, id) == ReadingsOf(a, id) + ReadingsOf(b, id)
    decreases |a|
  {
    if a == [] {
      assert a + b == b;
    } else {
      assert (a + b)[1..] == a[1..] + b;
      ReadingsOfAppend(a[1..], b, id);
    }
  }

  // ---- every stream by itself ----

  lemma PassLoopSeparates(c: Coord, p: LoopPass, id: StreamId) returns (q: PassInput)
    requires !PassLoop(c, p).lost
    ensures q.observed == ReadingsOf(p.arrived, id) && View(PassLoop(c, p), id) == PassOn(View(c, id), q)
  {
    hide View, PassCoord, Pass;
    var choices := Choices(p.choice, |DueItems(c.queue, p.now)| + |p.arrived|);
    var mine := PassSeparates(c, p.now, p.arrived, choices, id);
    q := PassInput(p.now, ReadingsOf(p.arrived, id), Given(mine));
    GivenChoices(mine);
  }

  /** Seen from one counter stream, a run of the loop is a run of that stream alone. */
  lemma {:induction false} RunLoopSeparates(c: Coord, ps: seq<LoopPass>, id: StreamId) returns (qs: seq<PassInput>)
    requires !RunLoop(c, ps).lost
    ensures Observed(qs) == ReadingsOf(Arrived(ps), id) && View(RunLoop(c, ps), id) == CounterRuns.Run(View(c, id), qs)
    decreases |ps|
  {
    hide View, PassLoop, PassOn, ReadingsOf;
    if ps == [] {
      qs := [];
      NoReadings(id);
    } else {
      RunLost(PassLoop(c, ps[0]), ps[1..]);
      var q := PassLoopSeparates(c, ps[0], id);
      var rest := RunLoopSeparates(PassLoop(c, ps[0]), ps[1..], id);
      qs := [q] + rest;
      assert qs[1..] == rest;
      ReadingsOfAppend(ps[0].arrived, Arrived(ps[1..]), id);
    }
  }

  lemma NoReadings(id: StreamId)
    ensures ReadingsOf([], id) == []
  {
  }

  lemma NewView(id: StreamId)
    ensures View(NEW_LOOP, id) == NEW_STREAM
  {
  }

  /** The attribution theorem for the loop itself: in any run that loses nothing,
      a nondecreasing stream in which no context comes back after another one
      counted is charged as if every reading had committed when it arrived,
      whatever else shares the queue, fails or is retried. */
  lemma LoopIsTransparent(ps: seq<LoopPass>, id: StreamId, context: Context)
    requires !RunLoop(NEW_LOOP, ps).lost
    requires Rising(ReadingsOf(Arrived(ps), id)) && Grouped(Rises(0, ReadingsOf(Arrived(ps), id)))
    ensures Charged(View(RunLoop(NEW_LOOP, ps), id), context) == Share(0, ReadingsOf(Arrived(ps), id), context)
  {
    hide *;
    var qs := RunLoopSeparates(NEW_LOOP, ps, id);
    NewView(id);
    GroupedIsTransparent(qs, context);
  }

  // ---- a stream with the loop to itself ----

  function Arrivals(rs: seq<Reading>, id: StreamId): (events: seq<Event>)
    ensures |events| == |rs|
  {
    seq(|rs|, i requires 0 <= i < |rs| => CountersEvent(id, rs[i]))
  }

  function Lift(s: Stream, id: StreamId): Coord {
    Coord(Boundaries(s.queue, id), Arrivals(s.commits, id), false)
  }

  lemma {:induction false} ReadingsOfArrivals(rs: seq<Reading>, id: StreamId)
    ensures ReadingsOf(Arrivals(rs, id), id) == rs
    decreases |rs|
  {
    if rs != [] {
      assert Arrivals(rs, id)[1..] == Arrivals(rs[1..], id);
      ReadingsOfArrivals(rs[1..], id);
    }
  }

  lemma {:induction false} CommitsOfArrivals(rs: seq<Reading>, id: StreamId)
    ensures CommitsOf(Arrivals(rs, id), id) == rs
    decreases |rs|
  {
    if rs != [] {
      var n := |rs| - 1;
      assert Arrivals(rs, id)[..n] == Arrivals(rs[..n], id);
      CommitsOfArrivals(rs[..n], id);
    }
  }

  lemma {:induction false} NoneUnrelated(items: seq<Item>, id: StreamId)
    ensures Unrelated(Boundaries(items, id), id) == []
    decreases |items|
  {
    if items != [] {
      assert Boundaries(items, id)[1..] == Boundaries(items[1..], id);
      NoneUnrelated(items[1..], id);
    }
  }

  lemma LiftView(s: Stream, id: StreamId)
    ensures View(Lift(s, id), id) == s
  {
    MineOfBoundaries(s.queue, id);
    CommitsOfArrivals(s.commits, id);
  }

  lemma {:induction false} NormalizeShorter(items: seq<Item>)
    ensures |Normalize(items)| <= |items|
    decreases |items|
  {
    if |items| > 1 {
      var (a, b) := (items[0], items[1]);
      NormalizeShorter([Item(a.deadline, Max(a.attempt, b.attempt), a.reading)] + items[2..]);
      NormalizeShorter([Item(a.deadline, Max(a.attempt, b.attempt), b.reading)] + items[2..]);
      NormalizeShorter([b.(deadline := MaxReal(b.deadline, a.deadline))] + items[2..]);
    }
  }

  lemma {:induction false} SortIntoLength(sorted: seq<Item>, item: Item)
    ensures |SortInto(sorted, item)| == |sorted| + 1
    decreases |sorted|
  {
    hide Before;
    if sorted != [] {
      SortIntoLength(sorted[..|sorted| - 1], item);
    }
  }

  lemma {:induction false} SortedLength(items: seq<Item>)
    ensures |Sorted(items)| == |items|
    decreases |items|
  {
    hide SortInto;
    if items != [] {
      SortedLength(items[..|items| - 1]);
      SortIntoLength(Sorted(items[..|items| - 1]), items[|items| - 1]);
    }
  }

  lemma ScheduleLength(clock: real, queue: seq<Item>, r: Reading, attempt: nat)
    ensures |Schedule(clock, queue, r, attempt)| <= |queue| + 1
  {
    hide Sorted, Normalize, RetryDelay;
    SortedLength(queue + [Item(clock + RetryDelay(attempt), attempt, r)]);
    NormalizeShorter(Sorted(queue + [Item(clock + RetryDelay(attempt), attempt, r)]));
  }

  lemma LiftSchedule(clock: real, s: Stream, id: StreamId, r: Reading, attempt: nat)
    requires |s.queue| < QUEUE_LIMIT
    ensures ScheduleEvent(clock, Boundaries(s.queue, id), CountersEvent(id, r), attempt)
            == Scheduled(Boundaries(Schedule(clock, s.queue, r, attempt), id), false)
  {
    hide Schedule, Mine, Unrelated, Boundaries;
    MineOfBoundaries(s.queue, id);
    NoneUnrelated(s.queue, id);
    ScheduleLength(clock, s.queue, r, attempt);
    var boundaries := Boundaries(Schedule(clock, s.queue, r, attempt), id);
    assert [] + boundaries == boundaries;
  }

  lemma LiftCommit(s: Stream, id: StreamId, r: Reading)
    ensures Handle(Lift(s, id), CountersEvent(id, r)) == Lift(Commit(s, r), id)
  {
    hide Level, Boundaries;
    CommitsOfArrivals(s.commits, id);
    assert Arrivals(s.commits + [r], id) == Arrivals(s.commits, id) + [CountersEvent(id, r)];
  }

  lemma LiftStep(s: Stream, id: StreamId, w: Work, choice: Choice)
    requires |s.queue| < QUEUE_LIMIT
    ensures StepCoord(Lift(s, id), Task(CountersEvent(id, w.reading), w.attempt, choice))
            == Lift(CounterStream.Step(s, w.reading, w.attempt, choice), id)
    ensures |CounterStream.Step(s, w.reading, w.attempt, choice).queue| <= |s.queue| + 1
  {
    hide Deferred, Defers, Handle, Commit, ScheduleEvent, Schedule, Boundaries, Arrivals;
    LiftDefers(s.queue, id, w);
    LiftSchedule(choice.clock, s, id, w.reading, w.attempt);
    LiftSchedule(choice.clock, s, id, w.reading, w.attempt + 1);
    ScheduleLength(choice.clock, s.queue, w.reading, w.attempt);
    ScheduleLength(choice.clock, s.queue, w.reading, w.attempt + 1);
    LiftCommit(s, id, w.reading);
    CommitQueue(s, w.reading);
  }

  lemma CommitQueue(s: Stream, r: Reading)
    ensures Commit(s, r).queue == s.queue
  {
  }

  lemma LiftDefers(queue: seq<Item>, id: StreamId, w: Work)
    ensures Deferred(Boundaries(queue, id), CountersEvent(id, w.reading), w.attempt) <==> Defers(queue, w.reading, w.attempt)
  {
    hide Deferred, Defers, Mine, Boundaries;
    DeferSeparates(Boundaries(queue, id), id, w.reading, w.attempt);
    MineOfBoundaries(queue, id);
  }

  function LiftTasks(work: seq<Work>, choices: seq<Choice>, id: StreamId): (tasks: seq<Task>)
    requires |work| == |choices|
    ensures |tasks| == |work|
  {
    seq(|work|, i requires 0 <= i < |work| => Task(CountersEvent(id, work[i].reading), work[i].attempt, choices[i]))
  }

  lemma {:induction false} LiftProcess(s: Stream, id: StreamId, work: seq<Work>, choices: seq<Choice>)
    requires |work| == |choices| && |s.queue| + |work| <= QUEUE_LIMIT
    ensures RunTasks(Lift(s, id), LiftTasks(work, choices, id)) == Lift(Process(s, work, choices), id)
    ensures |Process(s, work, choices).queue| <= |s.queue| + |work|
    decreases |work|
  {
    hide StepCoord, CounterStream.Step, Lift;
    if work != [] {
      LiftStep(s, id, work[0], choices[0]);
      assert LiftTasks(work, choices, id)[1..] == LiftTasks(work[1..], choices[1..], id);
      LiftProcess(CounterStream.Step(s, work[0].reading, work[0].attempt, choices[0]), id, work[1..], choices[1..]);
    }
  }

  lemma {:induction false} LiftDue(queue: seq<Item>, id: StreamId, now: real)
    ensures DueItems(Boundaries(queue, id), now) == Boundaries(Due(queue, now), id)
    ensures LaterItems(Boundaries(queue, id), now) == Boundaries(NotDue(queue, now), id)
    ensures |Due(queue, now)| + |NotDue(queue, now)| == |queue|
    decreases |queue|
  {
    hide Boundaries;
    if queue == [] {
      NoBoundaries(id);
    } else {
      var item := queue[0];
      LiftDue(queue[1..], id, now);
      BoundariesCons(item, queue[1..], id);
      BoundariesCons(item, Due(queue[1..], now), id);
      BoundariesCons(item, NotDue(queue[1..], now), id);
      assert [item] + queue[1..] == queue;
      if item.deadline <= now {
        assert NotDue(queue, now) == NotDue(queue[1..], now);
      } else {
        assert Due(queue, now) == Due(queue[1..], now);
      }
    }
  }

  lemma NoBoundaries(id: StreamId)
    ensures Boundaries([], id) == []
  {
  }

  lemma BoundariesCons(item: Item, rest: seq<Item>, id: StreamId)
    ensures var q := Queued(item.deadline, item.attempt, CountersEvent(id, item.reading));
            var all := Boundaries([item] + rest, id);
            all == [q] + Boundaries(rest, id) && all[0] == q && all[1..] == Boundaries(rest, id)
  {
  }

  lemma LiftAllTasks(due: seq<Item>, observed: seq<Reading>, choices: seq<Choice>, id: StreamId)
    requires |choices| == |due| + |observed|
    ensures Tasks(Boundaries(due, id), Arrivals(observed, id), choices) == LiftTasks(Retries(due) + Fresh(observed), choices, id)
  {
  }

  /** A stream's pass is the loop's pass when nothing else is queued. */
  lemma LiftPass(s: Stream, id: StreamId, p: PassInput)
    requires |s.queue| + |p.observed| <= QUEUE_LIMIT
    ensures PassLoop(Lift(s, id), LoopPass(p.now, Arrivals(p.observed, id), p.choice)) == Lift(PassOn(s, p), id)
    ensures |PassOn(s, p).queue| <= |s.queue| + |p.observed|
    ensures LoopMet(Lift(s, id), LoopPass(p.now, Arrivals(p.observed, id), p.choice)) == Met(s, p)
  {
    hide RunTasks, Process, Tasks, LiftTasks, DueItems, LaterItems, Due, NotDue, Boundaries, Arrivals;
    LiftDue(s.queue, id, p.now);
    var (due, later) := (Due(s.queue, p.now), NotDue(s.queue, p.now));
    var choices := Choices(p.choice, |due| + |p.observed|);
    LiftAllTasks(due, p.observed, choices, id);
    LiftProcess(s.(queue := later), id, Retries(due) + Fresh(p.observed), choices);
  }

  function LiftPasses(ps: seq<PassInput>, id: StreamId): (qs: seq<LoopPass>)
    ensures |qs| == |ps|
  {
    seq(|ps|, i requires 0 <= i < |ps| => LoopPass(ps[i].now, Arrivals(ps[i].observed, id), ps[i].choice))
  }

  lemma {:induction false} LiftRun(s: Stream, id: StreamId, ps: seq<PassInput>)
    requires |s.queue| + |Observed(ps)| <= QUEUE_LIMIT
    ensures RunLoop(Lift(s, id), LiftPasses(ps, id)) == Lift(CounterRuns.Run(s, ps), id)
    ensures Arrived(LiftPasses(ps, id)) == Arrivals(Observed(ps), id)
    ensures TimedLoop(Lift(s, id), LiftPasses(ps, id)) == Timed(s, ps)
    decreases |ps|
  {
    hide PassLoop, PassOn, Lift, InTime, LoopMet, Met, LastClock;
    if ps != [] {
      var p := ps[0];
      LiftPass(s, id, p);
      assert LiftPasses(ps, id)[1..] == LiftPasses(ps[1..], id);
      LiftRun(PassOn(s, p), id, ps[1..]);
      assert Arrivals(p.observed + Observed(ps[1..]), id) == Arrivals(p.observed, id) + Arrivals(Observed(ps[1..]), id);
    }
  }

  lemma NewLift(id: StreamId)
    ensures Lift(NEW_STREAM, id) == NEW_LOOP
  {
  }

  lemma LiftLosesNothing(s: Stream, id: StreamId)
    ensures !Lift(s, id).lost
  {
  }

  /** And the loop does mischarge a stream that is not grouped, with nothing else
      in it and nothing lost, provided the stream's readings fit the queue. */
  lemma LoopMischarges(rs: seq<Reading>, id: StreamId) returns (ps: seq<LoopPass>, context: Context)
    requires Rising(rs) && !Grouped(Rises(0, rs)) && |rs| <= QUEUE_LIMIT
    ensures TimedLoop(NEW_LOOP, ps) && !RunLoop(NEW_LOOP, ps).lost && ReadingsOf(Arrived(ps), id) == rs
    ensures Charged(View(RunLoop(NEW_LOOP, ps), id), context) < Share(0, rs, context)
  {
    hide *;
    var qs, c := ReturningMischarges(rs);
    ps, context := LiftPasses(qs, id), c;
    NewLift(id);
    NothingQueued();
    LiftRun(NEW_STREAM, id, qs);
    var n := CounterRuns.Run(NEW_STREAM, qs);
    LiftView(n, id);
    LiftLosesNothing(n, id);
    ReadingsOfArrivals(rs, id);
  }

  /** The exact condition for the loop: with whatever else in the queue, every run
      it can make that loses nothing charges a stream that fits the queue rightly if and only
      if no context comes back after another one has counted pulses. */
  lemma LoopTransparentExactly(rs: seq<Reading>, id: StreamId)
    requires Rising(rs) && |rs| <= QUEUE_LIMIT
    ensures Grouped(Rises(0, rs)) <==>
              forall ps, context :: TimedLoop(NEW_LOOP, ps) && !RunLoop(NEW_LOOP, ps).lost && ReadingsOf(Arrived(ps), id) == rs ==>
                Charged(View(RunLoop(NEW_LOOP, ps), id), context) == Share(0, rs, context)
  {
    hide *;
    if Grouped(Rises(0, rs)) {
      forall ps, context | TimedLoop(NEW_LOOP, ps) && !RunLoop(NEW_LOOP, ps).lost && ReadingsOf(Arrived(ps), id) == rs
        ensures Charged(View(RunLoop(NEW_LOOP, ps), id), context) == Share(0, rs, context)
      {
        LoopIsTransparent(ps, id, context);
      }
    } else {
      var ps, context := LoopMischarges(rs, id);
    }
  }

  lemma NothingQueued()
    ensures NEW_STREAM.queue == []
  {
  }

  // ---- results ----

  lemma {:induction false} FirstOfBoth(a: seq<Event>, b: seq<Event>, e: Event)
    ensures FirstLogged(a + b, e) == if FirstLogged(a, e).Some? then FirstLogged(a, e) else FirstLogged(b, e)
    decreases |a|
  {
    hide SameIdentity;
    if a == [] {
      assert a + b == b;
    } else {
      assert (a + b)[1..] == a[1..] + b;
      FirstOfBoth(a[1..], b, e);
    }
  }

  lemma {:induction false} RunKeepsOwner(c: Coord, ps: seq<LoopPass>, e: Event)
    requires e.ResultEvent? && Orderly(c.queue, e) && !RunLoop(c, ps).lost
    ensures var n := RunLoop(c, ps);
            Orderly(n.queue, e) && Owner(n, [], e) == if Owner(c, [], e).Some? then Owner(c, [], e) else FirstLogged(Arrived(ps), e)
    decreases |ps|
  {
    hide Orderly, Owner, FirstLogged, PassCoord;
    if ps == [] {
      NoneLogged(e);
    } else {
      var p := ps[0];
      RunLost(PassLoop(c, p), ps[1..]);
      PassKeepsOwner(c, p.now, p.arrived, Choices(p.choice, |DueItems(c.queue, p.now)| + |p.arrived|), e);
      FirstOfBoth(p.arrived, Arrived(ps[1..]), e);
      RunKeepsOwner(PassLoop(c, p), ps[1..], e);
    }
  }

  lemma NoneLogged(e: Event)
    ensures FirstLogged([], e) == None
  {
  }

  lemma NewOwnsNothing(e: Event)
    ensures Orderly(NEW_LOOP.queue, e) && Owner(NEW_LOOP, [], e) == None
  {
  }

  /** Over any run of the loop that loses nothing, a device result belongs to the
      event and context of its first arrival, and is still queued or committed
      under it, however often it is replayed and however often commits fail. */
  lemma FirstArrivalOwns(ps: seq<LoopPass>, e: Event)
    requires e.ResultEvent? && !RunLoop(NEW_LOOP, ps).lost
    ensures Owner(RunLoop(NEW_LOOP, ps), [], e) == FirstLogged(Arrived(ps), e)
  {
    hide *;
    NewOwnsNothing(e);
    RunKeepsOwner(NEW_LOOP, ps, e);
  }
}
