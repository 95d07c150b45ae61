/** What a run of the retry queue that loses nothing still holds, and what one
    good pass makes of it. */
module RetryHeld {
  import opened Common
  import opened CounterStream
  import opened CounterRuns
  import opened Coordinator
  import opened ResultOwner
  import opened LoopRuns
  import opened RetryLoss

  lemma {:induction false} ArrivedIsFirst(events: seq<Event>, e: Event)
    requires e in events && e.ResultEvent?
    ensures FirstLogged(events, e).Some?
    decreases |events|
  {
    if !SameIdentity(events[0], e) {
      ArrivedIsFirst(events[1..], e);
    }
  }

  lemma {:induction false} LoggedIfFirst(log: seq<Event>, e: Event)
    requires FirstLogged(log, e).Some?
    ensures Logged(log, e)
    decreases |log|
  {
    if SameIdentity(log[0], e) {
    } else {
      LoggedIfFirst(log[1..], e);
      var i :| 0 <= i < |log[1..]| && SameIdentity(log[1..][i], e);
      assert log[i + 1] == log[1..][i];
    }
  }

  predicate Waiting(queue: seq<Queued>, e: Event) {
    exists i :: 0 <= i < |queue| && SameIdentity(queue[i].event, e)
  }

  /** In a run that loses nothing every result that arrived is committed or still
      waits, under its identity. */
  lemma ResultKept(ps: seq<LoopPass>, e: Event)
    requires !RunLoop(NEW_LOOP, ps).lost && e in Arrived(ps) && e.ResultEvent?
    ensures var n := RunLoop(NEW_LOOP, ps); Logged(n.log, e) || Waiting(n.queue, e)
  {
    hide RunLoop, Logged, FirstLogged, Own, IdentityIndex;
    FirstArrivalOwns(ps, e);
    ArrivedIsFirst(Arrived(ps), e);
    var n := RunLoop(NEW_LOOP, ps);
    if FirstLogged(n.log, e).Some? {
      LoggedIfFirst(n.log, e);
    } else {
      NoTasks(e);
      OwnIndex(n.queue, e);
    }
  }

  /** A counter value at least this one, of this stream. */
  predicate Covers(events: seq<Event>, id: StreamId, value: int) {
    exists i :: 0 <= i < |events| && Covering(events[i], id, value)
  }

  predicate Covering(e: Event, id: StreamId, value: int) {
    e.CountersEvent? && e.stream == id && e.reading.value.Some? && value <= e.reading.value.value
  }

  lemma CoversSplit(a: seq<Event>, b: seq<Event>, id: StreamId, value: int)
    ensures Covers(a + b, id, value) <==> Covers(a, id, value) || Covers(b, id, value)
  {
    hide Covering;
    var all := a + b;
    if Covers(all, id, value) {
      var i :| 0 <= i < |all| && Covering(all[i], id, value);
      assert if i < |a| then all[i] == a[i] else all[i] == b[i - |a|];
    }
    if Covers(a, id, value) {
      var i :| 0 <= i < |a| && Covering(a[i], id, value);
      assert all[i] == a[i];
    }
    if Covers(b, id, value) {
      var i :| 0 <= i < |b| && Covering(b[i], id, value);
      assert all[|a| + i] == b[i];
    }
  }

  lemma {:induction false} CoversMine(queue: seq<Queued>, id: StreamId, value: int)
    ensures Covers(EventsIn(queue), id, value) <==> Reaches(Mine(queue, id), value)
    decreases |queue|
  {
    hide Covering, Reaches, Covers, EventsIn;
    if queue == [] {
      NothingCovers(queue, id, value);
    } else {
      var (q, rest) := (queue[0], queue[1..]);
      CoversMine(rest, id, value);
      assert queue == [q] + rest;
      EventsAppend([q], rest);
      CoversSplit(EventsIn([q]), EventsIn(rest), id, value);
      OneCovers(q, id, value);
      if InStream(q, id) {
        ReachesFront(Item(q.deadline, q.attempt, q.event.reading), Mine(rest, id), value);
      } else {
        assert Mine(queue, id) == [] + Mine(rest, id) == Mine(rest, id);
      }
    }
  }

  lemma {:induction false} NothingCovers(queue: seq<Queued>, id: StreamId, value: int)
    requires queue == []
    ensures !Covers(EventsIn(queue), id, value) && !Reaches(Mine(queue, id), value)
  {
  }

  lemma OneCovers(q: Queued, id: StreamId, value: int)
    ensures Covers(EventsIn([q]), id, value) <==>
              InStream(q, id) && q.event.reading.value.Some? && value <= q.event.reading.value.value
  {
    assert EventsIn([q]) == [q.event];
    assert Covering([q.event][0], id, value) == Covering(q.event, id, value);
  }

  /** A value of this stream is committed, waits, or is still to be handled. */
  predicate Held(c: Coord, events: seq<Event>, id: StreamId, value: int) {
    value <= Checkpoint(CommitsOf(c.log, id)) || Covers(EventsIn(c.queue), id, value) || Covers(events, id, value)
  }

  lemma {:induction false} ScheduleCovers(clock: real, queue: seq<Queued>, e: Event, attempt: nat, id: StreamId, value: int)
    requires !ScheduleEvent(clock, queue, e, attempt).lost
    requires Covers(EventsIn(queue), id, value) || Covering(e, id, value)
    ensures Covers(EventsIn(ScheduleEvent(clock, queue, e, attempt).queue), id, value)
  {
    hide ScheduleEvent, Schedule, EventsIn, Mine, Covers;
    ScheduleSeparates(clock, queue, e, attempt, id);
    CoversMine(queue, id, value);
    CoversMine(ScheduleEvent(clock, queue, e, attempt).queue, id, value);
    if e.CountersEvent? && e.stream == id {
      hide Keys, Blanks, Distinct, ItemEvents;
      ScheduleApart(clock, Mine(queue, id), e.reading, attempt, id, value);
    }
  }

  lemma {:induction false} HandleCovers(c: Coord, e: Event, id: StreamId, value: int)
    requires value <= Checkpoint(CommitsOf(c.log, id)) || Covering(e, id, value)
    ensures value <= Checkpoint(CommitsOf(Handle(c, e).log, id))
  {
    hide Logged, CommitsOf, Level;
    CommitsAppend(c.log, e, id);
    if e.CountersEvent? {
      LevelPush(CommitsOf(c.log, id), e.reading);
      assert CommitsOf(c.log, id) + [] == CommitsOf(c.log, id);
    } else {
      assert CommitsOf(c.log, id) + [] == CommitsOf(c.log, id);
    }
  }

  lemma LevelPush(rs: seq<Reading>, r: Reading)
    ensures Checkpoint(rs + [r]) == if r.value.Some? && r.value.value > Checkpoint(rs) then r.value.value else Checkpoint(rs)
  {
    assert (rs + [r])[..|rs|] == rs;
  }

  lemma {:induction false} StepHolds(c: Coord, t: Task, rest: seq<Event>, id: StreamId, value: int)
    requires Held(c, [t.event] + rest, id, value) && !StepCoord(c, t).lost
    ensures Held(StepCoord(c, t), rest, id, value)
  {
    hide ScheduleEvent, Handle, Deferred, Covers, EventsIn, CommitsOf, Level;
    CoversSplit([t.event], rest, id, value);
    OneEventCovers(t.event, id, value);
    HandleQueue(c, t.event);
    if value <= Checkpoint(CommitsOf(c.log, id)) || Covers(EventsIn(c.queue), id, value) || Covering(t.event, id, value) {
      var n := StepCoord(c, t);
      if Deferred(c.queue, t.event, t.attempt) || t.choice.fails {
        if value > Checkpoint(CommitsOf(c.log, id)) {
          ScheduleCovers(t.choice.clock, c.queue, t.event, if Deferred(c.queue, t.event, t.attempt) then t.attempt else t.attempt + 1, id, value);
        }
      } else if value <= Checkpoint(CommitsOf(c.log, id)) || Covering(t.event, id, value) {
        HandleCovers(c, t.event, id, value);
      }
    }
  }

  lemma OneEventCovers(e: Event, id: StreamId, value: int)
    ensures Covers([e], id, value) <==> Covering(e, id, value)
  {
    assert Covering([e][0], id, value) == Covering(e, id, value);
  }

  lemma {:induction false} TasksHold(c: Coord, tasks: seq<Task>, later: seq<Event>, id: StreamId, value: int)
    requires Held(c, TaskEvents(tasks) + later, id, value) && !RunTasks(c, tasks).lost
    ensures Held(RunTasks(c, tasks), later, id, value)
    decreases |tasks|
  {
    hide Held, StepCoord;
    if tasks == [] {
      assert TaskEvents(tasks) + later == later;
    } else {
      var (t, rest) := (tasks[0], tasks[1..]);
      assert TaskEvents(tasks) + later == [t.event] + (TaskEvents(rest) + later);
      if StepCoord(c, t).lost {
        LostForGood(StepCoord(c, t), rest);
      }
      StepHolds(c, t, TaskEvents(rest) + later, id, value);
      TasksHold(StepCoord(c, t), rest, later, id, value);
    }
  }

  lemma {:induction false} DueCovers(queue: seq<Queued>, now: real, id: StreamId, value: int)
    requires Covers(EventsIn(queue), id, value)
    ensures Covers(EventsIn(DueItems(queue, now)), id, value) || Covers(EventsIn(LaterItems(queue, now)), id, value)
    decreases |queue|
  {
    hide Covers, EventsIn;
    if queue == [] {
      NothingCovers(queue, id, value);
    } else {
      var (q, rest) := (queue[0], queue[1..]);
      assert queue == [q] + rest;
      EventsAppend([q], rest);
      CoversSplit(EventsIn([q]), EventsIn(rest), id, value);
      if Covers(EventsIn(rest), id, value) {
        DueCovers(rest, now, id, value);
      }
      EventsAppend([q], DueItems(rest, now));
      CoversSplit(EventsIn([q]), EventsIn(DueItems(rest, now)), id, value);
      EventsAppend([q], LaterItems(rest, now));
      CoversSplit(EventsIn([q]), EventsIn(LaterItems(rest, now)), id, value);
      assert [] + DueItems(rest, now) == DueItems(rest, now) && [] + LaterItems(rest, now) == LaterItems(rest, now);
    }
  }

  lemma {:induction false} PassHolds(c: Coord, p: LoopPass, later: seq<Event>, id: StreamId, value: int)
    requires Held(c, p.arrived + later, id, value) && !PassLoop(c, p).lost
    ensures Held(PassLoop(c, p), later, id, value)
  {
    hide RunTasks, DueItems, LaterItems, Covers, CommitsOf, Level;
    var (due, rest) := (DueItems(c.queue, p.now), LaterItems(c.queue, p.now));
    var tasks := Tasks(due, p.arrived, LoopMet(c, p));
    assert TaskEvents(tasks) + later == EventsIn(due) + (p.arrived + later);
    CoversSplit(EventsIn(due), p.arrived + later, id, value);
    if Covers(EventsIn(c.queue), id, value) {
      DueCovers(c.queue, p.now, id, value);
    }
    TasksHold(c.(queue := rest), tasks, later, id, value);
  }

  lemma {:induction false} RunHolds(c: Coord, ps: seq<LoopPass>, id: StreamId, value: int)
    requires Held(c, Arrived(ps), id, value) && !RunLoop(c, ps).lost
    ensures Held(RunLoop(c, ps), [], id, value)
    decreases |ps|
  {
    hide Held, PassLoop;
    if ps != [] {
      RunLost(PassLoop(c, ps[0]), ps[1..]);
      PassHolds(c, ps[0], Arrived(ps[1..]), id, value);
      RunHolds(PassLoop(c, ps[0]), ps[1..], id, value);
    }
  }

  /** In a run that loses nothing, every counter value that arrived is committed,
      or one at least as high is, or such a one still waits. */
  lemma ValueKept(ps: seq<LoopPass>, e: Event)
    requires !RunLoop(NEW_LOOP, ps).lost && e in Arrived(ps) && e.CountersEvent? && e.reading.value.Some?
    ensures var n := RunLoop(NEW_LOOP, ps);
            e.reading.value.value <= Checkpoint(CommitsOf(n.log, e.stream)) || Covers(EventsIn(n.queue), e.stream, e.reading.value.value)
  {
    hide RunLoop, CommitsOf, Level, EventsIn;
    var i :| 0 <= i < |Arrived(ps)| && Arrived(ps)[i] == e;
    assert Covering(Arrived(ps)[i], e.stream, e.reading.value.value);
    RunHolds(NEW_LOOP, ps, e.stream, e.reading.value.value);
    NoneCover(e.stream, e.reading.value.value);
  }

  lemma NoneCover(id: StreamId, value: int)
    ensures !Covers([], id, value)
  {
  }

  // ---- and when storage is back ----

  /** Everything due, and nothing fails. */
  predicate Healthy(c: Coord, p: LoopPass) {
    && (forall i :: 0 <= i < |c.queue| ==> c.queue[i].deadline <= p.now)
    && (forall i :: 0 <= i < |LoopMet(c, p)| ==> !LoopMet(c, p)[i].fails)
  }

  lemma {:induction false} AllDue(queue: seq<Queued>, now: real)
    requires forall i :: 0 <= i < |queue| ==> queue[i].deadline <= now
    ensures DueItems(queue, now) == queue && LaterItems(queue, now) == []
    decreases |queue|
  {
    if queue != [] {
      assert forall i :: 0 < i < |queue| ==> queue[i] == queue[1..][i - 1];
      AllDue(queue[1..], now);
    }
  }

  lemma {:induction false} NothingReturns(c: Coord, tasks: seq<Task>)
    requires c.queue == [] && forall i :: 0 <= i < |tasks| ==> !tasks[i].choice.fails
    ensures RunTasks(c, tasks).queue == [] && RunTasks(c, tasks).lost == c.lost
    decreases |tasks|
  {
    hide Handle;
    if tasks != [] {
      HandleQueue(c, tasks[0].event);
      assert !Deferred(c.queue, tasks[0].event, tasks[0].attempt);
      NothingReturns(StepCoord(c, tasks[0]), tasks[1..]);
    }
  }

  /** One pass in which everything is due and nothing fails empties the queue. */
  lemma {:induction false} HealthyPassEmpties(c: Coord, p: LoopPass)
    requires Healthy(c, p)
    ensures PassLoop(c, p).queue == [] && PassLoop(c, p).lost == c.lost
  {
    hide RunTasks;
    AllDue(c.queue, p.now);
    NothingReturns(c.(queue := []), Tasks(DueItems(c.queue, p.now), p.arrived, LoopMet(c, p)));
  }

  lemma {:induction false} RunThen(c: Coord, ps: seq<LoopPass>, p: LoopPass)
    ensures RunLoop(c, ps + [p]) == PassLoop(RunLoop(c, ps), p) && Arrived(ps + [p]) == Arrived(ps) + p.arrived
    decreases |ps|
  {
    hide PassLoop;
    if ps == [] {
      assert ps + [p] == [p] && [p][1..] == [];
      assert RunLoop(PassLoop(c, p), []) == PassLoop(c, p);
      assert Arrived([]) == [];
    } else {
      assert (ps + [p])[1..] == ps[1..] + [p];
      RunThen(PassLoop(c, ps[0]), ps[1..], p);
    }
  }

  /** Once a pass goes well, whatever failed before it: every result that arrived is
      committed, and every counter value is, or one at least as high. */
  lemma AllCommitted(ps: seq<LoopPass>, p: LoopPass, e: Event)
    requires Different(Arrived(ps + [p])) <= 128 && Healthy(RunLoop(NEW_LOOP, ps), p) && e in Arrived(ps + [p])
    ensures var n := RunLoop(NEW_LOOP, ps + [p]);
            && n.queue == [] && !n.lost
            && (e.ResultEvent? ==> Logged(n.log, e))
            && (e.CountersEvent? && e.reading.value.Some? ==> e.reading.value.value <= Checkpoint(CommitsOf(n.log, e.stream)))
  {
    hide Different, RunLoop, PassLoop, Logged, CommitsOf, Level, Healthy, Arrived;
    RunThen(NEW_LOOP, ps, p);
    HealthyPassEmpties(RunLoop(NEW_LOOP, ps), p);
    NeverLost(ps + [p]);
    if e.ResultEvent? {
      ResultKept(ps + [p], e);
    } else if e.CountersEvent? && e.reading.value.Some? {
      ValueKept(ps + [p], e);
    }
  }

  // ---- how long a retry waits ----

  /** A tenth of a second, doubled for each further attempt, at most five seconds. */
  lemma RetryDelays(attempt: nat)
    ensures RetryDelay(0) == RetryDelay(1) == 0.1 && RetryDelay(2) == 0.2 && RetryDelay(3) == 0.4
    ensures RetryDelay(4) == 0.8 && RetryDelay(5) == 1.6 && RetryDelay(6) == 3.2
    ensures attempt >= 7 ==> RetryDelay(attempt) == 5.0
  {
    Powers();
  }

  lemma Powers()
    ensures Pow2(0) == 1 && Pow2(1) == 2 && Pow2(2) == 4 && Pow2(3) == 8 && Pow2(4) == 16 && Pow2(5) == 32 && Pow2(6) == 64
  {
  }

  /** A result that fails with nothing queued waits a tenth of a second. */
  lemma FirstFailureWaits(e: Event, clock: real)
    requires e.ResultEvent?
    ensures StepCoord(NEW_LOOP, Task(e, 0, Choice(true, clock))) == Coord([Queued(clock + 0.1, 1, e)], [], false)
  {
    RetryDelays(1);
    hide RetryDelay;
  }

  /** Any other event is tried thirteen times: failing, it waits again while there
      is room, and is dropped after the thirteenth. */
  lemma {:induction false} OtherRetried(c: Coord, t: Task)
    requires t.event.OtherEvent? && t.choice.fails
    ensures var n := StepCoord(c, t);
            && n.lost == c.lost && n.log == c.log
            && (t.attempt >= 12 ==> n.queue == c.queue)
            && (t.attempt < 12 && |c.queue| < 128 ==> Waiting(n.queue, t.event))
  {
    hide RetryDelay;
    var n := StepCoord(c, t);
    if t.attempt < 12 && |c.queue| < 128 {
      var i := IdentityIndex(c.queue, t.event);
      assert i <= |c.queue| && (i < |n.queue|) && SameIdentity(n.queue[i].event, t.event);
    }
  }
}
