/** A device result is only ever committed under the context of its first
    observation, however often it is replayed and however often commits fail. */
module ResultOwner {
  import opened Common
  import opened CounterStream
  import opened Coordinator

  /** The queued copies of a result. */
  function Own(queue: seq<Queued>, e: Event): (own: seq<Queued>)
    ensures forall i :: 0 <= i < |own| ==> SameIdentity(own[i].event, e)
  {
    if queue == [] then []
    else (if SameIdentity(queue[0].event, e) then [queue[0]] else []) + Own(queue[1..], e)
  }

  function OwnTasks(tasks: seq<Task>, e: Event): seq<Task>
    decreases |tasks|
  {
    if tasks == [] then []
    else (if SameIdentity(tasks[0].event, e) then [tasks[0]] else []) + OwnTasks(tasks[1..], e)
  }

  function FirstLogged(log: seq<Event>, e: Event): Option<Event> {
    if log == [] then None
    else if SameIdentity(log[0], e) then Some(log[0])
    else FirstLogged(log[1..], e)
  }

  /** Whose context the result has or will get: as committed, else as queued,
      else as the next task will bring it. */
  function Owner(c: Coord, tasks: seq<Task>, e: Event): Option<Event> {
    if FirstLogged(c.log, e).Some? then FirstLogged(c.log, e)
    else if Own(c.queue, e) != [] then Some(Own(c.queue, e)[0].event)
    else if OwnTasks(tasks, e) != [] then Some(OwnTasks(tasks, e)[0].event)
    else None
  }

  /** At most one copy is queued, and it has failed at least once. */
  predicate Orderly(queue: seq<Queued>, e: Event) {
    |Own(queue, e)| <= 1 && forall i :: 0 <= i < |Own(queue, e)| ==> Own(queue, e)[i].attempt >= 1
  }

  /** A due retry is the first of its tasks and leaves no copy in the queue. */
  predicate Sequenced(c: Coord, tasks: seq<Task>, e: Event) {
    var own := OwnTasks(tasks, e);
    && Orderly(c.queue, e)
    && (forall i :: 1 <= i < |own| ==> own[i].attempt == 0)
    && (own != [] && own[0].attempt > 0 ==> Own(c.queue, e) == [])
  }

  lemma {:induction false} OwnAppend(a: seq<Queued>, b: seq<Queued>, e: Event)
    ensures Own(a + b, e) == Own(a, e) + Own(b, e)
    decreases |a|
  {
    if a == [] {
      assert a + b == b;
    } else {
      assert (a + b)[1..] == a[1..] + b;
      OwnAppend(a[1..], b, e);
    }
  }

  lemma OwnOne(q: Queued, e: Event)
    ensures Own([q], e) == if SameIdentity(q.event, e) then [q] else []
  {
    assert [q][1..] == [];
  }

  lemma OwnSplit(queue: seq<Queued>, i: nat, e: Event)
    requires i < |queue|
    ensures Own(queue, e) == Own(queue[..i], e) + Own([queue[i]], e) + Own(queue[i + 1..], e)
  {
    assert queue == queue[..i] + [queue[i]] + queue[i + 1..];
    OwnAppend(queue[..i] + [queue[i]], queue[i + 1..], e);
    OwnAppend(queue[..i], [queue[i]], e);
  }

  lemma OwnWithout(queue: seq<Queued>, i: nat, e: Event)
    requires i < |queue| && !SameIdentity(queue[i].event, e)
    ensures Own(Without(queue, i), e) == Own(queue, e)
  {
    OwnOne(queue[i], e);
    hide Own, SameIdentity;
    OwnSplit(queue, i, e);
    OwnAppend(queue[..i], queue[i + 1..], e);
    assert Own(queue[..i], e) + [] == Own(queue[..i], e);
  }

  lemma {:induction false} OwnNone(queue: seq<Queued>, e: Event)
    requires forall i :: 0 <= i < |queue| ==> !SameIdentity(queue[i].event, e)
    ensures Own(queue, e) == []
    decreases |queue|
  {
    if queue != [] {
      OwnNone(queue[1..], e);
    }
  }

  lemma {:induction false} OwnOfUnrelated(queue: seq<Queued>, id: StreamId, e: Event)
    requires e.ResultEvent?
    ensures Own(Unrelated(queue, id), e) == Own(queue, e)
    decreases |queue|
  {
    if queue != [] {
      OwnOfUnrelated(queue[1..], id, e);
      OwnAppend(if InStream(queue[0], id) then [] else [queue[0]], Unrelated(queue[1..], id), e);
      OwnOne(queue[0], e);
    }
  }

  lemma {:induction false} OwnIndex(queue: seq<Queued>, e: Event)
    ensures Own(queue, e) != [] <==> IdentityIndex(queue, e) < |queue|
    decreases |queue|
  {
    if queue != [] {
      OwnIndex(queue[1..], e);
    }
  }

  lemma IdentitySymmetric(a: Event, b: Event, c: Event)
    ensures SameIdentity(a, b) ==> SameIdentity(b, a)
    ensures SameIdentity(a, b) && SameIdentity(b, c) ==> SameIdentity(a, c)
  {
  }

  /** Scheduling something else leaves the queued copies of a result alone. */
  lemma OthersKeepOwn(clock: real, queue: seq<Queued>, t: Event, attempt: nat, e: Event)
    requires e.ResultEvent? && !SameIdentity(t, e)
    ensures Own(ScheduleEvent(clock, queue, t, attempt).queue, e) == Own(queue, e)
  {
    hide RetryDelay, Schedule;
    if t.CountersEvent? {
      CountersKeepOwn(clock, queue, t.stream, t.reading, attempt, e);
    } else {
      var i, r := IdentityIndex(queue, t), Replaceable(queue);
      var added := Queued(clock + RetryDelay(attempt), attempt, t);
      OwnOne(added, e);
      if i < |queue| {
        var next := ScheduleEvent(clock, queue, t, attempt).queue;
        if next != queue {
          IdentitySymmetric(queue[i].event, t, e);
          IdentitySymmetric(t, queue[i].event, e);
          OwnSplit(queue, i, e);
          OwnSplit(next, i, e);
          OwnOne(queue[i], e);
          OwnOne(next[i], e);
        }
      } else {
        OwnAppend(queue, [added], e);
        if r < |queue| {
          OwnAppend(Without(queue, r), [added], e);
          OwnWithout(queue, r, e);
        }
      }
    }
  }

  lemma CountersKeepOwn(clock: real, queue: seq<Queued>, id: StreamId, reading: Reading, attempt: nat, e: Event)
    requires e.ResultEvent?
    ensures Own(ScheduleCounters(clock, queue, id, reading, attempt).queue, e) == Own(queue, e)
  {
    hide Schedule, Own;
    var others := Unrelated(queue, id);
    var boundaries := Boundaries(Schedule(clock, Mine(queue, id), reading, attempt), id);
    OwnNone(boundaries, e);
    OwnOfUnrelated(queue, id, e);
    OwnAppend(others, boundaries, e);
    var r := Replaceable(others);
    if r < |others| {
      OwnWithout(others, r, e);
      OwnAppend(Without(others, r), boundaries, e);
    }
  }

  /** Scheduling a copy keeps the one already queued, or queues this one. */
  lemma OwnScheduled(clock: real, queue: seq<Queued>, t: Event, attempt: nat, e: Event)
    requires e.ResultEvent? && SameIdentity(t, e) && Orderly(queue, e)
    requires attempt >= 1 || Own(queue, e) != []
    ensures var s := ScheduleEvent(clock, queue, t, attempt);
            s.lost || (Orderly(s.queue, e) && Own(s.queue, e) != [] &&
                       Own(s.queue, e)[0].event == if Own(queue, e) != [] then Own(queue, e)[0].event else t)
  {
    hide RetryDelay, Own, Without;
    SameIndex(queue, t, e);
    OwnIndex(queue, e);
    var i, r := IdentityIndex(queue, t), Replaceable(queue);
    var s := ScheduleEvent(clock, queue, t, attempt);
    var added := Queued(clock + RetryDelay(attempt), attempt, t);
    if i < |queue| {
      IdentitySymmetric(queue[i].event, t, e);
      OwnSplit(queue, i, e);
      OwnSplit(s.queue, i, e);
      OwnOne(queue[i], e);
      OwnOne(s.queue[i], e);
    } else {
      OwnOne(added, e);
      OwnAppend(queue, [added], e);
      if |queue| >= QUEUE_LIMIT && r < |queue| {
        OwnAppend(Without(queue, r), [added], e);
        OwnWithout(queue, r, e);
      }
    }
  }

  lemma {:induction false} SameIndex(queue: seq<Queued>, t: Event, e: Event)
    requires SameIdentity(t, e)
    ensures IdentityIndex(queue, t) == IdentityIndex(queue, e)
    decreases |queue|
  {
    if queue != [] {
      IdentitySymmetric(queue[0].event, t, e);
      IdentitySymmetric(t, e, e);
      IdentitySymmetric(queue[0].event, e, t);
      SameIndex(queue[1..], t, e);
    }
  }

  lemma {:induction false} LogAppend(log: seq<Event>, t: Event, e: Event)
    ensures FirstLogged(log + [t], e) ==
              if FirstLogged(log, e).Some? then FirstLogged(log, e) else if SameIdentity(t, e) then Some(t) else None
    decreases |log|
  {
    if log == [] {
      assert (log + [t])[1..] == [];
    } else {
      assert (log + [t])[1..] == log[1..] + [t];
      LogAppend(log[1..], t, e);
    }
  }

  lemma {:induction false} LoggedFirst(log: seq<Event>, t: Event, e: Event)
    requires SameIdentity(t, e)
    ensures Logged(log, t) <==> FirstLogged(log, e).Some?
    decreases |log|
  {
    if log != [] {
      LoggedFirst(log[1..], t, e);
      IdentitySymmetric(log[0], t, e);
      IdentitySymmetric(t, e, e);
      IdentitySymmetric(log[0], e, t);
      if Logged(log, t) {
        var i :| 0 <= i < |log| && SameIdentity(log[i], t);
        assert i > 0 ==> log[1..][i - 1] == log[i];
      }
      if Logged(log[1..], t) {
        var i :| 0 <= i < |log[1..]| && SameIdentity(log[1..][i], t);
        assert log[i + 1] == log[1..][i];
      }
    }
  }

  lemma DeferredOwn(queue: seq<Queued>, t: Event, attempt: nat, e: Event)
    requires e.ResultEvent? && SameIdentity(t, e)
    ensures Deferred(queue, t, attempt) <==> attempt == 0 && Own(queue, e) != []
  {
    SameIndex(queue, t, e);
    OwnIndex(queue, e);
    var i := IdentityIndex(queue, t);
    assert i < |queue| ==> queue[i].event.ResultEvent? && SameIdentity(queue[i].event, t);
  }

  lemma OtherTask(c: Coord, t: Task, e: Event)
    requires e.ResultEvent? && !SameIdentity(t.event, e)
    ensures var n := StepCoord(c, t);
            n.lost || (Own(n.queue, e) == Own(c.queue, e) && FirstLogged(n.log, e) == FirstLogged(c.log, e))
  {
    hide ScheduleEvent, Logged, Deferred, Level, Own, FirstLogged, SameIdentity;
    OthersKeepOwn(t.choice.clock, c.queue, t.event, t.attempt, e);
    OthersKeepOwn(t.choice.clock, c.queue, t.event, t.attempt + 1, e);
    LogAppend(c.log, t.event, e);
  }

  lemma OtherTaskSkipped(tasks: seq<Task>, e: Event)
    requires tasks != [] && !SameIdentity(tasks[0].event, e)
    ensures OwnTasks(tasks, e) == OwnTasks(tasks[1..], e)
  {
    assert OwnTasks(tasks, e) == [] + OwnTasks(tasks[1..], e);
  }

  /** One task changes no result's owner. */
  lemma TaskKeepsOwner(c: Coord, tasks: seq<Task>, e: Event)
    requires e.ResultEvent? && tasks != [] && Sequenced(c, tasks, e)
    ensures var n := StepCoord(c, tasks[0]);
            n.lost || (Owner(n, tasks[1..], e) == Owner(c, tasks, e) && Sequenced(n, tasks[1..], e))
  {
    hide StepCoord, Own, OwnTasks, FirstLogged, SameIdentity;
    if SameIdentity(tasks[0].event, e) {
      OwnTaskKeepsOwner(c, tasks, e);
    } else {
      OtherTask(c, tasks[0], e);
      OtherTaskSkipped(tasks, e);
    }
  }

  lemma OwnTaskKeepsOwner(c: Coord, tasks: seq<Task>, e: Event)
    requires e.ResultEvent? && tasks != [] && Sequenced(c, tasks, e) && SameIdentity(tasks[0].event, e)
    ensures var n := StepCoord(c, tasks[0]);
            n.lost || (Owner(n, tasks[1..], e) == Owner(c, tasks, e) && Sequenced(n, tasks[1..], e))
  {
    hide ScheduleEvent, Logged, Deferred, Level;
    var (t, rest) := (tasks[0], OwnTasks(tasks[1..], e));
    assert OwnTasks(tasks, e) == [t] + rest;
    DeferredOwn(c.queue, t.event, t.attempt, e);
    LoggedFirst(c.log, t.event, e);
    LogAppend(c.log, t.event, e);
    OwnScheduled(t.choice.clock, c.queue, t.event, t.attempt + 1, e);
    if t.attempt == 0 && Own(c.queue, e) != [] {
      OwnScheduled(t.choice.clock, c.queue, t.event, t.attempt, e);
    }
    assert forall i :: 0 <= i < |rest| ==> rest[i] == OwnTasks(tasks, e)[i + 1];
  }

  lemma {:induction false} TasksKeepOwner(c: Coord, tasks: seq<Task>, e: Event)
    requires e.ResultEvent? && Sequenced(c, tasks, e) && !RunTasks(c, tasks).lost
    ensures var n := RunTasks(c, tasks);
            Owner(n, [], e) == Owner(c, tasks, e) && Orderly(n.queue, e)
    ensures !c.lost
    decreases |tasks|
  {
    hide StepCoord, Sequenced, Owner, Orderly;
    if tasks != [] {
      TaskKeepsOwner(c, tasks, e);
      LostStays(c, tasks[0]);
      if StepCoord(c, tasks[0]).lost {
        LostForGood(StepCoord(c, tasks[0]), tasks[1..]);
      }
      TasksKeepOwner(StepCoord(c, tasks[0]), tasks[1..], e);
    } else {
      SequencedOrderly(c, tasks, e);
      EmptyLost(c);
    }
  }

  lemma EmptyLost(c: Coord)
    ensures RunTasks(c, []) == c
  {
  }

  lemma SequencedOrderly(c: Coord, tasks: seq<Task>, e: Event)
    requires Sequenced(c, tasks, e)
    ensures Orderly(c.queue, e)
  {
  }

  lemma LostStays(c: Coord, t: Task)
    ensures c.lost ==> StepCoord(c, t).lost
  {
  }

  lemma {:induction false} LostForGood(c: Coord, tasks: seq<Task>)
    requires c.lost
    ensures RunTasks(c, tasks).lost
    decreases |tasks|
  {
    if tasks != [] {
      LostStays(c, tasks[0]);
      LostForGood(StepCoord(c, tasks[0]), tasks[1..]);
    }
  }

  lemma {:induction false} OwnTasksAppend(a: seq<Task>, b: seq<Task>, e: Event)
    ensures OwnTasks(a + b, e) == OwnTasks(a, e) + OwnTasks(b, e)
    decreases |a|
  {
    if a == [] {
      assert a + b == b;
    } else {
      assert (a + b)[1..] == a[1..] + b;
      OwnTasksAppend(a[1..], b, e);
    }
  }

  lemma {:induction false} OwnDue(due: seq<Queued>, choices: seq<Choice>, e: Event)
    requires |choices| == |due|
    ensures var own := OwnTasks(DueTasks(due, choices), e);
            && |own| == |Own(due, e)|
            && forall i :: 0 <= i < |own| ==> own[i].event == Own(due, e)[i].event && own[i].attempt == Own(due, e)[i].attempt
    decreases |due|
  {
    if due != [] {
      OwnDue(due[1..], choices[1..], e);
      assert DueTasks(due, choices)[1..] == DueTasks(due[1..], choices[1..]);
    }
  }

  lemma {:induction false} OwnNew(arrived: seq<Event>, choices: seq<Choice>, e: Event)
    requires |choices| == |arrived|
    ensures var own := OwnTasks(NewTasks(arrived, choices), e);
            && (forall i :: 0 <= i < |own| ==> own[i].attempt == 0)
            && (if own == [] then None else Some(own[0].event)) == FirstLogged(arrived, e)
    decreases |arrived|
  {
    if arrived != [] {
      OwnNew(arrived[1..], choices[1..], e);
      assert NewTasks(arrived, choices)[1..] == NewTasks(arrived[1..], choices[1..]);
    }
  }

  lemma {:induction false} OwnDivides(queue: seq<Queued>, now: real, e: Event)
    requires |Own(queue, e)| <= 1
    ensures (Own(DueItems(queue, now), e) == Own(queue, e) && Own(LaterItems(queue, now), e) == [])
         || (Own(LaterItems(queue, now), e) == Own(queue, e) && Own(DueItems(queue, now), e) == [])
    decreases |queue|
  {
    if queue != [] {
      var q := queue[0];
      var (d, l) := (if q.deadline <= now then [q] else [], if q.deadline <= now then [] else [q]);
      OwnOne(q, e);
      OwnAppend(d, DueItems(queue[1..], now), e);
      OwnAppend(l, LaterItems(queue[1..], now), e);
      assert Own(queue, e) == Own([q], e) + Own(queue[1..], e);
      OwnDivides(queue[1..], now, e);
      if SameIdentity(q.event, e) {
        assert Own(queue[1..], e) == [];
      }
    }
  }

  /** A pass never relabels a result: once observed, a result keeps the event
      and context of its first observation through every replay and every
      failure, in the queue and finally in the log, unless the queue overflowed. */
  lemma PassKeepsOwner(c: Coord, now: real, arrived: seq<Event>, choices: seq<Choice>, e: Event)
    requires e.ResultEvent? && Orderly(c.queue, e)
    requires |choices| == |DueItems(c.queue, now)| + |arrived| && !PassCoord(c, now, arrived, choices).lost
    ensures var n := PassCoord(c, now, arrived, choices);
            && Orderly(n.queue, e)
            && Owner(n, [], e) == if Owner(c, [], e).Some? then Owner(c, [], e) else FirstLogged(arrived, e)
  {
    hide RunTasks, DueItems, LaterItems, SameIdentity, Owner, Sequenced, Tasks, FirstLogged, Own, OwnTasks;
    PassStartsSequenced(c, now, arrived, choices, e);
    TasksKeepOwner(c.(queue := LaterItems(c.queue, now)), Tasks(DueItems(c.queue, now), arrived, choices), e);
  }

  lemma PassStartsSequenced(c: Coord, now: real, arrived: seq<Event>, choices: seq<Choice>, e: Event)
    requires Orderly(c.queue, e) && |choices| == |DueItems(c.queue, now)| + |arrived|
    ensures var start := c.(queue := LaterItems(c.queue, now));
            var tasks := Tasks(DueItems(c.queue, now), arrived, choices);
            && Sequenced(start, tasks, e)
            && Owner(start, tasks, e) == if Owner(c, [], e).Some? then Owner(c, [], e) else FirstLogged(arrived, e)
  {
    hide *;
    StartOwn(c, now, arrived, choices, e);
    StartsSequenced(c, now, Tasks(DueItems(c.queue, now), arrived, choices), arrived, e);
  }

  /** The tasks of a pass that are this result's: its one due retry, if any, then its new arrivals. */
  predicate FrontAndBack(own: seq<Task>, due: seq<Queued>, arrived: seq<Event>, e: Event) {
    && |Own(due, e)| <= |own|
    && (forall i :: 0 <= i < |Own(due, e)| ==> own[i].event == Own(due, e)[i].event && own[i].attempt == Own(due, e)[i].attempt)
    && (forall i :: |Own(due, e)| <= i < |own| ==> own[i].attempt == 0)
    && (if |own| == |Own(due, e)| then None else Some(own[|Own(due, e)|].event)) == FirstLogged(arrived, e)
  }

  lemma StartOwn(c: Coord, now: real, arrived: seq<Event>, choices: seq<Choice>, e: Event)
    requires |choices| == |DueItems(c.queue, now)| + |arrived|
    ensures FrontAndBack(OwnTasks(Tasks(DueItems(c.queue, now), arrived, choices), e), DueItems(c.queue, now), arrived, e)
  {
    hide DueItems, SameIdentity, Own, OwnTasks, FirstLogged;
    var due := DueItems(c.queue, now);
    var tasks := Tasks(due, arrived, choices);
    var (x, y) := (DueTasks(due, choices[..|due|]), NewTasks(arrived, choices[|due|..]));
    assert tasks == x + y;
    OwnTasksAppend(x, y, e);
    OwnDue(due, choices[..|due|], e);
    OwnNew(arrived, choices[|due|..], e);
    var (own, front, back) := (OwnTasks(tasks, e), OwnTasks(x, e), OwnTasks(y, e));
    assert forall i :: 0 <= i < |front| ==> own[i] == front[i];
    assert forall i :: |front| <= i < |own| ==> own[i] == back[i - |front|];
  }

  lemma StartsSequenced(c: Coord, now: real, tasks: seq<Task>, arrived: seq<Event>, e: Event)
    requires Orderly(c.queue, e) && FrontAndBack(OwnTasks(tasks, e), DueItems(c.queue, now), arrived, e)
    ensures var start := c.(queue := LaterItems(c.queue, now));
            && Sequenced(start, tasks, e)
            && Owner(start, tasks, e) == if Owner(c, [], e).Some? then Owner(c, [], e) else FirstLogged(arrived, e)
  {
    hide DueItems, LaterItems, SameIdentity, Own, OwnTasks, FirstLogged;
    OwnDivides(c.queue, now, e);
    NoTasks(e);
  }

  lemma NoTasks(e: Event)
    ensures OwnTasks([], e) == []
  {
  }
}
