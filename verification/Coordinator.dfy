/** The coordinator's retry queue over every kind of event (coordinator.py), and
    why each counter stream in it behaves as if it were alone. */
module Coordinator {
  import opened CounterStream

  const QUEUE_LIMIT: int := 128
  const ATTEMPT_LIMIT: int := 12

  type StreamId = (string, string)

  /** `Other` stands for status, hello, protocol_error and the rest. */
  datatype Event =
    | ResultEvent(device: string, boot: string, sequence: string, context: Context)
    | CountersEvent(stream: StreamId, reading: Reading)
    | OtherEvent(kind: string, device: string, boot: string, detail: string)

  datatype Queued = Queued(deadline: real, attempt: nat, event: Event)

  predicate Measurement(e: Event) {
    e.ResultEvent? || e.CountersEvent?
  }

  /** Kind, device, boot and, for a result, its sequence. */
  predicate SameIdentity(a: Event, b: Event) {
    match (a, b)
    case (ResultEvent(d, o, s, _), ResultEvent(d', o', s', _)) => d == d' && o == o' && s == s'
    case (CountersEvent(s, _), CountersEvent(s', _)) => s == s'
    case (OtherEvent(k, d, o, _), OtherEvent(k', d', o', _)) => k == k' && d == d' && o == o'
    case _ => false
  }

  predicate InStream(q: Queued, id: StreamId) {
    q.event.CountersEvent? && q.event.stream == id
  }

  // ---- the queue ----

  function Mine(queue: seq<Queued>, id: StreamId): seq<Item> {
    if queue == [] then []
    else (if InStream(queue[0], id) then [Item(queue[0].deadline, queue[0].attempt, queue[0].event.reading)] else [])
         + Mine(queue[1..], id)
  }

  function Unrelated(queue: seq<Queued>, id: StreamId): seq<Queued> {
    if queue == [] then []
    else (if InStream(queue[0], id) then [] else [queue[0]]) + Unrelated(queue[1..], id)
  }

  lemma PartsFrom(queue: seq<Queued>, i: nat, id: StreamId)
    requires i < |queue|
    ensures InStream(queue[i], id) ==>
              && Mine(queue[i..], id) == [Item(queue[i].deadline, queue[i].attempt, queue[i].event.reading)] + Mine(queue[i + 1..], id)
              && Unrelated(queue[i..], id) == Unrelated(queue[i + 1..], id)
    ensures !InStream(queue[i], id) ==>
              && Mine(queue[i..], id) == Mine(queue[i + 1..], id)
              && Unrelated(queue[i..], id) == [queue[i]] + Unrelated(queue[i + 1..], id)
  {
    assert queue[i..][0] == queue[i] && queue[i..][1..] == queue[i + 1..];
  }

  lemma NoParts(queue: seq<Queued>, id: StreamId)
    requires queue == []
    ensures Mine(queue, id) == [] && Unrelated(queue, id) == []
  {
  }

  function Boundaries(items: seq<Item>, id: StreamId): (queue: seq<Queued>)
    ensures |queue| == |items|
  {
    seq(|items|, i requires 0 <= i < |items| => Queued(items[i].deadline, items[i].attempt, CountersEvent(id, items[i].reading)))
  }

  /** The first event a measurement may push out, or the length. */
  function Replaceable(queue: seq<Queued>): (i: nat)
    ensures i <= |queue|
    ensures i < |queue| ==> !Measurement(queue[i].event)
  {
    if queue == [] || !Measurement(queue[0].event) then 0 else 1 + Replaceable(queue[1..])
  }

  function Without(queue: seq<Queued>, i: nat): seq<Queued>
    requires i < |queue|
  {
    queue[..i] + queue[i + 1..]
  }

  /** The queue after scheduling, and whether the measurement was lost to the limit. */
  datatype Scheduled = Scheduled(queue: seq<Queued>, lost: bool)

  function ScheduleCounters(clock: real, queue: seq<Queued>, id: StreamId, reading: Reading, attempt: nat): Scheduled {
    var others := Unrelated(queue, id);
    var boundaries := Boundaries(Schedule(clock, Mine(queue, id), reading, attempt), id);
    if |others + boundaries| <= QUEUE_LIMIT then Scheduled(others + boundaries, false)
    else
      var i := Replaceable(others);
      if i == |others| then Scheduled(queue, true)
      else Scheduled(Without(others, i) + boundaries, false)
  }

  function IdentityIndex(queue: seq<Queued>, e: Event): (i: nat)
    ensures i <= |queue|
    ensures i < |queue| ==> SameIdentity(queue[i].event, e)
    ensures forall j :: 0 <= j < i ==> !SameIdentity(queue[j].event, e)
  {
    if queue == [] || SameIdentity(queue[0].event, e) then 0
    else
      var i := IdentityIndex(queue[1..], e);
      assert forall j :: 0 < j < i + 1 ==> queue[j] == queue[1..][j - 1];
      i + 1
  }

  function ScheduleEvent(clock: real, queue: seq<Queued>, e: Event, attempt: nat): Scheduled {
    if attempt > ATTEMPT_LIMIT && !Measurement(e) then Scheduled(queue, false)
    else if e.CountersEvent? then ScheduleCounters(clock, queue, e.stream, e.reading, attempt)
    else
      var i := IdentityIndex(queue, e);
      if i < |queue| then
        // A replayed result keeps its first captured context and its place in time.
        Scheduled(queue[i := Queued(if e.ResultEvent? then queue[i].deadline else clock + RetryDelay(attempt),
                                    Max(attempt, queue[i].attempt),
                                    if e.ResultEvent? then queue[i].event else e)], false)
      else
        var added := Queued(clock + RetryDelay(attempt), attempt, e);
        if |queue| < QUEUE_LIMIT then Scheduled(queue + [added], false)
        else
          var r := Replaceable(queue);
          if r == |queue| then Scheduled(queue, Measurement(e))
          else Scheduled(Without(queue, r) + [added], false)
  }

  predicate Deferred(queue: seq<Queued>, e: Event, attempt: nat) {
    match e
    case ResultEvent(_, _, _, _) =>
      attempt == 0 && exists i :: 0 <= i < |queue| && queue[i].event.ResultEvent? && SameIdentity(queue[i].event, e)
    case CountersEvent(id, reading) =>
      exists i :: 0 <= i < |queue| && InStream(queue[i], id) && Blocks(queue[i].event.reading, reading, attempt)
    case OtherEvent(_, _, _, _) => false
  }

  // ---- the loop ----

  /** The queue, the measurements committed so far, and whether one was lost. */
  datatype Coord = Coord(queue: seq<Queued>, log: seq<Event>, lost: bool)

  datatype Task = Task(event: Event, attempt: nat, choice: Choice)

  function CommitsOf(log: seq<Event>, id: StreamId): seq<Reading> {
    if log == [] then []
    else
      var last := log[|log| - 1];
      CommitsOf(log[..|log| - 1], id) + (if last.CountersEvent? && last.stream == id then [last.reading] else [])
  }

  predicate Logged(log: seq<Event>, e: Event) {
    exists i :: 0 <= i < |log| && SameIdentity(log[i], e)
  }

  /** A result commits once; a counter reading unless it is unusable or below its checkpoint. */
  function Handle(c: Coord, e: Event): Coord {
    match e
    case ResultEvent(_, _, _, _) => if Logged(c.log, e) then c else c.(log := c.log + [e])
    case CountersEvent(id, reading) =>
      if reading.value.None? || reading.value.value < Checkpoint(CommitsOf(c.log, id)) then c
      else c.(log := c.log + [e])
    case OtherEvent(_, _, _, _) => c
  }

  function Reschedule(c: Coord, t: Task, attempt: nat): Coord {
    var s := ScheduleEvent(t.choice.clock, c.queue, t.event, attempt);
    Coord(s.queue, c.log, c.lost || s.lost)
  }

  function StepCoord(c: Coord, t: Task): Coord {
    if Deferred(c.queue, t.event, t.attempt) then Reschedule(c, t, t.attempt)
    else if t.choice.fails then Reschedule(c, t, t.attempt + 1)
    else Handle(c, t.event)
  }

  function RunTasks(c: Coord, tasks: seq<Task>): Coord
    decreases |tasks|
  {
    if tasks == [] then c else RunTasks(StepCoord(c, tasks[0]), tasks[1..])
  }

  function DueItems(queue: seq<Queued>, now: real): seq<Queued> {
    if queue == [] then []
    else (if queue[0].deadline <= now then [queue[0]] else []) + DueItems(queue[1..], now)
  }

  function LaterItems(queue: seq<Queued>, now: real): seq<Queued> {
    if queue == [] then []
    else (if queue[0].deadline <= now then [] else [queue[0]]) + LaterItems(queue[1..], now)
  }

  function Tasks(due: seq<Queued>, arrived: seq<Event>, choices: seq<Choice>): (tasks: seq<Task>)
    requires |choices| == |due| + |arrived|
    ensures |tasks| == |choices|
  {
    seq(|choices|, i requires 0 <= i < |choices| =>
      if i < |due| then Task(due[i].event, due[i].attempt, choices[i])
      else Task(arrived[i - |due|], 0, choices[i]))
  }

  function PassCoord(c: Coord, now: real, arrived: seq<Event>, choices: seq<Choice>): Coord
    requires |choices| == |DueItems(c.queue, now)| + |arrived|
  {
    RunTasks(c.(queue := LaterItems(c.queue, now)), Tasks(DueItems(c.queue, now), arrived, choices))
  }

  // ---- each stream by itself ----

  function View(c: Coord, id: StreamId): Stream {
    Stream(Mine(c.queue, id), CommitsOf(c.log, id))
  }

  lemma {:induction false} MineAppend(a: seq<Queued>, b: seq<Queued>, id: StreamId)
    ensures Mine(a + b, id) == Mine(a, id) + Mine(b, id)
    decreases |a|
  {
    if a == [] {
      assert a + b == b;
    } else {
      assert (a + b)[1..] == a[1..] + b;
      MineAppend(a[1..], b, id);
    }
  }

  lemma {:induction false} MineOfBoundaries(items: seq<Item>, id: StreamId)
    ensures Mine(Boundaries(items, id), id) == items
    decreases |items|
  {
    if items != [] {
      assert Boundaries(items, id)[1..] == Boundaries(items[1..], id);
      MineOfBoundaries(items[1..], id);
    }
  }

  lemma {:induction false} MineOfOthers(items: seq<Item>, other: StreamId, id: StreamId)
    requires other != id
    ensures Mine(Boundaries(items, other), id) == []
    decreases |items|
  {
    if items != [] {
      assert Boundaries(items, other)[1..] == Boundaries(items[1..], other);
      MineOfOthers(items[1..], other, id);
    }
  }

  lemma {:induction false} MineOfUnrelated(queue: seq<Queued>, other: StreamId, id: StreamId)
    ensures Mine(Unrelated(queue, other), id) == if other == id then [] else Mine(queue, id)
    decreases |queue|
  {
    if queue != [] {
      MineOfUnrelated(queue[1..], other, id);
      MineAppend(if InStream(queue[0], other) then [] else [queue[0]], Unrelated(queue[1..], other), id);
      assert Mine([queue[0]], id) == (if InStream(queue[0], id) then [Item(queue[0].deadline, queue[0].attempt, queue[0].event.reading)] else []) by {
        assert [queue[0]][1..] == [];
      }
    }
  }

  lemma MineWithout(queue: seq<Queued>, i: nat, id: StreamId)
    requires i < |queue| && !InStream(queue[i], id)
    ensures Mine(Without(queue, i), id) == Mine(queue, id)
  {
    assert queue == queue[..i] + ([queue[i]] + queue[i + 1..]);
    MineAppend(queue[..i], [queue[i]] + queue[i + 1..], id);
    MineAppend(queue[..i], queue[i + 1..], id);
    assert ([queue[i]] + queue[i + 1..])[1..] == queue[i + 1..];
  }

  lemma MineUpdate(queue: seq<Queued>, i: nat, q: Queued, id: StreamId)
    requires i < |queue| && !InStream(queue[i], id) && !InStream(q, id)
    ensures Mine(queue[i := q], id) == Mine(queue, id)
  {
    var changed := queue[i := q];
    assert changed == queue[..i] + ([q] + queue[i + 1..]);
    assert queue == queue[..i] + ([queue[i]] + queue[i + 1..]);
    MineAppend(queue[..i], [q] + queue[i + 1..], id);
    MineAppend(queue[..i], [queue[i]] + queue[i + 1..], id);
    assert ([q] + queue[i + 1..])[1..] == queue[i + 1..] && ([queue[i]] + queue[i + 1..])[1..] == queue[i + 1..];
  }

  /** Scheduling one stream's reading is that stream's own scheduling, and
      scheduling anything else leaves the stream alone. */
  lemma ScheduleSeparates(clock: real, queue: seq<Queued>, e: Event, attempt: nat, id: StreamId)
    ensures var s := ScheduleEvent(clock, queue, e, attempt);
            s.lost || Mine(s.queue, id) ==
              if e.CountersEvent? && e.stream == id then Schedule(clock, Mine(queue, id), e.reading, attempt)
              else Mine(queue, id)
  {
    hide RetryDelay, Schedule;
    if e.CountersEvent? {
      CountersSeparate(clock, queue, e, attempt, id);
    } else {
      var i := IdentityIndex(queue, e);
      var added := Queued(clock + RetryDelay(attempt), attempt, e);
      if attempt > ATTEMPT_LIMIT && !Measurement(e) {
      } else if i < |queue| {
        var s := ScheduleEvent(clock, queue, e, attempt);
        MineUpdate(queue, i, s.queue[i], id);
      } else {
        var r := Replaceable(queue);
        assert Mine([added], id) == [];
        MineAppend(queue, [added], id);
        if |queue| >= QUEUE_LIMIT && r < |queue| {
          MineAppend(Without(queue, r), [added], id);
          MineWithout(queue, r, id);
        }
      }
    }
  }

  lemma CountersSeparate(clock: real, queue: seq<Queued>, e: Event, attempt: nat, id: StreamId)
    requires e.CountersEvent?
    ensures var s := ScheduleEvent(clock, queue, e, attempt);
            s.lost || Mine(s.queue, id) ==
              if e.stream == id then Schedule(clock, Mine(queue, id), e.reading, attempt) else Mine(queue, id)
  {
    hide RetryDelay, Schedule, Mine, Unrelated, Boundaries;
    var others := Unrelated(queue, e.stream);
    var items := Schedule(clock, Mine(queue, e.stream), e.reading, attempt);
    var boundaries := Boundaries(items, e.stream);
    MineOfUnrelated(queue, e.stream, id);
    if e.stream == id {
      MineOfBoundaries(items, id);
    } else {
      MineOfOthers(items, e.stream, id);
    }
    MineAppend(others, boundaries, id);
    var r := Replaceable(others);
    if r < |others| {
      MineWithout(others, r, id);
      MineAppend(Without(others, r), boundaries, id);
    }
  }

  lemma {:induction false} DeferSeparates(queue: seq<Queued>, id: StreamId, reading: Reading, attempt: nat)
    ensures Deferred(queue, CountersEvent(id, reading), attempt) <==> Defers(Mine(queue, id), reading, attempt)
    decreases |queue|
  {
    if queue != [] {
      var e := CountersEvent(id, reading);
      DeferSeparates(queue[1..], id, reading, attempt);
      var front := if InStream(queue[0], id) then [Item(queue[0].deadline, queue[0].attempt, queue[0].event.reading)] else [];
      var rest := Mine(queue[1..], id);
      DefersAppend(front, rest, reading, attempt);
      DeferredSplits(queue, e, attempt);
    }
  }

  lemma DefersAppend(a: seq<Item>, b: seq<Item>, reading: Reading, attempt: nat)
    ensures Defers(a + b, reading, attempt) <==> Defers(a, reading, attempt) || Defers(b, reading, attempt)
  {
    hide Blocks;
    var all := a + b;
    if Defers(all, reading, attempt) {
      var i :| 0 <= i < |all| && Blocks(all[i].reading, reading, attempt);
      assert if i < |a| then all[i] == a[i] else all[i] == b[i - |a|];
    }
    if Defers(a, reading, attempt) {
      var i :| 0 <= i < |a| && Blocks(a[i].reading, reading, attempt);
      assert all[i] == a[i];
    }
    if Defers(b, reading, attempt) {
      var i :| 0 <= i < |b| && Blocks(b[i].reading, reading, attempt);
      assert all[|a| + i] == b[i];
    }
  }

  lemma DeferredSplits(queue: seq<Queued>, e: Event, attempt: nat)
    requires queue != [] && e.CountersEvent?
    ensures Deferred(queue, e, attempt) <==>
              (InStream(queue[0], e.stream) && Blocks(queue[0].event.reading, e.reading, attempt)) || Deferred(queue[1..], e, attempt)
  {
    hide Blocks;
    if Deferred(queue, e, attempt) {
      var i :| 0 <= i < |queue| && InStream(queue[i], e.stream) && Blocks(queue[i].event.reading, e.reading, attempt);
      assert i > 0 ==> queue[1..][i - 1] == queue[i];
    }
    if Deferred(queue[1..], e, attempt) {
      var i :| 0 <= i < |queue[1..]| && InStream(queue[1..][i], e.stream) && Blocks(queue[1..][i].event.reading, e.reading, attempt);
      assert queue[i + 1] == queue[1..][i];
    }
  }

  // ---- a pass, stream by stream ----

  function TasksOf(tasks: seq<Task>, id: StreamId): (mine: seq<Task>)
    ensures forall i :: 0 <= i < |mine| ==> mine[i].event.CountersEvent?
    decreases |tasks|
  {
    if tasks == [] then []
    else (if tasks[0].event.CountersEvent? && tasks[0].event.stream == id then [tasks[0]] else []) + TasksOf(tasks[1..], id)
  }

  function WorkOf(tasks: seq<Task>): (work: seq<Work>)
    requires forall i :: 0 <= i < |tasks| ==> tasks[i].event.CountersEvent?
    ensures |work| == |tasks|
  {
    seq(|tasks|, i requires 0 <= i < |tasks| => Work(tasks[i].event.reading, tasks[i].attempt))
  }

  function ChoicesOf(tasks: seq<Task>): (choices: seq<Choice>)
    ensures |choices| == |tasks|
  {
    seq(|tasks|, i requires 0 <= i < |tasks| => tasks[i].choice)
  }

  lemma CommitsAppend(log: seq<Event>, e: Event, id: StreamId)
    ensures CommitsOf(log + [e], id) == CommitsOf(log, id) + (if e.CountersEvent? && e.stream == id then [e.reading] else [])
  {
    assert (log + [e])[..|log|] == log;
  }

  lemma StepSeparates(c: Coord, t: Task, id: StreamId)
    ensures var n := StepCoord(c, t);
            && (c.lost ==> n.lost)
            && (n.lost || View(n, id) ==
                  if t.event.CountersEvent? && t.event.stream == id then Step(View(c, id), t.event.reading, t.attempt, t.choice)
                  else View(c, id))
  {
    hide Level, Mine, ScheduleEvent, Schedule, Blocks, Logged;
    ScheduleSeparates(t.choice.clock, c.queue, t.event, t.attempt, id);
    ScheduleSeparates(t.choice.clock, c.queue, t.event, t.attempt + 1, id);
    CommitsAppend(c.log, t.event, id);
    if t.event.CountersEvent? && t.event.stream == id {
      DeferSeparates(c.queue, id, t.event.reading, t.attempt);
    }
  }

  lemma {:induction false} RunSeparates(c: Coord, tasks: seq<Task>, id: StreamId)
    requires !RunTasks(c, tasks).lost
    ensures var mine := TasksOf(tasks, id);
            View(RunTasks(c, tasks), id) == Process(View(c, id), WorkOf(mine), ChoicesOf(mine))
    ensures !c.lost
    decreases |tasks|
  {
    hide StepCoord, Step, View;
    if tasks != [] {
      var n := StepCoord(c, tasks[0]);
      StepSeparates(c, tasks[0], id);
      RunSeparates(n, tasks[1..], id);
      var rest := TasksOf(tasks[1..], id);
      if tasks[0].event.CountersEvent? && tasks[0].event.stream == id {
        var mine := [tasks[0]] + rest;
        assert TasksOf(tasks, id) == mine;
        assert WorkOf(mine)[1..] == WorkOf(rest) && ChoicesOf(mine)[1..] == ChoicesOf(rest);
        assert WorkOf(mine)[0] == Work(tasks[0].event.reading, tasks[0].attempt) && ChoicesOf(mine)[0] == tasks[0].choice;
      } else {
        assert TasksOf(tasks, id) == [] + rest == rest;
      }
    }
  }

  function ReadingsOf(events: seq<Event>, id: StreamId): seq<Reading> {
    if events == [] then []
    else (if events[0].CountersEvent? && events[0].stream == id then [events[0].reading] else []) + ReadingsOf(events[1..], id)
  }

  lemma {:induction false} DueSeparates(queue: seq<Queued>, now: real, id: StreamId)
    ensures Mine(DueItems(queue, now), id) == Due(Mine(queue, id), now)
    ensures Mine(LaterItems(queue, now), id) == NotDue(Mine(queue, id), now)
    decreases |queue|
  {
    if queue != [] {
      DueSeparates(queue[1..], now, id);
      var first := if InStream(queue[0], id) then [Item(queue[0].deadline, queue[0].attempt, queue[0].event.reading)] else [];
      DueFirst(first, Mine(queue[1..], id), now);
      MineAppend(if queue[0].deadline <= now then [queue[0]] else [], DueItems(queue[1..], now), id);
      MineAppend(if queue[0].deadline <= now then [] else [queue[0]], LaterItems(queue[1..], now), id);
      assert Mine([queue[0]], id) == first by {
        assert [queue[0]][1..] == [];
      }
    }
  }

  lemma DueFirst(first: seq<Item>, rest: seq<Item>, now: real)
    requires |first| <= 1
    ensures Due(first + rest, now) == (if first != [] && first[0].deadline <= now then first else []) + Due(rest, now)
    ensures NotDue(first + rest, now) == (if first != [] && first[0].deadline > now then first else []) + NotDue(rest, now)
  {
    if first == [] {
      assert first + rest == rest;
    } else {
      assert (first + rest)[1..] == rest && [first[0]] == first;
    }
  }

  lemma {:induction false} TasksOfAppend(a: seq<Task>, b: seq<Task>, id: StreamId)
    ensures TasksOf(a + b, id) == TasksOf(a, id) + TasksOf(b, id)
    decreases |a|
  {
    if a == [] {
      assert a + b == b;
    } else {
      assert (a + b)[1..] == a[1..] + b;
      TasksOfAppend(a[1..], b, id);
    }
  }

  function DueTasks(due: seq<Queued>, choices: seq<Choice>): seq<Task>
    requires |choices| == |due|
  {
    seq(|due|, i requires 0 <= i < |due| => Task(due[i].event, due[i].attempt, choices[i]))
  }

  function NewTasks(arrived: seq<Event>, choices: seq<Choice>): seq<Task>
    requires |choices| == |arrived|
  {
    seq(|arrived|, i requires 0 <= i < |arrived| => Task(arrived[i], 0, choices[i]))
  }

  lemma {:induction false} DueTasksOf(due: seq<Queued>, choices: seq<Choice>, id: StreamId)
    requires |choices| == |due|
    ensures WorkOf(TasksOf(DueTasks(due, choices), id)) == Retries(Mine(due, id))
    decreases |due|
  {
    hide WorkOf, Retries;
    if due != [] {
      var q := due[0];
      var task := Task(q.event, q.attempt, choices[0]);
      DueTasksOf(due[1..], choices[1..], id);
      assert DueTasks(due, choices) == [task] + DueTasks(due[1..], choices[1..]);
      TasksOfAppend([task], DueTasks(due[1..], choices[1..]), id);
      OneTaskOf(task, id);
      var rest := TasksOf(DueTasks(due[1..], choices[1..]), id);
      var items := Mine(due[1..], id);
      if InStream(q, id) {
        RetriesCons(task, q.deadline, rest, items);
      } else {
        assert [] + rest == rest;
        assert [] + items == items;
      }
    } else {
      assert DueTasks(due, choices) == [];
      NothingDue();
    }
  }

  lemma OneTaskOf(task: Task, id: StreamId)
    ensures TasksOf([task], id) == if task.event.CountersEvent? && task.event.stream == id then [task] else []
  {
    assert [task][1..] == [];
  }

  lemma RetriesCons(task: Task, deadline: real, rest: seq<Task>, items: seq<Item>)
    requires task.event.CountersEvent? && (forall i :: 0 <= i < |rest| ==> rest[i].event.CountersEvent?)
    requires WorkOf(rest) == Retries(items)
    ensures WorkOf([task] + rest) == Retries([Item(deadline, task.attempt, task.event.reading)] + items)
  {
    var (x, y) := (WorkOf([task] + rest), Retries([Item(deadline, task.attempt, task.event.reading)] + items));
    forall i | 0 <= i < |x| ensures x[i] == y[i] {
      if i > 0 {
        assert x[i] == WorkOf(rest)[i - 1] && y[i] == Retries(items)[i - 1];
      }
    }
  }

  lemma NothingDue()
    ensures WorkOf([]) == [] && Retries([]) == []
  {
  }

  lemma {:induction false} NewTasksOf(arrived: seq<Event>, choices: seq<Choice>, id: StreamId)
    requires |choices| == |arrived|
    ensures WorkOf(TasksOf(NewTasks(arrived, choices), id)) == Fresh(ReadingsOf(arrived, id))
    decreases |arrived|
  {
    hide WorkOf, Fresh;
    if arrived != [] {
      var e := arrived[0];
      var task := Task(e, 0, choices[0]);
      NewTasksOf(arrived[1..], choices[1..], id);
      assert NewTasks(arrived, choices) == [task] + NewTasks(arrived[1..], choices[1..]);
      var rest := TasksOf(NewTasks(arrived[1..], choices[1..]), id);
      var readings := ReadingsOf(arrived[1..], id);
      TasksOfAppend([task], NewTasks(arrived[1..], choices[1..]), id);
      OneTaskOf(task, id);
      if e.CountersEvent? && e.stream == id {
        FreshCons(task, rest, readings);
      } else {
        assert [] + rest == rest && [] + readings == readings;
      }
    } else {
      assert NewTasks(arrived, choices) == [];
      NothingNew();
    }
  }

  lemma NothingNew()
    ensures WorkOf([]) == Fresh([]) == []
  {
  }

  lemma FreshCons(task: Task, rest: seq<Task>, readings: seq<Reading>)
    requires task.event.CountersEvent? && task.attempt == 0
    requires (forall i :: 0 <= i < |rest| ==> rest[i].event.CountersEvent?) && WorkOf(rest) == Fresh(readings)
    ensures WorkOf([task] + rest) == Fresh([task.event.reading] + readings)
  {
    assert WorkOf([task] + rest) == [Work(task.event.reading, 0)] + WorkOf(rest);
    assert Fresh([task.event.reading] + readings) == [Work(task.event.reading, 0)] + Fresh(readings);
  }

  lemma WorkAppend(a: seq<Task>, b: seq<Task>)
    requires forall i :: 0 <= i < |a| ==> a[i].event.CountersEvent?
    requires forall i :: 0 <= i < |b| ==> b[i].event.CountersEvent?
    ensures WorkOf(a + b) == WorkOf(a) + WorkOf(b)
  {
  }

  /** A pass of the whole loop, seen from one counter stream, is a pass of that
      stream alone under some pattern of failures: other streams, results and
      events do not disturb it, as long as nothing was lost to the queue limit. */
  lemma PassSeparates(c: Coord, now: real, arrived: seq<Event>, choices: seq<Choice>, id: StreamId) returns (mine: seq<Choice>)
    requires |choices| == |DueItems(c.queue, now)| + |arrived| && !PassCoord(c, now, arrived, choices).lost
    ensures |mine| == |Due(View(c, id).queue, now)| + |ReadingsOf(arrived, id)|
    ensures View(PassCoord(c, now, arrived, choices), id) == Pass(View(c, id), now, ReadingsOf(arrived, id), mine)
  {
    hide RunTasks, Process, Mine, TasksOf;
    var due := DueItems(c.queue, now);
    var tasks := Tasks(due, arrived, choices);
    var (x, y) := (DueTasks(due, choices[..|due|]), NewTasks(arrived, choices[|due|..]));
    assert tasks == x + y;
    TasksOfAppend(x, y, id);
    DueTasksOf(due, choices[..|due|], id);
    NewTasksOf(arrived, choices[|due|..], id);
    WorkAppend(TasksOf(x, id), TasksOf(y, id));
    DueSeparates(c.queue, now, id);
    RunSeparates(c.(queue := LaterItems(c.queue, now)), tasks, id);
    mine := ChoicesOf(TasksOf(tasks, id));
  }

  // ---- the object ----

  /** The boundaries already settled, the one still being merged into, and those to come. */
  ghost function Carried(front: seq<Item>, head: Item, rest: seq<Item>): seq<Item> {
    front + Normalize([head] + rest)
  }

  lemma CarriedStep(front: seq<Item>, prior: Item, item: Item, rest: seq<Item>)
    ensures Carried(front, prior, [item] + rest) ==
              if SameValue(prior.reading, item.reading) then
                Carried(front, Item(prior.deadline, Max(prior.attempt, item.attempt), prior.reading), rest)
              else if Subsumes(prior.reading, item.reading) then
                Carried(front, Item(prior.deadline, Max(prior.attempt, item.attempt), item.reading), rest)
              else
                Carried(front + [prior], item.(deadline := MaxReal(item.deadline, prior.deadline)), rest)
  {
    hide SameValue, Subsumes;
    var all := [prior] + ([item] + rest);
    assert all[2..] == rest && all[0] == prior && all[1] == item;
  }

  lemma CarriedEnds(front: seq<Item>, head: Item)
    ensures Carried(front, head, []) == front + [head]
  {
    assert [head] + [] == [head];
  }

  /** The first boundary is carried with nothing in front of it. */
  lemma NormalizeEnds(boundaries: seq<Item>)
    ensures boundaries == [] ==> Normalize(boundaries) == []
    ensures boundaries != [] ==> Normalize(boundaries) == Carried([], boundaries[0], boundaries[1..])
  {
    if boundaries != [] {
      assert [boundaries[0]] + boundaries[1..] == boundaries;
      assert [] + Normalize(boundaries) == Normalize(boundaries);
    }
  }

  class EventLoop {
    var retries: seq<Queued>
    var log: seq<Event>
    var lost: bool

    ghost function Value(): Coord
      reads this
    {
      Coord(retries, log, lost)
    }

    constructor ()
      ensures Value() == Coord([], [], false)
    {
      retries, log, lost := [], [], false;
    }

    /** One event: wait behind what is pending, or process it and queue it again if that fails. */
    method HandleEvent(e: Event, attempt: nat, choice: Choice)
      modifies this
      ensures Value() == StepCoord(old(Value()), Task(e, attempt, choice))
    {
      hide ScheduleEvent, Logged, Level;
      if Deferred(retries, e, attempt) {
        ScheduleRetry(choice.clock, e, attempt);
        return;
      }
      if choice.fails {
        ScheduleRetry(choice.clock, e, attempt + 1);
        return;
      }
      match e {
        case ResultEvent(_, _, _, _) =>
          if !Logged(log, e) {
            log := log + [e];
          }
        case CountersEvent(id, reading) =>
          if reading.value.Some? && reading.value.value >= Checkpoint(CommitsOf(log, id)) {
            log := log + [e];
          }
        case OtherEvent(_, _, _, _) =>
      }
    }

    method ScheduleRetry(clock: real, e: Event, attempt: nat)
      modifies this
      ensures var s := ScheduleEvent(clock, old(retries), e, attempt);
              retries == s.queue && lost == (old(lost) || s.lost) && log == old(log)
    {
      hide Schedule, Replaceable, RetryDelay;
      if attempt > ATTEMPT_LIMIT && !Measurement(e) {
        return;
      }
      if e.CountersEvent? {
        ScheduleCounterRetry(clock, e.stream, e.reading, attempt);
        return;
      }
      for index := 0 to |retries|
        invariant retries == old(retries) && lost == old(lost) && log == old(log)
        invariant forall j :: 0 <= j < index ==> !SameIdentity(retries[j].event, e)
      {
        if SameIdentity(retries[index].event, e) {
          var queued := retries[index];
          var deadline := if e.ResultEvent? then queued.deadline else clock + RetryDelay(attempt);
          retries := retries[index := Queued(deadline, Max(attempt, queued.attempt), if e.ResultEvent? then queued.event else e)];
          return;
        }
      }
      if |retries| >= QUEUE_LIMIT {
        var oldest := Replaceable(retries);
        if oldest == |retries| {
          lost := lost || Measurement(e);
          return;
        }
        retries := retries[..oldest] + retries[oldest + 1..];
      }
      retries := retries + [Queued(clock + RetryDelay(attempt), attempt, e)];
    }

    method ScheduleCounterRetry(clock: real, id: StreamId, reading: Reading, attempt: nat)
      modifies this
      ensures var s := ScheduleCounters(clock, old(retries), id, reading, attempt);
              retries == s.queue && lost == (old(lost) || s.lost) && log == old(log)
    {
      hide Replaceable, RetryDelay, Sorted, Normalize, Boundaries, Mine, Unrelated;
      var unrelated: seq<Queued> := [];
      var boundaries: seq<Item> := [];
      for i := 0 to |retries|
        invariant retries == old(retries) && lost == old(lost) && log == old(log)
        invariant unrelated + Unrelated(retries[i..], id) == Unrelated(retries, id)
        invariant boundaries + Mine(retries[i..], id) == Mine(retries, id)
      {
        PartsFrom(retries, i, id);
        if InStream(retries[i], id) {
          boundaries := boundaries + [Item(retries[i].deadline, retries[i].attempt, retries[i].event.reading)];
        } else {
          unrelated := unrelated + [retries[i]];
        }
      }
      NoParts(retries[|retries|..], id);
      assert unrelated == Unrelated(retries, id) && boundaries == Mine(retries, id);
      boundaries := boundaries + [Item(clock + RetryDelay(attempt), attempt, reading)];
      var normalized := NormalizeLoop(Sorted(boundaries));
      var combined := unrelated + Boundaries(normalized, id);
      if |combined| > QUEUE_LIMIT {
        var oldest := Replaceable(unrelated);
        if oldest == |unrelated| {
          lost := true;
          return;
        }
        unrelated := unrelated[..oldest] + unrelated[oldest + 1..];
        combined := unrelated + Boundaries(normalized, id);
      }
      retries := combined;
    }

    /** The normalizing pass, merging into the last boundary kept so far. */
    method NormalizeLoop(boundaries: seq<Item>) returns (normalized: seq<Item>)
      ensures normalized == Normalize(boundaries)
    {
      hide Normalize, Carried, SameValue, Subsumes;
      NormalizeEnds(boundaries);
      normalized := [];
      for i := 0 to |boundaries|
        invariant normalized == [] ==> i == 0
        invariant normalized != [] ==>
                    Normalize(boundaries) == Carried(normalized[..|normalized| - 1], normalized[|normalized| - 1], boundaries[i..])
      {
        var item := boundaries[i];
        assert boundaries[i..] == [item] + boundaries[i + 1..];
        if normalized != [] {
          var last := |normalized| - 1;
          var prior := normalized[last];
          CarriedStep(normalized[..last], prior, item, boundaries[i + 1..]);
          if SameValue(prior.reading, item.reading) {
            normalized := normalized[last := Item(prior.deadline, Max(prior.attempt, item.attempt), prior.reading)];
          } else if Subsumes(prior.reading, item.reading) {
            normalized := normalized[last := Item(prior.deadline, Max(prior.attempt, item.attempt), item.reading)];
          } else {
            assert normalized == normalized[..last] + [prior];
            normalized := normalized + [item.(deadline := MaxReal(item.deadline, prior.deadline))];
          }
        } else {
          normalized := [item];
        }
      }
      assert boundaries[|boundaries|..] == [];
      if normalized != [] {
        CarriedEnds(normalized[..|normalized| - 1], normalized[|normalized| - 1]);
      }
    }

    /** One pass: split off what is due, then handle it and what arrived. */
    method Pass(now: real, arrived: seq<Event>, choices: seq<Choice>)
      requires |choices| == |DueItems(retries, now)| + |arrived|
      modifies this
      ensures Value() == PassCoord(old(Value()), now, arrived, choices)
    {
      hide StepCoord, RunTasks;
      var due: seq<Queued> := [];
      var later: seq<Queued> := [];
      ghost var start := Value();
      while retries != []
        invariant due + DueItems(retries, now) == DueItems(start.queue, now)
        invariant later + LaterItems(retries, now) == LaterItems(start.queue, now)
        invariant log == start.log && lost == start.lost
        decreases |retries|
      {
        if retries[0].deadline <= now {
          due := due + [retries[0]];
        } else {
          later := later + [retries[0]];
        }
        retries := retries[1..];
      }
      assert due + [] == due && later + [] == later;
      retries := later;
      var tasks := Tasks(due, arrived, choices);
      HandleTasks(tasks);
    }

    method HandleTasks(tasks: seq<Task>)
      modifies this
      ensures Value() == RunTasks(old(Value()), tasks)
    {
      hide StepCoord;
      for i := 0 to |tasks|
        invariant RunTasks(Value(), tasks[i..]) == RunTasks(old(Value()), tasks)
      {
        assert tasks[i..][1..] == tasks[i + 1..];
        HandleEvent(tasks[i].event, tasks[i].attempt, tasks[i].choice);
      }
      assert tasks[|tasks|..] == [];
    }
  }
}
