/** When the retry queue loses a measurement: only with 128 of them in it, so
    never in a run in which no more than 128 different ones arrive. */
module RetryLoss {
  import opened Common
  import opened CounterStream
  import opened CounterRuns
  import opened Coordinator
  import opened LoopRuns

  // ---- the moment of loss ----

  predicate Measurements(queue: seq<Queued>) {
    forall i :: 0 <= i < |queue| ==> Measurement(queue[i].event)
  }

  lemma {:induction false} NoneReplaceable(queue: seq<Queued>)
    requires Replaceable(queue) == |queue|
    ensures Measurements(queue)
    decreases |queue|
  {
    if queue != [] {
      NoneReplaceable(queue[1..]);
      assert forall i :: 0 < i < |queue| ==> queue[i] == queue[1..][i - 1];
    }
  }

  lemma {:induction false} UnrelatedMeasured(queue: seq<Queued>, id: StreamId)
    requires Measurements(Unrelated(queue, id))
    ensures Measurements(queue) && |Unrelated(queue, id)| + |Mine(queue, id)| == |queue|
    decreases |queue|
  {
    if queue != [] {
      var rest := Unrelated(queue[1..], id);
      if InStream(queue[0], id) {
        assert Unrelated(queue, id) == [] + rest == rest;
      } else {
        assert Unrelated(queue, id) == [queue[0]] + rest;
        assert forall i :: 0 <= i < |rest| ==> rest[i] == Unrelated(queue, id)[i + 1];
        assert Measurement(Unrelated(queue, id)[0].event);
      }
      UnrelatedMeasured(queue[1..], id);
      assert forall i :: 0 < i < |queue| ==> queue[i] == queue[1..][i - 1];
    }
  }

  lemma {:induction false} SortIntoLength(sorted: seq<Item>, item: Item)
    ensures |SortInto(sorted, item)| == |sorted| + 1
    decreases |sorted|
  {
    if sorted != [] {
      SortIntoLength(sorted[..|sorted| - 1], item);
    }
  }

  lemma {:induction false} SortedLength(items: seq<Item>)
    ensures |Sorted(items)| == |items|
    decreases |items|
  {
    if items != [] {
      SortedLength(items[..|items| - 1]);
      SortIntoLength(Sorted(items[..|items| - 1]), items[|items| - 1]);
    }
  }

  lemma {:induction false} ScheduleAddsOne(clock: real, items: seq<Item>, reading: Reading, attempt: nat)
    ensures |Schedule(clock, items, reading, attempt)| <= |items| + 1
  {
    hide Sorted, Normalize, RetryDelay;
    var all := items + [Item(clock + RetryDelay(attempt), attempt, reading)];
    SortedLength(all);
    NormalizeShorter(Sorted(all));
  }

  /** What is lost is a measurement, and the queue holds at least 128 of them and nothing else. */
  lemma {:induction false} ScheduleLoses(clock: real, queue: seq<Queued>, e: Event, attempt: nat)
    requires ScheduleEvent(clock, queue, e, attempt).lost
    ensures Measurement(e) && |queue| >= 128 && Measurements(queue)
  {
    hide RetryDelay, Schedule;
    if e.CountersEvent? {
      NoneReplaceable(Unrelated(queue, e.stream));
      UnrelatedMeasured(queue, e.stream);
      ScheduleAddsOne(clock, Mine(queue, e.stream), e.reading, attempt);
    } else {
      NoneReplaceable(queue);
    }
  }

  lemma {:induction false} TasksLose(c: Coord, tasks: seq<Task>) returns (k: nat)
    requires !c.lost && RunTasks(c, tasks).lost
    ensures k < |tasks|
    ensures var at := RunTasks(c, tasks[..k]);
            !at.lost && |at.queue| >= 128 && Measurements(at.queue) && Measurement(tasks[k].event)
    decreases |tasks|
  {
    hide ScheduleEvent, Handle, Deferred;
    if tasks == [] {
      assert false;
    } else {
      var (t, n) := (tasks[0], StepCoord(c, tasks[0]));
      if n.lost {
        k := 0;
        assert RunTasks(c, tasks[..0]) == c;
        HandleLoses(c, t.event);
        if Deferred(c.queue, t.event, t.attempt) {
          ScheduleLoses(t.choice.clock, c.queue, t.event, t.attempt);
        } else {
          ScheduleLoses(t.choice.clock, c.queue, t.event, t.attempt + 1);
        }
      } else {
        var j := TasksLose(n, tasks[1..]);
        k := j + 1;
        assert tasks[..k][1..] == tasks[1..][..j] && tasks[..k][0] == t;
      }
    }
  }

  lemma {:induction false} HandleLoses(c: Coord, e: Event)
    ensures Handle(c, e).lost == c.lost
  {
    hide Logged, Level;
  }

  /** A pass that loses a measurement had at least 128 in its queue, and nothing
      it could have replaced, when it did. */
  lemma {:induction false} PassLoses(c: Coord, p: LoopPass) returns (k: nat)
    requires !c.lost && PassLoop(c, p).lost
    ensures var tasks := Tasks(DueItems(c.queue, p.now), p.arrived, LoopMet(c, p));
            && k < |tasks| && Measurement(tasks[k].event)
            && var at := RunTasks(c.(queue := LaterItems(c.queue, p.now)), tasks[..k]);
            !at.lost && |at.queue| >= 128 && Measurements(at.queue)
  {
    hide RunTasks, Tasks, DueItems, LaterItems;
    k := TasksLose(c.(queue := LaterItems(c.queue, p.now)), Tasks(DueItems(c.queue, p.now), p.arrived, LoopMet(c, p)));
  }

  // ---- different measurements ----

  /** A result by its identity, a counter boundary by its stream and value. */
  datatype Key = ResultKey(device: string, boot: string, sequence: string) | ValueKey(stream: StreamId, value: int)

  function KeyOf(e: Event): set<Key> {
    match e
    case ResultEvent(device, boot, sequence, _) => {ResultKey(device, boot, sequence)}
    case CountersEvent(id, reading) => if reading.value.Some? then {ValueKey(id, reading.value.value)} else {}
    case OtherEvent(_, _, _, _) => {}
  }

  /** Counters without a usable value are never the same. */
  predicate Blank(e: Event) {
    e.CountersEvent? && e.reading.value.None?
  }

  function Keys(events: seq<Event>): set<Key> {
    if events == [] then {} else KeyOf(events[0]) + Keys(events[1..])
  }

  function Blanks(events: seq<Event>): nat {
    if events == [] then 0 else (if Blank(events[0]) then 1 else 0) + Blanks(events[1..])
  }

  /** How many different measurements. */
  function Different(events: seq<Event>): nat {
    |Keys(events)| + Blanks(events)
  }

  predicate Distinct(events: seq<Event>) {
    events == [] || (KeyOf(events[0]) !! Keys(events[1..]) && Distinct(events[1..]))
  }

  function EventsIn(queue: seq<Queued>): (events: seq<Event>)
    ensures |events| == |queue|
    ensures forall i :: 0 <= i < |events| ==> events[i] == queue[i].event
  {
    seq(|queue|, i requires 0 <= i < |queue| => queue[i].event)
  }

  function TaskEvents(tasks: seq<Task>): (events: seq<Event>)
    ensures |events| == |tasks|
    ensures forall i :: 0 <= i < |events| ==> events[i] == tasks[i].event
  {
    seq(|tasks|, i requires 0 <= i < |tasks| => tasks[i].event)
  }

  lemma {:induction false} KeysAppend(a: seq<Event>, b: seq<Event>)
    ensures Keys(a + b) == Keys(a) + Keys(b) && Blanks(a + b) == Blanks(a) + Blanks(b)
    ensures Distinct(a + b) <==> Distinct(a) && Distinct(b) && Keys(a) !! Keys(b)
    decreases |a|
  {
    hide KeyOf, Blank;
    if a == [] {
      assert a + b == b;
    } else {
      assert (a + b)[1..] == a[1..] + b;
      KeysAppend(a[1..], b);
    }
  }

  lemma KeysOne(e: Event)
    ensures Keys([e]) == KeyOf(e) && Blanks([e]) == (if Blank(e) then 1 else 0) && Distinct([e])
  {
    assert [e][1..] == [];
  }

  /** Distinct measurements alone are as many as they are different. */
  lemma {:induction false} DistinctCount(events: seq<Event>)
    requires Distinct(events) && forall i :: 0 <= i < |events| ==> Measurement(events[i])
    ensures |events| == Different(events)
    decreases |events|
  {
    if events != [] {
      DistinctCount(events[1..]);
      assert Keys(events) == KeyOf(events[0]) + Keys(events[1..]);
    }
  }

  lemma {:induction false} KeysSubset(events: seq<Event>, e: Event)
    requires e in events
    ensures KeyOf(e) <= Keys(events)
    decreases |events|
  {
    hide KeyOf;
    if e != events[0] {
      KeysSubset(events[1..], e);
    }
  }

  // ---- normalizing keeps values apart ----

  /** In the queue's order: values nondecreasing, readings without one last. */
  predicate InOrder(items: seq<Item>) {
    forall i, j :: 0 <= i < j < |items| ==> !Before(items[j].reading, items[i].reading)
  }

  predicate StrictOrder(items: seq<Item>) {
    forall i, j :: 0 <= i < j < |items| && items[j].reading.value.Some? ==>
      items[i].reading.value.Some? && items[i].reading.value.value < items[j].reading.value.value
  }

  function ItemEvents(items: seq<Item>, id: StreamId): (events: seq<Event>)
    ensures |events| == |items|
    ensures forall i :: 0 <= i < |events| ==> events[i] == CountersEvent(id, items[i].reading)
  {
    seq(|items|, i requires 0 <= i < |items| => CountersEvent(id, items[i].reading))
  }

  lemma {:induction false} SortIntoOrder(sorted: seq<Item>, item: Item)
    requires InOrder(sorted)
    ensures InOrder(SortInto(sorted, item)) && multiset(SortInto(sorted, item)) == multiset(sorted) + multiset{item}
    decreases |sorted|
  {
    if sorted != [] {
      var n := |sorted| - 1;
      assert sorted == sorted[..n] + [sorted[n]];
      if Before(item.reading, sorted[n].reading) {
        SortIntoOrder(sorted[..n], item);
        var front := SortInto(sorted[..n], item);
        forall i | 0 <= i < |front| ensures !Before(sorted[n].reading, front[i].reading) {
          assert front[i] in multiset(front);
          assert front[i] == item || front[i] in sorted[..n];
        }
      }
    }
  }

  lemma {:induction false} SortedOrder(items: seq<Item>)
    ensures InOrder(Sorted(items)) && multiset(Sorted(items)) == multiset(items)
    decreases |items|
  {
    if items != [] {
      var n := |items| - 1;
      SortedOrder(items[..n]);
      SortIntoOrder(Sorted(items[..n]), items[n]);
      assert items == items[..n] + [items[n]];
    }
  }

  lemma ItemEventsAppend(a: seq<Item>, b: seq<Item>, id: StreamId)
    ensures ItemEvents(a + b, id) == ItemEvents(a, id) + ItemEvents(b, id)
  {
  }

  lemma OneItem(item: Item, id: StreamId)
    ensures ItemEvents([item], id) == [CountersEvent(id, item.reading)]
  {
  }

  lemma {:induction false} SortIntoKeys(sorted: seq<Item>, item: Item, id: StreamId)
    ensures var (n, e) := (ItemEvents(SortInto(sorted, item), id), CountersEvent(id, item.reading));
            Keys(n) == Keys(ItemEvents(sorted, id)) + KeyOf(e) && Blanks(n) == Blanks(ItemEvents(sorted, id)) + (if Blank(e) then 1 else 0)
    decreases |sorted|
  {
    hide KeyOf, Blank, Keys, Blanks, Before, Distinct, ItemEvents;
    var e := CountersEvent(id, item.reading);
    KeysOne(e);
    OneItem(item, id);
    if sorted == [] {
      NoEvents(ItemEvents(sorted, id));
    } else {
      var k := |sorted| - 1;
      assert sorted == sorted[..k] + [sorted[k]];
      OneItem(sorted[k], id);
      ItemEventsAppend(sorted[..k], [sorted[k]], id);
      KeysAppend(ItemEvents(sorted[..k], id), ItemEvents([sorted[k]], id));
      ItemEventsAppend(sorted, [item], id);
      KeysAppend(ItemEvents(sorted, id), [e]);
      SortIntoKeys(sorted[..k], item, id);
      ItemEventsAppend(SortInto(sorted[..k], item), [sorted[k]], id);
      KeysAppend(ItemEvents(SortInto(sorted[..k], item), id), ItemEvents([sorted[k]], id));
    }
  }

  lemma {:induction false} NoEvents(events: seq<Event>)
    requires events == []
    ensures Keys(events) == {} && Blanks(events) == 0 && Distinct(events)
  {
  }

  lemma {:induction false} SortedKeys(items: seq<Item>, id: StreamId)
    ensures Keys(ItemEvents(Sorted(items), id)) == Keys(ItemEvents(items, id))
    ensures Blanks(ItemEvents(Sorted(items), id)) == Blanks(ItemEvents(items, id))
    decreases |items|
  {
    hide KeyOf, Blank, Keys, Blanks, Distinct, ItemEvents, SortInto;
    if items != [] {
      var n := |items| - 1;
      SortedKeys(items[..n], id);
      SortIntoKeys(Sorted(items[..n]), items[n], id);
      assert items == items[..n] + [items[n]];
      ItemEventsAppend(items[..n], [items[n]], id);
      OneItem(items[n], id);
      KeysOne(CountersEvent(id, items[n].reading));
      KeysAppend(ItemEvents(items[..n], id), [CountersEvent(id, items[n].reading)]);
    }
  }

  function ReadingSet(items: seq<Item>): set<Reading> {
    set i | 0 <= i < |items| :: items[i].reading
  }

  /** A value at least this one is among the items. */
  predicate Reaches(items: seq<Item>, value: int) {
    exists i :: 0 <= i < |items| && items[i].reading.value.Some? && value <= items[i].reading.value.value
  }

  lemma ReachesFront(a: Item, rest: seq<Item>, value: int)
    ensures Reaches([a] + rest, value) <==> (a.reading.value.Some? && value <= a.reading.value.value) || Reaches(rest, value)
  {
    var all := [a] + rest;
    if Reaches(all, value) {
      var i :| 0 <= i < |all| && all[i].reading.value.Some? && value <= all[i].reading.value.value;
      assert i > 0 ==> all[i] == rest[i - 1];
    }
    if a.reading.value.Some? && value <= a.reading.value.value {
      assert all[0] == a;
    }
    if Reaches(rest, value) {
      var i :| 0 <= i < |rest| && rest[i].reading.value.Some? && value <= rest[i].reading.value.value;
      assert all[i + 1] == rest[i];
    }
  }

  /** The pass that coalesces leaves values strictly apart, invents none, keeps
      readings without a value, and covers every value by one at least as high. */
  lemma {:induction false} NormalizeApart(items: seq<Item>, value: int)
    requires InOrder(items)
    ensures StrictOrder(Normalize(items)) && ReadingSet(Normalize(items)) <= ReadingSet(items)
    ensures Reaches(items, value) ==> Reaches(Normalize(items), value)
    decreases |items|
  {
    if |items| > 1 {
      var (a, b, rest) := (items[0], items[1], items[2..]);
      assert items == [a] + ([b] + rest) && items[1..] == [b] + rest;
      if SameValue(a.reading, b.reading) {
        NormalizeMerged(items, Item(a.deadline, Max(a.attempt, b.attempt), a.reading), value);
        NormalizeApart([Item(a.deadline, Max(a.attempt, b.attempt), a.reading)] + rest, value);
      } else if Subsumes(a.reading, b.reading) {
        NormalizeMerged(items, Item(a.deadline, Max(a.attempt, b.attempt), b.reading), value);
        NormalizeApart([Item(a.deadline, Max(a.attempt, b.attempt), b.reading)] + rest, value);
      } else {
        var next := [b.(deadline := MaxReal(b.deadline, a.deadline))] + rest;
        NormalizeKept(items, next);
        NormalizeApart(next, value);
        KeptFront(a, next, Normalize(next));
        assert a.reading in ReadingSet(items) by { assert items[0] == a; }
        ReachesFront(a, items[1..], value);
        ReachesSame(items[1..], next, value);
        ReachesFront(a, Normalize(next), value);
      }
    } else {
      assert Normalize(items) == items;
    }
  }

  lemma ReachesSame(a: seq<Item>, b: seq<Item>, value: int)
    requires |a| == |b| && forall i :: 0 <= i < |a| ==> a[i].reading == b[i].reading
    ensures Reaches(a, value) ==> Reaches(b, value)
  {
  }

  lemma {:induction false} NormalizeMerged(items: seq<Item>, m: Item, value: int)
    requires |items| > 1 && InOrder(items) && m.reading.value.Some?
    requires m.reading == items[1].reading
          || (m.reading == items[0].reading && SameValue(items[0].reading, items[1].reading))
    ensures var merged := [m] + items[2..];
            InOrder(merged) && ReadingSet(merged) <= ReadingSet(items) && (Reaches(items, value) ==> Reaches(merged, value))
  {
    var merged := [m] + items[2..];
    forall i, j | 0 <= i < j < |merged| ensures !Before(merged[j].reading, merged[i].reading) {
      assert merged[j] == items[j + 1] && !Before(items[j + 1].reading, items[1].reading);
      assert i > 0 ==> merged[i] == items[i + 1];
    }
    assert forall i :: 0 <= i < |merged| ==> merged[i].reading == (if i == 0 then m.reading else items[i + 1].reading);
    if Reaches(items, value) {
      var i :| 0 <= i < |items| && items[i].reading.value.Some? && value <= items[i].reading.value.value;
      assert !Before(items[1].reading, items[0].reading);
      if i > 1 {
        assert merged[i - 1] == items[i];
      } else {
        assert merged[0] == m;
      }
    }
  }

  lemma {:induction false} NormalizeKept(items: seq<Item>, next: seq<Item>)
    requires |items| > 1 && InOrder(items) && |next| == |items| - 1
    requires forall i :: 0 <= i < |next| ==> next[i].reading == items[i + 1].reading
    requires !SameValue(items[0].reading, items[1].reading)
    ensures InOrder(next) && ReadingSet(next) <= ReadingSet(items)
    ensures forall r :: r in ReadingSet(next) && r.value.Some? ==>
              items[0].reading.value.Some? && items[0].reading.value.value < r.value.value
  {
    forall r | r in ReadingSet(next) && r.value.Some?
      ensures items[0].reading.value.Some? && items[0].reading.value.value < r.value.value
    {
      var i :| 0 <= i < |next| && next[i].reading == r;
      assert !Before(items[i + 1].reading, items[0].reading) && !Before(items[1].reading, items[0].reading);
      assert i > 0 ==> !Before(items[i + 1].reading, items[1].reading);
    }
  }

  lemma KeptFront(a: Item, front: seq<Item>, rest: seq<Item>)
    requires StrictOrder(rest) && ReadingSet(rest) <= ReadingSet(front)
    requires forall r :: r in ReadingSet(front) && r.value.Some? ==> a.reading.value.Some? && a.reading.value.value < r.value.value
    ensures StrictOrder([a] + rest)
    ensures forall x :: x in ReadingSet([a] + rest) ==> x == a.reading || x in ReadingSet(front)
  {
    var all := [a] + rest;
    forall i | 0 < i < |all| ensures all[i].reading in ReadingSet(front) {
      assert all[i] == rest[i - 1] && rest[i - 1].reading in ReadingSet(rest);
    }
  }

  lemma {:induction false} NormalizeBlanks(items: seq<Item>, id: StreamId)
    ensures Blanks(ItemEvents(Normalize(items), id)) <= Blanks(ItemEvents(items, id))
    decreases |items|
  {
    hide Blanks, ItemEvents;
    if |items| > 1 {
      var (a, b, rest) := (items[0], items[1], items[2..]);
      var kept := [b.(deadline := MaxReal(b.deadline, a.deadline))] + rest;
      assert items == [a] + ([b] + rest);
      BlanksFront(a, [b] + rest, id);
      BlanksFront(b, rest, id);
      if SameValue(a.reading, b.reading) {
        NormalizeBlanks([Item(a.deadline, Max(a.attempt, b.attempt), a.reading)] + rest, id);
        BlanksFront(Item(a.deadline, Max(a.attempt, b.attempt), a.reading), rest, id);
      } else if Subsumes(a.reading, b.reading) {
        NormalizeBlanks([Item(a.deadline, Max(a.attempt, b.attempt), b.reading)] + rest, id);
        BlanksFront(Item(a.deadline, Max(a.attempt, b.attempt), b.reading), rest, id);
      } else {
        NormalizeBlanks(kept, id);
        BlanksFront(kept[0], rest, id);
        BlanksFront(a, Normalize(kept), id);
      }
    }
  }

  lemma BlanksFront(a: Item, rest: seq<Item>, id: StreamId)
    ensures Blanks(ItemEvents([a] + rest, id)) == (if a.reading.value.None? then 1 else 0) + Blanks(ItemEvents(rest, id))
  {
    assert ItemEvents([a] + rest, id)[1..] == ItemEvents(rest, id);
  }

  lemma {:induction false} KeysOfItems(items: seq<Item>, id: StreamId, k: Key)
    ensures k in Keys(ItemEvents(items, id)) <==>
              exists i :: 0 <= i < |items| && items[i].reading.value.Some? && k == ValueKey(id, items[i].reading.value.value)
    decreases |items|
  {
    if items != [] {
      KeysOfItems(items[1..], id, k);
      assert ItemEvents(items, id)[1..] == ItemEvents(items[1..], id);
      assert forall i :: 0 < i < |items| ==> items[i] == items[1..][i - 1];
      assert forall i :: 0 <= i < |items[1..]| ==> items[1..][i] == items[i + 1];
      if k in Keys(ItemEvents(items[1..], id)) {
        var i :| 0 <= i < |items[1..]| && items[1..][i].reading.value.Some? && k == ValueKey(id, items[1..][i].reading.value.value);
        assert items[i + 1] == items[1..][i];
      }
    }
  }

  lemma KeysOfReadings(a: seq<Item>, b: seq<Item>, id: StreamId)
    requires ReadingSet(a) <= ReadingSet(b)
    ensures Keys(ItemEvents(a, id)) <= Keys(ItemEvents(b, id))
  {
    hide Keys, ItemEvents;
    forall k | k in Keys(ItemEvents(a, id)) ensures k in Keys(ItemEvents(b, id)) {
      KeysOfItems(a, id, k);
      KeysOfItems(b, id, k);
      var i :| 0 <= i < |a| && a[i].reading.value.Some? && k == ValueKey(id, a[i].reading.value.value);
      assert a[i].reading in ReadingSet(a);
    }
  }

  lemma {:induction false} StrictDistinct(items: seq<Item>, id: StreamId)
    requires StrictOrder(items)
    ensures Distinct(ItemEvents(items, id))
    decreases |items|
  {
    hide Keys;
    if items != [] {
      var rest := items[1..];
      assert ItemEvents(items, id)[1..] == ItemEvents(rest, id);
      assert forall i :: 0 <= i < |rest| ==> rest[i] == items[i + 1];
      StrictDistinct(rest, id);
      forall k | k in Keys(ItemEvents(rest, id)) ensures k !in KeyOf(ItemEvents(items, id)[0]) {
        KeysOfItems(rest, id, k);
      }
    }
  }

  /** Scheduling one stream's boundary keeps its boundaries apart and covers every value. */
  lemma {:induction false} ScheduleApart(clock: real, items: seq<Item>, reading: Reading, attempt: nat, id: StreamId, value: int)
    ensures var (n, e) := (Schedule(clock, items, reading, attempt), CountersEvent(id, reading));
            && Distinct(ItemEvents(n, id)) && Keys(ItemEvents(n, id)) <= Keys(ItemEvents(items, id)) + KeyOf(e)
            && Blanks(ItemEvents(n, id)) <= Blanks(ItemEvents(items, id)) + Blanks([e])
            && (Reaches(items, value) || (reading.value.Some? && value <= reading.value.value) ==> Reaches(n, value))
  {
    hide RetryDelay, Sorted, Normalize, Keys, Blanks, Distinct, KeyOf, ItemEvents, StrictOrder, InOrder, Reaches, ReadingSet;
    var item := Item(clock + RetryDelay(attempt), attempt, reading);
    var all := items + [item];
    var sorted := Sorted(all);
    SortedOrder(all);
    SortedKeys(all, id);
    NormalizeApart(sorted, value);
    NormalizeBlanks(sorted, id);
    KeysOfReadings(Normalize(sorted), sorted, id);
    StrictDistinct(Normalize(sorted), id);
    ItemEventsAppend(items, [item], id);
    OneItem(item, id);
    KeysOne(CountersEvent(id, reading));
    KeysAppend(ItemEvents(items, id), [CountersEvent(id, reading)]);
    ReachesSorted(items, item, sorted, value);
  }

  lemma {:induction false} ReachesSorted(items: seq<Item>, item: Item, sorted: seq<Item>, value: int)
    requires multiset(sorted) == multiset(items + [item])
    ensures Reaches(items, value) || (item.reading.value.Some? && value <= item.reading.value.value) ==> Reaches(sorted, value)
  {
    var all := items + [item];
    if Reaches(items, value) || (item.reading.value.Some? && value <= item.reading.value.value) {
      var i := |items|;
      if Reaches(items, value) {
        i :| 0 <= i < |items| && items[i].reading.value.Some? && value <= items[i].reading.value.value;
      }
      assert all[i] in multiset(sorted);
      var j :| 0 <= j < |sorted| && sorted[j] == all[i];
    }
  }

  // ---- the whole queue ----

  lemma EventsAppend(a: seq<Queued>, b: seq<Queued>)
    ensures EventsIn(a + b) == EventsIn(a) + EventsIn(b)
  {
  }

  lemma KeysSplit(a: seq<Queued>, b: seq<Queued>)
    ensures Keys(EventsIn(a + b)) == Keys(EventsIn(a)) + Keys(EventsIn(b))
    ensures Blanks(EventsIn(a + b)) == Blanks(EventsIn(a)) + Blanks(EventsIn(b))
    ensures Distinct(EventsIn(a + b)) <==> Distinct(EventsIn(a)) && Distinct(EventsIn(b)) && Keys(EventsIn(a)) !! Keys(EventsIn(b))
  {
    hide Keys, Blanks, Distinct;
    EventsAppend(a, b);
    KeysAppend(EventsIn(a), EventsIn(b));
  }

  lemma OneEvent(q: Queued)
    ensures Keys(EventsIn([q])) == KeyOf(q.event) && Blanks(EventsIn([q])) == (if Blank(q.event) then 1 else 0) && Distinct(EventsIn([q]))
  {
    assert EventsIn([q]) == [q.event];
    KeysOne(q.event);
  }

  /** The stream's own boundaries, and the rest. */
  lemma {:induction false} QueueParts(queue: seq<Queued>, id: StreamId)
    ensures var (others, mine) := (EventsIn(Unrelated(queue, id)), ItemEvents(Mine(queue, id), id));
            && Keys(EventsIn(queue)) == Keys(others) + Keys(mine) && Blanks(EventsIn(queue)) == Blanks(others) + Blanks(mine)
            && (Distinct(EventsIn(queue)) ==> Distinct(others))
            && (forall k :: k in Keys(others) && k.ValueKey? ==> k.stream != id)
            && (forall k :: k in Keys(mine) ==> k.ValueKey? && k.stream == id)
    decreases |queue|
  {
    hide Keys, Blanks, Distinct, ItemEvents, EventsIn;
    if queue == [] {
      assert EventsIn(queue) == [];
      assert ItemEvents([], id) == [];
      NoEvents([]);
    } else {
      var (q, rest) := (queue[0], queue[1..]);
      QueueParts(rest, id);
      assert queue == [q] + rest;
      KeysSplit([q], rest);
      OneEvent(q);
      if InStream(q, id) {
        var item := Item(q.deadline, q.attempt, q.event.reading);
        assert Unrelated(queue, id) == [] + Unrelated(rest, id) == Unrelated(rest, id);
        ItemEventsAppend([item], Mine(rest, id), id);
        OneItem(item, id);
        KeysOne(q.event);
        KeysAppend([q.event], ItemEvents(Mine(rest, id), id));
      } else {
        assert Mine(queue, id) == [] + Mine(rest, id) == Mine(rest, id);
        KeysSplit([q], Unrelated(rest, id));
      }
    }
  }

  lemma {:induction false} BoundaryEvents(items: seq<Item>, id: StreamId)
    ensures EventsIn(Boundaries(items, id)) == ItemEvents(items, id)
  {
  }

  lemma {:induction false} WithoutKeys(queue: seq<Queued>, i: nat)
    requires i < |queue|
    ensures Keys(EventsIn(Without(queue, i))) <= Keys(EventsIn(queue)) && Blanks(EventsIn(Without(queue, i))) <= Blanks(EventsIn(queue))
    ensures Distinct(EventsIn(queue)) ==> Distinct(EventsIn(Without(queue, i)))
  {
    hide Keys, Blanks, Distinct, EventsIn;
    assert queue == queue[..i] + ([queue[i]] + queue[i + 1..]);
    KeysSplit(queue[..i], [queue[i]] + queue[i + 1..]);
    KeysSplit([queue[i]], queue[i + 1..]);
    KeysSplit(queue[..i], queue[i + 1..]);
  }

  lemma Fewer<T>(a: set<T>, b: set<T>)
    requires a <= b
    ensures |a| <= |b|
  {
    assert b == a + (b - a);
  }

  lemma {:induction false} NewKey(queue: seq<Queued>, e: Event)
    requires e.ResultEvent? && forall i :: 0 <= i < |queue| ==> !SameIdentity(queue[i].event, e)
    ensures KeyOf(e) !! Keys(EventsIn(queue))
    decreases |queue|
  {
    if queue != [] {
      NewKey(queue[1..], e);
      assert EventsIn(queue)[1..] == EventsIn(queue[1..]);
    }
  }

  /** What a schedule leaves: different measurements, none of them new but the one
      scheduled; and what it takes to lose that one. */
  predicate KeepsApart(queue: seq<Queued>, e: Event, s: Scheduled) {
    && Distinct(EventsIn(s.queue)) && Keys(EventsIn(s.queue)) <= Keys(EventsIn(queue)) + KeyOf(e)
    && Blanks(EventsIn(s.queue)) <= Blanks(EventsIn(queue)) + Blanks([e])
    && (s.lost ==> |Keys(EventsIn(queue)) + KeyOf(e)| + Blanks(EventsIn(queue)) + Blanks([e]) > QUEUE_LIMIT)
  }

  lemma {:induction false} ScheduleKeys(clock: real, queue: seq<Queued>, e: Event, attempt: nat)
    requires Distinct(EventsIn(queue))
    ensures KeepsApart(queue, e, ScheduleEvent(clock, queue, e, attempt))
  {
    if e.CountersEvent? {
      CountersKeys(clock, queue, e, attempt);
    } else if attempt > ATTEMPT_LIMIT && !Measurement(e) {
    } else if IdentityIndex(queue, e) < |queue| {
      UpdateKeys(clock, queue, e, attempt);
    } else {
      AppendKeys(clock, queue, e, attempt);
    }
  }

  /** An event that is already there keeps its place and its measurement. */
  lemma {:induction false} UpdateInPlace(clock: real, queue: seq<Queued>, e: Event, attempt: nat)
    requires !e.CountersEvent? && (attempt <= ATTEMPT_LIMIT || Measurement(e)) && IdentityIndex(queue, e) < |queue|
    ensures var (s, i) := (ScheduleEvent(clock, queue, e, attempt), IdentityIndex(queue, e));
            && !s.lost && |s.queue| == |queue| && s.queue == queue[..i] + ([s.queue[i]] + queue[i + 1..])
            && KeyOf(s.queue[i].event) == KeyOf(queue[i].event) && Blank(s.queue[i].event) == Blank(queue[i].event)
  {
    hide RetryDelay, Replaceable;
  }

  lemma {:induction false} UpdateKeys(clock: real, queue: seq<Queued>, e: Event, attempt: nat)
    requires Distinct(EventsIn(queue)) && !e.CountersEvent? && (attempt <= ATTEMPT_LIMIT || Measurement(e))
    requires IdentityIndex(queue, e) < |queue|
    ensures KeepsApart(queue, e, ScheduleEvent(clock, queue, e, attempt))
  {
    hide Keys, Blanks, Distinct, EventsIn, ScheduleEvent, KeyOf, Blank;
    UpdateInPlace(clock, queue, e, attempt);
    var i := IdentityIndex(queue, e);
    var n := ScheduleEvent(clock, queue, e, attempt).queue;
    OneChanged(queue, i, n[i]);
  }

  lemma {:induction false} OneChanged(queue: seq<Queued>, i: nat, q: Queued)
    requires i < |queue| && KeyOf(q.event) == KeyOf(queue[i].event) && Blank(q.event) == Blank(queue[i].event)
    ensures var n := queue[..i] + ([q] + queue[i + 1..]);
            && Keys(EventsIn(n)) == Keys(EventsIn(queue)) && Blanks(EventsIn(n)) == Blanks(EventsIn(queue))
            && (Distinct(EventsIn(n)) <==> Distinct(EventsIn(queue)))
  {
    hide Keys, Blanks, Distinct, EventsIn, KeyOf, Blank;
    assert queue == queue[..i] + ([queue[i]] + queue[i + 1..]);
    KeysSplit(queue[..i], [queue[i]] + queue[i + 1..]);
    KeysSplit([queue[i]], queue[i + 1..]);
    KeysSplit(queue[..i], [q] + queue[i + 1..]);
    KeysSplit([q], queue[i + 1..]);
    OneEvent(queue[i]);
    OneEvent(q);
  }

  lemma {:induction false} AppendKeys(clock: real, queue: seq<Queued>, e: Event, attempt: nat)
    requires Distinct(EventsIn(queue)) && !e.CountersEvent? && (attempt <= ATTEMPT_LIMIT || Measurement(e))
    requires IdentityIndex(queue, e) == |queue|
    ensures KeepsApart(queue, e, ScheduleEvent(clock, queue, e, attempt))
  {
    hide Keys, Blanks, Distinct, EventsIn, RetryDelay, Without;
    var added := Queued(clock + RetryDelay(attempt), attempt, e);
    var r := Replaceable(queue);
    if e.ResultEvent? {
      NewKey(queue, e);
    }
    OneEvent(added);
    KeysOne(e);
    KeysSplit(queue, [added]);
    if |queue| >= QUEUE_LIMIT {
      if r < |queue| {
        WithoutKeys(queue, r);
        KeysSplit(Without(queue, r), [added]);
      } else {
        NoneReplaceable(queue);
        DistinctCount(EventsIn(queue));
      }
    }
  }

  lemma {:induction false} CountersKeys(clock: real, queue: seq<Queued>, e: Event, attempt: nat)
    requires Distinct(EventsIn(queue)) && e.CountersEvent?
    ensures KeepsApart(queue, e, ScheduleEvent(clock, queue, e, attempt))
  {
    hide Keys, Blanks, Distinct, EventsIn, ItemEvents, KeyOf, Schedule, Unrelated, Mine, Without, Measurement;
    var (others, mine) := (Unrelated(queue, e.stream), Mine(queue, e.stream));
    var items := Schedule(clock, mine, e.reading, attempt);
    var boundaries := Boundaries(items, e.stream);
    QueueParts(queue, e.stream);
    ScheduleApart(clock, mine, e.reading, attempt, e.stream, 0);
    BoundaryEvents(items, e.stream);
    KeysOfStream(e);
    KeysSplit(others, boundaries);
    var r := Replaceable(others);
    if |others + boundaries| > QUEUE_LIMIT {
      if r < |others| {
        WithoutKeys(others, r);
        KeysSplit(Without(others, r), boundaries);
      } else {
        AllMeasured(others, items, e.stream);
        DistinctCount(EventsIn(others + boundaries));
        Fewer(Keys(EventsIn(others + boundaries)), Keys(EventsIn(queue)) + KeyOf(e));
      }
    }
  }

  lemma KeysOfStream(e: Event)
    requires e.CountersEvent?
    ensures forall k :: k in KeyOf(e) ==> k.ValueKey? && k.stream == e.stream
  {
  }

  lemma {:induction false} AllMeasured(others: seq<Queued>, items: seq<Item>, id: StreamId)
    requires Replaceable(others) == |others|
    ensures forall i :: 0 <= i < |others + Boundaries(items, id)| ==> Measurement(EventsIn(others + Boundaries(items, id))[i])
  {
    NoneReplaceable(others);
  }

  // ---- a step, a pass, a run ----

  lemma {:induction false} StepKeys(c: Coord, t: Task)
    requires Distinct(EventsIn(c.queue)) && !c.lost
    ensures var n := StepCoord(c, t);
            KeepsApart(c.queue, t.event, Scheduled(n.queue, n.lost))
  {
    hide ScheduleEvent, Keys, Blanks, Distinct, EventsIn, KeyOf, Handle, Deferred;
    ScheduleKeys(t.choice.clock, c.queue, t.event, t.attempt);
    ScheduleKeys(t.choice.clock, c.queue, t.event, t.attempt + 1);
    HandleQueue(c, t.event);
  }

  lemma {:induction false} HandleQueue(c: Coord, e: Event)
    ensures Handle(c, e).queue == c.queue && Handle(c, e).lost == c.lost
  {
    hide Logged, Level;
  }

  /** At most 128 different measurements, in the queue or still to be handled. */
  predicate Fits(c: Coord, events: seq<Event>, known: set<Key>) {
    && !c.lost && Distinct(EventsIn(c.queue)) && Keys(EventsIn(c.queue)) + Keys(events) <= known
    && |known| + Blanks(EventsIn(c.queue)) + Blanks(events) <= QUEUE_LIMIT
  }

  lemma {:induction false} TasksFit(c: Coord, tasks: seq<Task>, later: seq<Event>, known: set<Key>)
    requires Fits(c, TaskEvents(tasks) + later, known)
    ensures Fits(RunTasks(c, tasks), later, known)
    decreases |tasks|
  {
    hide Keys, Blanks, Distinct, EventsIn, KeyOf, StepCoord;
    if tasks == [] {
      assert TaskEvents(tasks) + later == later;
    } else {
      var (t, rest) := (tasks[0], tasks[1..]);
      var n := StepCoord(c, t);
      assert TaskEvents(tasks) + later == [t.event] + (TaskEvents(rest) + later);
      KeysAppend([t.event], TaskEvents(rest) + later);
      KeysOne(t.event);
      StepKeys(c, t);
      Fewer(Keys(EventsIn(c.queue)) + KeyOf(t.event), known);
      TasksFit(n, rest, later, known);
    }
  }

  lemma {:induction false} DueParts(queue: seq<Queued>, now: real)
    ensures var (due, later) := (EventsIn(DueItems(queue, now)), EventsIn(LaterItems(queue, now)));
            && Keys(due) + Keys(later) == Keys(EventsIn(queue)) && Blanks(due) + Blanks(later) == Blanks(EventsIn(queue))
            && (Distinct(EventsIn(queue)) ==> Distinct(later))
    decreases |queue|
  {
    hide Keys, Blanks, Distinct, EventsIn, KeyOf;
    if queue == [] {
      assert EventsIn(queue) == [];
      NoEvents([]);
    } else {
      var (q, rest) := (queue[0], queue[1..]);
      DueParts(rest, now);
      assert queue == [q] + rest;
      KeysSplit([q], rest);
      KeysSplit([q], DueItems(rest, now));
      KeysSplit([q], LaterItems(rest, now));
      assert [] + DueItems(rest, now) == DueItems(rest, now) && [] + LaterItems(rest, now) == LaterItems(rest, now);
    }
  }

  lemma {:induction false} PassFits(c: Coord, p: LoopPass, later: seq<Event>, known: set<Key>)
    requires Fits(c, p.arrived + later, known)
    ensures Fits(PassLoop(c, p), later, known)
  {
    hide Keys, Blanks, Distinct, KeyOf, RunTasks, DueItems, LaterItems;
    var (due, rest) := (DueItems(c.queue, p.now), LaterItems(c.queue, p.now));
    var tasks := Tasks(due, p.arrived, LoopMet(c, p));
    DueParts(c.queue, p.now);
    assert TaskEvents(tasks) + later == EventsIn(due) + (p.arrived + later);
    KeysAppend(EventsIn(due), p.arrived + later);
    TasksFit(c.(queue := rest), tasks, later, known);
  }

  lemma {:induction false} RunFits(c: Coord, ps: seq<LoopPass>, known: set<Key>)
    requires Fits(c, Arrived(ps), known)
    ensures !RunLoop(c, ps).lost
    decreases |ps|
  {
    hide Fits, PassLoop;
    if ps == [] {
      NotLost(c, Arrived(ps), known);
    } else {
      PassFits(c, ps[0], Arrived(ps[1..]), known);
      RunFits(PassLoop(c, ps[0]), ps[1..], known);
    }
  }

  lemma {:induction false} NotLost(c: Coord, events: seq<Event>, known: set<Key>)
    requires Fits(c, events, known)
    ensures !c.lost
  {
  }

  /** A run in which at most 128 different measurements arrive loses none, however
      often results are replayed, whatever fails and whatever else arrives. */
  lemma NeverLost(ps: seq<LoopPass>)
    requires Different(Arrived(ps)) <= 128
    ensures !RunLoop(NEW_LOOP, ps).lost
  {
    NoEvents(EventsIn(NEW_LOOP.queue));
    hide Keys, Blanks, Distinct;
    RunFits(NEW_LOOP, ps, Keys(Arrived(ps)));
  }
}
