/** Whole runs of the event loop on one recovery-counter stream. */
module CounterRuns {
  import opened Common
  import opened CounterStream
  import opened Attribution

  /** One pass: its time, what was newly observed, and what each processing step meets. */
  datatype PassInput = PassInput(now: real, observed: seq<Reading>, choice: nat -> Choice)

  function Choices(choice: nat -> Choice, n: nat): (choices: seq<Choice>)
    ensures |choices| == n
  {
    seq(n, i requires 0 <= i < n => choice(i))
  }

  /** What the steps of this pass meet. */
  function Met(s: Stream, p: PassInput): (choices: seq<Choice>)
    ensures |choices| == |Due(s.queue, p.now)| + |p.observed|
  {
    Choices(p.choice, |Due(s.queue, p.now)| + |p.observed|)
  }

  function PassOn(s: Stream, p: PassInput): Stream {
    Pass(s, p.now, p.observed, Met(s, p))
  }

  function Run(s: Stream, ps: seq<PassInput>): Stream
    decreases |ps|
  {
    if ps == [] then s else Run(PassOn(s, ps[0]), ps[1..])
  }

  function Observed(ps: seq<PassInput>): seq<Reading> {
    if ps == [] then [] else ps[0].observed + Observed(ps[1..])
  }

  const NEW_STREAM := Stream([], [])

  /** What the loop waits between two passes. */
  const PAUSE: real := 0.05

  function LastClock(now: real, choices: seq<Choice>): real {
    if choices == [] then now else choices[|choices| - 1].clock
  }

  /** A run the event loop can make: each pass is in time, and the next begins no
      sooner than the pause after the last clock it read. */
  predicate Timed(s: Stream, ps: seq<PassInput>)
    decreases |ps|
  {
    ps == []
    || (InTime(Met(s, ps[0]), ps[0].now)
        && (|ps| > 1 ==> LastClock(ps[0].now, Met(s, ps[0])) + PAUSE <= ps[1].now)
        && Timed(PassOn(s, ps[0]), ps[1..]))
  }

  // ---- nothing enters the queue that was not observed ----

  lemma {:induction false} NormSubset(rs: seq<Reading>)
    ensures forall r :: r in Norm(rs) ==> r in rs
    decreases |rs|
  {
    if |rs| > 1 {
      if SameValue(rs[0], rs[1]) {
        NormSubset([rs[0]] + rs[2..]);
      } else {
        NormSubset(rs[1..]);
      }
    }
  }

  lemma {:induction false} SortIntoSubset(sorted: seq<Item>, item: Item)
    ensures forall x :: x in SortInto(sorted, item) ==> x in sorted || x == item
    decreases |sorted|
  {
    if sorted != [] {
      SortIntoSubset(sorted[..|sorted| - 1], item);
    }
  }

  lemma {:induction false} SortedSubset(items: seq<Item>)
    ensures forall x :: x in Sorted(items) ==> x in items
    decreases |items|
  {
    if items != [] {
      SortedSubset(items[..|items| - 1]);
      SortIntoSubset(Sorted(items[..|items| - 1]), items[|items| - 1]);
    }
  }

  ghost predicate Within(rs: seq<Reading>, seen: seq<Reading>) {
    forall r :: r in rs ==> r in seen
  }

  lemma ScheduleWithin(clock: real, queue: seq<Item>, reading: Reading, attempt: nat, seen: seq<Reading>)
    requires Within(Readings(queue), seen) && reading in seen
    ensures Within(Readings(Schedule(clock, queue, reading, attempt)), seen)
  {
    hide RetryDelay, Norm, Sorted, Normalize;
    var items := queue + [Item(clock + RetryDelay(attempt), attempt, reading)];
    NormalizeIsNorm(Sorted(items));
    NormSubset(Readings(Sorted(items)));
    SortedSubset(items);
    forall r | r in Readings(Sorted(items)) ensures r in seen {
      var i :| 0 <= i < |Sorted(items)| && Readings(Sorted(items))[i] == r;
      assert Sorted(items)[i] in items;
      var j :| 0 <= j < |items| && items[j] == Sorted(items)[i];
      assert j < |queue| ==> Readings(queue)[j] == r;
    }
  }

  lemma {:induction false} ProcessWithin(s: Stream, work: seq<Work>, choices: seq<Choice>, seen: seq<Reading>)
    requires |work| == |choices| && Within(Readings(s.queue), seen) && forall i :: 0 <= i < |work| ==> work[i].reading in seen
    ensures Within(Readings(Process(s, work, choices).queue), seen)
    decreases |work|
  {
    hide Schedule, Defers, Level;
    if work != [] {
      var (r, a) := (work[0].reading, work[0].attempt);
      ScheduleWithin(choices[0].clock, s.queue, r, a, seen);
      ScheduleWithin(choices[0].clock, s.queue, r, a + 1, seen);
      ProcessWithin(Step(s, r, a, choices[0]), work[1..], choices[1..], seen);
    }
  }

  lemma {:induction false} DueWithin(queue: seq<Item>, now: real)
    ensures forall x :: x in Due(queue, now) || x in NotDue(queue, now) ==> x in queue
    decreases |queue|
  {
    if queue != [] {
      DueWithin(queue[1..], now);
    }
  }

  lemma PassWithin(s: Stream, p: PassInput, seen: seq<Reading>)
    requires Within(Readings(s.queue), seen)
    ensures Within(Readings(PassOn(s, p).queue), seen + p.observed)
  {
    hide Process;
    var (due, later) := (Due(s.queue, p.now), NotDue(s.queue, p.now));
    var all := seen + p.observed;
    DueWithin(s.queue, p.now);
    forall r | r in Readings(later) ensures r in all {
      var i :| 0 <= i < |later| && later[i].reading == r;
      InQueue(s.queue, later[i]);
    }
    var work := Retries(due) + Fresh(p.observed);
    forall i | 0 <= i < |work| ensures work[i].reading in all {
      if i < |due| {
        assert work[i] == Work(due[i].reading, due[i].attempt);
        InQueue(s.queue, due[i]);
      } else {
        assert work[i] == Work(p.observed[i - |due|], 0);
      }
    }
    ProcessWithin(s.(queue := later), work, Choices(p.choice, |due| + |p.observed|), all);
  }

  lemma InQueue(queue: seq<Item>, item: Item)
    requires item in queue
    ensures item.reading in Readings(queue)
  {
    var i :| 0 <= i < |queue| && queue[i] == item;
    assert Readings(queue)[i] == item.reading;
  }

  lemma RisingContinues(s: Stream, seen: seq<Reading>, observed: seq<Reading>, later: seq<Reading>)
    requires Within(Readings(s.queue), seen) && Rising(seen + (observed + later))
    ensures Continues(s, observed)
  {
    var (all, q) := (seen + (observed + later), Readings(s.queue));
    assert forall i :: 0 <= i < |observed| ==> all[|seen| + i] == observed[i];
    assert forall i :: 0 <= i < |seen| ==> all[i] == seen[i];
    forall i | 0 <= i < |q|
      ensures q[i].value.Some? && forall j :: 0 <= j < |observed| ==> q[i].value.value <= observed[j].value.value
    {
      assert q[i] in q;
      var k :| 0 <= k < |seen| && seen[k] == q[i];
    }
  }

  lemma ChargesExtend(x: seq<Reading>, y: seq<Reading>, more: seq<Reading>, context: Context)
    requires SameCharges(x, y, context)
    ensures SameCharges(x + more, y + more, context)
  {
    ShareSplits(0, x, more, context);
    ShareSplits(0, y, more, context);
  }

  // ---- the failing family has members ----

  const KEG_A := Context(true, Some("keg A"), Some("calibration"))
  const KEG_B := Context(true, Some("keg B"), Some("calibration"))

  /** Readings 5 on keg A, 7 on keg B and 10 on keg A again, 0.12 s after the first. The first two are
      due, the third is not; the commit of 5 fails once and 5 is folded into 10,
      so the commit of 7 charges all seven pulses to keg B. */
  const STALLED := Stream([Item(0.1, 1, Reading(Some(5), KEG_A)), Item(0.1, 0, Reading(Some(7), KEG_B)),
                           Item(0.16, 0, Reading(Some(10), KEG_A))], [])

  lemma StalledCut()
    ensures Due(STALLED.queue, 0.12) == STALLED.queue[..2] && NotDue(STALLED.queue, 0.12) == STALLED.queue[2..]
  {
    var q := STALLED.queue;
    assert Due(q[2..], 0.12) == [] && NotDue(q[2..], 0.12) == [q[2]];
    assert q[1..][1..] == q[2..];
    assert Due(q[1..], 0.12) == [q[1]] && NotDue(q[1..], 0.12) == [q[2]];
  }

  lemma StalledIsUnsafe()
    ensures WellFormed(STALLED.queue) && Continues(STALLED, []) && !Safe(STALLED, 0.12)
  {
    StalledCut();
    var due := Readings(STALLED.queue[..2]);
    assert due[0].context == Readings(STALLED.queue[2..])[0].context && due[0].value.value > Checkpoint([]);
  }

  lemma FoldedBoundaryMischarges()
    ensures WellFormed(STALLED.queue) && Continues(STALLED, []) && !Safe(STALLED, 0.12)
    ensures var choices := FailOnly(0, |Due(STALLED.queue, 0.12)|, 0.12);
            InTime(choices, 0.12) && Charged(Pass(STALLED, 0.12, [], choices), KEG_A) < Share(0, [] + Readings(STALLED.queue) + [], KEG_A)
  {
    hide Share, Level, Process, Placed, Due, NotDue, Safe, WellFormed;
    StalledIsUnsafe();
    StalledCut();
    var due := Readings(STALLED.queue[..2]);
    PassPlaces(STALLED, 0.12, []);
    assert Checkpoint([]) == 0 by {
      EmptyLevel();
    }
    FoldedPastOthers(STALLED.(queue := STALLED.queue[2..]), due, Attempts(STALLED.queue[..2]), [], 0, 0.12);
  }

  lemma EmptyLevel()
    ensures Level(0, []) == 0
  {
  }

  const FIRST: Reading := Reading(Some(5), KEG_A)
  const SECOND: Reading := Reading(Some(7), KEG_B)
  const THIRD: Reading := Reading(Some(10), KEG_A)

  /** Two passes 60 ms apart lead there from an empty queue: storage fails while 5
      and 7 arrive, and 10 arrives before either is due again. */
  const OUTAGE: PassInput := PassInput(0.0, [FIRST, SECOND], _ => Choice(true, 0.0))
  const LATER: PassInput := PassInput(0.06, [THIRD], _ => Choice(false, 0.06))

  lemma StalledIsReachable()
    ensures Run(NEW_STREAM, [OUTAGE, LATER]) == STALLED && Timed(NEW_STREAM, [OUTAGE, LATER])
    ensures LastClock(LATER.now, Met(PassOn(NEW_STREAM, OUTAGE), LATER)) + PAUSE <= 0.12
  {
    var s1 := PassOn(NEW_STREAM, OUTAGE);
    OutageQueues();
    var s2 := PassOn(s1, LATER);
    LaterWaits();
    assert [OUTAGE, LATER][1..] == [LATER] && [LATER][1..] == [];
    assert Run(s2, []) == s2;
    assert Run(s1, [LATER]) == s2;
    StalledInTime();
    assert Timed(s2, []);
    assert Timed(s1, [LATER]);
  }

  lemma StalledInTime()
    ensures InTime(Met(NEW_STREAM, OUTAGE), 0.0) && LastClock(0.0, Met(NEW_STREAM, OUTAGE)) == 0.0
    ensures var s := PassOn(NEW_STREAM, OUTAGE); InTime(Met(s, LATER), 0.06) && LastClock(0.06, Met(s, LATER)) == 0.06
  {
    assert forall i: nat :: OUTAGE.choice(i).clock == 0.0 && LATER.choice(i).clock == 0.06;
  }

  const WAITING: seq<Item> := [Item(0.1, 1, FIRST), Item(0.1, 0, SECOND)]

  lemma OneScheduled()
    ensures Schedule(0.0, [], FIRST, 1) == [Item(0.1, 1, FIRST)]
  {
    assert [] + [Item(0.1, 1, FIRST)] == [Item(0.1, 1, FIRST)];
    assert Sorted([]) == [];
    assert [Item(0.1, 1, FIRST)][..0] == [];
  }

  lemma TwoScheduled()
    ensures Schedule(0.0, [Item(0.1, 1, FIRST)], SECOND, 0) == WAITING
  {
    var one := [Item(0.1, 1, FIRST)];
    assert one + [Item(0.1, 0, SECOND)] == WAITING;
    SortedStays(WAITING);
    assert WAITING[2..] == [];
    assert Normalize([WAITING[1]] + []) == [WAITING[1]];
    assert [WAITING[0]] + [WAITING[1]] == WAITING;
  }

  lemma ThreeScheduled()
    ensures Schedule(0.06, WAITING, THIRD, 0) == STALLED.queue
  {
    var q := STALLED.queue;
    assert WAITING + [Item(0.16, 0, THIRD)] == q;
    SortedStays(q);
    assert [q[1]] + q[2..] == q[1..] && [q[0]] + q[1..] == q && [q[1]] + [q[2]] == q[1..] && q[1..][2..] == [];
    assert Normalize([q[2]] + []) == [q[2]];
    assert Normalize(q[1..]) == q[1..];
  }

  lemma OutageQueues()
    ensures PassOn(NEW_STREAM, OUTAGE) == Stream(WAITING, [])
  {
    OneScheduled();
    TwoScheduled();
    var work := Fresh([FIRST, SECOND]);
    assert Retries([]) + work == work;
    var fails := [Choice(true, 0.0), Choice(true, 0.0)];
    assert Choices(OUTAGE.choice, 2) == fails;
    var s1 := Stream([Item(0.1, 1, FIRST)], []);
    assert work[1..] == [Work(SECOND, 0)] && fails[1..] == [Choice(true, 0.0)];
    assert work[1..][1..] == [] && fails[1..][1..] == [];
    assert Step(NEW_STREAM, FIRST, 0, fails[0]) == s1;
    assert s1.queue[0].reading.value.value < SECOND.value.value;
    assert Step(s1, SECOND, 0, fails[1]) == Stream(WAITING, []);
    assert Process(s1, work[1..], fails[1..]) == Stream(WAITING, []);
  }

  lemma LaterWaits()
    ensures PassOn(Stream(WAITING, []), LATER) == STALLED
  {
    var s := Stream(WAITING, []);
    NoneDue(WAITING, 0.06);
    ThreeScheduled();
    var work := Fresh([THIRD]);
    assert Retries([]) + work == work && work[1..] == [];
    var choices := Choices(LATER.choice, 1);
    assert choices[1..] == [];
    assert s.queue[0].reading.value.value < THIRD.value.value;
    assert Step(s, THIRD, 0, choices[0]) == STALLED;
    assert Process(STALLED, work[1..], choices[1..]) == STALLED;
  }
}
