/** Which streams of readings the retry queue attributes rightly, however their
    passes fall and whatever commits fail: exactly those in which no context
    comes back after another one has counted pulses. */
module StreamRuns {
  import opened Common
  import opened CounterStream
  import opened Attribution
  import opened CounterRuns

  // ---- the readings that count ----

  /** The readings that rise above everything before them. */
  function Rises(level: int, rs: seq<Reading>): seq<Reading>
    decreases |rs|
  {
    if rs == [] then []
    else
      var (before, last) := (rs[..|rs| - 1], rs[|rs| - 1]);
      Rises(level, before) + (if last.value.Some? && last.value.value > Level(level, before) then [last] else [])
  }

  /** No context recurs after a different one. */
  predicate Grouped(rs: seq<Reading>) {
    forall i, j, k :: 0 <= i < j < k < |rs| && rs[i].context == rs[k].context ==> rs[j].context == rs[i].context
  }

  lemma {:induction false} RisesSplits(level: int, a: seq<Reading>, b: seq<Reading>)
    ensures Rises(level, a + b) == Rises(level, a) + Rises(Level(level, a), b)
    decreases |b|
  {
    if b == [] {
      assert a + b == a;
    } else {
      var n := |b| - 1;
      RisesLast(level, a + b);
      RisesLast(Level(level, a), b);
      hide Level, Rises;
      RisesSplits(level, a, b[..n]);
      ShareSplits(level, a, b[..n], Context(false, None, None));
      assert (a + b)[..|a + b| - 1] == a + b[..n];
    }
  }

  lemma RisesLast(level: int, rs: seq<Reading>)
    requires rs != []
    ensures var (before, last) := (rs[..|rs| - 1], rs[|rs| - 1]);
            Rises(level, rs) == Rises(level, before)
                                + (if last.value.Some? && last.value.value > Level(level, before) then [last] else [])
  {
    hide Level;
  }

  lemma StrictEmpty()
    ensures Strict([])
  {
  }

  lemma StrictPush(rs: seq<Reading>, r: Reading, top: int)
    requires Strict(rs) && r.value.Some? && r.value.value > top
    requires forall i :: 0 <= i < |rs| ==> rs[i].value.Some? && rs[i].value.value <= top
    ensures Strict(rs + [r])
  {
  }

  /** Rises are strict, and the last of them is the level. */
  lemma {:induction false} RisesStrict(rs: seq<Reading>)
    ensures Strict(Rises(0, rs))
    ensures forall i :: 0 <= i < |Rises(0, rs)| ==> Rises(0, rs)[i].value.Some? && 0 < Rises(0, rs)[i].value.value <= Level(0, rs)
    ensures Rises(0, rs) != [] ==> Rises(0, rs)[|Rises(0, rs)| - 1].value.value == Level(0, rs)
    ensures Rises(0, rs) == [] ==> Level(0, rs) == 0
    decreases |rs|
  {
    if rs == [] {
      StrictEmpty();
    } else {
      var (before, last) := (rs[..|rs| - 1], rs[|rs| - 1]);
      RisesStrict(before);
      RisesPush(before, last);
      assert before + [last] == rs;
      hide Strict, Rises, Level;
      if last.value.Some? && last.value.value > Level(0, before) {
        StrictPush(Rises(0, before), last, Level(0, before));
      }
    }
  }

  lemma RisesPush(rs: seq<Reading>, r: Reading)
    ensures var rise := r.value.Some? && r.value.value > Level(0, rs);
            && Rises(0, rs + [r]) == (if rise then Rises(0, rs) + [r] else Rises(0, rs))
            && Level(0, rs + [r]) == (if rise then r.value.value else Level(0, rs))
  {
    assert (rs + [r])[..|rs|] == rs;
    assert Rises(0, rs) + [] == Rises(0, rs);
  }

  // ---- what a queue can hold ----

  /** Already covered by the checkpoint, or one of the readings that count. */
  predicate Settled(r: Reading, commits: seq<Reading>, seen: seq<Reading>) {
    r.value.Some? && (r.value.value <= Checkpoint(commits) || r in Rises(0, seen))
  }

  ghost predicate AllSettled(rs: seq<Reading>, commits: seq<Reading>, seen: seq<Reading>) {
    forall r :: r in rs ==> Settled(r, commits, seen)
  }

  ghost predicate Covered(s: Stream, seen: seq<Reading>) {
    AllSettled(Readings(s.queue), s.commits, seen)
  }

  lemma SettledLater(r: Reading, commits: seq<Reading>, more: seq<Reading>, seen: seq<Reading>, later: seq<Reading>)
    requires Settled(r, commits, seen)
    ensures Settled(r, commits + more, seen + later)
  {
    CommitsCover(commits, more);
    RisesSplits(0, seen, later);
  }

  lemma CoveredLater(s: Stream, seen: seq<Reading>, later: seq<Reading>)
    requires Covered(s, seen)
    ensures Covered(s, seen + later)
  {
    forall r | r in Readings(s.queue) ensures Settled(r, s.commits, seen + later) {
      SettledLater(r, s.commits, [], seen, later);
      assert s.commits + [] == s.commits;
    }
  }

  lemma ScheduledCovered(s: Stream, clock: real, r: Reading, attempt: nat, seen: seq<Reading>)
    requires Covered(s, seen) && Settled(r, s.commits, seen)
    ensures Covered(Rescheduled(s, clock, r, attempt), seen)
  {
    hide Schedule, Settled;
    var both := Readings(s.queue) + [r];
    ScheduleWithin(clock, s.queue, r, attempt, both);
    forall x | x in Readings(Schedule(clock, s.queue, r, attempt)) ensures Settled(x, s.commits, seen) {
      assert x in both;
    }
  }

  lemma CommitCovered(s: Stream, r: Reading, seen: seq<Reading>)
    requires Covered(s, seen)
    ensures Covered(Commit(s, r), seen)
    ensures forall x :: Settled(x, s.commits, seen) ==> Settled(x, Commit(s, r).commits, seen)
  {
    hide Settled, Level;
    var n := Commit(s, r);
    forall x | Settled(x, s.commits, seen) ensures Settled(x, n.commits, seen) {
      if n != s {
        SettledLater(x, s.commits, [r], seen, []);
        assert seen + [] == seen;
      }
    }
  }

  lemma StepCovered(s: Stream, r: Reading, attempt: nat, choice: Choice, seen: seq<Reading>)
    requires Covered(s, seen) && Settled(r, s.commits, seen)
    ensures var n := Step(s, r, attempt, choice);
            Covered(n, seen) && forall x :: Settled(x, s.commits, seen) ==> Settled(x, n.commits, seen)
  {
    hide Covered, Settled, Schedule, Defers, Commit;
    ScheduledCovered(s, choice.clock, r, attempt, seen);
    ScheduledCovered(s, choice.clock, r, attempt + 1, seen);
    CommitCovered(s, r, seen);
  }

  lemma {:induction false} ProcessCovered(s: Stream, work: seq<Work>, choices: seq<Choice>, seen: seq<Reading>)
    requires |work| == |choices| && Covered(s, seen)
    requires forall i :: 0 <= i < |work| ==> Settled(work[i].reading, s.commits, seen)
    ensures Covered(Process(s, work, choices), seen)
    decreases |work|
  {
    hide Covered, Settled, Step;
    if work != [] {
      var n := Step(s, work[0].reading, work[0].attempt, choices[0]);
      StepCovered(s, work[0].reading, work[0].attempt, choices[0], seen);
      ProcessCovered(n, work[1..], choices[1..], seen);
    }
  }

  lemma {:induction false} ProcessSplits(s: Stream, a: seq<Work>, b: seq<Work>, choices: seq<Choice>)
    requires |choices| == |a| + |b|
    ensures Process(s, a + b, choices) == Process(Process(s, a, choices[..|a|]), b, choices[|a|..])
    decreases |a|
  {
    hide Step;
    if a == [] {
      assert a + b == b && choices[|a|..] == choices;
    } else {
      var n := Step(s, a[0].reading, a[0].attempt, choices[0]);
      ProcessSplits(n, a[1..], b, choices[1..]);
      assert (a + b)[1..] == a[1..] + b;
      assert choices[1..][..|a| - 1] == choices[..|a|][1..] && choices[1..][|a| - 1..] == choices[|a|..];
    }
  }

  // ---- newly observed readings ----

  /** Everything seen is committed or queued, as far as the level goes. */
  predicate SameLevel(s: Stream, seen: seq<Reading>) {
    Level(0, s.commits + Readings(s.queue)) == Level(0, seen)
  }

  /** The queue's level is its last reading's, or the checkpoint. */
  lemma QueueLevel(commits: seq<Reading>, q: seq<Reading>)
    requires Strict(q)
    ensures Level(0, commits + q) ==
              if q != [] && q[|q| - 1].value.value > Checkpoint(commits) then q[|q| - 1].value.value else Checkpoint(commits)
  {
    ShareSplits(0, commits, q, Context(false, None, None));
    LevelOfStrict(Checkpoint(commits), q);
  }

  lemma {:induction false} LevelOfStrict(level: int, q: seq<Reading>)
    requires Strict(q)
    ensures Level(level, q) == if q != [] && q[|q| - 1].value.value > level then q[|q| - 1].value.value else level
    decreases |q|
  {
    if q != [] {
      LevelOfStrict(level, q[..|q| - 1]);
    }
  }

  /** A reading equal to the last one queued leaves the queue's readings alone. */
  lemma EqualReadingDropped(s: Stream, clock: real, r: Reading, attempt: nat)
    requires WellFormed(s.queue) && s.queue != [] && r.value.Some?
    requires s.queue[|s.queue| - 1].reading.value == r.value
    ensures Readings(Schedule(clock, s.queue, r, attempt)) == Readings(s.queue)
  {
    hide Schedule, Norm;
    var (q, n) := (Readings(s.queue), |s.queue|);
    forall i | 0 <= i < n ensures s.queue[i].reading.value.Some? && s.queue[i].reading.value.value <= r.value.value {
      assert q[i] == s.queue[i].reading;
    }
    SortedQueueRises(q);
    ScheduleIsNorm(clock, s.queue, r, attempt, n);
    assert q[..n] + [r] + q[n..] == q + [r];
    NormPasses(q, [r]);
    NormPair(q[n - 1], r);
    assert q[..n - 1] + [q[n - 1]] == q;
  }

  lemma NormPair(a: Reading, b: Reading)
    requires SameValue(a, b)
    ensures Norm([a] + [b]) == [a]
  {
    assert [a] + ([a] + [b])[2..] == [a];
  }

  lemma RiseSettled(commits: seq<Reading>, seen: seq<Reading>, r: Reading)
    requires r.value.Some? && (r.value.value > Level(0, seen) || r.value.value <= Checkpoint(commits))
    ensures Settled(r, commits, seen + [r])
  {
    RisesSplits(0, seen, [r]);
    assert [r][..0] == [];
  }

  lemma ObservedCovered(s: Stream, observed: seq<Reading>, choice: Choice, seen: seq<Reading>)
    requires Midway(s, |s.queue|, [], observed) && observed != [] && SameLevel(s, seen) && Covered(s, seen)
    ensures Covered(Step(s, observed[0], 0, choice), seen + [observed[0]])
  {
    var r := observed[0];
    ObservedPlaces(s, observed);
    MidwayWellFormed(s, |s.queue|, [], observed);
    QueueLevel(s.commits, Readings(s.queue));
    CoveredLater(s, seen, [r]);
    hide Schedule, Midway, Covered, Level, Settled, WellFormed;
    if r.value.value > Level(0, seen) || r.value.value <= Checkpoint(s.commits) {
      RiseSettled(s.commits, seen, r);
      StepCovered(s, r, 0, choice, seen + [r]);
    } else {
      assert s.queue != [];
      var last := s.queue[|s.queue| - 1].reading;
      assert Readings(s.queue)[|s.queue| - 1] == last;
      EqualReadingDropped(s, choice.clock, r, 0);
      SameReadingsCovered(s, Step(s, r, 0, choice), seen + [r]);
    }
  }

  lemma MidwayWellFormed(s: Stream, k: nat, due: seq<Reading>, observed: seq<Reading>)
    requires Midway(s, k, due, observed)
    ensures WellFormed(s.queue) && Strict(Readings(s.queue))
  {
  }

  lemma SameReadingsCovered(s: Stream, n: Stream, seen: seq<Reading>)
    requires Covered(s, seen) && Readings(n.queue) == Readings(s.queue) && n.commits == s.commits
    ensures Covered(n, seen)
  {
  }

  /** One newly observed reading, as a step of its own. */
  lemma ObservedSteps(s: Stream, observed: seq<Reading>, choice: Choice)
    requires Midway(s, |s.queue|, [], observed) && observed != []
    ensures var n := Step(s, observed[0], 0, choice);
            && Midway(n, |n.queue|, [], observed[1..])
            && Level(0, n.commits + Readings(n.queue)) == Level(0, s.commits + Readings(s.queue) + [observed[0]])
  {
    hide Share, Level, Schedule, Defers, Midway;
    var any := Context(false, None, None);
    ObservedPlaces(s, observed);
    MidwayFewer(s, observed);
    OneObserved(s, observed[0], choice);
    ObservedExact(s, [observed[0]], [choice], any);
    if Defers(s.queue, observed[0], 0) {
      ObservedWaits(s, observed, choice.clock, 0, any);
    } else if choice.fails {
      ObservedWaits(s, observed, choice.clock, 1, any);
    } else {
      ObservedCommits(s, observed, any);
    }
  }

  lemma MidwayFewer(s: Stream, observed: seq<Reading>)
    requires Midway(s, |s.queue|, [], observed) && observed != []
    ensures Midway(s, |s.queue|, [], [observed[0]])
  {
  }

  lemma OneObserved(s: Stream, r: Reading, choice: Choice)
    ensures Process(s, Fresh([r]), [choice]) == Step(s, r, 0, choice)
    ensures Pending(s, |s.queue|, [], [r]) == s.commits + Readings(s.queue) + [r]
  {
    hide Step;
    assert Fresh([r])[1..] == [] && [choice][1..] == [];
    assert Process(Step(s, r, 0, choice), Fresh([r])[1..], [choice][1..]) == Step(s, r, 0, choice);
    var q := Readings(s.queue);
    assert q[..|q|] == q && q[|q|..] == [];
    assert s.commits + q + [] + ([] + [r]) == s.commits + q + [r];
  }

  lemma LevelPush(a: seq<Reading>, b: seq<Reading>, r: Reading)
    requires Level(0, a) == Level(0, b)
    ensures Level(0, a + [r]) == Level(0, b + [r])
  {
    ShareSplits(0, a, [r], Context(false, None, None));
    ShareSplits(0, b, [r], Context(false, None, None));
  }

  lemma {:induction false} AllObservedCovered(s: Stream, observed: seq<Reading>, choices: seq<Choice>, seen: seq<Reading>)
    requires Midway(s, |s.queue|, [], observed) && |choices| == |observed| && SameLevel(s, seen) && Covered(s, seen)
    ensures Covered(Process(s, Fresh(observed), choices), seen + observed)
    decreases |observed|
  {
    hide Midway, Covered, Step, Level;
    if observed == [] {
      assert seen + observed == seen;
    } else {
      var n := Step(s, observed[0], 0, choices[0]);
      ObservedCovered(s, observed, choices[0], seen);
      ObservedSteps(s, observed, choices[0]);
      LevelPush(s.commits + Readings(s.queue), seen, observed[0]);
      AllObservedCovered(n, observed[1..], choices[1..], seen + [observed[0]]);
      assert Fresh(observed)[1..] == Fresh(observed[1..]);
      assert seen + [observed[0]] + observed[1..] == seen + observed;
    }
  }

  // ---- one pass ----

  lemma RetriesCovered(s: Stream, now: real, choices: seq<Choice>, seen: seq<Reading>)
    requires Covered(s, seen) && |choices| == |Due(s.queue, now)|
    ensures Covered(Pass(s, now, [], choices), seen)
    ensures Within(Readings(Pass(s, now, [], choices).queue), Readings(s.queue))
  {
    hide Process, Settled;
    var (due, later) := (Due(s.queue, now), NotDue(s.queue, now));
    var n := s.(queue := later);
    DueWithin(s.queue, now);
    assert Retries(due) + Fresh([]) == Retries(due);
    forall r | r in Readings(later) ensures r in Readings(s.queue) {
      var i :| 0 <= i < |later| && later[i].reading == r;
      InQueue(s.queue, later[i]);
    }
    forall i | 0 <= i < |due| ensures Retries(due)[i].reading in Readings(s.queue) {
      InQueue(s.queue, due[i]);
    }
    ProcessCovered(n, Retries(due), choices, seen);
    ProcessWithin(n, Retries(due), choices, Readings(s.queue));
  }

  lemma PassInTwo(s: Stream, now: real, observed: seq<Reading>, choices: seq<Choice>)
    requires |choices| == |Due(s.queue, now)| + |observed|
    ensures var d := |Due(s.queue, now)|;
            Pass(s, now, observed, choices) == Process(Pass(s, now, [], choices[..d]), Fresh(observed), choices[d..])
  {
    hide Process, Due, NotDue;
    var due := Due(s.queue, now);
    assert Retries(due) + Fresh([]) == Retries(due);
    ProcessSplits(s.(queue := NotDue(s.queue, now)), Retries(due), Fresh(observed), choices);
  }

  lemma ContinuesMidway(s: Stream, n: Stream, observed: seq<Reading>)
    requires Continues(s, observed) && WellFormed(n.queue) && Within(Readings(n.queue), Readings(s.queue))
    ensures Midway(n, |n.queue|, [], observed)
  {
    var (q, p) := (Readings(s.queue), Readings(n.queue));
    assert q[..|q|] == q;
    forall i | 0 <= i < |p|
      ensures p[i].value.Some? && forall j :: 0 <= j < |observed| ==> p[i].value.value <= observed[j].value.value
    {
      assert p[i] in p;
      var k :| 0 <= k < |q| && q[k] == p[i];
    }
    assert p[..|p|] == p && p[|p|..] == [];
  }

  lemma PassCovered(s: Stream, p: PassInput, seen: seq<Reading>)
    requires WellFormed(s.queue) && Continues(s, p.observed) && Safe(s, p.now)
    requires SameLevel(s, seen) && Covered(s, seen)
    ensures Covered(PassOn(s, p), seen + p.observed)
  {
    hide Covered, Level, Share, Midway, Safe, Continues, WellFormed, Process, Pass, Due, Within;
    var d := |Due(s.queue, p.now)|;
    var choices := Choices(p.choice, d + |p.observed|);
    var n := Pass(s, p.now, [], choices[..d]);
    NothingMore(s, p.observed);
    RetriesCovered(s, p.now, choices[..d], seen);
    SafePassIsExact(s, p.now, [], choices[..d], Context(false, None, None));
    assert s.commits + Readings(s.queue) + [] == s.commits + Readings(s.queue);
    ContinuesMidway(s, n, p.observed);
    PassInTwo(s, p.now, p.observed, choices);
    AllObservedCovered(n, p.observed, choices[d..], seen);
  }

  lemma NothingMore(s: Stream, observed: seq<Reading>)
    requires Continues(s, observed)
    ensures Continues(s, [])
  {
  }

  // ---- grouped streams are always safe ----

  lemma StrictPosition(rs: seq<Reading>, i: nat, j: nat)
    requires Strict(rs) && i < |rs| && j < |rs| && rs[i].value.Some? && rs[j].value.Some? && rs[i].value.value < rs[j].value.value
    ensures i < j
  {
  }

  lemma GroupedKeepsApart(rs: seq<Reading>, a: Reading, b: Reading, c: Reading)
    requires Strict(rs) && Grouped(rs) && a in rs && b in rs && c in rs
    requires a.value.Some? && b.value.Some? && c.value.Some? && a.value.value < b.value.value < c.value.value
    requires a.context == c.context
    ensures b.context == a.context
  {
    hide Strict;
    var i :| 0 <= i < |rs| && rs[i] == a;
    var j :| 0 <= j < |rs| && rs[j] == b;
    var k :| 0 <= k < |rs| && rs[k] == c;
    StrictPosition(rs, i, j);
    StrictPosition(rs, j, k);
  }

  lemma SettledRise(r: Reading, s: Stream, seen: seq<Reading>)
    requires Covered(s, seen) && r in Readings(s.queue)
    ensures r.value.Some? && (r.value.value > Checkpoint(s.commits) ==> r in Rises(0, seen))
  {
  }

  lemma GroupedIsSafe(s: Stream, now: real, seen: seq<Reading>)
    requires WellFormed(s.queue) && Covered(s, seen) && Grouped(Rises(0, seen))
    ensures Safe(s, now)
  {
    var (due, later) := (Due(s.queue, now), NotDue(s.queue, now));
    DueIsPrefixOf(s.queue, now);
    ReadingsAppend(due, later);
    var (q, d, l) := (Readings(s.queue), Readings(due), Readings(later));
    hide Due, NotDue, Covered, Level, Grouped, Rises;
    if later != [] {
      forall i | 0 <= i < |d| - 1 && d[i].context == l[0].context
        ensures d[i].value.Some? && d[i].value.value <= Checkpoint(s.commits)
      {
        assert q[i] == d[i] && q[i + 1] == d[i + 1] && q[|d|] == l[0];
        SettledRise(q[i], s, seen);
        SettledRise(q[i + 1], s, seen);
        SettledRise(q[|d|], s, seen);
        if d[i].value.value > Checkpoint(s.commits) {
          RisesStrict(seen);
          GroupedKeepsApart(Rises(0, seen), q[i], q[i + 1], q[|d|]);
        }
      }
    }
  }

  lemma GroupedPrefix(seen: seq<Reading>, later: seq<Reading>)
    requires Grouped(Rises(0, seen + later))
    ensures Grouped(Rises(0, seen))
  {
    hide Rises;
    RisesSplits(0, seen, later);
    var (all, a) := (Rises(0, seen + later), Rises(0, seen));
    assert forall i :: 0 <= i < |a| ==> all[i] == a[i];
  }

  /** What every pass of a run keeps when the stream is grouped. */
  ghost predicate OnTrack(s: Stream, seen: seq<Reading>, context: Context) {
    && WellFormed(s.queue) && Within(Readings(s.queue), seen) && Covered(s, seen)
    && SameCharges(s.commits + Readings(s.queue), seen, context)
  }

  lemma {:induction false} GroupedRun(s: Stream, seen: seq<Reading>, ps: seq<PassInput>, context: Context)
    requires OnTrack(s, seen, context) && Rising(seen + Observed(ps)) && Grouped(Rises(0, seen + Observed(ps)))
    ensures OnTrack(Run(s, ps), seen + Observed(ps), context)
    decreases |ps|
  {
    hide OnTrack, PassOn, Rising, Grouped, Rises;
    if ps == [] {
      assert seen + [] == seen;
    } else {
      var p := ps[0];
      var rest := Observed(ps[1..]);
      assert seen + Observed(ps) == seen + (p.observed + rest) == (seen + p.observed) + rest;
      GroupedPrefix(seen, p.observed + rest);
      OnTrackPass(s, seen, p, rest, context);
      GroupedRun(PassOn(s, p), seen + p.observed, ps[1..], context);
    }
  }

  lemma OnTrackPass(s: Stream, seen: seq<Reading>, p: PassInput, later: seq<Reading>, context: Context)
    requires OnTrack(s, seen, context) && Rising(seen + (p.observed + later)) && Grouped(Rises(0, seen))
    ensures OnTrack(PassOn(s, p), seen + p.observed, context)
  {
    hide Share, Level, Safe, Pass, WellFormed, Within, Rising, Continues, Covered, Grouped, Rises, Due;
    RisingContinues(s, seen, p.observed, later);
    GroupedIsSafe(s, p.now, seen);
    SafePassIsExact(s, p.now, p.observed, Choices(p.choice, |Due(s.queue, p.now)| + |p.observed|), context);
    ChargesExtend(s.commits + Readings(s.queue), seen, p.observed, context);
    PassWithin(s, p, seen);
    PassCovered(s, p, seen);
  }

  lemma NewOnTrack(context: Context)
    ensures OnTrack(NEW_STREAM, [], context)
  {
  }

  /** A caller can check this before anything runs: a nondecreasing stream in
      which no context comes back after another one counted is charged exactly as
      if every reading had committed as it was observed, however it is split into
      passes, whichever commits fail and whatever the clock does. */
  lemma GroupedIsTransparent(ps: seq<PassInput>, context: Context)
    requires Rising(Observed(ps)) && Grouped(Rises(0, Observed(ps)))
    ensures Charged(Run(NEW_STREAM, ps), context) == Share(0, Observed(ps), context)
  {
    hide Rising, Grouped, Rises, Run, Share, Level, WellFormed, Covered, Within;
    NewOnTrack(context);
    assert [] + Observed(ps) == Observed(ps);
    GroupedRun(NEW_STREAM, [], ps, context);
  }
}
