/** When the retry queue charges every pulse to the context it was first
    observed in, whatever commits fail: exactly when a pass of the event loop
    starts from a safe queue. */
module Attribution {
  import opened Common
  import opened CounterStream

  // ---- readings in order ----

  predicate Valued(rs: seq<Reading>) {
    forall i :: 0 <= i < |rs| ==> rs[i].value.Some?
  }

  predicate Rising(rs: seq<Reading>) {
    Valued(rs) && forall i, j :: 0 <= i < j < |rs| ==> rs[i].value.value <= rs[j].value.value
  }

  predicate Strict(rs: seq<Reading>) {
    Valued(rs) && forall i, j :: 0 <= i < j < |rs| ==> rs[i].value.value < rs[j].value.value
  }

  predicate Parted(rs: seq<Reading>) {
    forall i :: 0 < i < |rs| ==> rs[i - 1].context != rs[i].context
  }

  predicate DeadlinesRise(items: seq<Item>) {
    forall i, j :: 0 <= i < j < |items| ==> items[i].deadline <= items[j].deadline
  }

  /** What every pass keeps: values strictly rising, a context boundary between
      any two neighbours, deadlines never decreasing. */
  predicate WellFormed(queue: seq<Item>) {
    Strict(Readings(queue)) && Parted(Readings(queue)) && DeadlinesRise(queue)
  }

  // ---- shares ----

  lemma {:induction false} ShareSplits(level: int, a: seq<Reading>, b: seq<Reading>, context: Context)
    ensures Level(level, a + b) == Level(Level(level, a), b)
    ensures Share(level, a + b, context) == Share(level, a, context) + Share(Level(level, a), b, context)
    decreases |b|
  {
    if b == [] {
      assert a + b == a;
    } else {
      var n := |b| - 1;
      ShareSplits(level, a, b[..n], context);
      assert (a + b)[..|a + b| - 1] == a + b[..n];
    }
  }

  lemma ShareOne(level: int, r: Reading, context: Context)
    ensures Level(level, [r]) == (if r.value.Some? && r.value.value > level then r.value.value else level)
    ensures Share(level, [r], context) ==
              if r.value.Some? && r.context == context then Above(r.value.value, level) else 0
  {
    assert [r][..0] == [];
  }

  lemma {:induction false} LevelAtLeast(level: int, rs: seq<Reading>)
    ensures Level(level, rs) >= level
    decreases |rs|
  {
    if rs != [] {
      LevelAtLeast(level, rs[..|rs| - 1]);
    }
  }

  /** The readings of a normalized queue, without its deadlines and attempts. */
  function Norm(rs: seq<Reading>): seq<Reading>
    decreases |rs|
  {
    if |rs| <= 1 then rs
    else if SameValue(rs[0], rs[1]) then Norm([rs[0]] + rs[2..])
    else if Subsumes(rs[0], rs[1]) then Norm(rs[1..])
    else [rs[0]] + Norm(rs[1..])
  }

  lemma NormSame(rs: seq<Reading>)
    requires |rs| > 1 && SameValue(rs[0], rs[1])
    ensures Norm(rs) == Norm([rs[0]] + rs[2..])
  {
  }

  lemma NormRest(rs: seq<Reading>)
    requires |rs| > 1 && !SameValue(rs[0], rs[1])
    ensures Norm(rs) == if Subsumes(rs[0], rs[1]) then Norm(rs[1..]) else [rs[0]] + Norm(rs[1..])
  {
  }

  /** What the normalizing pass goes on with after looking at the first two. */
  function Merged(items: seq<Item>): (merged: seq<Item>)
    requires |items| > 1
    ensures |merged| == |items| - 1
  {
    var (a, b) := (items[0], items[1]);
    (if SameValue(a.reading, b.reading) then [Item(a.deadline, Max(a.attempt, b.attempt), a.reading)]
     else if Subsumes(a.reading, b.reading) then [Item(a.deadline, Max(a.attempt, b.attempt), b.reading)]
     else [b.(deadline := MaxReal(b.deadline, a.deadline))]) + items[2..]
  }

  lemma NormalizeStep(items: seq<Item>)
    requires |items| > 1
    ensures var (a, b) := (items[0], items[1]);
            Normalize(items) == if SameValue(a.reading, b.reading) || Subsumes(a.reading, b.reading) then Normalize(Merged(items))
                                else [a] + Normalize(Merged(items))
  {
    hide SameValue, Subsumes;
  }

  lemma MergedReadings(items: seq<Item>)
    requires |items| > 1
    ensures var rs := Readings(items);
            Readings(Merged(items)) == if SameValue(rs[0], rs[1]) then [rs[0]] + rs[2..] else rs[1..]
    ensures Merged(items) != [] && Merged(items)[0].deadline >= items[0].deadline
    ensures SameValue(items[0].reading, items[1].reading) || Subsumes(items[0].reading, items[1].reading) ==>
              Merged(items)[0].deadline == items[0].deadline
  {
    hide SameValue, Subsumes;
  }

  lemma DeadlinesPush(a: Item, rest: seq<Item>)
    requires DeadlinesRise(rest) && (rest != [] ==> a.deadline <= rest[0].deadline)
    ensures DeadlinesRise([a] + rest) && Readings([a] + rest) == [a.reading] + Readings(rest)
  {
  }

  lemma {:induction false} NormalizeIsNorm(items: seq<Item>)
    ensures Readings(Normalize(items)) == Norm(Readings(items))
    ensures DeadlinesRise(Normalize(items))
    ensures items != [] ==> Normalize(items) != [] && Normalize(items)[0].deadline == items[0].deadline
    decreases |items|
  {
    if |items| > 1 {
      var rs := Readings(items);
      NormalizeStep(items);
      MergedReadings(items);
      if SameValue(rs[0], rs[1]) { NormSame(rs); } else { NormRest(rs); }
      hide Normalize, Norm, Merged, SameValue, Subsumes, DeadlinesRise;
      NormalizeIsNorm(Merged(items));
      DeadlinesPush(items[0], Normalize(Merged(items)));
    }
  }

  lemma {:induction false} NormShape(rs: seq<Reading>)
    requires Rising(rs)
    ensures Strict(Norm(rs)) && Parted(Norm(rs))
    ensures rs != [] ==> Norm(rs) != [] && Norm(rs)[0].context == rs[0].context && Norm(rs)[0].value.value >= rs[0].value.value
    decreases |rs|
  {
    if |rs| > 1 {
      if SameValue(rs[0], rs[1]) {
        NormShape([rs[0]] + rs[2..]);
      } else if Subsumes(rs[0], rs[1]) {
        NormShape(rs[1..]);
      } else {
        NormShape(rs[1..]);
        var rest := Norm(rs[1..]);
        var all := [rs[0]] + rest;
        forall i, j | 0 <= i < j < |all| ensures all[i].value.value < all[j].value.value {
          assert rest[0].value.value <= all[j].value.value;
        }
        assert Parted(all) by {
          forall i | 0 < i < |all| ensures all[i - 1].context != all[i].context {
            assert i > 1 ==> rest[i - 2].context != rest[i - 1].context;
          }
        }
      }
    }
  }

  /** Two neighbouring readings charge what the one that replaces them charges. */
  lemma PairMerges(level: int, a: Reading, b: Reading, rest: seq<Reading>, context: Context)
    requires a.value.Some? && b.value.Some? && a.value.value <= b.value.value
    requires SameValue(a, b) || Subsumes(a, b)
    ensures var kept := if SameValue(a, b) then a else b;
            && Share(level, [a] + [b] + rest, context) == Share(level, [kept] + rest, context)
            && Level(level, [a] + [b] + rest) == Level(level, [kept] + rest)
  {
    hide Share, Level;
    var kept := if SameValue(a, b) then a else b;
    ShareSplits(level, [a] + [b], rest, context);
    ShareSplits(level, [a], [b], context);
    ShareSplits(level, [kept], rest, context);
    ShareOne(level, a, context);
    ShareOne(Level(level, [a]), b, context);
    ShareOne(level, b, context);
  }

  /** Coalescing moves no pulse between contexts. */
  lemma {:induction false} NormShare(level: int, rs: seq<Reading>, context: Context)
    requires Rising(rs)
    ensures Share(level, Norm(rs), context) == Share(level, rs, context)
    ensures Level(level, Norm(rs)) == Level(level, rs)
    decreases |rs|
  {
    hide Share, Level;
    if |rs| > 1 {
      var (a, b) := (rs[0], rs[1]);
      assert rs == [a] + [b] + rs[2..];
      if SameValue(a, b) {
        PairMerges(level, a, b, rs[2..], context);
        NormShare(level, [a] + rs[2..], context);
      } else if Subsumes(a, b) {
        PairMerges(level, a, b, rs[2..], context);
        assert rs[1..] == [b] + rs[2..];
        NormShare(level, rs[1..], context);
      } else {
        assert rs == [a] + rs[1..];
        ShareSplits(level, [a], rs[1..], context);
        ShareSplits(level, [a], Norm(rs[1..]), context);
        NormShare(Level(level, [a]), rs[1..], context);
      }
    }
  }

  // ---- scheduling into a well-formed queue ----

  lemma {:induction false} SortIntoPlaces(sorted: seq<Item>, item: Item, k: nat)
    requires k <= |sorted| && item.reading.value.Some? && Valued(Readings(sorted))
    requires forall i :: 0 <= i < k ==> sorted[i].reading.value.value <= item.reading.value.value
    requires forall i :: k <= i < |sorted| ==> item.reading.value.value < sorted[i].reading.value.value
    ensures SortInto(sorted, item) == sorted[..k] + [item] + sorted[k..]
    decreases |sorted|
  {
    var n := |sorted| - 1;
    if k < |sorted| {
      assert Readings(sorted)[n].value.Some?;
      assert forall i :: 0 <= i < n ==> Readings(sorted[..n])[i] == Readings(sorted)[i];
      SortIntoPlaces(sorted[..n], item, k);
      assert sorted[..n][..k] == sorted[..k];
      assert sorted[k..] == sorted[..n][k..] + [sorted[n]];
    } else {
      assert sorted[..k] == sorted && sorted[k..] == [];
      assert sorted != [] ==> Readings(sorted)[n].value.Some?;
    }
  }

  lemma {:induction false} SortedStays(items: seq<Item>)
    requires Rising(Readings(items))
    ensures Sorted(items) == items
    decreases |items|
  {
    if items != [] {
      hide Rising, SortInto;
      RisingFront(items);
      SortedStays(items[..|items| - 1]);
    }
  }

  lemma RisingFront(items: seq<Item>)
    requires items != [] && Rising(Readings(items))
    ensures var n := |items| - 1; Rising(Readings(items[..n])) && SortInto(items[..n], items[n]) == items
  {
    var n := |items| - 1;
    assert forall i :: 0 <= i <= n ==> items[i].reading == Readings(items)[i];
    assert forall i :: 0 <= i < n ==> Readings(items[..n])[i] == Readings(items)[i];
    assert items == items[..n] + [items[n]];
  }

  lemma ScheduleIsNorm(clock: real, queue: seq<Item>, reading: Reading, attempt: nat, k: nat)
    requires Rising(Readings(queue)) && reading.value.Some? && k <= |queue|
    requires forall i :: 0 <= i < k ==> queue[i].reading.value.Some? && queue[i].reading.value.value <= reading.value.value
    requires forall i :: k <= i < |queue| ==> queue[i].reading.value.Some? && reading.value.value < queue[i].reading.value.value
    ensures var next := Schedule(clock, queue, reading, attempt);
            var rs := Readings(queue);
            && Readings(next) == Norm(rs[..k] + [reading] + rs[k..])
            && Rising(rs[..k] + [reading] + rs[k..])
            && WellFormed(next)
  {
    hide Norm, Normalize, SortInto, RetryDelay;
    var item := Item(clock + RetryDelay(attempt), attempt, reading);
    var rs := Readings(queue);
    SortedStays(queue);
    assert (queue + [item])[..|queue|] == queue;
    SortIntoPlaces(queue, item, k);
    var sorted := queue[..k] + [item] + queue[k..];
    assert Readings(sorted) == rs[..k] + [reading] + rs[k..];
    RisingInsert(rs, reading, k);
    NormalizeIsNorm(sorted);
    NormShape(Readings(sorted));
  }

  lemma RisingInsert(rs: seq<Reading>, r: Reading, k: nat)
    requires Rising(rs) && r.value.Some? && k <= |rs|
    requires forall i :: 0 <= i < k ==> rs[i].value.value <= r.value.value
    requires forall i :: k <= i < |rs| ==> r.value.value < rs[i].value.value
    ensures Rising(rs[..k] + [r] + rs[k..])
  {
    var all := rs[..k] + [r] + rs[k..];
    forall i | 0 <= i < |all| ensures all[i] == (if i < k then rs[i] else if i == k then r else rs[i - 1]) {
    }
  }

  /** Strict and parted pass to the tail, and say what is needed of the first two. */
  lemma TailOf(a: seq<Reading>)
    requires Strict(a) && Parted(a) && |a| > 1
    ensures Strict(a[1..]) && Parted(a[1..])
    ensures a[0].value.Some? && a[1].value.Some? && a[0].context != a[1].context && a[0].value.value < a[1].value.value
  {
    assert forall i :: 0 < i < |a[1..]| ==> a[1..][i - 1] == a[i] && a[1..][i] == a[i + 1];
  }

  lemma {:induction false} NormKeeps(rs: seq<Reading>)
    requires Strict(rs) && Parted(rs)
    ensures Norm(rs) == rs
    decreases |rs|
  {
    hide Strict, Parted;
    if |rs| > 1 {
      TailOf(rs);
      NormKeeps(rs[1..]);
      assert rs == [rs[0]] + rs[1..];
    }
  }

  lemma NormFirst(rs: seq<Reading>)
    requires |rs| > 1 && rs[0].value.Some? && rs[1].value.Some?
    requires rs[0].context != rs[1].context && rs[0].value.value < rs[1].value.value
    ensures Norm(rs) == [rs[0]] + Norm(rs[1..])
  {
  }

  /** A parted, strict prefix passes through up to its last reading. */
  lemma {:induction false} NormPasses(a: seq<Reading>, rest: seq<Reading>)
    requires a != [] && Strict(a) && Parted(a)
    ensures Norm(a + rest) == a[..|a| - 1] + Norm([a[|a| - 1]] + rest)
    decreases |a|
  {
    hide Strict, Parted, Norm;
    if |a| == 1 {
      assert a == [a[0]];
      assert [] + Norm([a[0]] + rest) == Norm([a[0]] + rest);
    } else {
      TailOf(a);
      NormFirst(a + rest);
      assert (a + rest)[1..] == a[1..] + rest;
      NormPasses(a[1..], rest);
      assert a[..|a| - 1] == [a[0]] + a[1..][..|a| - 2];
    }
  }

  /** Inserting a reading strictly between two parts of a parted queue: it is
      dropped when the part after it starts in its own context, and otherwise
      leaves that part alone. */
  lemma NormInsert(a: seq<Reading>, r: Reading, b: seq<Reading>)
    requires Strict(a + [r] + b) && Parted(a + b)
    ensures Norm(a + [r] + b) ==
              if b != [] && r.context == b[0].context then a + b
              else Norm(a + [r]) + b
  {
    hide Norm, Strict, Parted;
    StrictParts(a, r, b);
    PartedParts(a, b);
    if b == [] {
      NormInsertLast(a, r);
    } else if a == [] {
      NormInsertFirst(r, b);
    } else {
      NormInsertBetween(a, r, b);
    }
  }

  lemma NormInsertLast(a: seq<Reading>, r: Reading)
    ensures Norm(a + [r] + []) == Norm(a + [r]) + []
  {
    assert a + [r] + [] == a + [r];
  }

  lemma NormInsertFirst(r: Reading, b: seq<Reading>)
    requires Strict(b) && Parted(b) && b != [] && r.value.Some? && r.value.value < b[0].value.value
    ensures Norm([] + [r] + b) == if r.context == b[0].context then [] + b else Norm([] + [r]) + b
  {
    NormHead(r, b);
    assert [] + [r] + b == [r] + b && [] + b == b && [] + [r] == [r];
  }

  lemma NormInsertBetween(a: seq<Reading>, r: Reading, b: seq<Reading>)
    requires a != [] && b != [] && Strict(a) && Parted(a) && Strict(b) && Parted(b) && r.value.Some?
    requires a[|a| - 1].value.Some? && a[|a| - 1].value.value < r.value.value
    requires b[0].value.Some? && r.value.value < b[0].value.value && a[|a| - 1].context != b[0].context
    ensures Norm(a + [r] + b) == if r.context == b[0].context then a + b else Norm(a + [r]) + b
  {
    hide Norm, Strict, Parted;
    var (front, l) := (a[..|a| - 1], a[|a| - 1]);
    assert a + [r] + b == a + ([r] + b);
    NormPasses(a, [r] + b);
    NormPasses(a, [r]);
    assert [l] + ([r] + b) == [l, r] + b;
    NormThree(l, r, b);
    if r.context == b[0].context {
      assert a == front + [l];
      assert front + ([l] + b) == a + b;
    } else {
      assert front + (Norm([l] + [r]) + b) == front + Norm([l] + [r]) + b;
    }
  }

  lemma StrictParts(a: seq<Reading>, r: Reading, b: seq<Reading>)
    requires Strict(a + [r] + b)
    ensures Strict(a) && Strict(b) && r.value.Some?
    ensures a != [] ==> a[|a| - 1].value.Some? && a[|a| - 1].value.value < r.value.value
    ensures b != [] ==> b[0].value.Some? && r.value.value < b[0].value.value
  {
    var all := a + [r] + b;
    assert all[|a|] == r;
    assert forall i :: 0 <= i < |a| ==> all[i] == a[i];
    assert forall i :: 0 <= i < |b| ==> all[|a| + 1 + i] == b[i];
  }

  lemma PartedParts(a: seq<Reading>, b: seq<Reading>)
    requires Parted(a + b)
    ensures Parted(a) && Parted(b)
    ensures a != [] && b != [] ==> a[|a| - 1].context != b[0].context
  {
    var all := a + b;
    assert forall i :: 0 <= i < |a| ==> all[i] == a[i];
    assert forall i :: 0 <= i < |b| ==> all[|a| + i] == b[i];
    forall i | 0 < i < |b| ensures b[i - 1].context != b[i].context {
      assert all[|a| + i - 1].context != all[|a| + i].context;
    }
    if a != [] && b != [] {
      assert all[|a| - 1].context != all[|a|].context;
    }
  }

  lemma NormHead(r: Reading, b: seq<Reading>)
    requires Strict(b) && Parted(b) && b != [] && r.value.Some? && r.value.value < b[0].value.value
    ensures Norm([r] + b) == if r.context == b[0].context then b else Norm([r]) + b
  {
    NormKeeps(b);
    assert ([r] + b)[1..] == b;
  }

  lemma NormThree(l: Reading, r: Reading, b: seq<Reading>)
    requires Strict(b) && Parted(b) && b != [] && l.value.Some? && r.value.Some?
    requires l.value.value < r.value.value < b[0].value.value && l.context != b[0].context
    ensures Norm([l, r] + b) == if r.context == b[0].context then [l] + b else Norm([l] + [r]) + b
  {
    hide Norm, Strict, Parted;
    var rest := [r] + b;
    var all := [l, r] + b;
    assert all[1..] == rest;
    assert [l] + [r] == [l, r];
    assert [l, r][1..] == [r];
    NormHead(r, b);
    NormOne(r);
    if l.context == r.context {
      NormHead(l, b);
      NormSubsumed(all);
      NormSubsumed([l, r]);
    } else {
      NormFirst(all);
      NormFirst([l, r]);
      if r.context != b[0].context {
        assert [l] + ([r] + b) == [l, r] + b;
      }
    }
  }

  lemma NormOne(r: Reading)
    ensures Norm([r]) == [r]
  {
  }

  lemma NormSubsumed(rs: seq<Reading>)
    requires |rs| > 1 && rs[0].value.Some? && rs[1].value.Some?
    requires rs[0].context == rs[1].context && rs[0].value.value < rs[1].value.value
    ensures Norm(rs) == Norm(rs[1..])
  {
  }

  // ---- one pass of the event loop ----

  /** The queue must not hold back a boundary in the context of a due one that
      is not the last due: failing again, that one would be folded into the
      later boundary, past the due boundaries between them. A due boundary the
      checkpoint already covers charges nothing and is harmless. */
  predicate Safe(s: Stream, now: real) {
    var (due, later) := (Readings(Due(s.queue, now)), Readings(NotDue(s.queue, now)));
    later != [] ==>
      forall i :: 0 <= i < |due| - 1 && due[i].context == later[0].context ==>
        due[i].value.Some? && due[i].value.value <= Checkpoint(s.commits)
  }

  predicate Under(a: seq<Reading>, b: seq<Reading>) {
    Valued(a) && Valued(b)
    && forall i, j :: 0 <= i < |a| && 0 <= j < |b| ==> a[i].value.value < b[j].value.value
  }

  predicate NotOver(a: seq<Reading>, b: seq<Reading>) {
    Valued(a) && Valued(b)
    && forall i, j :: 0 <= i < |a| && 0 <= j < |b| ==> a[i].value.value <= b[j].value.value
  }

  /** In the middle of a pass: the queue is cut at `k` around the due
      boundaries still to process, and the newly observed ones come last. */
  ghost predicate Placed(s: Stream, k: nat, due: seq<Reading>, observed: seq<Reading>) {
    var q := Readings(s.queue);
    && WellFormed(s.queue) && k <= |q|
    && Strict(due) && Parted(due) && Rising(observed)
    && Under(q[..k], due) && Under(due, q[k..]) && NotOver(q, observed) && NotOver(due, observed)
  }

  /** ...and no due boundary would be folded past the ones after it. */
  ghost predicate Midway(s: Stream, k: nat, due: seq<Reading>, observed: seq<Reading>) {
    var q := Readings(s.queue);
    && Placed(s, k, due, observed)
    && (k < |q| ==> forall i :: 0 <= i < |due| - 1 && due[i].context == q[k].context ==>
                      due[i].value.value <= Checkpoint(s.commits))
  }

  /** All of it in the order it should be charged. */
  function Pending(s: Stream, k: nat, due: seq<Reading>, observed: seq<Reading>): seq<Reading>
    requires k <= |s.queue|
  {
    s.commits + Readings(s.queue)[..k] + due + (Readings(s.queue)[k..] + observed)
  }

  /** Two lines of readings charge a context alike, and leave the same level for what follows. */
  predicate SameCharges(x: seq<Reading>, y: seq<Reading>, context: Context) {
    Share(0, x, context) == Share(0, y, context) && Level(0, x) == Level(0, y)
  }

  /** A reading at or below the level before it charges nothing. */
  lemma CoveredCharges(a: seq<Reading>, r: Reading, b: seq<Reading>, context: Context)
    requires r.value.Some? && r.value.value <= Level(0, a)
    ensures SameCharges(a + [r] + b, a + b, context)
  {
    hide Share, Level;
    ShareSplits(0, a + [r], b, context);
    ShareSplits(0, a, [r], context);
    ShareSplits(0, a, b, context);
    ShareOne(Level(0, a), r, context);
  }

  lemma CommitsCover(commits: seq<Reading>, a: seq<Reading>)
    ensures Checkpoint(commits) <= Level(0, commits + a)
  {
    ShareSplits(0, commits, a, Context(false, None, None));
    LevelAtLeast(Level(0, commits), a);
  }

  lemma {:induction false} NormBounded(rs: seq<Reading>, top: int)
    requires Rising(rs) && forall i :: 0 <= i < |rs| ==> rs[i].value.value <= top
    ensures Valued(Norm(rs)) && forall i :: 0 <= i < |Norm(rs)| ==> Norm(rs)[i].value.value <= top
    decreases |rs|
  {
    if |rs| > 1 {
      if SameValue(rs[0], rs[1]) {
        NormBounded([rs[0]] + rs[2..], top);
      } else {
        NormBounded(rs[1..], top);
      }
    }
  }

  lemma LowerDefers(s: Stream, k: nat, due: seq<Reading>, observed: seq<Reading>, attempt: nat)
    requires Placed(s, k, due, observed) && due != [] && k > 0
    ensures Defers(s.queue, due[0], attempt)
  {
    var q := Readings(s.queue);
    assert q[..k][0].value.value < due[0].value.value;
    assert s.queue[0].reading == q[0];
  }

  /** A due boundary behind nothing lower commits. */
  lemma DueCommits(s: Stream, due: seq<Reading>, observed: seq<Reading>, context: Context)
    requires Placed(s, 0, due, observed) && due != []
    ensures var n := Commit(s, due[0]);
            && Placed(n, 0, due[1..], observed) && (Midway(s, 0, due, observed) ==> Midway(n, 0, due[1..], observed))
            && SameCharges(Pending(n, 0, due[1..], observed), Pending(s, 0, due, observed), context)
            && Checkpoint(n.commits) <= (if due[0].value.value > Checkpoint(s.commits) then due[0].value.value else Checkpoint(s.commits))
  {
    hide Share, Level, WellFormed, Under, NotOver, Rising, Parted, Placed;
    DueShrinks(s, 0, due, observed);
    var n := Commit(s, due[0]);
    var rest := due[1..] + (Readings(s.queue)[0..] + observed);
    assert due == [due[0]] + due[1..];
    assert Pending(s, 0, due, observed) == s.commits + [due[0]] + rest;
    assert Pending(n, 0, due[1..], observed) == n.commits + rest;
    CheckpointGrows(s.commits, due[0]);
    if due[0].value.value < Checkpoint(s.commits) {
      CoveredCharges(s.commits, due[0], rest, context);
    } else if Midway(s, 0, due, observed) {
      CommitKeeps(s, n, due, observed);
    }
  }

  lemma CommitKeeps(s: Stream, n: Stream, due: seq<Reading>, observed: seq<Reading>)
    requires Midway(s, 0, due, observed) && due != []
    requires n.queue == s.queue && Checkpoint(n.commits) >= Checkpoint(s.commits)
    ensures Midway(n, 0, due[1..], observed)
  {
    hide Checkpoint;
    DueShrinks(s, 0, due, observed);
  }

  lemma CheckpointGrows(commits: seq<Reading>, r: Reading)
    ensures Checkpoint(commits + [r]) ==
              if r.value.Some? && r.value.value > Checkpoint(commits) then r.value.value else Checkpoint(commits)
  {
    assert (commits + [r])[..|commits|] == commits;
  }

  lemma DueShrinks(s: Stream, k: nat, due: seq<Reading>, observed: seq<Reading>)
    requires Placed(s, k, due, observed) && due != []
    ensures Placed(s, k, due[1..], observed) && due[0].value.Some?
    ensures Placed(Commit(s, due[0]), k, due[1..], observed)
    ensures Midway(s, k, due, observed) ==> Midway(s, k, due[1..], observed)
  {
    hide Level;
  }

  function Rescheduled(s: Stream, clock: real, reading: Reading, attempt: nat): Stream {
    s.(queue := Schedule(clock, s.queue, reading, attempt))
  }

  /** Where the cut is after a due boundary went back into the queue. */
  function Cut(q: seq<Reading>, k: nat, r: Reading): nat
    requires k <= |q|
  {
    if k < |q| && r.context == q[k].context then k else |Norm(q[..k] + [r])|
  }

  lemma DuePlaces(s: Stream, k: nat, due: seq<Reading>, observed: seq<Reading>)
    requires Placed(s, k, due, observed) && due != []
    ensures var q := Readings(s.queue);
            && Strict(q[..k] + [due[0]] + q[k..]) && Parted(q[..k] + q[k..]) && Rising(q[..k] + [due[0]])
            && (forall i :: 0 <= i < k ==> s.queue[i].reading.value.Some? && s.queue[i].reading.value.value <= due[0].value.value)
            && (forall i :: k <= i < |q| ==> s.queue[i].reading.value.Some? && due[0].value.value < s.queue[i].reading.value.value)
  {
    var q := Readings(s.queue);
    var (a, b) := (q[..k], q[k..]);
    assert a + b == q;
    forall i | 0 <= i < k ensures q[i].value.value < due[0].value.value {
      assert a[i] == q[i];
    }
    forall i | k <= i < |q| ensures due[0].value.value < q[i].value.value {
      assert b[i - k] == q[i];
    }
    StrictInsert(q, due[0], k);
  }

  lemma StrictInsert(q: seq<Reading>, r: Reading, k: nat)
    requires Strict(q) && r.value.Some? && k <= |q|
    requires forall i :: 0 <= i < k ==> q[i].value.value < r.value.value
    requires forall i :: k <= i < |q| ==> r.value.value < q[i].value.value
    ensures Strict(q[..k] + [r] + q[k..]) && Rising(q[..k] + [r])
  {
    var all := q[..k] + [r] + q[k..];
    assert forall i :: 0 <= i < |all| ==> all[i] == if i < k then q[i] else if i == k then r else q[i - 1];
    var front := q[..k] + [r];
    assert forall i :: 0 <= i < |front| ==> front[i] == if i < k then q[i] else r;
  }

  /** A due boundary put back, whether it failed or waited its turn. */
  lemma DueWaits(s: Stream, k: nat, due: seq<Reading>, observed: seq<Reading>, clock: real, attempt: nat)
    requires Midway(s, k, due, observed) && due != []
    ensures k <= |s.queue|
    ensures var n := Rescheduled(s, clock, due[0], attempt);
            var j := Cut(Readings(s.queue), k, due[0]);
            var q := Readings(s.queue);
            && j <= |n.queue| && Midway(n, j, due[1..], observed)
            && Readings(n.queue)[j..] == q[k..]
            && Readings(n.queue)[..j] == if k < |q| && due[0].context == q[k].context then q[..k] else Norm(q[..k] + [due[0]])
  {
    hide Norm, Schedule, Level, Share;
    var q := Readings(s.queue);
    var (a, r, b) := (q[..k], due[0], q[k..]);
    var n := Rescheduled(s, clock, r, attempt);
    var j := Cut(q, k, r);
    DuePlaces(s, k, due, observed);
    SortedQueueRises(q);
    ScheduleIsNorm(clock, s.queue, r, attempt, k);
    NormInsert(a, r, b);
    NormBounded(a + [r], r.value.value);
    var low := if k < |q| && r.context == q[k].context then a else Norm(a + [r]);
    assert Readings(n.queue) == low + b;
    WaitingKeeps(n, low, b, j, due, observed);
  }

  lemma SortedQueueRises(q: seq<Reading>)
    requires Strict(q)
    ensures Rising(q)
  {
  }

  lemma WaitingKeeps(n: Stream, low: seq<Reading>, b: seq<Reading>, j: nat, due: seq<Reading>, observed: seq<Reading>)
    requires WellFormed(n.queue) && Readings(n.queue) == low + b && j == |low|
    requires due != [] && Strict(due) && Parted(due) && Rising(observed) && NotOver(due, observed) && Under(due, b) && NotOver(b, observed)
    requires Valued(low) && forall i :: 0 <= i < |low| ==> low[i].value.value <= due[0].value.value
    requires b != [] ==> forall i :: 0 <= i < |due| - 1 && due[i].context == b[0].context ==> due[i].value.value <= Checkpoint(n.commits)
    ensures Midway(n, j, due[1..], observed)
    ensures Readings(n.queue)[..j] == low && Readings(n.queue)[j..] == b
  {
    hide Level;
    var q := Readings(n.queue);
    assert q[..j] == low && q[j..] == b;
    forall i, l | 0 <= i < |q| && 0 <= l < |observed| ensures q[i].value.value <= observed[l].value.value {
      assert q[i] == if i < j then low[i] else b[i - j];
    }
    assert b != [] ==> q[j] == b[0];
  }

  lemma DueWaitsShare(s: Stream, k: nat, due: seq<Reading>, observed: seq<Reading>, clock: real, attempt: nat, context: Context)
    requires Midway(s, k, due, observed) && due != []
    ensures var n := Rescheduled(s, clock, due[0], attempt);
            var j := Cut(Readings(s.queue), k, due[0]);
            j <= |n.queue| && SameCharges(Pending(n, j, due[1..], observed), Pending(s, k, due, observed), context)
  {
    hide Norm, Schedule, Level, Share;
    var q := Readings(s.queue);
    var (a, r, b) := (q[..k], due[0], q[k..]);
    var n := Rescheduled(s, clock, r, attempt);
    var j := Cut(q, k, r);
    DueWaits(s, k, due, observed, clock, attempt);
    DuePlaces(s, k, due, observed);
    PendingParts(s, k, due, observed);
    NextPending(n, j, due[1..], observed, if k < |q| && r.context == q[k].context then a else Norm(a + [r]), b);
    var rest := due[1..] + (b + observed);
    if k < |q| && r.context == q[k].context {
      if due[1..] == [] {
        assert b[0] == q[k];
        FoldedLast(s.commits + a, r, b, observed, context);
      } else {
        CommitsCover(s.commits, a);
        CoveredCharges(s.commits + a, r, rest, context);
      }
    } else {
      assert s.commits + a + [r] == s.commits + (a + [r]);
      NormInMiddle(s.commits, a + [r], rest, context);
    }
  }

  lemma PendingParts(s: Stream, k: nat, due: seq<Reading>, observed: seq<Reading>)
    requires k <= |s.queue| && due != []
    ensures var q := Readings(s.queue);
            Pending(s, k, due, observed) == s.commits + q[..k] + [due[0]] + (due[1..] + (q[k..] + observed))
  {
    assert due == [due[0]] + due[1..];
  }

  lemma NextPending(n: Stream, j: nat, due: seq<Reading>, observed: seq<Reading>, low: seq<Reading>, b: seq<Reading>)
    requires j <= |n.queue| && Readings(n.queue)[..j] == low && Readings(n.queue)[j..] == b
    ensures Pending(n, j, due, observed) == n.commits + low + (due + (b + observed))
  {
  }

  /** The last due boundary, folded into the later one in its own context. */
  lemma FoldedLast(before: seq<Reading>, r: Reading, b: seq<Reading>, observed: seq<Reading>, context: Context)
    requires b != [] && r.value.Some? && b[0].value.Some? && r.value.value < b[0].value.value && r.context == b[0].context
    ensures SameCharges(before + [r] + ([] + (b + observed)), before + ([] + (b + observed)), context)
  {
    hide Share, Level;
    var tail := b[1..] + observed;
    assert [] + (b + observed) == [b[0]] + tail;
    assert before + [r] + ([b[0]] + tail) == before + ([r] + [b[0]] + tail);
    ShareSplits(0, before, [r] + [b[0]] + tail, context);
    ShareSplits(0, before, [b[0]] + tail, context);
    PairMerges(Level(0, before), r, b[0], tail, context);
  }

  lemma NormInMiddle(before: seq<Reading>, rs: seq<Reading>, rest: seq<Reading>, context: Context)
    requires Rising(rs)
    ensures SameCharges(before + Norm(rs) + rest, before + rs + rest, context)
  {
    hide Share, Level, Norm;
    ShareSplits(0, before + Norm(rs), rest, context);
    ShareSplits(0, before, Norm(rs), context);
    ShareSplits(0, before + rs, rest, context);
    ShareSplits(0, before, rs, context);
    NormShare(Level(0, before), rs, context);
  }

  /** A newly observed boundary commits only when nothing of its stream waits. */
  lemma ObservedPlaces(s: Stream, observed: seq<Reading>)
    requires Midway(s, |s.queue|, [], observed) && observed != []
    ensures s.queue != [] ==> Defers(s.queue, observed[0], 0)
    ensures Midway(s, |s.queue|, [], observed[1..])
    ensures forall i :: 0 <= i < |s.queue| ==> s.queue[i].reading.value.Some? && s.queue[i].reading.value.value <= observed[0].value.value
    ensures observed[0].value.Some? && Rising(Readings(s.queue))
  {
    var q := Readings(s.queue);
    if s.queue != [] {
      assert q[0].value.value <= observed[0].value.value;
    }
  }

  /** Scheduling it leaves the queue's readings with this one normalized in at the end. */
  lemma ObservedSchedules(s: Stream, observed: seq<Reading>, clock: real, attempt: nat)
    requires Midway(s, |s.queue|, [], observed) && observed != []
    ensures var n := Rescheduled(s, clock, observed[0], attempt);
            && Readings(n.queue) == Norm(Readings(s.queue) + [observed[0]])
            && Midway(n, |n.queue|, [], observed[1..]) && n.commits == s.commits
            && Rising(Readings(s.queue) + [observed[0]])
  {
    var (q, r, k) := (Readings(s.queue), observed[0], |s.queue|);
    ObservedPlaces(s, observed);
    MidwayRises(s, k, [], observed);
    hide Norm, Schedule, Level, Midway, WellFormed, Rising, Defers;
    ScheduleIsNorm(clock, s.queue, r, attempt, k);
    assert q[..k] + [r] + q[k..] == q + [r];
    NotOverLast(q, r);
    NormBounded(q + [r], r.value.value);
    ObservedLeft(Rescheduled(s, clock, r, attempt), observed);
  }

  lemma MidwayRises(s: Stream, k: nat, due: seq<Reading>, observed: seq<Reading>)
    requires Midway(s, k, due, observed)
    ensures Rising(observed) && NotOver(Readings(s.queue), observed)
  {
  }

  lemma NotOverLast(q: seq<Reading>, r: Reading)
    requires Rising(q + [r])
    ensures r.value.Some?
    ensures forall i :: 0 <= i < |q + [r]| ==> (q + [r])[i].value.Some? && (q + [r])[i].value.value <= r.value.value
  {
    assert (q + [r])[|q|] == r;
  }

  lemma ObservedWaits(s: Stream, observed: seq<Reading>, clock: real, attempt: nat, context: Context)
    requires Midway(s, |s.queue|, [], observed) && observed != []
    ensures var n := Rescheduled(s, clock, observed[0], attempt);
            && Midway(n, |n.queue|, [], observed[1..])
            && SameCharges(Pending(n, |n.queue|, [], observed[1..]), Pending(s, |s.queue|, [], observed), context)
  {
    var n := Rescheduled(s, clock, observed[0], attempt);
    PendingLast(n, observed[1..]);
    PendingLast(s, observed);
    hide *;
    var (q, r) := (Readings(s.queue), observed[0]);
    ObservedSchedules(s, observed, clock, attempt);
    assert s.commits + q + observed == s.commits + (q + [r]) + observed[1..];
    NormInMiddle(s.commits, q + [r], observed[1..], context);
  }

  lemma PendingLast(s: Stream, observed: seq<Reading>)
    ensures Pending(s, |s.queue|, [], observed) == s.commits + Readings(s.queue) + observed
  {
    var q := Readings(s.queue);
    assert q[..|q|] == q && q[|q|..] == [];
  }

  lemma ObservedLeft(n: Stream, observed: seq<Reading>)
    requires observed != [] && Rising(observed) && WellFormed(n.queue)
    requires Valued(Readings(n.queue)) && forall i :: 0 <= i < |n.queue| ==> Readings(n.queue)[i].value.value <= observed[0].value.value
    ensures Midway(n, |n.queue|, [], observed[1..])
  {
  }

  lemma ObservedCommits(s: Stream, observed: seq<Reading>, context: Context)
    requires Midway(s, |s.queue|, [], observed) && observed != [] && s.queue == []
    ensures var n := Commit(s, observed[0]);
            && Midway(n, |n.queue|, [], observed[1..])
            && SameCharges(Pending(n, |n.queue|, [], observed[1..]), Pending(s, |s.queue|, [], observed), context)
  {
    hide Level, Share, WellFormed, Under, NotOver, Rising, Parted, Strict;
    var n := Commit(s, observed[0]);
    ObservedPlaces(s, observed);
    assert observed == [observed[0]] + observed[1..];
    assert Pending(s, 0, [], observed) == s.commits + [observed[0]] + observed[1..];
    assert Pending(n, 0, [], observed[1..]) == n.commits + observed[1..];
    if observed[0].value.value < Checkpoint(s.commits) {
      CoveredCharges(s.commits, observed[0], observed[1..], context);
    }
  }

  lemma {:induction false} ObservedExact(s: Stream, observed: seq<Reading>, choices: seq<Choice>, context: Context)
    requires Midway(s, |s.queue|, [], observed) && |choices| == |observed|
    ensures var n := Process(s, Fresh(observed), choices);
            WellFormed(n.queue) && SameCharges(n.commits + Readings(n.queue), Pending(s, |s.queue|, [], observed), context)
    decreases |observed|
  {
    hide Share, Level, Schedule, Defers, Midway;
    if observed == [] {
      QueueOnly(s);
    } else {
      var n := Step(s, observed[0], 0, choices[0]);
      ObservedPlaces(s, observed);
      if Defers(s.queue, observed[0], 0) {
        ObservedWaits(s, observed, choices[0].clock, 0, context);
      } else if choices[0].fails {
        ObservedWaits(s, observed, choices[0].clock, 1, context);
      } else {
        ObservedCommits(s, observed, context);
      }
      assert Fresh(observed)[1..] == Fresh(observed[1..]);
      ObservedExact(n, observed[1..], choices[1..], context);
    }
  }

  lemma QueueOnly(s: Stream)
    requires Midway(s, |s.queue|, [], [])
    ensures WellFormed(s.queue) && Pending(s, |s.queue|, [], []) == s.commits + Readings(s.queue)
  {
    var q := Readings(s.queue);
    assert q[..|q|] == q && q[|q|..] == [];
  }

  function Requeued(due: seq<Reading>, attempts: seq<nat>): (work: seq<Work>)
    requires |due| == |attempts|
    ensures |work| == |due|
  {
    seq(|due|, i requires 0 <= i < |due| => Work(due[i], attempts[i]))
  }

  lemma {:induction false} MidwayExact(s: Stream, k: nat, due: seq<Reading>, attempts: seq<nat>, observed: seq<Reading>,
                                      choices: seq<Choice>, context: Context)
    requires Midway(s, k, due, observed) && |attempts| == |due| && |choices| == |due| + |observed|
    ensures var n := Process(s, Requeued(due, attempts) + Fresh(observed), choices);
            WellFormed(n.queue) && SameCharges(n.commits + Readings(n.queue), Pending(s, k, due, observed), context)
    decreases |due|
  {
    hide Share, Level, Schedule, Defers, Midway, Placed, Cut;
    var work := Requeued(due, attempts) + Fresh(observed);
    if due == [] {
      assert work == Fresh(observed);
      AnyCut(s, k, observed);
      ObservedExact(s, observed, choices, context);
    } else {
      var r := due[0];
      var n := Step(s, r, attempts[0], choices[0]);
      MidwayIsPlaced(s, k, due, observed);
      assert work[0] == Work(r, attempts[0]);
      assert work[1..] == Requeued(due[1..], attempts[1..]) + Fresh(observed);
      if k > 0 {
        LowerDefers(s, k, due, observed, attempts[0]);
      }
      if Defers(s.queue, r, attempts[0]) {
        DueWaits(s, k, due, observed, choices[0].clock, attempts[0]);
        DueWaitsShare(s, k, due, observed, choices[0].clock, attempts[0], context);
        MidwayExact(n, Cut(Readings(s.queue), k, r), due[1..], attempts[1..], observed, choices[1..], context);
      } else if choices[0].fails {
        DueWaits(s, k, due, observed, choices[0].clock, attempts[0] + 1);
        DueWaitsShare(s, k, due, observed, choices[0].clock, attempts[0] + 1, context);
        MidwayExact(n, Cut(Readings(s.queue), k, r), due[1..], attempts[1..], observed, choices[1..], context);
      } else {
        DueCommits(s, due, observed, context);
        MidwayExact(n, 0, due[1..], attempts[1..], observed, choices[1..], context);
      }
    }
  }

  lemma MidwayIsPlaced(s: Stream, k: nat, due: seq<Reading>, observed: seq<Reading>)
    requires Midway(s, k, due, observed)
    ensures Placed(s, k, due, observed)
  {
  }

  lemma AnyCut(s: Stream, k: nat, observed: seq<Reading>)
    requires Midway(s, k, [], observed)
    ensures Midway(s, |s.queue|, [], observed)
    ensures Pending(s, k, [], observed) == Pending(s, |s.queue|, [], observed)
  {
    var q := Readings(s.queue);
    assert q[..k] + q[k..] == q && q[..|q|] == q && q[|q|..] == [];
    assert s.commits + q[..k] + [] + (q[k..] + observed) == s.commits + (q[..k] + q[k..]) + [] + observed;
  }

  // ---- the theorem ----

  /** Due boundaries are the front of a well-formed queue, the rest its back. */
  lemma {:induction false} DueIsPrefix(queue: seq<Item>, now: real)
    requires DeadlinesRise(queue)
    ensures Due(queue, now) + NotDue(queue, now) == queue
    decreases |queue|
  {
    if queue != [] {
      if queue[0].deadline > now {
        NoneDue(queue, now);
      } else {
        DueIsPrefix(queue[1..], now);
        assert queue == [queue[0]] + queue[1..];
      }
    }
  }

  lemma {:induction false} NoneDue(queue: seq<Item>, now: real)
    requires forall i :: 0 <= i < |queue| ==> queue[i].deadline > now
    ensures Due(queue, now) == [] && NotDue(queue, now) == queue
    decreases |queue|
  {
    if queue != [] {
      NoneDue(queue[1..], now);
    }
  }

  /** What the loop may assume of newly observed boundaries: the counter of one
      boot never falls, and they come after everything still queued. */
  predicate Continues(s: Stream, observed: seq<Reading>) {
    Rising(observed) && NotOver(Readings(s.queue), observed)
  }

  function Attempts(items: seq<Item>): (ns: seq<nat>)
    ensures |ns| == |items|
  {
    seq(|items|, i requires 0 <= i < |items| => items[i].attempt)
  }

  lemma WellFormedSplits(a: seq<Item>, b: seq<Item>)
    requires WellFormed(a + b)
    ensures Readings(a + b) == Readings(a) + Readings(b)
    ensures Strict(Readings(a)) && Parted(Readings(a)) && Strict(Readings(b)) && WellFormed(b) && Under(Readings(a), Readings(b))
  {
    hide Strict, Parted, Under, Readings;
    ReadingsAppend(a, b);
    StrictSplits(Readings(a), Readings(b));
    PartedParts(Readings(a), Readings(b));
    DeadlinesSplit(a, b);
  }

  lemma ReadingsAppend(a: seq<Item>, b: seq<Item>)
    ensures Readings(a + b) == Readings(a) + Readings(b)
  {
  }

  lemma StrictSplits(x: seq<Reading>, y: seq<Reading>)
    requires Strict(x + y)
    ensures Strict(x) && Strict(y) && Under(x, y)
  {
    var q := x + y;
    assert forall i :: 0 <= i < |x| ==> x[i] == q[i];
    assert forall i :: 0 <= i < |y| ==> y[i] == q[|x| + i];
  }

  lemma DeadlinesSplit(a: seq<Item>, b: seq<Item>)
    requires DeadlinesRise(a + b)
    ensures DeadlinesRise(b)
  {
    forall i, j | 0 <= i < j < |b| ensures b[i].deadline <= b[j].deadline {
      assert (a + b)[|a| + i].deadline <= (a + b)[|a| + j].deadline;
    }
  }

  lemma PassPlaces(s: Stream, now: real, observed: seq<Reading>)
    requires WellFormed(s.queue) && Continues(s, observed)
    ensures var (due, later) := (Due(s.queue, now), NotDue(s.queue, now));
            && Placed(s.(queue := later), 0, Readings(due), observed) && Strict(Readings(due))
            && (Safe(s, now) ==> Midway(s.(queue := later), 0, Readings(due), observed))
            && Pending(s.(queue := later), 0, Readings(due), observed) == s.commits + Readings(s.queue) + observed
            && Retries(due) == Requeued(Readings(due), Attempts(due))
  {
    hide Level, Due, NotDue, Strict, Rising, Parted, WellFormed;
    var (due, later) := (Due(s.queue, now), NotDue(s.queue, now));
    DueIsPrefixOf(s.queue, now);
    WellFormedSplits(due, later);
    PassNotOver(Readings(due), Readings(later), observed);
    StrictIsValued(Readings(later));
    StrictIsValued(Readings(due));
    PassLine(s.commits, Readings(due), Readings(later), observed);
    assert Readings(later)[..0] == [] && Readings(later)[0..] == Readings(later);
  }

  lemma DueIsPrefixOf(queue: seq<Item>, now: real)
    requires WellFormed(queue)
    ensures queue == Due(queue, now) + NotDue(queue, now)
  {
    DueIsPrefix(queue, now);
  }

  lemma StrictIsValued(rs: seq<Reading>)
    requires Strict(rs)
    ensures Valued(rs)
  {
  }

  lemma PassNotOver(a: seq<Reading>, b: seq<Reading>, observed: seq<Reading>)
    requires NotOver(a + b, observed)
    ensures NotOver(a, observed) && NotOver(b, observed)
  {
    var q := a + b;
    assert forall i :: 0 <= i < |a| ==> q[i] == a[i];
    assert forall i :: 0 <= i < |b| ==> q[|a| + i] == b[i];
  }

  lemma PassLine(commits: seq<Reading>, due: seq<Reading>, later: seq<Reading>, observed: seq<Reading>)
    ensures commits + [] + due + (later + observed) == commits + (due + later) + observed
  {
  }

  /** Failure-transparent attribution: from a safe queue, a pass leaves every
      context charged exactly what it would be charged if every boundary had
      committed as it was observed, whichever commits fail and whenever. */
  lemma SafePassIsExact(s: Stream, now: real, observed: seq<Reading>, choices: seq<Choice>, context: Context)
    requires WellFormed(s.queue) && Continues(s, observed) && Safe(s, now)
    requires |choices| == |Due(s.queue, now)| + |observed|
    ensures var n := Pass(s, now, observed, choices);
            WellFormed(n.queue) && SameCharges(n.commits + Readings(n.queue), s.commits + Readings(s.queue) + observed, context)
  {
    hide Share, Level, Midway, Safe, WellFormed, Continues, Process;
    var (due, later) := (Due(s.queue, now), NotDue(s.queue, now));
    PassPlaces(s, now, observed);
    MidwayExact(s.(queue := later), 0, Readings(due), Attempts(due), observed, choices, context);
  }

  // ---- and only from a safe queue ----

  lemma HigherDoesNotDefer(s: Stream, due: seq<Reading>, observed: seq<Reading>, attempt: nat)
    requires Placed(s, 0, due, observed) && due != []
    ensures !Defers(s.queue, due[0], attempt)
  {
    var q := Readings(s.queue);
    assert q[0..] == q;
    forall i | 0 <= i < |s.queue| ensures s.queue[i].reading.value.Some? && due[0].value.value < s.queue[i].reading.value.value {
      assert q[0..][i] == s.queue[i].reading;
    }
  }

  lemma NothingDue(s: Stream, k: nat, observed: seq<Reading>)
    requires Placed(s, k, [], observed)
    ensures Midway(s, k, [], observed)
  {
  }

  predicate NoneFails(choices: seq<Choice>) {
    forall i :: 0 <= i < |choices| ==> !choices[i].fails
  }

  /** With nothing failing any more, the pass charges what is pending in order. */
  lemma {:induction false} RestSucceeds(s: Stream, due: seq<Reading>, attempts: seq<nat>, observed: seq<Reading>,
                                       choices: seq<Choice>, context: Context)
    requires Placed(s, 0, due, observed) && |attempts| == |due| && |choices| == |due| + |observed| && NoneFails(choices)
    ensures var n := Process(s, Requeued(due, attempts) + Fresh(observed), choices);
            SameCharges(n.commits + Readings(n.queue), Pending(s, 0, due, observed), context)
    decreases |due|
  {
    hide Share, Level, Schedule, Defers, Placed;
    var work := Requeued(due, attempts) + Fresh(observed);
    if due == [] {
      assert work == Fresh(observed);
      NothingDue(s, 0, observed);
      AnyCut(s, 0, observed);
      ObservedExact(s, observed, choices, context);
    } else {
      assert work[0] == Work(due[0], attempts[0]);
      assert work[1..] == Requeued(due[1..], attempts[1..]) + Fresh(observed);
      HigherDoesNotDefer(s, due, observed, attempts[0]);
      DueCommits(s, due, observed, context);
      RestSucceeds(Commit(s, due[0]), due[1..], attempts[1..], observed, choices[1..], context);
    }
  }

  /** Leaving a boundary out moves its rise to the next one's context. */
  lemma SkippedCharges(before: seq<Reading>, r: Reading, x: Reading, rest: seq<Reading>)
    requires r.value.Some? && x.value.Some? && Level(0, before) < r.value.value < x.value.value && r.context != x.context
    ensures Share(0, before + [r] + ([x] + rest), r.context) == Share(0, before + ([x] + rest), r.context) + (r.value.value - Level(0, before))
  {
    hide Share, Level;
    ShareSplits(0, before + [r], [x] + rest, r.context);
    ShareSplits(0, before, [r], r.context);
    ShareSplits(0, before, [x] + rest, r.context);
    var l := Level(0, before);
    ShareOne(l, r, r.context);
    ShareSplits(r.value.value, [x], rest, r.context);
    ShareOne(r.value.value, x, r.context);
    ShareSplits(l, [x], rest, r.context);
    ShareOne(l, x, r.context);
  }

  function FailOnly(i: nat, n: nat, clock: real): (choices: seq<Choice>)
    ensures |choices| == n
  {
    seq(n, j => Choice(j == i, clock))
  }

  /** One failure of a due boundary that a later one in its context, not yet
      due, would swallow takes its pulses away from that context. */
  lemma {:induction false} FoldedPastOthers(s: Stream, due: seq<Reading>, attempts: seq<nat>, observed: seq<Reading>, i: nat, clock: real)
    requires Placed(s, 0, due, observed) && s.queue != [] && |attempts| == |due| && 0 <= i < |due| - 1
    requires due[i].context == s.queue[0].reading.context && due[i].value.value > Checkpoint(s.commits)
    ensures var n := Process(s, Requeued(due, attempts) + Fresh(observed), FailOnly(i, |due| + |observed|, clock));
            Share(0, n.commits + Readings(n.queue), due[i].context) < Share(0, Pending(s, 0, due, observed), due[i].context)
    decreases |due|
  {
    hide Share, Level, Schedule, Defers, Placed, WellFormed, Strict, Parted;
    var work := Requeued(due, attempts) + Fresh(observed);
    var choices := FailOnly(i, |due| + |observed|, clock);
    assert work[0] == Work(due[0], attempts[0]);
    assert work[1..] == Requeued(due[1..], attempts[1..]) + Fresh(observed);
    HigherDoesNotDefer(s, due, observed, attempts[0]);
    if i == 0 {
      var n := Rescheduled(s, clock, due[0], attempts[0] + 1);
      FoldedAway(s, due, observed, clock, attempts[0] + 1);
      assert NoneFails(choices[1..]);
      RestSucceeds(n, due[1..], attempts[1..], observed, choices[1..], due[0].context);
      FirstSkipped(s, n, due, observed);
    } else {
      var n := Commit(s, due[0]);
      DueCommits(s, due, observed, due[i].context);
      DueRises(s, due, observed, i);
      assert choices[1..] == FailOnly(i - 1, |due[1..]| + |observed|, clock);
      FoldedPastOthers(n, due[1..], attempts[1..], observed, i - 1, clock);
    }
  }

  lemma DueRises(s: Stream, due: seq<Reading>, observed: seq<Reading>, i: nat)
    requires Placed(s, 0, due, observed) && 0 < i < |due|
    ensures due[0].value.Some? && due[i].value.Some? && due[0].value.value < due[i].value.value
  {
  }

  lemma FirstSkipped(s: Stream, n: Stream, due: seq<Reading>, observed: seq<Reading>)
    requires Placed(s, 0, due, observed) && |due| >= 2 && due[0].value.value > Checkpoint(s.commits)
    requires Readings(n.queue) == Readings(s.queue) && n.commits == s.commits
    ensures Share(0, Pending(n, 0, due[1..], observed), due[0].context) < Share(0, Pending(s, 0, due, observed), due[0].context)
  {
    hide Share, Level;
    var rest := due[2..] + (Readings(s.queue)[0..] + observed);
    PendingParts(s, 0, due, observed);
    assert due[1..] == [due[1]] + due[2..];
    assert Readings(s.queue)[..0] == [] && Readings(n.queue)[..0] == [];
    assert Pending(s, 0, due, observed) == s.commits + [due[0]] + ([due[1]] + rest);
    assert Pending(n, 0, due[1..], observed) == s.commits + ([due[1]] + rest);
    assert due[0].context != due[1].context && due[0].value.value < due[1].value.value;
    SkippedCharges(s.commits, due[0], due[1], rest);
  }

  lemma FoldedAway(s: Stream, due: seq<Reading>, observed: seq<Reading>, clock: real, attempt: nat)
    requires Placed(s, 0, due, observed) && |due| >= 2 && s.queue != [] && due[0].context == s.queue[0].reading.context
    ensures var n := Rescheduled(s, clock, due[0], attempt);
            Readings(n.queue) == Readings(s.queue) && Placed(n, 0, due[1..], observed)
  {
    hide Norm, Schedule, Level;
    var q := Readings(s.queue);
    DuePlaces(s, 0, due, observed);
    SortedQueueRises(q);
    ScheduleIsNorm(clock, s.queue, due[0], attempt, 0);
    NormInsert(q[..0], due[0], q[0..]);
    assert q[..0] + q[0..] == q;
    assert q[0..][0] == s.queue[0].reading;
    DueShrinks(s, 0, due, observed);
  }

  /** The exact condition: a pass charges every pulse to the context it was
      first observed in, under every pattern of failures and whenever its steps
      read the clock, if and only if it starts from a safe queue. */
  lemma SafeExactly(s: Stream, now: real, observed: seq<Reading>)
    requires WellFormed(s.queue) && Continues(s, observed)
    ensures Safe(s, now) <==>
              forall choices: seq<Choice>, context ::
                |choices| == |Due(s.queue, now)| + |observed| && InTime(choices, now) ==>
                  var n := Pass(s, now, observed, choices);
                  Charged(n, context) == Share(0, s.commits + Readings(s.queue) + observed, context)
  {
    hide Share, Level, Process, Placed;
    if Safe(s, now) {
      forall choices: seq<Choice>, context | |choices| == |Due(s.queue, now)| + |observed|
        ensures Charged(Pass(s, now, observed, choices), context) == Share(0, s.commits + Readings(s.queue) + observed, context)
      {
        SafePassIsExact(s, now, observed, choices, context);
      }
    } else {
      var choices, context := UnsafePassMischarges(s, now, observed);
    }
  }

  lemma UnsafePassMischarges(s: Stream, now: real, observed: seq<Reading>) returns (choices: seq<Choice>, context: Context)
    requires WellFormed(s.queue) && Continues(s, observed) && !Safe(s, now)
    ensures |choices| == |Due(s.queue, now)| + |observed| && InTime(choices, now)
    ensures Charged(Pass(s, now, observed, choices), context) < Share(0, s.commits + Readings(s.queue) + observed, context)
  {
    hide Share, Level, Process, Placed, Continues, Due, NotDue;
    var (due, later) := (Due(s.queue, now), NotDue(s.queue, now));
    var rs := Readings(due);
    PassPlaces(s, now, observed);
    StrictIsValued(rs);
    var i :| 0 <= i < |rs| - 1 && rs[i].context == Readings(later)[0].context && rs[i].value.value > Checkpoint(s.commits);
    choices, context := FailOnly(i, |due| + |observed|, now), rs[i].context;
    FoldedPastOthers(s.(queue := later), rs, Attempts(due), observed, i, now);
  }
}
