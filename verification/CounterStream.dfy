/** The retry queue as one (device, boot) recovery-counter stream sees it:
    cumulative boundaries, each with the keg and calibration context in force
    when it was first observed (coordinator.py). */
module CounterStream {
  import opened Common

  /** Whether a context was captured, and the keg and calibration it names. */
  datatype Context = Context(captured: bool, keg: Option<string>, calibration: Option<string>)

  /** A cumulative recovery reading; `value` is None for a text int() refuses. */
  datatype Reading = Reading(value: Option<int>, context: Context)

  datatype Item = Item(deadline: real, attempt: nat, reading: Reading)

  function Max(a: nat, b: nat): nat { if a < b then b else a }

  function MaxReal(a: real, b: real): real { if a < b then b else a }

  function Pow2(k: nat): nat { if k == 0 then 1 else 2 * Pow2(k - 1) }

  /** A tenth of a second, doubling from the second attempt on, capped at five seconds. */
  function RetryDelay(attempt: nat): real {
    var exponent := if attempt <= 1 then 0 else if attempt - 1 < 6 then attempt - 1 else 6;
    var delay := 0.1 * (Pow2(exponent) as real);
    if delay < 5.0 then delay else 5.0
  }

  // ---- the queue's order ----

  /** Python's sort key: readings without a value last, then by value. */
  predicate Before(a: Reading, b: Reading) {
    if a.value.None? then false
    else if b.value.None? then true
    else a.value.value < b.value.value
  }

  /** A stable sort, by inserting each item after everything not greater. */
  function SortInto(sorted: seq<Item>, item: Item): seq<Item> {
    if sorted == [] then [item]
    else if Before(item.reading, sorted[|sorted| - 1].reading) then
      SortInto(sorted[..|sorted| - 1], item) + [sorted[|sorted| - 1]]
    else sorted + [item]
  }

  function Sorted(items: seq<Item>): seq<Item> {
    if items == [] then [] else SortInto(Sorted(items[..|items| - 1]), items[|items| - 1])
  }

  predicate SameValue(a: Reading, b: Reading) {
    a.value.Some? && a.value == b.value
  }

  /** Two values with no context boundary between them. */
  predicate Subsumes(a: Reading, b: Reading) {
    a.value.Some? && b.value.Some? && a.context == b.context
  }

  /** One pass from the left: an equal value keeps the first reading, a value in
      the same context is subsumed by the next, and deadlines never decrease. */
  function Normalize(items: seq<Item>): seq<Item>
    decreases |items|
  {
    if |items| <= 1 then items
    else
      var (a, b) := (items[0], items[1]);
      if SameValue(a.reading, b.reading) then
        Normalize([Item(a.deadline, Max(a.attempt, b.attempt), a.reading)] + items[2..])
      else if Subsumes(a.reading, b.reading) then
        Normalize([Item(a.deadline, Max(a.attempt, b.attempt), b.reading)] + items[2..])
      else
        [a] + Normalize([b.(deadline := MaxReal(b.deadline, a.deadline))] + items[2..])
  }

  function Schedule(clock: real, queue: seq<Item>, reading: Reading, attempt: nat): seq<Item> {
    Normalize(Sorted(queue + [Item(clock + RetryDelay(attempt), attempt, reading)]))
  }

  /** A reading waits behind a pending lower one, a fresh one also behind an equal one. */
  predicate Blocks(pending: Reading, reading: Reading, attempt: nat) {
    reading.value.None? || pending.value.None? || pending.value.value < reading.value.value
    || (pending.value == reading.value && attempt == 0)
  }

  predicate Defers(queue: seq<Item>, reading: Reading, attempt: nat) {
    exists i :: 0 <= i < |queue| && Blocks(queue[i].reading, reading, attempt)
  }

  // ---- the stream ----

  /** The queue and the readings committed so far; the checkpoint is the last of them. */
  datatype Stream = Stream(queue: seq<Item>, commits: seq<Reading>)

  datatype Choice = Choice(fails: bool, clock: real)

  /** The highest value seen, from a starting level. */
  function Level(level: int, rs: seq<Reading>): int {
    if rs == [] then level
    else
      var before := Level(level, rs[..|rs| - 1]);
      var last := rs[|rs| - 1];
      if last.value.Some? && last.value.value > before then last.value.value else before
  }

  function Checkpoint(commits: seq<Reading>): int {
    Level(0, commits)
  }

  /** The checkpoint transaction: a reading below the checkpoint, or without a
      usable value, is set aside; any other advances it. */
  function Commit(s: Stream, reading: Reading): Stream {
    if reading.value.None? || reading.value.value < Checkpoint(s.commits) then s
    else s.(commits := s.commits + [reading])
  }

  function Step(s: Stream, reading: Reading, attempt: nat, choice: Choice): Stream {
    if Defers(s.queue, reading, attempt) then s.(queue := Schedule(choice.clock, s.queue, reading, attempt))
    else if choice.fails then s.(queue := Schedule(choice.clock, s.queue, reading, attempt + 1))
    else Commit(s, reading)
  }

  /** The event loop's clock never runs back: each step reads it at or after the
      pass began, and no earlier than the step before. */
  predicate InTime(choices: seq<Choice>, now: real) {
    && (forall i :: 0 <= i < |choices| ==> now <= choices[i].clock)
    && (forall i, j :: 0 <= i < j < |choices| ==> choices[i].clock <= choices[j].clock)
  }

  datatype Work = Work(reading: Reading, attempt: nat)

  function Process(s: Stream, work: seq<Work>, choices: seq<Choice>): Stream
    requires |work| == |choices|
    decreases |work|
  {
    if work == [] then s
    else Process(Step(s, work[0].reading, work[0].attempt, choices[0]), work[1..], choices[1..])
  }

  function Due(queue: seq<Item>, now: real): seq<Item> {
    if queue == [] then []
    else (if queue[0].deadline <= now then [queue[0]] else []) + Due(queue[1..], now)
  }

  function NotDue(queue: seq<Item>, now: real): seq<Item> {
    if queue == [] then []
    else (if queue[0].deadline <= now then [] else [queue[0]]) + NotDue(queue[1..], now)
  }

  function Retries(items: seq<Item>): (work: seq<Work>)
    ensures |work| == |items|
  {
    seq(|items|, i requires 0 <= i < |items| => Work(items[i].reading, items[i].attempt))
  }

  function Fresh(readings: seq<Reading>): (work: seq<Work>)
    ensures |work| == |readings|
  {
    seq(|readings|, i requires 0 <= i < |readings| => Work(readings[i], 0))
  }

  /** One pass of the event loop: the due retries in queue order, then what was newly observed. */
  function Pass(s: Stream, now: real, observed: seq<Reading>, choices: seq<Choice>): Stream
    requires |choices| == |Due(s.queue, now)| + |observed|
  {
    Process(s.(queue := NotDue(s.queue, now)), Retries(Due(s.queue, now)) + Fresh(observed), choices)
  }

  // ---- attribution ----

  function Readings(items: seq<Item>): (rs: seq<Reading>)
    ensures |rs| == |items|
    ensures forall i :: 0 <= i < |rs| ==> rs[i] == items[i].reading
  {
    seq(|items|, i requires 0 <= i < |items| => items[i].reading)
  }

  function Above(value: int, level: int): nat {
    if value > level then value - level else 0
  }

  /** The pulses a context is charged when the readings are committed in order:
      each reading's rise over everything before it. */
  function Share(level: int, rs: seq<Reading>, context: Context): nat {
    if rs == [] then 0
    else
      var last := rs[|rs| - 1];
      Share(level, rs[..|rs| - 1], context)
        + (if last.value.Some? && last.context == context then Above(last.value.value, Level(level, rs[..|rs| - 1])) else 0)
  }

  /** What is charged so far and what the queue would still charge. */
  function Charged(s: Stream, context: Context): nat {
    Share(0, s.commits + Readings(s.queue), context)
  }
}
