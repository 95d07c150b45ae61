/** How a checkpoint gets ahead of its board: COUNTERS frames name no board, so a
    reading carries the boot of the last handshake, and a board may reset in place
    between the STATUS that confirmed that boot and the COUNTERS that follows. */
module DeliveryMisstamped {
  import opened Common
  import opened Conservation
  import opened Wire
  import opened HostCounters
  import opened PulseIntegrity
  import opened Delivery
  import opened DeliverySafety
  import opened DeliveryTheorems
  import F = Firmware
  import L = Ledger
  import LedgerRuns
  import LedgerTheorems

  // ---- one reading, from the board to the books ----

  /** The board answers COUNTERS; the host queues the answer, then books it. */
  function Answer(device: string, c: Counters, origin: Boot, k: Boot, uptime: U32): seq<Event> {
    [EmitCounters(device, c.rejected)] + Booking(CountersMsg(c, origin), k, uptime)
  }

  function Booking(m: Message, k: Boot, uptime: U32): seq<Event>
    requires m.CountersMsg?
  {
    [ReceiveCounters(m, uptime), TakeCounters(Stamped(k, m.counters, uptime), None, None, true)]
  }

  /** The line is up, confirmed for this boot, and has not just queued these counters. */
  predicate Listening(w: World, k: Boot, c: Counters) {
    w.line.connected && w.line.confirmed && w.line.identity == Some(k) && w.line.cache != Some(c)
  }

  /** The coordinator parses the reading and the repository lets it through. */
  predicate Accepted(db: L.Db, k: Boot, c: Counters, uptime: U32) {
    && IsFaultToken(c.fault) && c.recovery <= c.accepted && Plausible(c.accepted, uptime)
    && L.CheckReading(db, k.0, BootText(k), c.recovery, c.accepted, uptime).None?
  }

  /** The tables after a reading is booked: the boot's checkpoint is the reading, all others stand. */
  ghost predicate Booked(db: L.Db, later: L.Db, k: Boot, c: Counters, uptime: U32) {
    var key := (k.0, BootText(k));
    && later.results == db.results && later.checkpoints.Keys == db.checkpoints.Keys + {key}
    && later.checkpoints[key].recovery == c.recovery && later.checkpoints[key].accepted == c.accepted
    && later.checkpoints[key].uptime == uptime
    && forall other :: other in db.checkpoints && other != key ==> later.checkpoints[other] == db.checkpoints[other]
  }

  lemma CheckedIsBooked(db: L.Db, k: Boot, c: Counters, uptime: U32)
    requires L.CheckReading(db, k.0, BootText(k), c.recovery, c.accepted, uptime).None?
    ensures var out := L.CheckpointRecovery(db, k.0, BootText(k), c.recovery, c.accepted, uptime, None, None, true);
            out.Ok? && Booked(db, out.value.0, k, c, uptime)
  {
    hide L.CheckReading, HexText;
    LedgerRuns.CheckedNonnegative(db, k.0, BootText(k), c.recovery, c.accepted, uptime);
  }

  lemma ReadingTaken(w: World, k: Boot, c: Counters, uptime: U32)
    requires Stamped(k, c, uptime) in w.line.readings && Accepted(w.db, k, c, uptime)
    ensures var n := Step(w, TakeCounters(Stamped(k, c, uptime), None, None, true));
            n == w.(db := n.db) && Booked(w.db, n.db, k, c, uptime)
  {
    hide HexText, Plausible, IsFaultToken, L.CheckpointRecovery, L.CheckReading, ParseCounterSnapshot, CountersFields, Booked;
    CountersParsed(c, w.gateUs, uptime);
    CheckedIsBooked(w.db, k, c, uptime);
  }

  lemma ReadingReceived(w: World, m: Message, k: Boot, uptime: U32)
    requires m in w.sent && m.CountersMsg? && Listening(w, k, m.counters)
    ensures Step(w, ReceiveCounters(m, uptime)) ==
              w.(line := w.line.(cache := Some(m.counters), readings := w.line.readings + {Stamped(k, m.counters, uptime)}))
  {
  }

  /** A reading the repository accepts is booked in full under the boot of the
      last handshake, whatever boot it was really taken from, and to no other. */
  lemma ReadingBooked(w: World, m: Message, k: Boot, uptime: U32)
    requires Core(w) && m in w.sent && m.CountersMsg? && Listening(w, k, m.counters) && Accepted(w.db, k, m.counters, uptime)
    ensures var n := Run(w, Booking(m, k, uptime));
            && n == w.(line := n.line, db := n.db)
            && n.line == w.line.(cache := Some(m.counters), readings := n.line.readings)
            && Booked(w.db, n.db, k, m.counters, uptime)
            && L.Recovered(n.db.pours, k.0, BootText(k)) == m.counters.recovery
            && (forall key :: key in w.db.checkpoints && key != (k.0, BootText(k)) ==>
                  L.Recovered(n.db.pours, key.0, key.1) == L.Recovered(w.db.pours, key.0, key.1))
            && Core(n)
  {
    var s := Stamped(k, m.counters, uptime);
    var heard := w.(line := w.line.(cache := Some(m.counters), readings := w.line.readings + {s}));
    hide *;
    BookingSteps(m, k, uptime);
    TwoSteps(w, ReceiveCounters(m, uptime), TakeCounters(s, None, None, true));
    ReadingReceived(w, m, k, uptime);
    ReadingTaken(heard, k, m.counters, uptime);
    RunKeeps(w, Booking(m, k, uptime));
    var n := Run(w, Booking(m, k, uptime));
    RecoveredAsBooked(w, n, k, m.counters, uptime);
  }

  lemma BookingSteps(m: Message, k: Boot, uptime: U32)
    requires m.CountersMsg?
    ensures Booking(m, k, uptime) == [ReceiveCounters(m, uptime), TakeCounters(Stamped(k, m.counters, uptime), None, None, true)]
  {
  }

  lemma RecoveredAsBooked(w: World, n: World, k: Boot, c: Counters, uptime: U32)
    requires Core(w) && Core(n) && Booked(w.db, n.db, k, c, uptime)
    ensures L.Recovered(n.db.pours, k.0, BootText(k)) == c.recovery
    ensures forall key :: key in w.db.checkpoints && key != (k.0, BootText(k)) ==>
              L.Recovered(n.db.pours, key.0, key.1) == L.Recovered(w.db.pours, key.0, key.1)
  {
    hide Core, HexText, L.Recovered;
    RecoveredIsCheckpoint(n, k.0, BootText(k));
    forall key | key in w.db.checkpoints && key != (k.0, BootText(k))
      ensures L.Recovered(n.db.pours, key.0, key.1) == L.Recovered(w.db.pours, key.0, key.1)
    {
      RecoveredIsCheckpoint(w, key.0, key.1);
      RecoveredIsCheckpoint(n, key.0, key.1);
    }
  }

  // ---- the board's side of the run ----

  /** The timers the firmware ships with. */
  const CFG: F.Config := F.Config(750, 1500)
  const POUR_MS: nat := 2250

  predicate AfterRounds(m: F.Machine, n: nat) {
    m.active.None? && |m.results| == n && m.nextSequence == n + 1 && m.lifetime == n && m.recovery == 0
  }

  /** One pulse, closed by the first tick its two timers allow. */
  lemma Round(m: F.Machine, n: nat)
    requires n < 4 && AfterRounds(m, n)
    ensures AfterRounds(F.Apply(CFG, F.Apply(CFG, m, F.OpPulses(1, POUR_MS * n)).m, F.OpTick(POUR_MS * n + POUR_MS)).m, n + 1)
  {
    var start := POUR_MS * n;
    assert Wrap(start) == start && Wrap(start + POUR_MS) == start + POUR_MS;
    RoundOpens(m, n, start);
    RoundCloses(F.Apply(CFG, m, F.OpPulses(1, start)).m, n, start);
  }

  predicate Opened(m: F.Machine, n: nat, start: U32) {
    && m.active.Some? && m.active.value.phase == F.Pouring && m.active.value.lastPulseMs == start
    && |m.results| == n && m.nextSequence == n + 2 && m.lifetime == n + 1 && m.recovery == 0
  }

  lemma RoundOpens(m: F.Machine, n: nat, start: U32)
    requires n < 4 && AfterRounds(m, n) && Wrap(start) == start
    ensures Opened(F.Apply(CFG, m, F.OpPulses(1, start)).m, n, start)
  {
  }

  lemma RoundCloses(m: F.Machine, n: nat, start: U32)
    requires n < 4 && Opened(m, n, start) && start + POUR_MS < TWO_31 && Wrap(start + POUR_MS) == start + POUR_MS
    ensures AfterRounds(F.Apply(CFG, m, F.OpTick(start + POUR_MS)).m, n + 1)
  {
  }

  function Rounds(n: nat): seq<F.Op> {
    if n == 0 then [] else Rounds(n - 1) + [F.OpPulses(1, POUR_MS * (n - 1)), F.OpTick(POUR_MS * (n - 1) + POUR_MS)]
  }

  lemma {:induction false} RecordPush(b: Books, ops: seq<F.Op>, op: F.Op)
    ensures RecordAll(CFG, b, ops + [op]) == Record(CFG, RecordAll(CFG, b, ops), op)
    decreases |ops|
  {
    hide Record;
    if ops == [] {
      assert [op][1..] == [];
      assert ops + [op] == [op];
      assert RecordAll(CFG, Record(CFG, b, op), [op][1..]) == Record(CFG, b, op);
    } else {
      RecordPush(Record(CFG, b, ops[0]), ops[1..], op);
      assert (ops + [op])[1..] == ops[1..] + [op];
    }
  }

  lemma {:induction false} RoundsDone(n: nat)
    requires n <= 4
    ensures AfterRounds(RecordAll(CFG, OPENING, Rounds(n)).m, n)
  {
    hide F.Apply, Clamps, AfterRounds, RecordAll;
    if n == 0 {
      OpeningRounds();
    } else {
      RoundsDone(n - 1);
      var before := RecordAll(CFG, OPENING, Rounds(n - 1));
      var (pulse, tick) := (F.OpPulses(1, POUR_MS * (n - 1)), F.OpTick(POUR_MS * (n - 1) + POUR_MS));
      Round(before.m, n - 1);
      RecordPush(OPENING, Rounds(n - 1), pulse);
      RecordPush(OPENING, Rounds(n - 1) + [pulse], tick);
      assert Rounds(n) == Rounds(n - 1) + [pulse] + [tick];
    }
  }

  lemma OpeningRounds()
    ensures Rounds(0) == [] && AfterRounds(RecordAll(CFG, OPENING, []).m, 0)
  {
  }

  /** Four short pours fill the store; the next five pulses go to recovery. */
  function Overflowing(): seq<F.Op> {
    Rounds(4) + [F.OpPulses(5, 4 * POUR_MS)]
  }

  predicate Overflowed(m: F.Machine, extra: nat) {
    && m.active.None? && |m.results| == 4 && m.lifetime == 4 + extra && m.recovery == extra
    && m.fault == "result_store_full"
  }

  lemma FullStore(m: F.Machine, extra: nat, count: U32, at: nat)
    requires 0 < count && extra + count <= 1000
    requires (AfterRounds(m, 4) && extra == 0) || Overflowed(m, extra)
    ensures Overflowed(F.Apply(CFG, m, F.OpPulses(count, at)).m, extra + count)
  {
  }

  lemma OverflowRecovers()
    ensures Overflowed(RecordAll(CFG, OPENING, Overflowing()).m, 5)
  {
    hide F.Apply, RecordAll, Rounds, Clamps, Overflowed, AfterRounds;
    RoundsDone(4);
    RecordPush(OPENING, Rounds(4), F.OpPulses(5, 4 * POUR_MS));
    FullStore(RecordAll(CFG, OPENING, Rounds(4)).m, 0, 5, 4 * POUR_MS);
  }

  function Calls(device: string, ops: seq<F.Op>): (events: seq<Event>)
    ensures |events| == |ops| && forall i :: 0 <= i < |ops| ==> events[i] == Operate(device, ops[i])
    decreases |ops|
  {
    if ops == [] then [] else [Operate(device, ops[0])] + Calls(device, ops[1..])
  }

  predicate NoAcks(ops: seq<F.Op>) {
    forall i :: 0 <= i < |ops| ==> !ops[i].OpAck?
  }

  lemma {:induction false} CallsRun(w: World, device: string, ops: seq<F.Op>)
    requires device in w.live && LiveBoot(w, device) in w.books && NoAcks(ops)
    ensures var k := LiveBoot(w, device);
            Run(w, Calls(device, ops)) == w.(books := w.books[k := RecordAll(w.cfg, w.books[k], ops)])
    decreases |ops|
  {
    hide Record;
    var k := LiveBoot(w, device);
    if ops == [] {
      assert w.books[k := w.books[k]] == w.books;
    } else {
      assert !ops[0].OpAck?;
      var n := OnBoard(w, device, ops[0]);
      assert Step(w, Operate(device, ops[0])) == n;
      CallsRun(n, device, ops[1..]);
      assert Calls(device, ops)[1..] == Calls(device, ops[1..]);
      assert n.books[k := RecordAll(w.cfg, n.books[k], ops[1..])] == w.books[k := RecordAll(w.cfg, w.books[k], ops)];
    }
  }

  lemma OverflowNoAcks()
    ensures NoAcks(Overflowing())
  {
    RoundsNoAcks(4);
  }

  lemma {:induction false} RoundsNoAcks(n: nat)
    ensures NoAcks(Rounds(n))
  {
    if n > 0 { RoundsNoAcks(n - 1); }
  }

  // ---- the run ----

  const QUIET := Counters(0, 0, 0, "none")

  function Overflow(extra: nat): Counters
    requires extra <= 1000
  {
    Counters(4 + extra, extra, 0, "result_store_full")
  }

  /** A handshake confirmed by a STATUS. */
  function Connect(device: string, k: Boot): seq<Event> {
    [Handshake(k), EmitStatus(device), ReceiveStatus(StatusMsg(k))]
  }

  /** The host connects to boot 1 and books its counters ... */
  function Start(device: string, uptime: U32): seq<Event> {
    [Attach(device)] + Connect(device, (device, 1)) + Answer(device, QUIET, (device, 1), (device, 1), uptime)
  }

  /** ... the board resets in place to boot 2, whose four short pours fill the
      store and whose next five pulses go to recovery ... */
  function ResetInPlace(device: string): seq<Event> {
    [Reset(device)] + Calls(device, Overflowing())
  }

  /** ... before the next STATUS the host asks for COUNTERS ... */
  function WrongBoot(device: string, uptime: U32): seq<Event> {
    Answer(device, Overflow(5), (device, 2), (device, 1), uptime)
  }

  /** ... STATUS then shows the new boot, the host hangs up and connects to it,
      and the same counters, once more, are not queued again ... */
  function Reconnect(device: string, uptime: U32): seq<Event> {
    [EmitStatus(device), ReceiveStatus(StatusMsg((device, 2)))] + Connect(device, (device, 2))
      + [EmitCounters(device, 0), ReceiveCounters(CountersMsg(Overflow(5), (device, 2)), uptime)]
  }

  function ExtraPulse(): F.Op {
    F.OpPulses(1, 4 * POUR_MS + 1)
  }

  /** ... one more pulse makes the counters differ, and the host books them all. */
  function OneMore(device: string, uptime: U32): seq<Event> {
    [Operate(device, ExtraPulse())] + Answer(device, Overflow(6), (device, 2), (device, 2), uptime)
  }

  function Misstamped(device: string, first: U32, second: U32): seq<Event> {
    Start(device, first) + ResetInPlace(device) + WrongBoot(device, second)
  }

  function MisstampedTwice(device: string, first: U32, second: U32, third: U32): seq<Event> {
    Misstamped(device, first, second) + Reconnect(device, third) + OneMore(device, third)
  }

  // ---- its stages ----

  function Key(device: string, boot: U32): (string, string) {
    (device, BootText((device, boot)))
  }

  /** The line and the tables while boot 1 is the host's, its last checkpoint this. */
  ghost predicate HostAt(w: World, device: string, boot: U32, c: Counters) {
    w.line.connected && w.line.confirmed && w.line.identity == Some((device, boot)) && w.line.cache == Some(c)
  }

  ghost predicate FirstChecked(w: World, device: string, c: Counters, uptime: U32) {
    && w.db.checkpoints.Keys == {Key(device, 1)} && w.db.checkpoints[Key(device, 1)].recovery == c.recovery
    && w.db.checkpoints[Key(device, 1)].accepted == c.accepted && w.db.checkpoints[Key(device, 1)].uptime == uptime
  }

  /** Boot 1 idle since it powered up, boot 2 live with this much in recovery. */
  ghost predicate BoardAt(w: World, device: string, extra: nat) {
    && w.cfg == CFG && device in w.live && w.live[device] == 2
    && (device, 1) in w.books && w.books[(device, 1)] == OPENING
    && (device, 2) in w.books && Overflowed(w.books[(device, 2)].m, extra)
  }

  /** What an answered COUNTERS changes. */
  ghost predicate OnlyHeard(w: World, n: World, c: Counters) {
    n == w.(sent := n.sent, line := n.line, db := n.db) && n.line == w.line.(cache := Some(c), readings := n.line.readings)
  }

  lemma Connects(w: World, device: string, k: Boot)
    requires device in w.live && LiveBoot(w, device) == k && k in w.books
    ensures Run(w, Connect(device, k)) ==
              w.(sent := w.sent + {StatusMsg(k)}, line := w.line.(identity := Some(k), connected := true, confirmed := true))
  {
    hide HexText, Run;
    ThreeSteps(w, Handshake(k), EmitStatus(device), ReceiveStatus(StatusMsg(k)));
  }

  lemma Emits(w: World, device: string, rejected: U32, c: Counters)
    requires device in w.live && LiveBoot(w, device) in w.books && c == CountersOf(w.books[LiveBoot(w, device)].m, rejected)
    ensures Step(w, EmitCounters(device, rejected)) == w.(sent := w.sent + {CountersMsg(c, LiveBoot(w, device))})
  {
  }

  lemma Answers(w: World, device: string, c: Counters, k: Boot, uptime: U32)
    requires Core(w) && device in w.live && LiveBoot(w, device) in w.books
    requires c == CountersOf(w.books[LiveBoot(w, device)].m, c.rejected)
    requires Listening(w, k, c) && Accepted(w.db, k, c, uptime)
    ensures var n := Run(w, Answer(device, c, LiveBoot(w, device), k, uptime));
            && Core(n) && OnlyHeard(w, n, c)
            && Booked(w.db, n.db, k, c, uptime)
            && L.Recovered(n.db.pours, k.0, BootText(k)) == c.recovery
            && (forall key :: key in w.db.checkpoints && key != (k.0, BootText(k)) ==>
                  L.Recovered(n.db.pours, key.0, key.1) == L.Recovered(w.db.pours, key.0, key.1))
  {
    var m := CountersMsg(c, LiveBoot(w, device));
    var asked := w.(sent := w.sent + {m});
    hide Run, Step, Core, Accepted, CountersOf, BootText, L.Recovered, Booked, Booking, LiveBoot;
    Emits(w, device, c.rejected, c);
    StepKeeps(w, EmitCounters(device, c.rejected));
    RunOne(w, EmitCounters(device, c.rejected));
    RunAppend(w, [EmitCounters(device, c.rejected)], Booking(m, k, uptime));
    ReadingBooked(asked, m, k, uptime);
  }

  /** Small readings are inside the envelope however short the time. */
  lemma SmallPlausible(count: nat, elapsed: U32)
    requires count <= 1000
    ensures Plausible(count, elapsed)
  {
    LimitMonotone(0, elapsed);
  }

  lemma FaultTokens()
    ensures IsFaultToken("none") && IsFaultToken("result_store_full")
  {
  }

  lemma NamedBoot(w: World, k: Boot)
    requires Core(w) && k in w.books
    ensures LedgerTheorems.Named(k.0, BootText(k))
  {
    KnownBoot(w, k);
  }

  /** A reading of a boot that has none yet, or is no less than the one it has. */
  predicate NoLess(db: L.Db, k: Boot, c: Counters, uptime: U32) {
    var key := (k.0, BootText(k));
    key in db.checkpoints ==>
      var p := db.checkpoints[key];
      && p.recovery <= c.recovery && p.accepted <= c.accepted && c.recovery - p.recovery <= c.accepted - p.accepted
      && p.uptime <= uptime < p.uptime + TWO_31
  }

  lemma SmallChecked(db: L.Db, k: Boot, c: Counters, uptime: U32)
    requires LedgerTheorems.Named(k.0, BootText(k)) && c.recovery <= c.accepted <= 1000 && NoLess(db, k, c, uptime)
    ensures L.CheckReading(db, k.0, BootText(k), c.recovery, c.accepted, uptime).None?
  {
    hide HexText, Plausible;
    SmallPlausible(c.recovery, uptime);
    var p := L.Previous(db, k.0, BootText(k));
    if (k.0, BootText(k)) in db.checkpoints {
      assert Wrap(uptime - p.uptime) == uptime - p.uptime;
      SmallPlausible(c.recovery - p.recovery, Wrap(uptime - p.uptime));
    }
  }

  /** A small reading is accepted, however little time has passed. */
  lemma SmallAccepted(w: World, k: Boot, c: Counters, uptime: U32)
    requires Core(w) && k in w.books && IsFaultToken(c.fault) && c.recovery <= c.accepted <= 1000 && NoLess(w.db, k, c, uptime)
    ensures Accepted(w.db, k, c, uptime)
  {
    hide Core, BootText, Plausible, IsFaultToken, NoLess, L.CheckReading;
    NamedBoot(w, k);
    SmallChecked(w.db, k, c, uptime);
    SmallPlausible(c.accepted, uptime);
  }

  lemma Attached(device: string, gateUs: U32)
    requires IsIdentity(device)
    ensures Run(Opening(CFG, gateUs), [Attach(device)]) == AttachedWorld(device, gateUs)
  {
    hide IsIdentity, Run;
    RunOne(Opening(CFG, gateUs), Attach(device));
  }

  function AttachedWorld(device: string, gateUs: U32): World {
    World(CFG, gateUs, map[device := 1], map[(device, 1) := OPENING], {}, NO_LINE, L.NEW_DB, [])
  }

  function ConnectedWorld(w: World, k: Boot): World {
    w.(sent := w.sent + {StatusMsg(k)}, line := w.line.(identity := Some(k), connected := true, confirmed := true))
  }

  /** Boot 1 is live and has counted nothing. */
  predicate FirstBoot(w: World, device: string) {
    w.cfg == CFG && device in w.live && w.live[device] == 1 && (device, 1) in w.books && w.books[(device, 1)] == OPENING
  }

  lemma AttachedFacts(device: string, gateUs: U32)
    ensures var a := AttachedWorld(device, gateUs);
            FirstBoot(a, device) && a.db == L.NEW_DB && a.line == NO_LINE
  {
  }

  lemma FirstBootFacts(w: World, device: string)
    requires FirstBoot(w, device)
    ensures device in w.live && LiveBoot(w, device) == (device, 1) && (device, 1) in w.books
    ensures CountersOf(w.books[(device, 1)].m, 0) == QUIET
  {
  }

  lemma ConnectedFacts(w: World, device: string)
    requires FirstBoot(w, device) && w.line == NO_LINE && w.db == L.NEW_DB
    ensures var n := ConnectedWorld(w, (device, 1));
            FirstBoot(n, device) && n.db == L.NEW_DB && Listening(n, (device, 1), QUIET)
  {
  }

  lemma NothingChecked(k: Boot, c: Counters, uptime: U32)
    ensures NoLess(L.NEW_DB, k, c, uptime) && L.NEW_DB.checkpoints == map[]
  {
  }

  lemma HeardFirst(w: World, n: World, device: string, uptime: U32)
    requires FirstBoot(w, device) && Listening(w, (device, 1), QUIET) && w.db == L.NEW_DB && OnlyHeard(w, n, QUIET)
    requires Booked(w.db, n.db, (device, 1), QUIET, uptime)
    ensures FirstBoot(n, device) && HostAt(n, device, 1, QUIET) && FirstChecked(n, device, QUIET, uptime)
  {
    hide HexText;
  }

  ghost predicate Started(w: World, device: string, uptime: U32) {
    Core(w) && FirstBoot(w, device) && HostAt(w, device, 1, QUIET) && FirstChecked(w, device, QUIET, uptime)
  }

  lemma StartStages(device: string, uptime: U32)
    ensures Start(device, uptime) == [Attach(device)] + Connect(device, (device, 1)) + Answer(device, QUIET, (device, 1), (device, 1), uptime)
    ensures QUIET.rejected == 0 && QUIET.recovery == QUIET.accepted == 0 && IsFaultToken(QUIET.fault)
  {
    hide Connect, Answer;
    FaultTokens();
  }

  lemma StartedOf(w: World, device: string, uptime: U32)
    requires Core(w) && FirstBoot(w, device) && HostAt(w, device, 1, QUIET) && FirstChecked(w, device, QUIET, uptime)
    ensures Started(w, device, uptime)
  {
    hide Core;
  }

  lemma ConnectsTo(w: World, device: string, k: Boot)
    requires device in w.live && LiveBoot(w, device) == k && k in w.books
    ensures Run(w, Connect(device, k)) == ConnectedWorld(w, k)
  {
    hide Run, Connect;
    Connects(w, device, k);
  }

  lemma Starts(device: string, gateUs: U32, uptime: U32)
    requires IsIdentity(device)
    ensures Started(Run(Opening(CFG, gateUs), Start(device, uptime)), device, uptime)
  {
    hide *;
    var k := (device, 1);
    var a := AttachedWorld(device, gateUs);
    var b := ConnectedWorld(a, k);
    var o := Opening(CFG, gateUs);
    StartStages(device, uptime);
    Attached(device, gateUs);
    AttachedFacts(device, gateUs);
    FirstBootFacts(a, device);
    ConnectsTo(a, device, k);
    RunAppend(o, [Attach(device)], Connect(device, k));
    RunAppend(o, [Attach(device)] + Connect(device, k), Answer(device, QUIET, k, k, uptime));
    OpeningCore(CFG, gateUs);
    RunKeeps(o, [Attach(device)] + Connect(device, k));
    ConnectedFacts(a, device);
    FirstBootFacts(b, device);
    NothingChecked(k, QUIET, uptime);
    SmallAccepted(b, k, QUIET, uptime);
    Answers(b, device, QUIET, k, uptime);
    var n := Run(b, Answer(device, QUIET, k, k, uptime));
    HeardFirst(b, n, device, uptime);
    StartedOf(n, device, uptime);
  }

  ghost predicate WasReset(w: World, device: string, uptime: U32) {
    Core(w) && BoardAt(w, device, 5) && HostAt(w, device, 1, QUIET) && FirstChecked(w, device, QUIET, uptime)
  }

  function ResetWorld(w: World, device: string): World {
    w.(live := w.live[device := 2], books := w.books[(device, 2) := OPENING])
  }

  lemma ResetStep(w: World, device: string)
    requires FirstBoot(w, device)
    ensures Step(w, Reset(device)) == ResetWorld(w, device)
    ensures var a := ResetWorld(w, device);
            device in a.live && LiveBoot(a, device) == (device, 2) && (device, 2) in a.books && a.books[(device, 2)] == OPENING && a.cfg == CFG
  {
  }

  lemma OverflowedBoard(w: World, n: World, device: string, b: Books)
    requires FirstBoot(w, device) && Overflowed(b.m, 5)
    requires var a := ResetWorld(w, device); n == a.(books := a.books[(device, 2) := b])
    ensures BoardAt(n, device, 5) && n.line == w.line && n.db == w.db
  {
    assert (device, 1) != (device, 2);
  }

  lemma StartedFacts(w: World, device: string, uptime: U32)
    requires Started(w, device, uptime)
    ensures Core(w) && FirstBoot(w, device) && HostAt(w, device, 1, QUIET) && FirstChecked(w, device, QUIET, uptime)
  {
    hide Core;
  }

  lemma WasResetOf(w: World, n: World, device: string, uptime: U32)
    requires Core(n) && BoardAt(n, device, 5) && n.line == w.line && n.db == w.db
    requires HostAt(w, device, 1, QUIET) && FirstChecked(w, device, QUIET, uptime)
    ensures WasReset(n, device, uptime)
  {
    hide Core, BoardAt;
  }

  lemma ResetStages(device: string)
    ensures ResetInPlace(device) == [Reset(device)] + Calls(device, Overflowing())
  {
    hide Calls, Overflowing;
  }

  lemma Resets(w: World, device: string, uptime: U32)
    requires Started(w, device, uptime)
    ensures WasReset(Run(w, ResetInPlace(device)), device, uptime)
  {
    hide *;
    StartedFacts(w, device, uptime);
    ResetStages(device);
    ResetStep(w, device);
    var a := ResetWorld(w, device);
    RunOne(w, Reset(device));
    RunAppend(w, [Reset(device)], Calls(device, Overflowing()));
    OverflowNoAcks();
    CallsRun(a, device, Overflowing());
    OverflowRecovers();
    RunKeeps(w, ResetInPlace(device));
    var n := Run(w, ResetInPlace(device));
    OverflowedBoard(w, n, device, RecordAll(CFG, OPENING, Overflowing()));
    WasResetOf(w, n, device, uptime);
  }

  ghost predicate BookedWrong(w: World, device: string) {
    && Core(w) && BoardAt(w, device, 5) && HostAt(w, device, 1, Overflow(5))
    && w.db.checkpoints.Keys == {Key(device, 1)} && L.Recovered(w.db.pours, device, BootText((device, 1))) == 5
  }

  lemma BoardFactsAt(w: World, device: string, extra: nat)
    requires BoardAt(w, device, extra) && extra <= 1000
    ensures device in w.live && LiveBoot(w, device) == (device, 2) && (device, 2) in w.books && (device, 1) in w.books
    ensures CountersOf(w.books[(device, 2)].m, 0) == Overflow(extra)
  {
  }

  lemma HostListens(w: World, device: string, boot: U32, last: Counters, c: Counters)
    requires HostAt(w, device, boot, last) && c != last
    ensures Listening(w, (device, boot), c)
  {
  }

  lemma OverflowFacts()
    ensures Overflow(5) != QUIET && Overflow(6) != Overflow(5)
    ensures Overflow(5).rejected == 0 && Overflow(5).recovery == 5 && Overflow(5).accepted == 9 && IsFaultToken(Overflow(5).fault)
    ensures Overflow(6).rejected == 0 && Overflow(6).recovery == 6 && Overflow(6).accepted == 10 && IsFaultToken(Overflow(6).fault)
  {
    FaultTokens();
  }

  lemma FirstThenMore(w: World, device: string, c: Counters, first: U32, second: U32)
    requires FirstChecked(w, device, QUIET, first) && first <= second < first + TWO_31 && c.recovery <= c.accepted
    ensures NoLess(w.db, (device, 1), c, second)
  {
    hide HexText;
  }

  lemma WasResetFacts(w: World, device: string, uptime: U32)
    requires WasReset(w, device, uptime)
    ensures Core(w) && BoardAt(w, device, 5) && HostAt(w, device, 1, QUIET) && FirstChecked(w, device, QUIET, uptime)
  {
    hide Core, BoardAt;
  }

  lemma HeardMore(w: World, n: World, device: string, extra: nat, boot: U32, last: Counters, c: Counters)
    requires BoardAt(w, device, extra) && HostAt(w, device, boot, last) && OnlyHeard(w, n, c)
    ensures BoardAt(n, device, extra) && HostAt(n, device, boot, c)
  {
    hide Overflowed;
  }

  lemma SameKeys(db: L.Db, later: L.Db, device: string, c: Counters, uptime: U32)
    requires db.checkpoints.Keys == {Key(device, 1)} && Booked(db, later, (device, 1), c, uptime)
    ensures later.checkpoints.Keys == {Key(device, 1)}
  {
    hide HexText;
  }

  lemma BookedWrongOf(w: World, device: string)
    requires Core(w) && BoardAt(w, device, 5) && HostAt(w, device, 1, Overflow(5))
    requires w.db.checkpoints.Keys == {Key(device, 1)} && L.Recovered(w.db.pours, device, BootText((device, 1))) == 5
    ensures BookedWrong(w, device)
  {
    hide Core, BoardAt, L.Recovered, HexText;
  }

  lemma FirstKeys(w: World, device: string, c: Counters, uptime: U32)
    requires FirstChecked(w, device, c, uptime)
    ensures w.db.checkpoints.Keys == {Key(device, 1)}
  {
    hide HexText;
  }

  lemma Misbooks(w: World, device: string, first: U32, second: U32)
    requires WasReset(w, device, first) && first <= second < first + TWO_31
    ensures BookedWrong(Run(w, WrongBoot(device, second)), device)
  {
    hide *;
    var j := (device, 1);
    var c := Overflow(5);
    WasResetFacts(w, device, first);
    BoardFactsAt(w, device, 5);
    OverflowFacts();
    HostListens(w, device, 1, QUIET, c);
    FirstThenMore(w, device, c, first, second);
    SmallAccepted(w, j, c, second);
    Answers(w, device, c, j, second);
    WrongBootStage(device, second);
    var n := Run(w, WrongBoot(device, second));
    HeardMore(w, n, device, 5, 1, QUIET, c);
    FirstKeys(w, device, QUIET, first);
    SameKeys(w.db, n.db, device, c, second);
    BookedWrongOf(n, device);
  }

  lemma WrongBootStage(device: string, uptime: U32)
    ensures WrongBoot(device, uptime) == Answer(device, Overflow(5), (device, 2), (device, 1), uptime)
  {
    hide Answer, Overflow;
  }

  ghost predicate Reconnected(w: World, device: string, extra: nat) {
    && Core(w) && BoardAt(w, device, extra) && HostAt(w, device, 2, Overflow(5))
    && w.db.checkpoints.Keys == {Key(device, 1)} && L.Recovered(w.db.pours, device, BootText((device, 1))) == 5
  }

  lemma KeysDiffer(device: string)
    ensures Key(device, 1) != Key(device, 2)
  {
    hide HexText;
    if BootText((device, 1)) == BootText((device, 2)) {
      BootTextInjective((device, 1), (device, 2));
    }
  }

  /** A STATUS of the new boot makes the host hang up. */
  lemma HangsUp(w: World, device: string)
    requires BoardAt(w, device, 5) && HostAt(w, device, 1, Overflow(5))
    ensures Run(w, [EmitStatus(device), ReceiveStatus(StatusMsg((device, 2)))]) ==
              w.(sent := w.sent + {StatusMsg((device, 2))}, line := HungUp(w.line))
  {
    KeysDiffer(device);
    hide HexText, Run, Overflowed;
    TwoSteps(w, EmitStatus(device), ReceiveStatus(StatusMsg((device, 2))));
  }

  /** Counters equal to the last ones queued are dropped. */
  lemma Suppressed(w: World, device: string, uptime: U32)
    requires BoardAt(w, device, 5) && HostAt(w, device, 2, Overflow(5))
    ensures var m := CountersMsg(Overflow(5), (device, 2));
            Run(w, [EmitCounters(device, 0), ReceiveCounters(m, uptime)]) == w.(sent := w.sent + {m})
  {
    hide Run;
    TwoSteps(w, EmitCounters(device, 0), ReceiveCounters(CountersMsg(Overflow(5), (device, 2)), uptime));
  }

  lemma BookedWrongFacts(w: World, device: string)
    requires BookedWrong(w, device)
    ensures Core(w) && BoardAt(w, device, 5) && HostAt(w, device, 1, Overflow(5))
    ensures w.db.checkpoints.Keys == {Key(device, 1)} && L.Recovered(w.db.pours, device, BootText((device, 1))) == 5
  {
    hide Core, BoardAt, L.Recovered, HexText;
  }

  function HungUpWorld(w: World, k: Boot): World {
    w.(sent := w.sent + {StatusMsg(k)}, line := HungUp(w.line))
  }

  lemma ReconnectedFacts(w: World, device: string)
    requires BoardAt(w, device, 5) && HostAt(w, device, 1, Overflow(5))
    ensures var a := HungUpWorld(w, (device, 2));
            var b := ConnectedWorld(a, (device, 2));
            && a.db == w.db && BoardAt(a, device, 5) && b.db == w.db && BoardAt(b, device, 5) && HostAt(b, device, 2, Overflow(5))
            && forall m :: BoardAt(b.(sent := b.sent + {m}), device, 5) && HostAt(b.(sent := b.sent + {m}), device, 2, Overflow(5))
  {
    hide Overflowed, Overflow;
  }

  lemma HungUpIs(w: World, device: string)
    requires BoardAt(w, device, 5) && HostAt(w, device, 1, Overflow(5))
    ensures Run(w, [EmitStatus(device), ReceiveStatus(StatusMsg((device, 2)))]) == HungUpWorld(w, (device, 2))
  {
    hide Run, BoardAt, HostAt;
    HangsUp(w, device);
  }

  lemma ReconnectedOf(w: World, device: string, extra: nat)
    requires Core(w) && BoardAt(w, device, extra) && HostAt(w, device, 2, Overflow(5))
    requires w.db.checkpoints.Keys == {Key(device, 1)} && L.Recovered(w.db.pours, device, BootText((device, 1))) == 5
    ensures Reconnected(w, device, extra)
  {
    hide Core, BoardAt, L.Recovered, HexText;
  }

  lemma ReconnectStages(device: string, uptime: U32)
    ensures Reconnect(device, uptime) ==
              [EmitStatus(device), ReceiveStatus(StatusMsg((device, 2)))] + Connect(device, (device, 2))
              + [EmitCounters(device, 0), ReceiveCounters(CountersMsg(Overflow(5), (device, 2)), uptime)]
  {
    hide Connect, Overflow;
  }

  lemma Reconnects(w: World, device: string, uptime: U32)
    requires BookedWrong(w, device)
    ensures Reconnected(Run(w, Reconnect(device, uptime)), device, 5)
  {
    hide *;
    var k := (device, 2);
    var heard := [EmitStatus(device), ReceiveStatus(StatusMsg(k))];
    var again := [EmitCounters(device, 0), ReceiveCounters(CountersMsg(Overflow(5), k), uptime)];
    var a := HungUpWorld(w, k);
    var b := ConnectedWorld(a, k);
    BookedWrongFacts(w, device);
    ReconnectStages(device, uptime);
    ReconnectedFacts(w, device);
    HungUpIs(w, device);
    BoardFactsAt(a, device, 5);
    ConnectsTo(a, device, k);
    RunAppend(w, heard, Connect(device, k));
    RunAppend(w, heard + Connect(device, k), again);
    Suppressed(b, device, uptime);
    RunKeeps(w, Reconnect(device, uptime));
    ReconnectedOf(Run(w, Reconnect(device, uptime)), device, 5);
  }

  lemma ExtraPulseStep(w: World, device: string)
    requires BoardAt(w, device, 5) && HostAt(w, device, 2, Overflow(5))
    ensures var n := Step(w, Operate(device, ExtraPulse()));
            BoardAt(n, device, 6) && HostAt(n, device, 2, Overflow(5)) && n.db == w.db
  {
    hide Overflowed, Overflow, Clamps, F.Apply;
    assert LiveBoot(w, device) == (device, 2) && (device, 1) != (device, 2);
    FullStore(w.books[(device, 2)].m, 5, 1, 4 * POUR_MS + 1);
  }

  lemma ReconnectedParts(w: World, device: string, extra: nat)
    requires Reconnected(w, device, extra)
    ensures Core(w) && BoardAt(w, device, extra) && HostAt(w, device, 2, Overflow(5))
    ensures w.db.checkpoints.Keys == {Key(device, 1)} && L.Recovered(w.db.pours, device, BootText((device, 1))) == 5
  {
    hide Core, BoardAt, L.Recovered, HexText;
  }

  lemma PulseMore(w: World, device: string)
    requires Reconnected(w, device, 5)
    ensures Reconnected(Run(w, [Operate(device, ExtraPulse())]), device, 6)
  {
    hide *;
    var e := Operate(device, ExtraPulse());
    ReconnectedParts(w, device, 5);
    ExtraPulseStep(w, device);
    RunOne(w, e);
    StepKeeps(w, e);
    ReconnectedOf(Step(w, e), device, 6);
  }

  /** A COUNTERS reply taken after an in-place reset is booked to the old boot,
      which counted nothing ... */
  lemma BookedToOldBoot(device: string, gateUs: U32, first: U32, second: U32)
    requires IsIdentity(device) && first <= second < first + TWO_31
    ensures BookedWrong(Run(Opening(CFG, gateUs), Misstamped(device, first, second)), device)
  {
    hide *;
    var o := Opening(CFG, gateUs);
    MisstampedStages(device, first, second);
    Starts(device, gateUs, first);
    RunAppend(o, Start(device, first), ResetInPlace(device));
    Resets(Run(o, Start(device, first)), device, first);
    RunAppend(o, Start(device, first) + ResetInPlace(device), WrongBoot(device, second));
    Misbooks(Run(o, Start(device, first) + ResetInPlace(device)), device, first, second);
  }

  lemma MisstampedStages(device: string, first: U32, second: U32)
    ensures Misstamped(device, first, second) == Start(device, first) + ResetInPlace(device) + WrongBoot(device, second)
  {
    hide Start, ResetInPlace, WrongBoot;
  }

  ghost predicate BookedAgain(w: World, device: string) {
    && (device, 1) in w.books && w.books[(device, 1)] == OPENING && (device, 2) in w.books
    && L.Recovered(w.db.pours, device, BootText((device, 1))) == 5
    && L.Recovered(w.db.pours, device, BootText((device, 2))) == 6 == w.books[(device, 2)].m.recovery
  }

  lemma BookedAgainOf(w: World, device: string)
    requires BoardAt(w, device, 6)
    requires L.Recovered(w.db.pours, device, BootText((device, 1))) == 5 && L.Recovered(w.db.pours, device, BootText((device, 2))) == 6
    ensures BookedAgain(w, device)
  {
    hide HexText, L.Recovered;
  }

  lemma OtherKey(db: L.Db, device: string)
    requires db.checkpoints.Keys == {Key(device, 1)}
    ensures (device, BootText((device, 1))) in db.checkpoints && (device, BootText((device, 1))) != (device, BootText((device, 2)))
    ensures (device, BootText((device, 2))) !in db.checkpoints
  {
    hide HexText;
    KeysDiffer(device);
  }

  lemma UncheckedNoLess(db: L.Db, k: Boot, c: Counters, uptime: U32)
    requires (k.0, BootText(k)) !in db.checkpoints
    ensures NoLess(db, k, c, uptime)
  {
    hide HexText;
  }

  lemma BooksRest(w: World, device: string, uptime: U32)
    requires Reconnected(w, device, 6)
    ensures BookedAgain(Run(w, Answer(device, Overflow(6), (device, 2), (device, 2), uptime)), device)
  {
    hide *;
    var k := (device, 2);
    var c := Overflow(6);
    ReconnectedParts(w, device, 6);
    BoardFactsAt(w, device, 6);
    OverflowFacts();
    HostListens(w, device, 2, Overflow(5), c);
    OtherKey(w.db, device);
    UncheckedNoLess(w.db, k, c, uptime);
    SmallAccepted(w, k, c, uptime);
    Answers(w, device, c, k, uptime);
    var n := Run(w, Answer(device, c, k, k, uptime));
    HeardMore(w, n, device, 6, 2, Overflow(5), c);
    BookedAgainOf(n, device);
  }

  /** ... and again to the new one: of the six recovery pulses this board counted
      over both power-ups, the host books eleven. */
  lemma BookedTwice(device: string, gateUs: U32, first: U32, second: U32, third: U32)
    requires IsIdentity(device) && first <= second < first + TWO_31
    ensures var w := Run(Opening(CFG, gateUs), MisstampedTwice(device, first, second, third));
            && (device, 1) in w.books && w.books[(device, 1)].m.lifetime == 0
            && (device, 2) in w.books && w.books[(device, 2)].m.recovery == 6
            && L.Recovered(w.db.pours, device, BootText((device, 1))) == 5
            && L.Recovered(w.db.pours, device, BootText((device, 2))) == 6
  {
    hide *;
    var o := Opening(CFG, gateUs);
    var es := Misstamped(device, first, second);
    TwiceStages(device, first, second, third);
    BookedToOldBoot(device, gateUs, first, second);
    RunAppend(o, es, Reconnect(device, third));
    Reconnects(Run(o, es), device, third);
    var pulse := [Operate(device, ExtraPulse())];
    RunAppend(o, es + Reconnect(device, third), pulse);
    PulseMore(Run(o, es + Reconnect(device, third)), device);
    RunAppend(o, es + Reconnect(device, third) + pulse, Answer(device, Overflow(6), (device, 2), (device, 2), third));
    BooksRest(Run(o, es + Reconnect(device, third) + pulse), device, third);
    Outcome(Run(o, MisstampedTwice(device, first, second, third)), device);
  }

  lemma TwiceStages(device: string, first: U32, second: U32, third: U32)
    ensures MisstampedTwice(device, first, second, third) ==
              Misstamped(device, first, second) + Reconnect(device, third)
              + [Operate(device, ExtraPulse())] + Answer(device, Overflow(6), (device, 2), (device, 2), third)
  {
    hide Misstamped, Reconnect, Answer, Overflow;
  }

  lemma Outcome(w: World, device: string)
    requires BookedAgain(w, device)
    ensures (device, 1) in w.books && w.books[(device, 1)].m.lifetime == 0
    ensures (device, 2) in w.books && w.books[(device, 2)].m.recovery == 6
    ensures L.Recovered(w.db.pours, device, BootText((device, 1))) == 5
    ensures L.Recovered(w.db.pours, device, BootText((device, 2))) == 6
  {
  }
}
