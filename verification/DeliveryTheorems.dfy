/** End to end: no finalized result is lost or counted twice, and the pulses the
    host holds are accounted for against those the boards counted. */
module DeliveryTheorems {
  import opened Common
  import opened Conservation
  import opened Wire
  import opened HostResult
  import opened HostCounters
  import opened PulseIntegrity
  import opened Delivery
  import opened DeliverySafety
  import opened DeliverySums
  import Runs
  import F = Firmware
  import L = Ledger
  import LedgerBilling
  import LedgerRuns

  // ---- results ----

  /** A row with this result's own key and pulse count. */
  predicate Recorded(rows: seq<L.ResultRow>, k: Boot, o: F.Outcome) {
    exists i :: 0 <= i < |rows| && rows[i].device == k.0 && rows[i].boot == BootText(k)
                && rows[i].sequence == o.sequence && rows[i].pulses == o.pulses
  }

  /** Durable on the host: committed when it is inside the envelope, quarantined when not. */
  predicate Durable(w: World, k: Boot, o: F.Outcome) {
    if WithinEnvelope(o) then Recorded(w.db.results, k, o) else Recorded(w.quarantined, k, o)
  }

  lemma SameSequence(b: Books, o: F.Outcome, p: F.Outcome)
    requires Balanced(b) && InHistory(b, o) && InHistory(b, p) && o.sequence == p.sequence
    ensures o == p
  {
    hide GoodOutcome, PulseSum;
    if o in b.acked && p in b.acked {
      var i :| 0 <= i < |b.acked| && b.acked[i] == o;
      var j :| 0 <= j < |b.acked| && b.acked[j] == p;
    } else if o in b.m.results && p in b.m.results {
      var i :| 0 <= i < |b.m.results| && b.m.results[i] == o;
      var j :| 0 <= j < |b.m.results| && b.m.results[j] == p;
    }
  }

  /** A row under a boot's key is the result that boot finalized under it. */
  lemma RowIsOutcome(w: World, rows: seq<L.ResultRow>, inside: bool, k: Boot, i: nat) returns (o: F.Outcome)
    requires Core(w) && RowsGenuine(w.books, rows, inside) && k in w.books
    requires i < |rows| && rows[i].device == k.0 && rows[i].boot == BootText(k)
    ensures InHistory(w.books[k], o) && rows[i].sequence == o.sequence && rows[i].pulses == o.pulses && WithinEnvelope(o) == inside
  {
    hide Core, InHistory, WithinEnvelope, HexText;
    assert Told(w.books, rows[i], inside);
    var j, p :| Tells(w.books, rows[i], j, p, inside);
    BootTextInjective(j, k);
    o := p;
  }

  lemma KeptIsDurable(w: World, k: Boot, o: F.Outcome)
    requires Core(w) && k in w.books && InHistory(w.books[k], o) && Kept(w.db.results, w.quarantined, k, o.sequence)
    ensures Durable(w, k, o)
  {
    KnownBoot(w, k);
    CoreRows(w);
    hide Core, InHistory, WithinEnvelope, HexText, Sane, RowsGenuine;
    SaneBalanced(w.books[k]);
    if L.HasResult(w.db.results, k.0, BootText(k), o.sequence) {
      var i :| 0 <= i < |w.db.results| && w.db.results[i].device == k.0 && w.db.results[i].boot == BootText(k) && w.db.results[i].sequence == o.sequence;
      var p := RowIsOutcome(w, w.db.results, true, k, i);
      SameSequence(w.books[k], o, p);
      assert Recorded(w.db.results, k, o);
    } else {
      var i :| 0 <= i < |w.quarantined| && w.quarantined[i].device == k.0 && w.quarantined[i].boot == BootText(k) && w.quarantined[i].sequence == o.sequence;
      var p := RowIsOutcome(w, w.quarantined, false, k, i);
      SameSequence(w.books[k], o, p);
      assert Recorded(w.quarantined, k, o);
    }
  }

  lemma SaneBalanced(b: Books)
    requires Sane(b)
    ensures Balanced(b)
  {
  }

  lemma CoreRows(w: World)
    requires Core(w)
    ensures RowsGenuine(w.books, w.db.results, true) && RowsGenuine(w.books, w.quarantined, false)
    ensures L.Sound(w.db) && DistinctKeys(w.quarantined)
  {
  }

  /** No result is lost to acknowledgement: in every reachable state, every
      result any boot ever finalized is durable on the host with its own pulse
      count, or never left that boot's store. The store is the board's memory: of
      a boot that a reset has replaced it is gone, and what that costs is in
      DeliveryLoss. */
  lemma NoResultLost(cfg: F.Config, gateUs: U32, events: seq<Event>, k: Boot, o: F.Outcome)
    ensures var w := Run(Opening(cfg, gateUs), events);
            k in w.books && InHistory(w.books[k], o) ==> o in w.books[k].m.results || Durable(w, k, o)
  {
    hide Run, Core, Durable, Sane, Kept;
    OpeningCore(cfg, gateUs);
    RunKeeps(Opening(cfg, gateUs), events);
    var w := Run(Opening(cfg, gateUs), events);
    if k in w.books && o in w.books[k].acked {
      KnownBoot(w, k);
      var i :| 0 <= i < |w.books[k].acked| && w.books[k].acked[i] == o;
      KeptIsDurable(w, k, o);
    }
  }

  /** No acknowledgement, however stale, repeated or meant for another boot,
      takes a result out of a store before the host has it for good. */
  lemma OnlyDurableRemoved(cfg: F.Config, gateUs: U32, events: seq<Event>, e: Event, k: Boot, o: F.Outcome)
    ensures var w := Run(Opening(cfg, gateUs), events);
            k in w.books && o in w.books[k].m.results ==>
              k in Step(w, e).books && (o in Step(w, e).books[k].m.results || Durable(w, k, o))
  {
    var w := Run(Opening(cfg, gateUs), events);
    hide Run, Core, Durable, Sane, Kept, Record, HostTakesResult, HostTakesCounters, LedgerRuns.Apply, Keeps;
    OpeningCore(cfg, gateUs);
    RunKeeps(Opening(cfg, gateUs), events);
    if k in w.books && o in w.books[k].m.results && Enabled(w, e) {
      match e {
        case Operate(device, op) =>
          OperateRetains(w, device, op, o);
        case DeliverAck(device, ack) =>
          MessageGenuine(w, ack);
          if ack.to == LiveBoot(w, device) { AckRetains(w, device, ack.sequence, o); }
        case Attach(device) => FreshBoot(w, k, device);
        case Reset(device) => FreshBoot(w, k, device);
        case TakeResult(message, keg, calibration, captured) =>
          HostLeavesBoards(w, message.from, message.outcome, keg, calibration, captured);
        case TakeCounters(reading, keg, calibration, captured) =>
          CountersLeaveBoards(w, reading, keg, calibration, captured);
        case _ =>
      }
    }
  }

  lemma FreshBoot(w: World, k: Boot, device: string)
    requires Core(w) && k in w.books
    ensures k.0 == device ==> device in w.live && k.1 <= w.live[device]
  {
  }

  lemma HostLeavesBoards(w: World, boot: Boot, o: F.Outcome, keg: Option<string>, calibration: Option<string>, captured: bool)
    ensures HostTakesResult(w, boot, o, keg, calibration, captured).books == w.books
  {
    hide L.FinalizeResult, ReadResult, ResultFields;
  }

  lemma CountersLeaveBoards(w: World, s: Stamped, keg: Option<string>, calibration: Option<string>, captured: bool)
    ensures HostTakesCounters(w, s, keg, calibration, captured).books == w.books
  {
    hide L.CheckpointRecovery;
  }

  lemma OperateRetains(w: World, device: string, op: F.Op, o: F.Outcome)
    requires Core(w) && device in w.live && LiveBoot(w, device) in w.books && !op.OpAck?
    ensures o in w.books[LiveBoot(w, device)].m.results ==> o in OnBoard(w, device, op).books[LiveBoot(w, device)].m.results
  {
    var k := LiveBoot(w, device);
    KnownBoot(w, k);
    var b := w.books[k];
    hide Core, F.Apply, Clamps;
    Runs.CallKeeps(w.cfg, b.m, op);
  }

  lemma AckTakes(cfg: F.Config, b: Books, sequence: U32, o: F.Outcome)
    requires Sane(b) && o in b.m.results
    ensures o in Record(cfg, b, F.OpAck(sequence)).m.results || o.sequence == sequence
  {
    hide Removed, Balanced, Inv, GoodOutcome;
    BalancedInv(b);
    AckSplits(b.m, sequence);
  }

  lemma AckRetains(w: World, device: string, sequence: U32, o: F.Outcome)
    requires Core(w) && device in w.live && LiveBoot(w, device) in w.books
    requires Kept(w.db.results, w.quarantined, LiveBoot(w, device), sequence)
    ensures var k := LiveBoot(w, device);
            o in w.books[k].m.results ==> o in OnBoard(w, device, F.OpAck(sequence)).books[k].m.results || Durable(w, k, o)
  {
    var k := LiveBoot(w, device);
    hide Core, Durable, Kept, Record, Sane;
    KnownBoot(w, k);
    if o in w.books[k].m.results {
      AckTakes(w.cfg, w.books[k], sequence, o);
      if o.sequence == sequence {
        KeptIsDurable(w, k, o);
      }
    }
  }

  // ---- counters ----

  /** Each counters reading is stamped with the boot it was taken from. */
  predicate Honest(w: World, e: Event) {
    e.ReceiveCounters? && Enabled(w, e) ==> w.line.identity == Some(e.message.origin)
  }

  predicate HonestRun(w: World, events: seq<Event>)
    decreases |events|
  {
    events == [] || (Honest(w, events[0]) && HonestRun(Step(w, events[0]), events[1..]))
  }

  ghost predicate Covers(books: map<Boot, Books>, k: Boot, recovery: nat) {
    k in books && recovery <= books[k].m.recovery
  }

  ghost predicate CheckpointCovered(books: map<Boot, Books>, key: (string, string), recovery: nat) {
    exists k :: Covers(books, k, recovery) && key == (k.0, BootText(k))
  }

  /** Nothing is checkpointed that the named boot has not counted. */
  ghost predicate Counted(w: World) {
    && (forall m :: m in w.sent && m.CountersMsg? ==> Covers(w.books, m.origin, m.counters.recovery))
    && (forall s :: s in w.line.readings ==> Covers(w.books, s.boot, s.counters.recovery))
    && (forall key :: key in w.db.checkpoints ==> CheckpointCovered(w.books, key, w.db.checkpoints[key].recovery))
  }

  lemma CountedGrows(w: World, n: World)
    requires Counted(w) && Grow(w.books, n.books)
    requires n.line.readings == w.line.readings && n.db.checkpoints == w.db.checkpoints
    requires forall m :: m in n.sent && m.CountersMsg? ==> m in w.sent
    ensures Counted(n)
  {
    hide InHistory, HexText;
    forall key | key in n.db.checkpoints ensures CheckpointCovered(n.books, key, n.db.checkpoints[key].recovery) {
      assert CheckpointCovered(w.books, key, w.db.checkpoints[key].recovery);
      var k :| Covers(w.books, k, w.db.checkpoints[key].recovery) && key == (k.0, BootText(k));
      assert Covers(n.books, k, n.db.checkpoints[key].recovery);
    }
    forall m | m in n.sent && m.CountersMsg? ensures Covers(n.books, m.origin, m.counters.recovery) {
      assert Covers(w.books, m.origin, m.counters.recovery);
    }
    forall s | s in n.line.readings ensures Covers(n.books, s.boot, s.counters.recovery) {
      assert Covers(w.books, s.boot, s.counters.recovery);
    }
  }

  lemma GrowSelf(books: map<Boot, Books>)
    ensures Grow(books, books)
  {
  }

  lemma OperateGrows(w: World, device: string, op: F.Op)
    requires Core(w) && device in w.live && LiveBoot(w, device) in w.books
    ensures Grow(w.books, OnBoard(w, device, op).books)
  {
    var k := LiveBoot(w, device);
    hide Core, Sane, Later, Record, Grow;
    KnownBoot(w, k);
    if op.OpAck? {
      AckLater(w.cfg, w.books[k], op.sequence);
    } else {
      CallLater(w.cfg, w.books[k], op);
    }
    GrowOne(w.books, k, Record(w.cfg, w.books[k], op));
  }

  lemma TakeResultFrame(w: World, boot: Boot, o: F.Outcome, keg: Option<string>, calibration: Option<string>, captured: bool)
    ensures var n := HostTakesResult(w, boot, o, keg, calibration, captured);
            && n.books == w.books && n.line == w.line && n.db.checkpoints == w.db.checkpoints
            && (forall m :: m in n.sent && m.CountersMsg? ==> m in w.sent)
  {
    hide L.FinalizeResult, ReadResult, ResultFields, MeasuredOf, L.HasResult;
    var read := ReadResult(ResultFields(boot.0, boot.1, o));
    if read.Ok? && L.FinalizeResult(w.db, MeasuredOf(read.value), keg, calibration, captured).Ok? {
      LedgerBilling.FinalizeKeepsCheckpoints(w.db, MeasuredOf(read.value), keg, calibration, captured);
    }
  }

  lemma CheckpointSets(db: L.Db, device: string, boot: string, recovery: int, accepted: int, uptime: int,
                       keg: Option<string>, calibration: Option<string>, captured: bool)
    requires L.CheckpointRecovery(db, device, boot, recovery, accepted, uptime, keg, calibration, captured).Ok?
    ensures var n := L.CheckpointRecovery(db, device, boot, recovery, accepted, uptime, keg, calibration, captured).value.0;
            && n.results == db.results && n.checkpoints.Keys == db.checkpoints.Keys + {(device, boot)}
            && n.checkpoints[(device, boot)].recovery == recovery
            && (forall key :: key in db.checkpoints && key != (device, boot) ==> n.checkpoints[key] == db.checkpoints[key])
  {
    hide L.CheckReading, L.Volume, L.Factor, L.Previous;
    LedgerRuns.CheckedNonnegative(db, device, boot, recovery, accepted, uptime);
  }

  lemma TakeCountersCounted(w: World, s: Stamped, keg: Option<string>, calibration: Option<string>, captured: bool)
    requires Counted(w) && s in w.line.readings
    ensures Counted(HostTakesCounters(w, s, keg, calibration, captured))
  {
    hide L.CheckpointRecovery, HexText, Covers, ParseCounterSnapshot, CountersFields, IsFaultToken, Plausible;
    CountersParsed(s.counters, w.gateUs, s.uptime);
    if ParseCounterSnapshot(CountersFields(s.counters, w.gateUs), s.uptime).Ok? {
      BookedCounted(w, s, keg, calibration, captured);
    }
  }

  lemma BookedCounted(w: World, s: Stamped, keg: Option<string>, calibration: Option<string>, captured: bool)
    requires Counted(w) && s in w.line.readings
    ensures var (device, text) := (s.boot.0, BootText(s.boot));
            var out := L.CheckpointRecovery(w.db, device, text, s.counters.recovery, s.counters.accepted, s.uptime, keg, calibration, captured);
            out.Ok? ==> Counted(w.(db := out.value.0))
  {
    hide L.CheckpointRecovery, HexText, Covers;
    var (device, text) := (s.boot.0, BootText(s.boot));
    var (recovery, accepted) := (s.counters.recovery, s.counters.accepted);
    var out := L.CheckpointRecovery(w.db, device, text, recovery, accepted, s.uptime, keg, calibration, captured);
    if out.Ok? {
      CheckpointSets(w.db, device, text, recovery, accepted, s.uptime, keg, calibration, captured);
      var n := w.(db := out.value.0);
      forall key | key in n.db.checkpoints ensures CheckpointCovered(n.books, key, n.db.checkpoints[key].recovery) {
        if key == (device, text) {
          assert Covers(n.books, s.boot, recovery);
        } else {
          assert CheckpointCovered(w.books, key, w.db.checkpoints[key].recovery);
        }
      }
    }
  }

  lemma StepCounted(w: World, e: Event)
    requires Core(w) && Counted(w) && Honest(w, e)
    ensures Counted(Step(w, e))
  {
    hide Core, OnBoard, HostTakesResult, HostTakesCounters, Grow, Later, LedgerRuns.Apply, CheckpointCovered, IsIdentity;
    GrowSelf(w.books);
    var n := Step(w, e);
    if Enabled(w, e) {
      match e {
        case Attach(device) =>
          FreshBoots(w, device);
          GrowOne(w.books, (device, 1), OPENING);
          CountedGrows(w, n);
        case Reset(device) =>
          FreshBoots(w, device);
          GrowOne(w.books, (device, w.live[device] + 1), OPENING);
          CountedGrows(w, n);
        case Operate(device, op) =>
          OperateGrows(w, device, op);
          OnBoardFrame(w, device, op);
          CountedGrows(w, n);
        case DeliverAck(device, ack) =>
          if ack.to == LiveBoot(w, device) {
            OperateGrows(w, device, F.OpAck(ack.sequence));
            OnBoardFrame(w, device, F.OpAck(ack.sequence));
            CountedGrows(w, n);
          }
        case TakeResult(message, keg, calibration, captured) =>
          TakeResultFrame(w, message.from, message.outcome, keg, calibration, captured);
          CountedGrows(w, n);
        case TakeCounters(reading, keg, calibration, captured) => TakeCountersCounted(w, reading, keg, calibration, captured);
        case Transact(tx) =>
          TransactFrame(w.db, tx);
          CountedGrows(w, n);
        case _ =>
      }
    }
  }

  lemma OnBoardFrame(w: World, device: string, op: F.Op)
    requires device in w.live && LiveBoot(w, device) in w.books
    ensures var n := OnBoard(w, device, op); n.sent == w.sent && n.line == w.line && n.db == w.db
  {
  }

  lemma FreshBoots(w: World, device: string)
    requires Core(w)
    ensures device !in w.live ==> (device, 1) !in w.books
    ensures device in w.live && w.live[device] < UINT32_MAX ==> (device, w.live[device] + 1) !in w.books
  {
  }

  lemma {:induction false} RunCounted(w: World, events: seq<Event>)
    requires Core(w) && Counted(w) && HonestRun(w, events)
    ensures Counted(Run(w, events))
    decreases |events|
  {
    hide Core, Counted, Step, Honest;
    if events != [] {
      StepKeeps(w, events[0]);
      StepCounted(w, events[0]);
      RunCounted(Step(w, events[0]), events[1..]);
    }
  }

  // ---- the sums ----

  /** Pulses the host holds for one boot: committed results, recovery pours and quarantined results. */
  function HostPulses(w: World, k: Boot): nat {
    RowPulses(w.db.results, k.0, BootText(k)) + L.Recovered(w.db.pours, k.0, BootText(k)) + RowPulses(w.quarantined, k.0, BootText(k))
  }

  function HostFacts(w: World, k: Boot): seq<Fact> {
    RowFacts(w.db.results, k.0, BootText(k)) + RowFacts(w.quarantined, k.0, BootText(k))
  }

  function BoardFacts(b: Books): seq<Fact> {
    OutcomeFacts(b.acked + b.m.results)
  }

  lemma FactIsOutcome(w: World, rows: seq<L.ResultRow>, inside: bool, k: Boot, fact: Fact) returns (o: F.Outcome)
    requires Core(w) && RowsGenuine(w.books, rows, inside) && k in w.books && fact in RowFacts(rows, k.0, BootText(k))
    ensures InHistory(w.books[k], o) && fact == (o.sequence, o.pulses) && WithinEnvelope(o) == inside && Recorded(rows, k, o)
  {
    hide Core, RowsGenuine, InHistory, WithinEnvelope, HexText;
    RowFactsListed(rows, k.0, BootText(k), fact);
    var i :| 0 <= i < |rows| && Matches(rows[i], k.0, BootText(k)) && fact == (rows[i].sequence, rows[i].pulses);
    o := RowIsOutcome(w, rows, inside, k, i);
  }

  lemma HistoryFact(b: Books, o: F.Outcome)
    requires InHistory(b, o)
    ensures (o.sequence, o.pulses) in BoardFacts(b)
  {
    var all := b.acked + b.m.results;
    assert o in all;
    var i :| 0 <= i < |all| && all[i] == o;
    assert OutcomeFacts(all)[i] == (o.sequence, o.pulses);
  }

  lemma HostFactGenuine(w: World, k: Boot, fact: Fact)
    requires Core(w) && k in w.books && fact in HostFacts(w, k)
    ensures fact in BoardFacts(w.books[k])
  {
    hide Core, InHistory, WithinEnvelope, HexText, RowsGenuine, BoardFacts, RowFacts;
    CoreRows(w);
    if fact in RowFacts(w.db.results, k.0, BootText(k)) {
      var o := FactIsOutcome(w, w.db.results, true, k, fact);
      HistoryFact(w.books[k], o);
    } else {
      var o := FactIsOutcome(w, w.quarantined, false, k, fact);
      HistoryFact(w.books[k], o);
    }
  }

  lemma CommittedApart(w: World, k: Boot, a: Fact, b: Fact)
    requires Core(w) && k in w.books
    requires a in RowFacts(w.db.results, k.0, BootText(k)) && b in RowFacts(w.quarantined, k.0, BootText(k))
    ensures a.0 != b.0
  {
    CoreRows(w);
    KnownBoot(w, k);
    hide Core, InHistory, WithinEnvelope, HexText, RowsGenuine, RowFacts, Sane, Recorded, L.Sound;
    SaneBalanced(w.books[k]);
    var o := FactIsOutcome(w, w.db.results, true, k, a);
    var p := FactIsOutcome(w, w.quarantined, false, k, b);
    if a.0 == b.0 {
      SameSequence(w.books[k], o, p);
    }
  }

  lemma DistinctAppend(a: seq<Fact>, b: seq<Fact>)
    requires DistinctFacts(a) && DistinctFacts(b) && forall i, j :: 0 <= i < |a| && 0 <= j < |b| ==> a[i].0 != b[j].0
    ensures DistinctFacts(a + b)
  {
  }

  lemma ResultKeysDistinct(w: World)
    requires Core(w)
    ensures DistinctKeys(w.db.results) && DistinctKeys(w.quarantined)
  {
    hide Boots, Genuine, RowsGenuine, Answered, Released, L.Reconciled, L.Settled, L.Tied, L.Telescoped;
  }

  lemma TableFactsDistinct(rows: seq<L.ResultRow>, device: string, boot: string)
    requires DistinctKeys(rows)
    ensures DistinctFacts(RowFacts(rows, device, boot))
  {
    hide RowFacts, DistinctFacts;
    RowFactsDistinct(rows, device, boot);
  }

  lemma HostFactsDistinct(w: World, k: Boot)
    requires Core(w) && k in w.books
    ensures DistinctFacts(HostFacts(w, k))
  {
    hide Core, RowFacts, DistinctKeys, DistinctFacts, HexText;
    var (a, b) := (RowFacts(w.db.results, k.0, BootText(k)), RowFacts(w.quarantined, k.0, BootText(k)));
    ResultKeysDistinct(w);
    TableFactsDistinct(w.db.results, k.0, BootText(k));
    TableFactsDistinct(w.quarantined, k.0, BootText(k));
    forall i, j | 0 <= i < |a| && 0 <= j < |b| ensures a[i].0 != b[j].0 {
      CommittedApart(w, k, a[i], b[j]);
    }
    DistinctAppend(a, b);
  }

  lemma BoardFactsDistinct(b: Books)
    requires Balanced(b)
    ensures DistinctFacts(BoardFacts(b))
  {
    hide GoodOutcome, PulseSum, GoodActive;
    var all := b.acked + b.m.results;
    assert forall i :: 0 <= i < |all| ==> BoardFacts(b)[i].0 == all[i].sequence;
  }

  lemma HostSum(w: World, k: Boot)
    ensures HostPulses(w, k) == FactSum(HostFacts(w, k)) + L.Recovered(w.db.pours, k.0, BootText(k))
  {
    RowFactsSum(w.db.results, k.0, BootText(k));
    RowFactsSum(w.quarantined, k.0, BootText(k));
    FactSumAppend(RowFacts(w.db.results, k.0, BootText(k)), RowFacts(w.quarantined, k.0, BootText(k)));
  }

  lemma BoardSum(b: Books)
    ensures FactSum(BoardFacts(b)) == PulseSum(b.acked) + PulseSum(b.m.results)
  {
    OutcomeFactsSum(b.acked + b.m.results);
    PulseSumAppend(b.acked, b.m.results);
  }

  /** What the host has recovered for a boot is what it checkpointed for it. */
  lemma RecoveredIsCheckpoint(w: World, device: string, text: string)
    requires Core(w)
    ensures L.Recovered(w.db.pours, device, text) == L.Previous(w.db, device, text).recovery
  {
    hide Boots, Genuine, RowsGenuine, Answered, Released, DistinctKeys, L.Reconciled, L.Settled, L.Tied, L.Keyed, L.Recovered;
  }

  lemma RecordedFact(rows: seq<L.ResultRow>, k: Boot, o: F.Outcome)
    requires Recorded(rows, k, o)
    ensures (o.sequence as nat, o.pulses as nat) in RowFacts(rows, k.0, BootText(k))
  {
    hide HexText;
    var fact: Fact := (o.sequence, o.pulses);
    var j :| 0 <= j < |rows| && rows[j].device == k.0 && rows[j].boot == BootText(k) && rows[j].sequence == o.sequence && rows[j].pulses == o.pulses;
    assert Matches(rows[j], k.0, BootText(k)) && fact == (rows[j].sequence, rows[j].pulses);
    RowFactsListed(rows, k.0, BootText(k), fact);
  }

  lemma DurableFactHeld(w: World, k: Boot, o: F.Outcome)
    requires Durable(w, k, o)
    ensures (o.sequence as nat, o.pulses as nat) in HostFacts(w, k)
  {
    hide WithinEnvelope, HexText, RowFacts, Recorded;
    RecordedFact(if WithinEnvelope(o) then w.db.results else w.quarantined, k, o);
  }

  // ---- what is still on its way ----

  /** The results among these that the host does not hold yet. */
  function Pending(w: World, k: Boot, rs: seq<F.Outcome>): seq<F.Outcome>
    decreases |rs|
  {
    if rs == [] then []
    else
      var last := rs[|rs| - 1];
      Pending(w, k, rs[..|rs| - 1]) + (if Durable(w, k, last) then [] else [last])
  }

  /** Pulses of retained results the host does not hold yet. */
  function Outstanding(w: World, k: Boot): nat
    requires k in w.books
  {
    PulseSum(Pending(w, k, w.books[k].m.results))
  }

  lemma {:induction false} PendingListed(w: World, k: Boot, rs: seq<F.Outcome>, o: F.Outcome)
    ensures o in Pending(w, k, rs) <==> o in rs && !Durable(w, k, o)
    decreases |rs|
  {
    hide Durable;
    if rs != [] {
      var n := |rs| - 1;
      PendingListed(w, k, rs[..n], o);
      assert rs == rs[..n] + [rs[n]];
    }
  }

  predicate SequencesDiffer(rs: seq<F.Outcome>) {
    forall i, j :: 0 <= i < j < |rs| ==> rs[i].sequence != rs[j].sequence
  }

  lemma {:induction false} PendingDiffer(w: World, k: Boot, rs: seq<F.Outcome>)
    requires SequencesDiffer(rs)
    ensures SequencesDiffer(Pending(w, k, rs))
    decreases |rs|
  {
    hide Durable;
    if rs != [] {
      var n := |rs| - 1;
      PendingDiffer(w, k, rs[..n]);
      forall o | o in Pending(w, k, rs[..n]) ensures o.sequence != rs[n].sequence {
        PendingListed(w, k, rs[..n], o);
      }
    }
  }

  lemma RetainedDiffer(b: Books)
    requires Balanced(b)
    ensures SequencesDiffer(b.m.results)
  {
    hide GoodOutcome, PulseSum, GoodActive;
  }

  /** Held by the host, or retained and not held. */
  function AllFacts(w: World, k: Boot): seq<Fact>
    requires k in w.books
  {
    HostFacts(w, k) + OutcomeFacts(Pending(w, k, w.books[k].m.results))
  }

  lemma PendingIsOther(w: World, k: Boot, fact: Fact, o: F.Outcome)
    requires Core(w) && k in w.books && fact in HostFacts(w, k) && o in w.books[k].m.results && !Durable(w, k, o)
    ensures fact.0 != o.sequence
  {
    CoreRows(w);
    KnownBoot(w, k);
    hide Core, InHistory, WithinEnvelope, HexText, RowsGenuine, RowFacts, Sane, Recorded;
    SaneBalanced(w.books[k]);
    RetainedInHistory(w.books[k], o);
    if fact in RowFacts(w.db.results, k.0, BootText(k)) {
      var p := FactIsOutcome(w, w.db.results, true, k, fact);
      if p.sequence == o.sequence { SameSequence(w.books[k], o, p); }
    } else {
      var p := FactIsOutcome(w, w.quarantined, false, k, fact);
      if p.sequence == o.sequence { SameSequence(w.books[k], o, p); }
    }
  }

  lemma RetainedInHistory(b: Books, o: F.Outcome)
    requires o in b.m.results
    ensures InHistory(b, o)
  {
  }

  lemma PendingApart(w: World, k: Boot, i: nat, j: nat)
    requires Core(w) && k in w.books && i < |HostFacts(w, k)| && j < |Pending(w, k, w.books[k].m.results)|
    ensures HostFacts(w, k)[i].0 != Pending(w, k, w.books[k].m.results)[j].sequence
  {
    hide Core, Durable, HostFacts, Pending;
    var rs := w.books[k].m.results;
    PendingListed(w, k, rs, Pending(w, k, rs)[j]);
    PendingIsOther(w, k, HostFacts(w, k)[i], Pending(w, k, rs)[j]);
  }

  lemma AllFactsDistinct(w: World, k: Boot)
    requires Core(w) && k in w.books
    ensures DistinctFacts(AllFacts(w, k))
  {
    KnownBoot(w, k);
    hide Core, Durable, Sane, HostFacts, Pending, Balanced;
    HostFactsDistinct(w, k);
    SaneBalanced(w.books[k]);
    RetainedDiffer(w.books[k]);
    var rs := w.books[k].m.results;
    PendingDiffer(w, k, rs);
    forall i, j | 0 <= i < |HostFacts(w, k)| && 0 <= j < |Pending(w, k, rs)|
      ensures HostFacts(w, k)[i].0 != OutcomeFacts(Pending(w, k, rs))[j].0
    {
      PendingApart(w, k, i, j);
    }
  }

  lemma AllFactsGenuine(w: World, k: Boot, fact: Fact)
    requires Core(w) && k in w.books && fact in AllFacts(w, k)
    ensures fact in BoardFacts(w.books[k])
  {
    hide Core, Durable, HostFacts, Pending, BoardFacts;
    var rs := w.books[k].m.results;
    if fact in HostFacts(w, k) {
      HostFactGenuine(w, k, fact);
    } else {
      var i :| 0 <= i < |OutcomeFacts(Pending(w, k, rs))| && OutcomeFacts(Pending(w, k, rs))[i] == fact;
      var o := Pending(w, k, rs)[i];
      PendingListed(w, k, rs, o);
      HistoryFact(w.books[k], o);
    }
  }

  lemma AckedHeld(w: World, k: Boot, o: F.Outcome)
    requires Core(w) && k in w.books && o in w.books[k].acked
    ensures (o.sequence as nat, o.pulses as nat) in AllFacts(w, k)
  {
    KnownBoot(w, k);
    hide Core, Durable, HostFacts, Pending, Kept, Sane;
    var i :| 0 <= i < |w.books[k].acked| && w.books[k].acked[i] == o;
    KeptIsDurable(w, k, o);
    DurableFactHeld(w, k, o);
  }

  lemma RetainedHeld(w: World, k: Boot, o: F.Outcome)
    requires k in w.books && o in w.books[k].m.results
    ensures (o.sequence as nat, o.pulses as nat) in AllFacts(w, k)
  {
    hide Durable, HostFacts, Pending;
    var rs := w.books[k].m.results;
    PendingListed(w, k, rs, o);
    if Durable(w, k, o) {
      DurableFactHeld(w, k, o);
    } else {
      var j :| 0 <= j < |Pending(w, k, rs)| && Pending(w, k, rs)[j] == o;
      assert OutcomeFacts(Pending(w, k, rs))[j] == (o.sequence, o.pulses);
    }
  }

  lemma BoardFactIsOutcome(b: Books, fact: Fact) returns (o: F.Outcome)
    requires fact in BoardFacts(b)
    ensures fact == (o.sequence, o.pulses) && (o in b.acked || o in b.m.results)
  {
    var i :| 0 <= i < |BoardFacts(b)| && BoardFacts(b)[i] == fact;
    o := (b.acked + b.m.results)[i];
  }

  lemma BoardFactsCovered(w: World, k: Boot, fact: Fact)
    requires Core(w) && k in w.books && fact in BoardFacts(w.books[k])
    ensures fact in AllFacts(w, k)
  {
    hide Core, AllFacts, BoardFacts;
    var o := BoardFactIsOutcome(w.books[k], fact);
    if o in w.books[k].acked {
      AckedHeld(w, k, o);
    } else {
      RetainedHeld(w, k, o);
    }
  }

  /** Every result a boot finalized is held by the host once, or is retained and not held. */
  lemma FactsAgree(w: World, k: Boot)
    requires Core(w) && k in w.books
    ensures FactSum(HostFacts(w, k)) + Outstanding(w, k) == PulseSum(w.books[k].acked) + PulseSum(w.books[k].m.results)
  {
    KnownBoot(w, k);
    hide Core, HostFacts, BoardFacts, FactSum, PulseSum, Pending, AllFacts, Sane, Balanced, DistinctFacts;
    var b := w.books[k];
    SaneBalanced(b);
    forall i | 0 <= i < |AllFacts(w, k)| ensures AllFacts(w, k)[i] in BoardFacts(b) {
      AllFactsGenuine(w, k, AllFacts(w, k)[i]);
    }
    forall i | 0 <= i < |BoardFacts(b)| ensures BoardFacts(b)[i] in AllFacts(w, k) {
      BoardFactsCovered(w, k, BoardFacts(b)[i]);
    }
    AllFactsDistinct(w, k);
    BoardFactsDistinct(b);
    SumInjects(AllFacts(w, k), BoardFacts(b));
    SumInjects(BoardFacts(b), AllFacts(w, k));
    BoardSum(b);
    AllFactsSum(w, k);
  }

  lemma AllFactsSum(w: World, k: Boot)
    requires k in w.books
    ensures FactSum(AllFacts(w, k)) == FactSum(HostFacts(w, k)) + Outstanding(w, k)
  {
    hide HostFacts, Pending, FactSum, PulseSum;
    FactSumAppend(HostFacts(w, k), OutcomeFacts(Pending(w, k, w.books[k].m.results)));
    OutcomeFactsSum(Pending(w, k, w.books[k].m.results));
  }

  /** What the host has of a boot, or can still get from its store or its open event. */
  function Accountable(w: World, k: Boot): nat
    requires k in w.books
  {
    HostPulses(w, k) + Outstanding(w, k) + ActivePulses(w.books[k].m)
  }

  lemma AccountsAgree(w: World, k: Boot)
    requires Core(w) && k in w.books
    ensures var b := w.books[k];
            && Accountable(w, k) + b.m.recovery == Accounted(b) + L.Previous(w.db, k.0, BootText(k)).recovery
            && Accounted(b) <= b.m.lifetime && (!b.clamped ==> Accounted(b) == b.m.lifetime == b.fed)
  {
    KnownBoot(w, k);
    hide Core, HostPulses, HostFacts, FactSum, PulseSum, HexText, DistinctHistory, Inv, Outstanding, L.Previous, L.Recovered;
    FactsAgree(w, k);
    HostSum(w, k);
    RecoveredIsCheckpoint(w, k.0, BootText(k));
  }

  /** Conservation from the boards to the host, in every run, whatever is lost,
      repeated, reordered, reset or stamped with the wrong boot: what the host
      holds of a boot, what is retained and not held, what is open and what is in
      the recovery counter add up to the pulses fed into that board plus what the
      host checkpointed for it, until a clamp fires; they are never more. */
  lemma PulsesBalance(cfg: F.Config, gateUs: U32, events: seq<Event>, k: Boot)
    ensures var w := Run(Opening(cfg, gateUs), events);
            k in w.books ==>
              var b := w.books[k];
              var checkpointed := L.Previous(w.db, k.0, BootText(k)).recovery;
              && Accountable(w, k) + b.m.recovery <= b.m.lifetime + checkpointed
              && (!b.clamped ==> Accountable(w, k) + b.m.recovery == b.m.lifetime + checkpointed && b.m.lifetime == b.fed)
  {
    hide Run, Core, Accountable, Accounted, L.Previous;
    OpeningCore(cfg, gateUs);
    RunKeeps(Opening(cfg, gateUs), events);
    if k in Run(Opening(cfg, gateUs), events).books {
      AccountsAgree(Run(Opening(cfg, gateUs), events), k);
    }
  }

  /** The pulses the host holds for a boot, together with those it can still
      get, stay within what the boot counted whenever it has checkpointed no more
      recovery pulses than the boot reports, and, short of a clamp, only then. */
  lemma HostNeverExceedsBoard(cfg: F.Config, gateUs: U32, events: seq<Event>, k: Boot)
    ensures var w := Run(Opening(cfg, gateUs), events);
            k in w.books ==>
              var b := w.books[k];
              var checkpointed := L.Previous(w.db, k.0, BootText(k)).recovery;
              && (checkpointed <= b.m.recovery ==> Accountable(w, k) <= b.m.lifetime)
              && (!b.clamped ==> (Accountable(w, k) <= b.m.lifetime <==> checkpointed <= b.m.recovery))
  {
    hide Run, Accountable, L.Previous;
    PulsesBalance(cfg, gateUs, events, k);
  }

  /** Nothing open, and the host holds every result the board still retains. */
  predicate Delivered(w: World, k: Boot)
    requires k in w.books
  {
    w.books[k].m.active.None? && forall i :: 0 <= i < |w.books[k].m.results| ==> Durable(w, k, w.books[k].m.results[i])
  }

  lemma DeliveredOutstanding(w: World, k: Boot)
    requires k in w.books && Delivered(w, k)
    ensures Accountable(w, k) == HostPulses(w, k)
  {
    hide Durable, HostPulses;
    var rs := w.books[k].m.results;
    var p := Pending(w, k, rs);
    if p != [] {
      PendingListed(w, k, rs, p[0]);
    }
  }

  /** Exactly once, end to end: when nothing is open, every result is delivered
      and no clamp has fired, the host holds every pulse fed into that board since
      it powered up, once, if and only if its checkpoint for the boot is the
      boot's own recovery counter. */
  lemma ExactlyOnce(cfg: F.Config, gateUs: U32, events: seq<Event>, k: Boot)
    ensures var w := Run(Opening(cfg, gateUs), events);
            k in w.books && Delivered(w, k) && !w.books[k].clamped ==>
              && (HostPulses(w, k) == w.books[k].m.lifetime <==> L.Previous(w.db, k.0, BootText(k)).recovery == w.books[k].m.recovery)
              && w.books[k].m.lifetime == w.books[k].fed
  {
    hide Run, HostPulses, Accountable, Delivered, L.Previous;
    PulsesBalance(cfg, gateUs, events, k);
    var w := Run(Opening(cfg, gateUs), events);
    if k in w.books && Delivered(w, k) {
      DeliveredOutstanding(w, k);
    }
  }

  // ---- readings stamped with their own boot ----

  lemma CheckpointWithin(w: World, k: Boot)
    requires Counted(w) && k in w.books
    ensures L.Previous(w.db, k.0, BootText(k)).recovery <= w.books[k].m.recovery
  {
    hide HexText;
    var key := (k.0, BootText(k));
    if key in w.db.checkpoints {
      assert CheckpointCovered(w.books, key, w.db.checkpoints[key].recovery);
      var j :| Covers(w.books, j, w.db.checkpoints[key].recovery) && key == (j.0, BootText(j));
      BootTextInjective(j, k);
    }
  }

  /** When every reading is stamped with the boot it came from, no checkpoint is
      ahead of its board. */
  lemma HonestNeverExceeds(cfg: F.Config, gateUs: U32, events: seq<Event>, k: Boot)
    requires HonestRun(Opening(cfg, gateUs), events)
    ensures var w := Run(Opening(cfg, gateUs), events);
            k in w.books ==> L.Previous(w.db, k.0, BootText(k)).recovery <= w.books[k].m.recovery
                             && Accountable(w, k) <= w.books[k].m.lifetime
  {
    hide Run, HonestRun, Core, Accountable, L.Previous, Counted;
    OpeningCore(cfg, gateUs);
    OpeningCounted(cfg, gateUs);
    RunCounted(Opening(cfg, gateUs), events);
    HostNeverExceedsBoard(cfg, gateUs, events, k);
    if k in Run(Opening(cfg, gateUs), events).books {
      CheckpointWithin(Run(Opening(cfg, gateUs), events), k);
    }
  }

  lemma OpeningCounted(cfg: F.Config, gateUs: U32)
    ensures Counted(Opening(cfg, gateUs))
  {
  }
}
