/** Every run of boards, channel and host keeps what Core says. */
module DeliverySafety {
  import opened Common
  import opened Conservation
  import opened Frames
  import opened RoundTrip
  import opened Wire
  import opened HostResult
  import opened HostCounters
  import opened PulseIntegrity
  import opened Delivery
  import Runs
  import F = Firmware
  import L = Ledger
  import LedgerRuns
  import LedgerTheorems

  // ---- boot texts ----

  function Span(digits: nat): nat {
    if digits == 0 then 1 else 16 * Span(digits - 1)
  }

  lemma {:induction false} HexInjective(a: nat, b: nat, digits: nat)
    requires a < Span(digits) && b < Span(digits) && HexText(a, digits) == HexText(b, digits)
    ensures a == b
  {
    if digits > 0 {
      var (x, y) := (HexText(a, digits), HexText(b, digits));
      NibbleRoundTrip(a % 16, Nibble(0));
      NibbleRoundTrip(b % 16, Nibble(0));
      assert x == HexText(a / 16, digits - 1) + [HexChar(a % 16)];
      assert y == HexText(b / 16, digits - 1) + [HexChar(b % 16)];
      assert x[..digits - 1] == HexText(a / 16, digits - 1);
      assert y[..digits - 1] == HexText(b / 16, digits - 1);
      assert x[digits - 1] == y[digits - 1];
      HexInjective(a / 16, b / 16, digits - 1);
    }
  }

  lemma SpanOfBoots()
    ensures TWO_32 <= Span(16)
  {
    assert Span(4) == 0x1_0000;
    assert Span(8) == 0x1_0000_0000;
    assert Span(12) == 0x1_0000_0000_0000;
  }

  /** Two boots of one board never share a text. */
  lemma BootTextInjective(a: Boot, b: Boot)
    requires a.0 == b.0 && BootText(a) == BootText(b)
    ensures a == b
  {
    SpanOfBoots();
    HexInjective(a.1, b.1, 16);
  }

  // ---- one board ----

  lemma BalancedConsistent(b: Books)
    requires Balanced(b)
    ensures Runs.Consistent(b.m)
  {
  }

  lemma CallLater(cfg: F.Config, b: Books, op: F.Op)
    requires Sane(b) && !op.OpAck?
    ensures Sane(Record(cfg, b, op)) && Later(b, Record(cfg, b, op)) && Record(cfg, b, op).acked == b.acked
  {
    hide Balanced, F.Apply, Clamps, Fed, Inv, Held, GoodOutcome;
    RecordKeepsBalance(cfg, b, op);
    BalancedConsistent(b);
    Runs.StepConsistent(cfg, b.m, op);
    Runs.CallKeeps(cfg, b.m, op);
  }

  lemma AckSplits(m: F.Machine, sequence: U32)
    requires Inv(m)
    ensures var n := F.Acknowledge(m, sequence).m;
            && (forall o :: o in m.results ==> o in n.results || o in Removed(m, sequence))
            && (forall o :: o in Removed(m, sequence) ==> o in m.results && o.sequence == sequence && GoodOutcome(o))
  {
    var i := F.IndexOf(m.results, sequence);
    var n := F.Acknowledge(m, sequence).m;
    if i < |m.results| {
      assert Removed(m, sequence) == [m.results[i]];
      assert InStore(m.results[i], Frontier(m), m.lifetime);
      forall o | o in m.results && o != m.results[i] ensures o in n.results {
        var j :| 0 <= j < |m.results| && m.results[j] == o;
        assert n.results[if j < i then j else j - 1] == o;
      }
    } else {
      assert n.results == m.results;
    }
  }

  lemma AckLater(cfg: F.Config, b: Books, sequence: U32)
    requires Sane(b)
    ensures var c := Record(cfg, b, F.OpAck(sequence));
            && Sane(c) && Later(b, c)
            && (forall i :: 0 <= i < |c.acked| ==> (i < |b.acked| && c.acked[i] == b.acked[i]) || c.acked[i].sequence == sequence)
  {
    hide Held, GoodOutcome, Removed, Frontier, Balanced, Inv;
    BalancedInv(b);
    var c := Record(cfg, b, F.OpAck(sequence));
    RecordKeepsBalance(cfg, b, F.OpAck(sequence));
    BalancedConsistent(b);
    Runs.StepConsistent(cfg, b.m, F.OpAck(sequence));
    AckSplits(b.m, sequence);
    var taken := Removed(b.m, sequence);
    assert c.acked == b.acked + taken;
    forall i | |b.acked| <= i < |c.acked| ensures c.acked[i].sequence == sequence && GoodOutcome(c.acked[i]) {
      assert c.acked[i] in taken;
    }
  }

  lemma BalancedInv(b: Books)
    requires Balanced(b)
    ensures Inv(b.m)
  {
  }

  // ---- books growing under fixed messages and rows ----

  lemma GenuineGrows(books: map<Boot, Books>, later: map<Boot, Books>, sent: set<Message>)
    requires Genuine(books, sent) && Grow(books, later)
    ensures Genuine(later, sent)
  {
  }

  lemma RowsGrow(books: map<Boot, Books>, later: map<Boot, Books>, rows: seq<L.ResultRow>, inside: bool)
    requires RowsGenuine(books, rows, inside) && Grow(books, later)
    ensures RowsGenuine(later, rows, inside)
  {
    hide InHistory, WithinEnvelope, HexText;
    forall i | 0 <= i < |rows| ensures Told(later, rows[i], inside) {
      assert Told(books, rows[i], inside);
      var k, o :| Tells(books, rows[i], k, o, inside);
      assert Later(books[k], later[k]);
      assert Tells(later, rows[i], k, o, inside);
    }
  }

  lemma LaterSelf(b: Books)
    ensures Later(b, b)
  {
  }

  lemma GrowOne(books: map<Boot, Books>, k: Boot, b: Books)
    requires k in books ==> Later(books[k], b)
    ensures Grow(books, books[k := b])
  {
    forall j | j in books ensures Later(books[j], books[k := b][j]) {
      if j != k { LaterSelf(books[j]); }
    }
  }

  lemma OneMoreKeeps(w: World, k: Boot, b: Books, live: map<string, U32>)
    requires Core(w) && Boots(live, w.books[k := b])
    requires k in w.books ==> Later(w.books[k], b)
    requires forall i :: 0 <= i < |b.acked| ==> Kept(w.db.results, w.quarantined, k, b.acked[i].sequence)
    ensures Core(w.(live := live, books := w.books[k := b]))
  {
    hide Boots, Sane, Later, Genuine, RowsGenuine, Kept, L.Sound, Answered, DistinctKeys;
    var books := w.books[k := b];
    GrowOne(w.books, k, b);
    GenuineGrows(w.books, books, w.sent);
    RowsGrow(w.books, books, w.db.results, true);
    RowsGrow(w.books, books, w.quarantined, false);
  }

  lemma KnownBoot(w: World, k: Boot)
    requires Core(w) && k in w.books
    ensures IsIdentity(k.0) && Sane(w.books[k])
    ensures forall i :: 0 <= i < |w.books[k].acked| ==> Kept(w.db.results, w.quarantined, k, w.books[k].acked[i].sequence)
  {
  }

  lemma BootsUpdate(live: map<string, U32>, books: map<Boot, Books>, k: Boot, b: Books)
    requires Boots(live, books) && k in books && Sane(b)
    ensures Boots(live, books[k := b])
  {
    hide Sane, IsIdentity;
  }

  lemma BootsNew(live: map<string, U32>, books: map<Boot, Books>, device: string, boot: U32, b: Books)
    requires Boots(live, books) && Sane(b) && IsIdentity(device) && (device in live ==> live[device] < boot)
    ensures Boots(live[device := boot], books[(device, boot) := b]) && (device, boot) !in books
  {
    hide Sane, IsIdentity;
  }

  lemma BoardKeeps(w: World, device: string, op: F.Op)
    requires Core(w) && device in w.live && LiveBoot(w, device) in w.books
    requires op.OpAck? ==> Kept(w.db.results, w.quarantined, LiveBoot(w, device), op.sequence)
    ensures Core(OnBoard(w, device, op))
  {
    var k := LiveBoot(w, device);
    var b := w.books[k];
    var c := Record(w.cfg, b, op);
    assert Boots(w.live, w.books);
    hide Core, Sane, Later, Kept, Record, Boots, IsIdentity;
    KnownBoot(w, k);
    if op.OpAck? {
      AckLater(w.cfg, b, op.sequence);
    } else {
      CallLater(w.cfg, b, op);
    }
    BootsUpdate(w.live, w.books, k, c);
    OneMoreKeeps(w, k, c, w.live);
    assert OnBoard(w, device, op) == w.(live := w.live, books := w.books[k := c]);
  }

  /** A new power-up starts from empty books, under a boot never used before. */
  lemma BootKeeps(w: World, device: string, boot: U32, opening: Books)
    requires Core(w) && IsIdentity(device) && (device in w.live ==> w.live[device] < boot)
    requires Sane(opening) && opening.acked == []
    ensures Core(w.(live := w.live[device := boot], books := w.books[(device, boot) := opening]))
  {
    hide *;
    KnownBoots(w);
    BootsNew(w.live, w.books, device, boot, opening);
    OneMoreKeeps(w, (device, boot), opening, w.live[device := boot]);
  }

  lemma KnownBoots(w: World)
    requires Core(w)
    ensures Boots(w.live, w.books)
  {
  }

  lemma NothingAckedSane(b: Books)
    requires Balanced(b) && b.acked == []
    ensures Sane(b)
  {
  }

  // ---- the host ----

  lemma HasGrows(rows: seq<L.ResultRow>, more: seq<L.ResultRow>, device: string, boot: string, sequence: nat)
    requires rows <= more && L.HasResult(rows, device, boot, sequence)
    ensures L.HasResult(more, device, boot, sequence)
  {
    var i :| 0 <= i < |rows| && rows[i].device == device && rows[i].boot == boot && rows[i].sequence == sequence;
    assert more[i] == rows[i];
  }

  lemma KeptGrows(r: seq<L.ResultRow>, q: seq<L.ResultRow>, r': seq<L.ResultRow>, q': seq<L.ResultRow>, k: Boot, sequence: nat)
    requires r <= r' && q <= q' && Kept(r, q, k, sequence)
    ensures Kept(r', q', k, sequence)
  {
    if L.HasResult(r, k.0, BootText(k), sequence) {
      HasGrows(r, r', k.0, BootText(k), sequence);
    } else {
      HasGrows(q, q', k.0, BootText(k), sequence);
    }
  }

  lemma TablesGrow(w: World, db: L.Db, quarantined: seq<L.ResultRow>)
    requires Core(w) && w.db.results <= db.results && w.quarantined <= quarantined
    ensures Answered(w.sent, db.results, quarantined) && Released(w.books, db.results, quarantined)
  {
    hide Kept;
    forall m | m in w.sent && m.AckMsg? ensures Kept(db.results, quarantined, m.to, m.sequence) {
      KeptGrows(w.db.results, w.quarantined, db.results, quarantined, m.to, m.sequence);
    }
    forall k, i | k in w.books && 0 <= i < |w.books[k].acked| ensures Kept(db.results, quarantined, k, w.books[k].acked[i].sequence) {
      KeptGrows(w.db.results, w.quarantined, db.results, quarantined, k, w.books[k].acked[i].sequence);
    }
  }

  lemma RowAppends(books: map<Boot, Books>, rows: seq<L.ResultRow>, row: L.ResultRow, k: Boot, o: F.Outcome, inside: bool)
    requires RowsGenuine(books, rows, inside) && Tells(books, row, k, o, inside)
    ensures RowsGenuine(books, rows + [row], inside)
  {
    var all := rows + [row];
    hide Tells;
    assert Told(books, row, inside);
    forall i | 0 <= i < |all| ensures Told(books, all[i], inside) {
      assert all[i] == if i < |rows| then rows[i] else row;
    }
  }

  /** An acknowledgement is only ever sent for what is already kept. */
  lemma AcknowledgedKeeps(w: World, boot: Boot, sequence: U32)
    requires Core(w) && Kept(w.db.results, w.quarantined, boot, sequence)
    ensures Core(Acknowledged(w, boot, sequence))
  {
    hide Boots, RowsGenuine, Released, Kept, L.Sound, DistinctKeys;
  }

  lemma QuarantineKeeps(w: World, boot: Boot, o: F.Outcome)
    requires Core(w) && boot in w.books && InHistory(w.books[boot], o) && !WithinEnvelope(o)
    ensures var n := Quarantine(w, boot, o); Core(n) && Kept(n.db.results, n.quarantined, boot, o.sequence)
  {
    hide Boots, Genuine, L.Sound, InHistory, WithinEnvelope, HexText;
    var n := Quarantine(w, boot, o);
    TablesGrow(w, n.db, n.quarantined);
    if n != w {
      var row := n.quarantined[|w.quarantined|];
      assert n.quarantined == w.quarantined + [row];
      assert Tells(w.books, row, boot, o, false);
      RowAppends(w.books, w.quarantined, row, boot, o, false);
      assert L.HasResult(n.quarantined, boot.0, BootText(boot), o.sequence);
    }
  }

  lemma HistoryGood(b: Books, o: F.Outcome)
    requires Sane(b) && InHistory(b, o)
    ensures GoodOutcome(o)
  {
    if o in b.m.results {
      var i :| 0 <= i < |b.m.results| && b.m.results[i] == o;
      assert InStore(b.m.results[i], Frontier(b.m), b.m.lifetime);
    }
  }

  lemma CommitKeeps(w: World, boot: Boot, o: F.Outcome, keg: Option<string>, calibration: Option<string>, captured: bool)
    requires Core(w) && boot in w.books && InHistory(w.books[boot], o) && WithinEnvelope(o)
    requires L.FinalizeResult(w.db, MeasuredOf(Meant(boot.0, boot.1, o)), keg, calibration, captured).Ok?
    ensures var n := w.(db := L.FinalizeResult(w.db, MeasuredOf(Meant(boot.0, boot.1, o)), keg, calibration, captured).value.0);
            Core(n) && Kept(n.db.results, n.quarantined, boot, o.sequence)
  {
    hide Boots, Genuine, L.Sound, InHistory, WithinEnvelope, HexText, L.FinalizeResult;
    var r := MeasuredOf(Meant(boot.0, boot.1, o));
    var n := w.(db := L.FinalizeResult(w.db, r, keg, calibration, captured).value.0);
    LedgerRuns.FinalizeKeeps(w.db, r, keg, calibration, captured);
    LedgerTheorems.FinalizeGrows(w.db, r, keg, calibration, captured);
    TablesGrow(w, n.db, n.quarantined);
    if !L.HasResult(w.db.results, r.device, r.boot, r.sequence) {
      var row := n.db.results[|w.db.results|];
      assert n.db.results == w.db.results + [row];
      assert Tells(w.books, row, boot, o, true);
      RowAppends(w.books, w.db.results, row, boot, o, true);
      assert L.HasResult(n.db.results, boot.0, BootText(boot), o.sequence);
    }
  }

  /** The repository's own envelope agrees with the coordinator's. */
  lemma RefusedMeansOutside(db: L.Db, boot: Boot, o: F.Outcome, keg: Option<string>, calibration: Option<string>, captured: bool)
    requires WithinEnvelope(o)
    ensures L.FinalizeResult(db, MeasuredOf(Meant(boot.0, boot.1, o)), keg, calibration, captured) != Err(L.Refused)
  {
    hide L.HasResult, L.Bound, L.Insertable, L.ChargePour, L.Factor;
  }

  lemma TakeResultKeeps(w: World, boot: Boot, o: F.Outcome, keg: Option<string>, calibration: Option<string>, captured: bool)
    requires Core(w) && boot in w.books && InHistory(w.books[boot], o)
    ensures Core(HostTakesResult(w, boot, o, keg, calibration, captured))
  {
    hide Core, InHistory, WithinEnvelope, L.FinalizeResult, ReadResult, ResultFields, MeasuredOf, Meant, Quarantine, Acknowledged, Sane, Kept, IsIdentity, GoodOutcome;
    KnownBoot(w, boot);
    HistoryGood(w.books[boot], o);
    ResultReadBack(boot.0, boot.1, o);
    if WithinEnvelope(o) {
      var r := MeasuredOf(Meant(boot.0, boot.1, o));
      RefusedMeansOutside(w.db, boot, o, keg, calibration, captured);
      if L.FinalizeResult(w.db, r, keg, calibration, captured).Ok? {
        CommitKeeps(w, boot, o, keg, calibration, captured);
        AcknowledgedKeeps(w.(db := L.FinalizeResult(w.db, r, keg, calibration, captured).value.0), boot, o.sequence);
      }
    } else {
      QuarantineKeeps(w, boot, o);
      AcknowledgedKeeps(Quarantine(w, boot, o), boot, o.sequence);
    }
  }

  lemma TablesFrame(w: World, db: L.Db)
    requires Core(w) && L.Sound(db) && db.results == w.db.results
    ensures Core(w.(db := db))
  {
    hide Boots, Genuine, RowsGenuine, Released, Answered, Kept, L.Sound, DistinctKeys;
  }

  lemma TakeCountersKeeps(w: World, s: Stamped, keg: Option<string>, calibration: Option<string>, captured: bool)
    requires Core(w)
    ensures Core(HostTakesCounters(w, s, keg, calibration, captured))
  {
    hide Core, ParseCounterSnapshot, CountersFields, HexText, L.CheckpointRecovery;
    var read := ParseCounterSnapshot(CountersFields(s.counters, w.gateUs), s.uptime);
    if read.Ok? {
      var c := read.value;
      var out := L.CheckpointRecovery(w.db, s.boot.0, BootText(s.boot), c.recovery, c.accepted, s.uptime, keg, calibration, captured);
      if out.Ok? {
        CoreSound(w);
        LedgerRuns.CheckpointKeeps(w.db, s.boot.0, BootText(s.boot), c.recovery, c.accepted, s.uptime, keg, calibration, captured);
        CheckpointKeepsResults(w.db, s.boot.0, BootText(s.boot), c.recovery, c.accepted, s.uptime, keg, calibration, captured);
        TablesFrame(w, out.value.0);
      }
    }
  }

  lemma CoreSound(w: World)
    requires Core(w)
    ensures L.Sound(w.db)
  {
  }

  lemma CheckpointKeepsResults(db: L.Db, device: string, boot: string, recovery: int, accepted: int, uptime: int,
                               keg: Option<string>, calibration: Option<string>, captured: bool)
    requires L.CheckpointRecovery(db, device, boot, recovery, accepted, uptime, keg, calibration, captured).Ok?
    ensures L.CheckpointRecovery(db, device, boot, recovery, accepted, uptime, keg, calibration, captured).value.0.results == db.results
  {
    hide L.CheckReading, L.Volume, L.Factor, L.Previous;
    LedgerRuns.CheckedNonnegative(db, device, boot, recovery, accepted, uptime);
  }

  lemma PostFrame(db: L.Db, person: L.Person, amount: int, kind: L.EntryKind, pour: L.PourId)
    requires person in db.balances
    ensures var n := L.Post(db, person, amount, kind, Some(pour));
            n.results == db.results && n.checkpoints == db.checkpoints && n.charges == db.charges && n.balances.Keys == db.balances.Keys
  {
  }

  lemma ChargeFrame(db: L.Db, pour: L.PourId, person: L.Person, volume: real)
    ensures var n := L.ChargePour(db, pour, person, volume); n.results == db.results && n.checkpoints == db.checkpoints
  {
    hide L.Price;
  }

  lemma MoveChargeFrame(db: L.Db, pour: L.PourId, owner: Option<L.Person>, volume: Option<real>, person: L.Person)
    requires person in db.balances
    ensures var n := L.MoveCharge(db, pour, owner, volume, person); n.results == db.results && n.checkpoints == db.checkpoints
  {
    hide L.Post, L.ChargePour;
    if pour in db.charges && owner != Some(person) {
      var amount: int := db.charges[pour].amount;
      var refunded := if owner.Some? && owner.value in db.balances then L.Post(db, owner.value, amount, L.Refund, Some(pour)) else db;
      if refunded != db { PostFrame(db, owner.value, amount, L.Refund, pour); }
      PostFrame(refunded, person, -amount, L.ChargeEntry, pour);
    } else if volume.Some? {
      ChargeFrame(db, pour, person, volume.value);
    }
  }

  lemma ReassignFrame(db: L.Db, pour: L.PourId, person: L.Person, reason: string)
    requires L.Reassign(db, pour, person, reason).Ok?
    ensures var n := L.Reassign(db, pour, person, reason).value; n.results == db.results && n.checkpoints == db.checkpoints
  {
    hide L.MoveCharge;
    var row := db.pours[pour];
    MoveChargeFrame(db.(audit := db.audit + [L.AuditRow(pour, row.person, person, reason)],
                        pours := db.pours[pour := row.(person := Some(person), attributed := true)]),
                    pour, row.person, row.volume, person);
  }

  lemma TransactFrame(db: L.Db, tx: LedgerRuns.Tx)
    requires !tx.FinalizeTx? && !tx.RecoveryTx?
    ensures LedgerRuns.Apply(db, tx).results == db.results && LedgerRuns.Apply(db, tx).checkpoints == db.checkpoints
  {
    hide L.Reassign, L.FinalizeResult, L.CheckpointRecovery;
    if tx.ReassignTx? && L.Reassign(db, tx.pour, tx.person, tx.reason).Ok? {
      ReassignFrame(db, tx.pour, tx.person, tx.reason);
    }
  }

  lemma TransactKeeps(w: World, tx: LedgerRuns.Tx)
    requires Core(w) && !tx.FinalizeTx? && !tx.RecoveryTx?
    ensures Core(w.(db := LedgerRuns.Apply(w.db, tx)))
  {
    hide Boots, Genuine, RowsGenuine, Released, Answered, Kept, L.Sound, DistinctKeys, LedgerRuns.Apply;
    TransactFrame(w.db, tx);
    LedgerRuns.ApplyKeeps(w.db, tx);
    TablesFrame(w, LedgerRuns.Apply(w.db, tx));
  }

  lemma EmitKeeps(w: World, device: string, m: Message)
    requires Core(w) && device in w.live && !m.AckMsg?
    requires m.ResultMsg? ==> m.from in w.books && InHistory(w.books[m.from], m.outcome)
    ensures Core(w.(sent := w.sent + {m}))
  {
    hide Boots, RowsGenuine, Released, Kept, L.Sound, DistinctKeys, InHistory;
  }

  lemma LineKeeps(w: World, line: Line)
    requires Core(w) && line.results <= w.sent
    ensures Core(w.(line := line))
  {
    hide Boots, Genuine, RowsGenuine, Released, Answered, Kept, L.Sound, DistinctKeys;
  }

  lemma ResultsSent(w: World)
    requires Core(w)
    ensures w.line.results <= w.sent
  {
  }

  lemma MessageGenuine(w: World, m: Message)
    requires Core(w) && m in w.sent
    ensures m.ResultMsg? ==> m.from in w.books && InHistory(w.books[m.from], m.outcome)
    ensures m.AckMsg? ==> Kept(w.db.results, w.quarantined, m.to, m.sequence)
  {
    hide Boots, RowsGenuine, Released, Kept, L.Sound, DistinctKeys, InHistory;
  }

  lemma LiveKnown(w: World, device: string)
    requires Core(w) && device in w.live
    ensures LiveBoot(w, device) in w.books && IsIdentity(device)
  {
    hide Sane, Genuine, RowsGenuine, Released, Kept, L.Sound, DistinctKeys, Answered;
  }

  lemma StepKeeps(w: World, e: Event)
    requires Core(w)
    ensures Core(Step(w, e))
  {
    hide Core, HostTakesResult, HostTakesCounters, OnBoard, LedgerRuns.Apply, Kept, IsIdentity, Sane, Balanced;
    Runs.OpeningBalanced();
    NothingAckedSane(OPENING);
    if Enabled(w, e) {
      match e {
        case Attach(device) =>
          BootKeeps(w, device, 1, OPENING);
        case Reset(device) =>
          LiveKnown(w, device);
          BootKeeps(w, device, w.live[device] + 1, OPENING);
        case Operate(device, op) => BoardKeeps(w, device, op);
        case EmitResult(device, o) => EmitKeeps(w, device, ResultMsg(LiveBoot(w, device), o));
        case EmitStatus(device) => EmitKeeps(w, device, StatusMsg(LiveBoot(w, device)));
        case EmitCounters(device, rejected) =>
          var k := LiveBoot(w, device);
          EmitKeeps(w, device, CountersMsg(CountersOf(w.books[k].m, rejected), k));
        case DeliverAck(device, ack) =>
          MessageGenuine(w, ack);
          if ack.to == LiveBoot(w, device) { BoardKeeps(w, device, F.OpAck(ack.sequence)); }
        case TakeResult(message, keg, calibration, captured) =>
          ResultsSent(w);
          MessageGenuine(w, message);
          TakeResultKeeps(w, message.from, message.outcome, keg, calibration, captured);
        case TakeCounters(reading, keg, calibration, captured) => TakeCountersKeeps(w, reading, keg, calibration, captured);
        case Transact(tx) => TransactKeeps(w, tx);
        case _ =>
          ResultsSent(w);
          LineKeeps(w, Step(w, e).line);
      }
    }
  }

  // ---- runs ----

  lemma {:induction false} RunAppend(w: World, a: seq<Event>, b: seq<Event>)
    ensures Run(w, a + b) == Run(Run(w, a), b)
    decreases |a|
  {
    hide Step;
    if a == [] {
      assert a + b == b;
    } else {
      RunAppend(Step(w, a[0]), a[1..], b);
      assert (a + b)[1..] == a[1..] + b;
    }
  }

  lemma RunOne(w: World, e: Event)
    ensures Run(w, [e]) == Step(w, e)
  {
    hide Step;
    assert [e][1..] == [];
    assert Run(Step(w, e), [e][1..]) == Step(w, e);
  }

  lemma RunPush(w: World, es: seq<Event>, e: Event)
    ensures Run(w, es + [e]) == Step(Run(w, es), e)
  {
    hide Step, Run;
    RunAppend(w, es, [e]);
    RunOne(Run(w, es), e);
  }

  lemma TwoSteps(w: World, e: Event, f: Event)
    ensures Run(w, [e, f]) == Step(Step(w, e), f)
  {
    hide Step, Run;
    assert [e, f] == [e] + [f];
    RunPush(w, [e], f);
    RunOne(w, e);
  }

  lemma ThreeSteps(w: World, e: Event, f: Event, g: Event)
    ensures Run(w, [e, f, g]) == Step(Step(Step(w, e), f), g)
  {
    hide Step, Run;
    assert [e, f, g] == [e, f] + [g];
    RunPush(w, [e, f], g);
    TwoSteps(w, e, f);
  }

  lemma {:induction false} RunKeeps(w: World, events: seq<Event>)
    requires Core(w)
    ensures Core(Run(w, events))
    decreases |events|
  {
    if events != [] {
      StepKeeps(w, events[0]);
      RunKeeps(Step(w, events[0]), events[1..]);
    }
  }

  lemma OpeningCore(cfg: F.Config, gateUs: U32)
    ensures Core(Opening(cfg, gateUs))
  {
    LedgerRuns.EveryRunSound([]);
  }
}
