/** Boards, a faulty channel and the host, as one step relation. A message once
    sent may be lost, repeated, delayed and reordered at will, across resets and
    reconnections; a transaction that fails is a step that does not happen. */
module Delivery {
  import opened Common
  import opened Conservation
  import opened Wire
  import opened HostResult
  import opened HostCounters
  import opened PulseIntegrity
  import F = Firmware
  import L = Ledger
  import LedgerRuns

  /** One power-up of one board: its device id and its boot counter. */
  type Boot = (string, U32)

  datatype Message =
    | ResultMsg(from: Boot, outcome: F.Outcome)
    | StatusMsg(of: Boot)
    | CountersMsg(counters: Counters, origin: Boot)
    | AckMsg(to: Boot, sequence: U32)

  /** A counters reading as the connection manager queues it: the frame names no
      board, so it carries the identity of the last handshake and the uptime of
      the last STATUS. */
  datatype Stamped = Stamped(boot: Boot, counters: Counters, uptime: U32)

  /** The host's side of the line: the last handshake, which outlives the
      connection; whether the line is up; whether a STATUS has confirmed the boot
      since; the last counters queued; and the results and readings queued. */
  datatype Line = Line(
    identity: Option<Boot>, connected: bool, confirmed: bool, cache: Option<Counters>,
    results: set<Message>, readings: set<Stamped>)

  datatype World = World(
    cfg: F.Config, gateUs: U32, live: map<string, U32>, books: map<Boot, Books>, sent: set<Message>,
    line: Line, db: L.Db, quarantined: seq<L.ResultRow>)

  const NO_LINE := Line(None, false, false, None, {}, {})

  function Opening(cfg: F.Config, gateUs: U32): World {
    World(cfg, gateUs, map[], map[], {}, NO_LINE, L.NEW_DB, [])
  }

  function BootText(boot: Boot): string {
    HexText(boot.1, 16)
  }

  datatype Event =
    | Attach(device: string)
    | Reset(device: string)
    | Operate(device: string, op: F.Op)
    | EmitResult(device: string, outcome: F.Outcome)
    | EmitStatus(device: string)
    | EmitCounters(device: string, rejected: U32)
    | DeliverAck(device: string, ack: Message)
    | Handshake(boot: Boot)
    | Disconnect
    | ReceiveStatus(message: Message)
    | ReceiveResult(message: Message)
    | TakeResult(message: Message, keg: Option<string>, calibration: Option<string>, captured: bool)
    | ReceiveCounters(message: Message, uptime: U32)
    | TakeCounters(reading: Stamped, keg: Option<string>, calibration: Option<string>, captured: bool)
    | Transact(tx: LedgerRuns.Tx)

  // ---- the board ----

  function LiveBoot(w: World, device: string): Boot
    requires device in w.live
  {
    (device, w.live[device])
  }

  function OnBoard(w: World, device: string, op: F.Op): World
    requires device in w.live && LiveBoot(w, device) in w.books
  {
    var k := LiveBoot(w, device);
    w.(books := w.books[k := Record(w.cfg, w.books[k], op)])
  }

  // ---- the host ----

  function MeasuredOf(r: DeviceResult): L.Measured {
    L.Measured(r.device, r.boot, r.sequence, r.sid, r.attributed,
               if r.status == F.Complete then L.CompleteStatus else if r.status == F.TimedOut then L.TimedOutStatus else L.InterruptedStatus,
               r.pulses, r.startedMs, r.endedMs)
  }

  /** A frame of another boot than the handshake's makes the host hang up. */
  function HungUp(line: Line): Line {
    line.(connected := false, confirmed := false)
  }

  /** `_record_status`: only the boot is compared. */
  function TakesStatus(line: Line, of: Boot): Line
    requires line.identity.Some?
  {
    if BootText(of) == BootText(line.identity.value) then line.(confirmed := true) else HungUp(line)
  }

  /** `_queue_result`: device and boot are compared. */
  function QueuesResult(line: Line, message: Message): Line
    requires line.identity.Some? && message.ResultMsg?
  {
    if message.from == line.identity.value then line.(results := line.results + {message}) else HungUp(line)
  }

  /** `_record_counters`: a reading equal to the last one queued is not queued again. */
  function QueuesCounters(line: Line, c: Counters, uptime: U32): Line
    requires line.identity.Some?
  {
    if line.cache == Some(c) then line
    else line.(cache := Some(c), readings := line.readings + {Stamped(line.identity.value, c, uptime)})
  }

  /** The host acknowledges only to the board of its last handshake. */
  function Acknowledged(w: World, boot: Boot, sequence: U32): World {
    if w.line.identity == Some(boot) then w.(sent := w.sent + {AckMsg(boot, sequence)}) else w
  }

  function Quarantine(w: World, boot: Boot, o: F.Outcome): World {
    if L.HasResult(w.quarantined, boot.0, BootText(boot), o.sequence) then w
    else w.(quarantined := w.quarantined + [L.ResultRow(boot.0, BootText(boot), o.sequence, o.pulses, None)])
  }

  /** Commit or quarantine first; acknowledge after. */
  function HostTakesResult(w: World, boot: Boot, o: F.Outcome, keg: Option<string>, calibration: Option<string>, captured: bool): World {
    match ReadResult(ResultFields(boot.0, boot.1, o))
    case Err(_) => Acknowledged(Quarantine(w, boot, o), boot, o.sequence)
    case Ok(r) =>
      match L.FinalizeResult(w.db, MeasuredOf(r), keg, calibration, captured)
      case Ok((db, _)) => Acknowledged(w.(db := db), boot, o.sequence)
      case Err(e) => if e == L.Refused then Acknowledged(Quarantine(w, boot, o), boot, o.sequence) else w
  }

  /** A reading that does not parse is quarantined, which touches no table of the model. */
  function HostTakesCounters(w: World, s: Stamped, keg: Option<string>, calibration: Option<string>, captured: bool): World {
    match ParseCounterSnapshot(CountersFields(s.counters, w.gateUs), s.uptime)
    case Err(_) => w
    case Ok(c) =>
      match L.CheckpointRecovery(w.db, s.boot.0, BootText(s.boot), c.recovery, c.accepted, s.uptime, keg, calibration, captured)
      case Ok((db, _)) => w.(db := db)
      case Err(_) => w
  }

  // ---- steps ----

  predicate Enabled(w: World, e: Event) {
    match e
    case Attach(device) => device !in w.live && IsIdentity(device)
    case Reset(device) => device in w.live && w.live[device] < UINT32_MAX
    case Operate(device, op) => device in w.live && LiveBoot(w, device) in w.books && !op.OpAck?
    case EmitResult(device, o) => device in w.live && LiveBoot(w, device) in w.books && o in w.books[LiveBoot(w, device)].m.results
    case EmitStatus(device) => device in w.live
    case EmitCounters(device, _) => device in w.live && LiveBoot(w, device) in w.books
    case DeliverAck(device, ack) => device in w.live && LiveBoot(w, device) in w.books && ack in w.sent && ack.AckMsg?
    case Handshake(boot) => boot in w.books
    case Disconnect => true
    case ReceiveStatus(message) => message in w.sent && message.StatusMsg? && w.line.connected && w.line.identity.Some?
    case ReceiveResult(message) => message in w.sent && message.ResultMsg? && w.line.connected && w.line.identity.Some?
    case TakeResult(message, _, _, _) => message in w.line.results && message.ResultMsg?
    case ReceiveCounters(message, _) =>
      message in w.sent && message.CountersMsg? && w.line.connected && w.line.confirmed && w.line.identity.Some?
    case TakeCounters(reading, _, _, _) => reading in w.line.readings
    case Transact(tx) => !tx.FinalizeTx? && !tx.RecoveryTx?
  }

  function Step(w: World, e: Event): World {
    if !Enabled(w, e) then w
    else
      match e
      case Attach(device) => w.(live := w.live[device := 1], books := w.books[(device, 1) := OPENING])
      case Reset(device) =>
        var next := w.live[device] + 1;
        w.(live := w.live[device := next], books := w.books[(device, next) := OPENING])
      case Operate(device, op) => OnBoard(w, device, op)
      case EmitResult(device, o) => w.(sent := w.sent + {ResultMsg(LiveBoot(w, device), o)})
      case EmitStatus(device) => w.(sent := w.sent + {StatusMsg(LiveBoot(w, device))})
      case EmitCounters(device, rejected) =>
        var k := LiveBoot(w, device);
        w.(sent := w.sent + {CountersMsg(CountersOf(w.books[k].m, rejected), k)})
      case DeliverAck(device, ack) =>
        if ack.to == LiveBoot(w, device) then OnBoard(w, device, F.OpAck(ack.sequence)) else w
      case Handshake(boot) => w.(line := w.line.(identity := Some(boot), connected := true, confirmed := false))
      case Disconnect => w.(line := HungUp(w.line))
      case ReceiveStatus(message) => w.(line := TakesStatus(w.line, message.of))
      case ReceiveResult(message) => w.(line := QueuesResult(w.line, message))
      case TakeResult(message, keg, calibration, captured) =>
        HostTakesResult(w, message.from, message.outcome, keg, calibration, captured)
      case ReceiveCounters(message, uptime) => w.(line := QueuesCounters(w.line, message.counters, uptime))
      case TakeCounters(reading, keg, calibration, captured) => HostTakesCounters(w, reading, keg, calibration, captured)
      case Transact(tx) => w.(db := LedgerRuns.Apply(w.db, tx))
  }

  function Run(w: World, events: seq<Event>): World
    decreases |events|
  {
    if events == [] then w else Run(Step(w, events[0]), events[1..])
  }

  // ---- what every step keeps ----

  /** Finalized in this boot: still retained, or acknowledged since. */
  predicate InHistory(b: Books, o: F.Outcome) {
    o in b.acked || o in b.m.results
  }

  ghost predicate Sane(b: Books) {
    Balanced(b) && forall i :: 0 <= i < |b.acked| ==> GoodOutcome(b.acked[i])
  }

  ghost predicate Boots(live: map<string, U32>, books: map<Boot, Books>) {
    && (forall k :: k in books ==> IsIdentity(k.0) && Sane(books[k]) && k.0 in live && k.1 <= live[k.0])
    && (forall d :: d in live ==> (d, live[d]) in books)
  }

  ghost predicate Later(b: Books, c: Books) {
    && (forall o :: InHistory(b, o) ==> InHistory(c, o))
    && b.m.recovery <= c.m.recovery && b.m.lifetime <= c.m.lifetime
  }

  ghost predicate Grow(books: map<Boot, Books>, later: map<Boot, Books>) {
    forall k :: k in books ==> k in later && Later(books[k], later[k])
  }

  ghost predicate Genuine(books: map<Boot, Books>, sent: set<Message>) {
    forall m :: m in sent && m.ResultMsg? ==> m.from in books && InHistory(books[m.from], m.outcome)
  }

  /** A row tells of one finalized result, inside the host's envelope or outside it. */
  ghost predicate Tells(books: map<Boot, Books>, row: L.ResultRow, k: Boot, o: F.Outcome, inside: bool) {
    && k in books && row.device == k.0 && row.boot == BootText(k)
    && InHistory(books[k], o) && row.sequence == o.sequence && row.pulses == o.pulses
    && WithinEnvelope(o) == inside
  }

  ghost predicate Told(books: map<Boot, Books>, row: L.ResultRow, inside: bool) {
    exists k, o :: Tells(books, row, k, o, inside)
  }

  ghost predicate RowsGenuine(books: map<Boot, Books>, rows: seq<L.ResultRow>, inside: bool) {
    forall i :: 0 <= i < |rows| ==> Told(books, rows[i], inside)
  }

  /** Committed or quarantined. */
  predicate Kept(results: seq<L.ResultRow>, quarantined: seq<L.ResultRow>, k: Boot, sequence: nat) {
    L.HasResult(results, k.0, BootText(k), sequence) || L.HasResult(quarantined, k.0, BootText(k), sequence)
  }

  ghost predicate Answered(sent: set<Message>, results: seq<L.ResultRow>, quarantined: seq<L.ResultRow>) {
    forall m :: m in sent && m.AckMsg? ==> Kept(results, quarantined, m.to, m.sequence)
  }

  ghost predicate Released(books: map<Boot, Books>, results: seq<L.ResultRow>, quarantined: seq<L.ResultRow>) {
    forall k, i :: k in books && 0 <= i < |books[k].acked| ==> Kept(results, quarantined, k, books[k].acked[i].sequence)
  }

  ghost predicate DistinctKeys(rows: seq<L.ResultRow>) {
    forall i, j :: 0 <= i < j < |rows| ==>
      rows[i].device != rows[j].device || rows[i].boot != rows[j].boot || rows[i].sequence != rows[j].sequence
  }

  ghost predicate Core(w: World) {
    && Boots(w.live, w.books)
    && Genuine(w.books, w.sent)
    && w.line.results <= w.sent
    && RowsGenuine(w.books, w.db.results, true)
    && RowsGenuine(w.books, w.quarantined, false)
    && Answered(w.sent, w.db.results, w.quarantined)
    && Released(w.books, w.db.results, w.quarantined)
    && DistinctKeys(w.quarantined)
    && L.Sound(w.db)
  }
}
