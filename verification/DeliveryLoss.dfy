/** What a reset costs: the store is memory, so a result of an earlier power-up
    that was never sent is gone for good. */
module DeliveryLoss {
  import opened Common
  import opened Conservation
  import opened Wire
  import opened HostResult
  import opened Delivery
  import opened DeliverySafety
  import opened DeliveryTheorems
  import F = Firmware
  import L = Ledger
  import LedgerRuns
  import LedgerTheorems

  predicate ReportedBy(row: L.ResultRow, m: Message) {
    && m.ResultMsg?
    && row.device == m.from.0 && row.boot == BootText(m.from)
    && row.sequence == m.outcome.sequence && row.pulses == m.outcome.pulses
  }

  ghost predicate Reported(sent: set<Message>, row: L.ResultRow) {
    exists m :: m in sent && ReportedBy(row, m)
  }

  /** Every row of the host came out of a message that was sent. */
  ghost predicate AllReported(w: World) {
    && (forall i :: 0 <= i < |w.db.results| ==> Reported(w.sent, w.db.results[i]))
    && (forall i :: 0 <= i < |w.quarantined| ==> Reported(w.sent, w.quarantined[i]))
  }

  lemma ReportedGrows(w: World, n: World)
    requires AllReported(w) && w.sent <= n.sent && n.db.results == w.db.results && n.quarantined == w.quarantined
    ensures AllReported(n)
  {
    hide HexText;
    forall row | Reported(w.sent, row) ensures Reported(n.sent, row) {
      var m :| m in w.sent && ReportedBy(row, m);
      assert m in n.sent;
    }
  }

  lemma RowReported(w: World, message: Message, row: L.ResultRow)
    requires message in w.sent && ReportedBy(row, message)
    ensures Reported(w.sent, row)
  {
  }

  lemma CommitReported(w: World, message: Message, r: L.Measured, keg: Option<string>, calibration: Option<string>, captured: bool)
    requires AllReported(w) && message in w.sent && ReportedBy(L.ResultRowOf(r, None), message)
    requires L.FinalizeResult(w.db, r, keg, calibration, captured).Ok?
    ensures AllReported(w.(db := L.FinalizeResult(w.db, r, keg, calibration, captured).value.0))
  {
    hide L.FinalizeResult, HexText, L.HasResult, Reported;
    LedgerTheorems.FinalizeGrows(w.db, r, keg, calibration, captured);
    var n := w.(db := L.FinalizeResult(w.db, r, keg, calibration, captured).value.0);
    forall i | 0 <= i < |n.db.results| ensures Reported(n.sent, n.db.results[i]) {
      if i < |w.db.results| {
        assert n.db.results[i] == w.db.results[i];
      } else {
        RowReported(w, message, n.db.results[i]);
      }
    }
  }

  lemma QuarantineReported(w: World, message: Message)
    requires AllReported(w) && message in w.sent && message.ResultMsg?
    ensures AllReported(Quarantine(w, message.from, message.outcome))
  {
    hide HexText, L.HasResult, Reported;
    var n := Quarantine(w, message.from, message.outcome);
    if n != w {
      RowReported(w, message, n.quarantined[|w.quarantined|]);
    }
  }

  lemma AcknowledgedReported(w: World, boot: Boot, sequence: U32)
    requires AllReported(w)
    ensures AllReported(Acknowledged(w, boot, sequence))
  {
    hide AllReported;
    ReportedGrows(w, Acknowledged(w, boot, sequence));
  }

  lemma TakeResultReported(w: World, message: Message, keg: Option<string>, calibration: Option<string>, captured: bool)
    requires Core(w) && AllReported(w) && message in w.sent && message.ResultMsg?
    ensures AllReported(HostTakesResult(w, message.from, message.outcome, keg, calibration, captured))
  {
    hide Core, InHistory, WithinEnvelope, L.FinalizeResult, ReadResult, ResultFields, MeasuredOf, Meant, Quarantine, Acknowledged,
      Sane, Kept, IsIdentity, GoodOutcome, AllReported, ReportedBy;
    var (boot, o) := (message.from, message.outcome);
    MessageGenuine(w, message);
    KnownBoot(w, boot);
    HistoryGood(w.books[boot], o);
    ResultReadBack(boot.0, boot.1, o);
    if WithinEnvelope(o) {
      var r := MeasuredOf(Meant(boot.0, boot.1, o));
      RefusedMeansOutside(w.db, boot, o, keg, calibration, captured);
      MeantReported(message);
      if L.FinalizeResult(w.db, r, keg, calibration, captured).Ok? {
        CommitReported(w, message, r, keg, calibration, captured);
        AcknowledgedReported(w.(db := L.FinalizeResult(w.db, r, keg, calibration, captured).value.0), boot, o.sequence);
      }
    } else {
      QuarantineReported(w, message);
      AcknowledgedReported(Quarantine(w, boot, o), boot, o.sequence);
    }
  }

  lemma MeantReported(message: Message)
    requires message.ResultMsg?
    ensures ReportedBy(L.ResultRowOf(MeasuredOf(Meant(message.from.0, message.from.1, message.outcome)), None), message)
  {
  }

  lemma CountersFrame(w: World, s: Stamped, keg: Option<string>, calibration: Option<string>, captured: bool)
    ensures var n := HostTakesCounters(w, s, keg, calibration, captured);
            n.live == w.live && n.sent == w.sent && n.db.results == w.db.results && n.quarantined == w.quarantined
  {
    hide PulseIntegrity.ParseCounterSnapshot, HostCounters.CountersFields, HexText, L.CheckpointRecovery;
    var read := PulseIntegrity.ParseCounterSnapshot(HostCounters.CountersFields(s.counters, w.gateUs), s.uptime);
    if read.Ok? && L.CheckpointRecovery(w.db, s.boot.0, BootText(s.boot), read.value.recovery, read.value.accepted, s.uptime, keg, calibration, captured).Ok? {
      CheckpointKeepsResults(w.db, s.boot.0, BootText(s.boot), read.value.recovery, read.value.accepted, s.uptime, keg, calibration, captured);
    }
  }

  lemma StepReported(w: World, e: Event)
    requires Core(w) && AllReported(w)
    ensures AllReported(Step(w, e))
  {
    hide Core, AllReported, HostTakesResult, HostTakesCounters, LedgerRuns.Apply, Record, IsIdentity;
    if Enabled(w, e) {
      match e {
        case TakeResult(message, keg, calibration, captured) =>
          ResultsSent(w);
          TakeResultReported(w, message, keg, calibration, captured);
        case TakeCounters(reading, keg, calibration, captured) =>
          CountersFrame(w, reading, keg, calibration, captured);
          ReportedGrows(w, Step(w, e));
        case Transact(tx) =>
          TransactFrame(w.db, tx);
          ReportedGrows(w, Step(w, e));
        case _ => ReportedGrows(w, Step(w, e));
      }
    }
  }

  /** A result can only have become durable after its RESULT was sent. */
  lemma DurableWasSent(w: World, k: Boot, o: F.Outcome)
    requires Core(w) && AllReported(w) && k in w.books && InHistory(w.books[k], o) && Durable(w, k, o)
    ensures ResultMsg(k, o) in w.sent
  {
    hide Core, InHistory, WithinEnvelope, HexText, Sane;
    KnownBoot(w, k);
    SaneBalanced(w.books[k]);
    var rows := if WithinEnvelope(o) then w.db.results else w.quarantined;
    var i :| 0 <= i < |rows| && rows[i].device == k.0 && rows[i].boot == BootText(k) && rows[i].sequence == o.sequence && rows[i].pulses == o.pulses;
    assert Reported(w.sent, rows[i]);
    var m :| m in w.sent && ReportedBy(rows[i], m);
    BootTextInjective(m.from, k);
    MessageGenuine(w, m);
    SameSequence(w.books[k], o, m.outcome);
  }

  /** A power-up that a later one of the same board has replaced. */
  predicate Replaced(w: World, k: Boot) {
    k.0 in w.live && k.1 < w.live[k.0]
  }

  /** A replaced boot finalizes nothing more, and sends nothing it has not sent. */
  predicate Gone(w: World, k: Boot, o: F.Outcome) {
    Replaced(w, k) && k in w.books && InHistory(w.books[k], o) && ResultMsg(k, o) !in w.sent
  }

  lemma StepGone(w: World, e: Event, k: Boot, o: F.Outcome)
    requires Core(w) && Gone(w, k, o)
    ensures Gone(Step(w, e), k, o)
  {
    hide Core, HostTakesResult, HostTakesCounters, LedgerRuns.Apply, Record, IsIdentity, InHistory;
    if Enabled(w, e) {
      match e {
        case TakeResult(message, keg, calibration, captured) =>
          HostLeavesBoards(w, message.from, message.outcome, keg, calibration, captured);
          TakeResultSends(w, message.from, message.outcome, keg, calibration, captured);
        case TakeCounters(reading, keg, calibration, captured) =>
          CountersLeaveBoards(w, reading, keg, calibration, captured);
          CountersFrame(w, reading, keg, calibration, captured);
        case _ =>
      }
    }
  }

  lemma TakeResultSends(w: World, boot: Boot, o: F.Outcome, keg: Option<string>, calibration: Option<string>, captured: bool)
    ensures var n := HostTakesResult(w, boot, o, keg, calibration, captured);
            n.live == w.live && forall m :: m in n.sent && m.ResultMsg? ==> m in w.sent
  {
    hide L.FinalizeResult, ReadResult, ResultFields, MeasuredOf, L.HasResult;
  }

  lemma {:induction false} RunGone(w: World, events: seq<Event>, k: Boot, o: F.Outcome)
    requires Core(w) && AllReported(w) && Gone(w, k, o)
    ensures var n := Run(w, events); Core(n) && AllReported(n) && Gone(n, k, o)
    decreases |events|
  {
    hide Core, AllReported, Gone, Step;
    if events != [] {
      StepKeeps(w, events[0]);
      StepReported(w, events[0]);
      StepGone(w, events[0], k, o);
      RunGone(Step(w, events[0]), events[1..], k, o);
    }
  }

  lemma {:induction false} RunReported(w: World, events: seq<Event>)
    requires Core(w) && AllReported(w)
    ensures Core(Run(w, events)) && AllReported(Run(w, events))
    decreases |events|
  {
    hide Core, AllReported, Step;
    if events != [] {
      StepKeeps(w, events[0]);
      StepReported(w, events[0]);
      RunReported(Step(w, events[0]), events[1..]);
    }
  }

  /** Where delivery ends: a result that its boot had finalized and not sent when
      the board reset never becomes durable, whatever happens afterwards. */
  lemma LostWithBoot(cfg: F.Config, gateUs: U32, before: seq<Event>, after: seq<Event>, k: Boot, o: F.Outcome)
    ensures var w := Run(Opening(cfg, gateUs), before);
            && k in w.books && InHistory(w.books[k], o) && Replaced(w, k) && ResultMsg(k, o) !in w.sent
              ==> !Durable(Run(w, after), k, o)
  {
    hide Run, Core, AllReported, Durable, InHistory;
    OpeningCore(cfg, gateUs);
    OpeningReported(cfg, gateUs);
    RunReported(Opening(cfg, gateUs), before);
    var w := Run(Opening(cfg, gateUs), before);
    if Gone(w, k, o) {
      RunGone(w, after, k, o);
      var n := Run(w, after);
      if Durable(n, k, o) {
        DurableWasSent(n, k, o);
      }
    }
  }

  // ---- and what can still arrive ----

  /** The host takes it in: outside the envelope it is quarantined, inside it the
      repository commits it, in the context captured with it. */
  predicate Acceptable(w: World, k: Boot, o: F.Outcome, keg: Option<string>, calibration: Option<string>, captured: bool) {
    WithinEnvelope(o) ==> L.FinalizeResult(w.db, MeasuredOf(Meant(k.0, k.1, o)), keg, calibration, captured).Ok?
  }

  /** The host hears the boot's HELLO, then its RESULT, and processes it. */
  function Arrival(k: Boot, o: F.Outcome, keg: Option<string>, calibration: Option<string>, captured: bool): seq<Event> {
    [Handshake(k), ReceiveResult(ResultMsg(k, o)), TakeResult(ResultMsg(k, o), keg, calibration, captured)]
  }

  lemma TakenIsDurable(w: World, k: Boot, o: F.Outcome, keg: Option<string>, calibration: Option<string>, captured: bool)
    requires Core(w) && k in w.books && InHistory(w.books[k], o) && Acceptable(w, k, o, keg, calibration, captured)
    ensures Durable(HostTakesResult(w, k, o, keg, calibration, captured), k, o)
  {
    hide Core, InHistory, WithinEnvelope, L.FinalizeResult, ReadResult, ResultFields, MeasuredOf, Meant, Quarantine, Sane, Kept,
      IsIdentity, GoodOutcome, Durable;
    KnownBoot(w, k);
    HistoryGood(w.books[k], o);
    ResultReadBack(k.0, k.1, o);
    if WithinEnvelope(o) {
      CommitKeeps(w, k, o, keg, calibration, captured);
      var n := w.(db := L.FinalizeResult(w.db, MeasuredOf(Meant(k.0, k.1, o)), keg, calibration, captured).value.0);
      KeptIsDurable(n, k, o);
      AcknowledgedDurable(n, k, o);
    } else {
      QuarantineKeeps(w, k, o);
      var n := Quarantine(w, k, o);
      QuarantineBooks(w, k, o);
      KeptIsDurable(n, k, o);
      AcknowledgedDurable(n, k, o);
    }
  }

  lemma QuarantineBooks(w: World, k: Boot, o: F.Outcome)
    ensures Quarantine(w, k, o).books == w.books
  {
    hide HexText, L.HasResult;
  }

  lemma AcknowledgedDurable(w: World, k: Boot, o: F.Outcome)
    requires Durable(w, k, o)
    ensures Durable(Acknowledged(w, k, o.sequence), k, o)
  {
    hide WithinEnvelope, Recorded;
  }

  /** A sent, acceptable result becomes durable as soon as it is let through. */
  lemma SentCanArrive(w: World, k: Boot, o: F.Outcome, keg: Option<string>, calibration: Option<string>, captured: bool)
    requires Core(w) && k in w.books && InHistory(w.books[k], o) && ResultMsg(k, o) in w.sent
    requires Acceptable(w, k, o, keg, calibration, captured)
    ensures Durable(Run(w, Arrival(k, o, keg, calibration, captured)), k, o)
  {
    var m := ResultMsg(k, o);
    var line := w.line.(identity := Some(k), connected := true, confirmed := false, results := w.line.results + {m});
    var n := w.(line := line);
    hide *;
    ArrivalSteps(w, k, o, keg, calibration, captured);
    ResultsSent(w);
    LineKeeps(w, line);
    SameTables(w, n, k, o, keg, calibration, captured);
    TakenIsDurable(n, k, o, keg, calibration, captured);
  }

  lemma SameTables(w: World, n: World, k: Boot, o: F.Outcome, keg: Option<string>, calibration: Option<string>, captured: bool)
    requires Acceptable(w, k, o, keg, calibration, captured) && n.db == w.db
    ensures Acceptable(n, k, o, keg, calibration, captured)
  {
    hide WithinEnvelope, L.FinalizeResult, MeasuredOf, Meant;
  }

  lemma ArrivalSteps(w: World, k: Boot, o: F.Outcome, keg: Option<string>, calibration: Option<string>, captured: bool)
    requires k in w.books && ResultMsg(k, o) in w.sent
    ensures var m := ResultMsg(k, o);
            var line := w.line.(identity := Some(k), connected := true, confirmed := false, results := w.line.results + {m});
            Run(w, Arrival(k, o, keg, calibration, captured)) == HostTakesResult(w.(line := line), k, o, keg, calibration, captured)
  {
    hide HostTakesResult, Run;
    var m := ResultMsg(k, o);
    ThreeSteps(w, Handshake(k), ReceiveResult(m), TakeResult(m, keg, calibration, captured));
  }

  /** Both halves: a result of a replaced boot that the host would accept can still
      become durable in some continuation if and only if it was sent. */
  lemma LostExactly(cfg: F.Config, gateUs: U32, before: seq<Event>, k: Boot, o: F.Outcome,
                    keg: Option<string>, calibration: Option<string>, captured: bool)
    ensures var w := Run(Opening(cfg, gateUs), before);
            && k in w.books && InHistory(w.books[k], o) && Replaced(w, k) && Acceptable(w, k, o, keg, calibration, captured)
              ==> (ResultMsg(k, o) in w.sent <==> exists after :: Durable(Run(w, after), k, o))
  {
    hide Run, Core, Durable, InHistory, Acceptable;
    OpeningCore(cfg, gateUs);
    RunKeeps(Opening(cfg, gateUs), before);
    var w := Run(Opening(cfg, gateUs), before);
    if k in w.books && InHistory(w.books[k], o) && Replaced(w, k) && Acceptable(w, k, o, keg, calibration, captured) {
      if ResultMsg(k, o) in w.sent {
        SentCanArrive(w, k, o, keg, calibration, captured);
      } else {
        forall after ensures !Durable(Run(w, after), k, o) {
          LostWithBoot(cfg, gateUs, before, after, k, o);
        }
      }
    }
  }

  lemma OpeningReported(cfg: F.Config, gateUs: U32)
    ensures AllReported(Opening(cfg, gateUs))
  {
  }
}
