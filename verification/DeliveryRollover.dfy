/** What a refused counters reading costs: the connection manager does not queue
    the same counters twice, so nothing is checkpointed until they change. */
module DeliveryRollover {
  import opened Common
  import Conservation
  import Firmware
  import HostResult
  import opened PulseIntegrity
  import opened HostCounters
  import opened Wire
  import opened Delivery
  import opened DeliverySafety
  import opened DeliveryTheorems
  import L = Ledger
  import LedgerRuns

  /** No counters but these are heard. */
  predicate OnlyThese(events: seq<Event>, c: Counters) {
    forall i :: 0 <= i < |events| && events[i].ReceiveCounters? && events[i].message.CountersMsg? ==> events[i].message.counters == c
  }

  /** These counters were the last queued, and every reading still queued is refused. */
  ghost predicate HeldBack(w: World, c: Counters) {
    && w.line.cache == Some(c)
    && forall s :: s in w.line.readings ==> ParseCounterSnapshot(CountersFields(s.counters, w.gateUs), s.uptime).Err?
  }

  lemma HeldFrame(w: World, n: World, c: Counters)
    requires HeldBack(w, c) && n.line.cache == w.line.cache && n.line.readings == w.line.readings && n.gateUs == w.gateUs
    ensures HeldBack(n, c)
  {
    hide ParseCounterSnapshot, CountersFields;
  }

  lemma TakeResultLine(w: World, boot: Boot, o: Firmware.Outcome, keg: Option<string>, calibration: Option<string>, captured: bool)
    ensures HostTakesResult(w, boot, o, keg, calibration, captured).gateUs == w.gateUs
  {
    hide L.FinalizeResult, HostResult.ReadResult, ResultFields, MeasuredOf, L.HasResult;
  }

  lemma StepHeldBack(w: World, e: Event, c: Counters)
    requires HeldBack(w, c) && OnlyThese([e], c)
    ensures HeldBack(Step(w, e), c) && Step(w, e).db.checkpoints == w.db.checkpoints
  {
    assert [e][0] == e;
    hide HostTakesResult, LedgerRuns.Apply, OnBoard, ParseCounterSnapshot, CountersFields, BootText, HeldBack, L.CheckpointRecovery, IsIdentity;
    var n := Step(w, e);
    if Enabled(w, e) {
      match e {
        case Operate(device, op) => OnBoardLine(w, device, op);
        case DeliverAck(device, ack) => OnBoardLine(w, device, Firmware.OpAck(ack.sequence));
        case TakeResult(message, keg, calibration, captured) =>
          TakeResultFrame(w, message.from, message.outcome, keg, calibration, captured);
          TakeResultLine(w, message.from, message.outcome, keg, calibration, captured);
        case ReceiveCounters(message, _) => CachedCounters(w, c);
        case TakeCounters(reading, _, _, _) => RefusedReading(w, c, reading);
        case Transact(tx) => TransactFrame(w.db, tx);
        case _ =>
      }
      HeldFrame(w, n, c);
    }
  }

  lemma OnBoardLine(w: World, device: string, op: Firmware.Op)
    requires device in w.live && LiveBoot(w, device) in w.books
    ensures var n := OnBoard(w, device, op); n.line == w.line && n.gateUs == w.gateUs && n.db == w.db
  {
    hide Conservation.Record;
  }

  lemma CachedCounters(w: World, c: Counters)
    requires HeldBack(w, c)
    ensures w.line.cache == Some(c)
  {
    hide ParseCounterSnapshot, CountersFields;
  }

  lemma RefusedReading(w: World, c: Counters, s: Stamped)
    requires HeldBack(w, c) && s in w.line.readings
    ensures ParseCounterSnapshot(CountersFields(s.counters, w.gateUs), s.uptime).Err?
  {
    hide ParseCounterSnapshot, CountersFields;
  }

  /** As long as the counters stay the same, nothing more is checkpointed, however
      often they are polled, whatever uptime is reported with them by then, and
      whatever else happens. */
  lemma {:induction false} NothingCheckpointed(w: World, events: seq<Event>, c: Counters)
    requires HeldBack(w, c) && OnlyThese(events, c)
    ensures HeldBack(Run(w, events), c) && Run(w, events).db.checkpoints == w.db.checkpoints
    decreases |events|
  {
    hide HeldBack, Step;
    if events != [] {
      assert [events[0]][0] == events[0];
      StepHeldBack(w, events[0], c);
      assert forall i :: 0 <= i < |events[1..]| ==> events[1..][i] == events[i + 1];
      NothingCheckpointed(Step(w, events[0]), events[1..], c);
    }
  }

  /** After a rollover of the board's clock: the one reading queued is refused, and
      by the time the clock would admit the same counters they are not queued. */
  lemma HeldBackAfterRollover(w: World, k: Boot, c: Counters, uptime: nat, events: seq<Event>)
    requires IsFaultToken(c.fault) && c.recovery <= c.accepted <= PulseLimit(uptime)
    requires TWO_32 <= uptime && BURST_ALLOWANCE + 10 * Wrap(uptime) < c.accepted
    requires w.line.cache == Some(c) && w.line.readings == {Stamped(k, c, Wrap(uptime))} && OnlyThese(events, c)
    ensures Run(w, events).db.checkpoints == w.db.checkpoints
  {
    hide ParseCounterSnapshot, CountersFields, OnlyThese, Run, IsFaultToken, PulseLimit;
    RolloverRefusesExactly(c, w.gateUs, uptime);
    NothingCheckpointed(w, events, c);
  }
}
