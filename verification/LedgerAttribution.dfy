/** From the coordinator's commits to the pours: a counter stream that is charged
    rightly in the retry queue reaches the tables with its kegs and calibrations. */
module LedgerAttribution {
  import opened Common
  import opened Ledger
  import opened LedgerRuns
  import opened LedgerBilling
  import opened CounterStream
  import Attribution
  import CounterRuns
  import StreamRuns

  /** A committed reading with the edge count and uptime reported with it. */
  datatype Booking = Booking(reading: Reading, accepted: int, uptime: int)

  function ReadingsIn(bs: seq<Booking>): (rs: seq<Reading>)
    ensures |rs| == |bs|
    ensures forall i :: 0 <= i < |rs| ==> rs[i] == bs[i].reading
  {
    seq(|bs|, i requires 0 <= i < |bs| => bs[i].reading)
  }

  /** The checkpoint transactions of these readings, in order; none if one of them fails. */
  function BookAll(db: Db, device: string, boot: string, bs: seq<Booking>): Result<Db, Failure> {
    if bs == [] then Ok(db)
    else
      var n := |bs| - 1;
      match BookAll(db, device, boot, bs[..n])
      case Err(e) => Err(e)
      case Ok(before) => BookOne(before, device, boot, bs[n])
  }

  function BookOne(db: Db, device: string, boot: string, b: Booking): Result<Db, Failure> {
    if b.reading.value.None? then Err(Refused)
    else
      var c := b.reading.context;
      match CheckpointRecovery(db, device, boot, b.reading.value.value, b.accepted, b.uptime, c.keg, c.calibration, c.captured)
      case Err(e) => Err(e)
      case Ok((n, _)) => Ok(n)
  }

  /** The recovery pulses of a boot poured from a keg under a calibration. */
  function RecoveredFrom(pours: seq<Pour>, device: string, boot: string, keg: Option<string>, calibration: Option<string>): nat {
    if pours == [] then 0
    else
      var last := pours[|pours| - 1];
      RecoveredFrom(pours[..|pours| - 1], device, boot, keg, calibration)
        + (if last.device == device && last.boot == boot && last.sequence.None? && last.keg == keg && last.calibration == calibration
           then last.pulses else 0)
  }

  /** Captured with the reading, and what it names is in the tables. */
  predicate InTables(db: Db, c: Context) {
    c.captured && (c.keg.Some? ==> c.keg.value in db.kegs) && (c.calibration.Some? ==> c.calibration.value in db.factors)
  }

  lemma RecoveredPush(pours: seq<Pour>, row: Pour, device: string, boot: string, keg: Option<string>, calibration: Option<string>)
    ensures RecoveredFrom(pours + [row], device, boot, keg, calibration)
            == RecoveredFrom(pours, device, boot, keg, calibration)
               + (if row.device == device && row.boot == boot && row.sequence.None? && row.keg == keg && row.calibration == calibration
                  then row.pulses else 0)
  {
    assert (pours + [row])[..|pours|] == pours;
  }

  /** One booking: the rise over the checkpoint goes to the reading's own keg and calibration. */
  lemma BookOneAttributes(db: Db, device: string, boot: string, b: Booking, c: Context)
    requires BookOne(db, device, boot, b).Ok? && InTables(db, b.reading.context) && InTables(db, c)
    ensures var (n, r) := (BookOne(db, device, boot, b).value, b.reading);
            && r.value.Some? && PriorOf(db, device, boot).recovery <= r.value.value == PriorOf(n, device, boot).recovery
            && n.kegs == db.kegs && n.factors == db.factors
            && RecoveredFrom(n.pours, device, boot, c.keg, c.calibration)
               == RecoveredFrom(db.pours, device, boot, c.keg, c.calibration)
                  + (if r.context == c then r.value.value - PriorOf(db, device, boot).recovery else 0)
  {
    var (n, r) := (BookOne(db, device, boot, b).value, b.reading);
    RecoveryPour(db, device, boot, r.value.value, b.accepted, b.uptime, r.context.keg, r.context.calibration, r.context.captured);
    SettingsStay(db, device, boot, r.value.value, b.accepted, b.uptime, r.context.keg, r.context.calibration, r.context.captured);
    hide CheckpointRecovery, Measures;
    if r.value.value > PriorOf(db, device, boot).recovery {
      assert n.pours == db.pours + [n.pours[|db.pours|]];
      RecoveredPush(db.pours, n.pours[|db.pours|], device, boot, c.keg, c.calibration);
    }
  }

  lemma SettingsStay(db: Db, device: string, boot: string, recovery: int, accepted: int, uptime: int,
                     keg: Option<string>, calibration: Option<string>, captured: bool)
    requires CheckpointRecovery(db, device, boot, recovery, accepted, uptime, keg, calibration, captured).Ok?
    ensures var n := CheckpointRecovery(db, device, boot, recovery, accepted, uptime, keg, calibration, captured).value.0;
            n.kegs == db.kegs && n.factors == db.factors
  {
    hide CheckReading, Volume, Factor;
  }

  /** Every booking: each context's pulses are poured from its own keg under its own calibration. */
  lemma {:induction false} BookingsAttribute(db: Db, device: string, boot: string, bs: seq<Booking>, c: Context)
    requires BookAll(db, device, boot, bs).Ok? && InTables(db, c)
    requires forall i :: 0 <= i < |bs| ==> InTables(db, bs[i].reading.context)
    ensures var (n, level) := (BookAll(db, device, boot, bs).value, PriorOf(db, device, boot).recovery);
            && PriorOf(n, device, boot).recovery == Level(level, ReadingsIn(bs))
            && n.kegs == db.kegs && n.factors == db.factors
            && RecoveredFrom(n.pours, device, boot, c.keg, c.calibration)
               == RecoveredFrom(db.pours, device, boot, c.keg, c.calibration) + Share(level, ReadingsIn(bs), c)
    decreases |bs|
  {
    hide BookOne, RecoveredFrom, PriorOf;
    if bs != [] {
      var n := |bs| - 1;
      BookingsAttribute(db, device, boot, bs[..n], c);
      assert ReadingsIn(bs)[..n] == ReadingsIn(bs[..n]);
      BookOneAttributes(BookAll(db, device, boot, bs[..n]).value, device, boot, bs[n], c);
    }
  }

  /** The whole way: readings observed in any run of the retry queue that has
      emptied, no context coming back after another one counted, committed to
      tables that know nothing of the boot yet, are poured context by context as
      if each had been committed the moment it was observed. */
  lemma ObservedIsPoured(ps: seq<CounterRuns.PassInput>, db: Db, device: string, boot: string, bs: seq<Booking>, c: Context)
    requires Attribution.Rising(CounterRuns.Observed(ps)) && StreamRuns.Grouped(StreamRuns.Rises(0, CounterRuns.Observed(ps)))
    requires var s := CounterRuns.Run(CounterRuns.NEW_STREAM, ps); s.queue == [] && s.commits == ReadingsIn(bs)
    requires BookAll(db, device, boot, bs).Ok? && (device, boot) !in db.checkpoints && InTables(db, c)
    requires forall i :: 0 <= i < |bs| ==> InTables(db, bs[i].reading.context)
    ensures RecoveredFrom(BookAll(db, device, boot, bs).value.pours, device, boot, c.keg, c.calibration)
            == RecoveredFrom(db.pours, device, boot, c.keg, c.calibration) + Share(0, CounterRuns.Observed(ps), c)
  {
    hide Attribution.Rising, StreamRuns.Grouped, StreamRuns.Rises, CounterRuns.Run, BookAll, RecoveredFrom, Share, InTables;
    StreamRuns.GroupedIsTransparent(ps, c);
    BookingsAttribute(db, device, boot, bs, c);
    var s := CounterRuns.Run(CounterRuns.NEW_STREAM, ps);
    assert s.commits + Readings(s.queue) == s.commits;
  }
}
