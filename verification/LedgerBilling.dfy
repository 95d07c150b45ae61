/** What a commit does to people's money and to the pours, said in numbers: which
    results are taken, what the new pour holds, and who pays how much for it. */
module LedgerBilling {
  import opened Common
  import opened PulseIntegrity
  import opened Ledger
  import opened LedgerRuns
  import opened LedgerTheorems

  /** The whole number nearest to an amount; a tie goes up. */
  predicate Nearest(cents: int, exact: real) {
    cents as real - 0.5 <= exact < cents as real + 0.5
  }

  /** One person pays for one pour, and nothing else about money changes. */
  predicate Billed(db: Db, n: Db, person: Person, pour: PourId, cents: int) {
    && person in db.balances && cents > 0
    && n.balances == db.balances[person := db.balances[person] - cents]
    && n.ledger == db.ledger + [Entry(person, -cents, ChargeEntry, Some(pour), db.balances[person] - cents)]
    && n.charges == db.charges[pour := Charge(person, cents)]
  }

  predicate NobodyPays(db: Db, n: Db) {
    n.balances == db.balances && n.ledger == db.ledger && n.charges == db.charges
  }

  /** Fluid ounces at so many cents each. */
  function Worth(volumeMl: real, rate: real): real {
    volumeMl / 29.5735295625 * rate
  }

  /** What a pour of this volume and person costs at the rate of these tables. */
  ghost predicate Paid(db: Db, n: Db, person: Option<Person>, volume: Option<real>, pour: PourId, cents: int) {
    && (if person.Some? && person.value in db.balances && volume.Some? && db.rate > 0.0
        then Nearest(cents, Worth(volume.value, db.rate)) else cents == 0)
    && (if cents > 0 then person.Some? && Billed(db, n, person.value, pour, cents) else NobodyPays(db, n))
  }

  lemma ChargePaid(db: Db, pour: PourId, person: Person, volume: real) returns (cents: int)
    ensures Paid(db, ChargePour(db, pour, person, volume), Some(person), Some(volume), pour, cents)
    ensures var n := ChargePour(db, pour, person, volume);
            n.pours == db.pours && n.results == db.results && n.audit == db.audit
  {
    hide RoundHalfUp;
    cents := if person in db.balances && db.rate > 0.0 then Price(volume, db.rate) else 0;
    PriceIsNearest(volume, db.rate);
  }

  /** The session a result names, if there is one. */
  function SessionOf(db: Db, r: Measured): Option<Binding> {
    if r.sid.Some? && r.sid.value in db.sessions then Some(db.sessions[r.sid.value]) else None
  }

  predicate OfCalibration(db: Db, r: Measured) {
    SessionOf(db, r).Some? && !SessionOf(db, r).value.forPour
  }

  predicate EmptyTimeOut(r: Measured) {
    r.status == TimedOutStatus && r.pulses == 0
  }

  /** The pour of a measurement: the session's person, keg and calibration; without
      a session what was captured, or else what is current; the volume by the
      calibration's factor, if it has one. */
  predicate PourOf(db: Db, r: Measured, keg: Option<string>, calibration: Option<string>, captured: bool, row: Pour) {
    var s := SessionOf(db, r);
    && row.device == r.device && row.boot == r.boot && row.sequence == Some(r.sequence) && row.sid == r.sid
    && row.pulses == r.pulses && row.attributed == r.attributed
    && row.person == (if s.Some? then s.value.person else None)
    && row.keg == (if s.Some? then s.value.keg else if captured || keg.Some? then keg else db.openKeg)
    && row.calibration == (if s.Some? then s.value.calibration
                           else if captured || calibration.Some? then calibration else db.activeCalibration)
    && Measures(db, row.calibration, r.pulses, row.volume)
    && (row.volume.None? ==> row.quality == NeedsReview)
    && (row.volume.Some? ==>
          row.quality == (if r.status == InterruptedStatus then Interrupted else if r.attributed then Complete else Unattributed))
  }

  predicate Measures(db: Db, calibration: Option<string>, pulses: nat, volume: Option<real>) {
    if calibration.Some? && calibration.value in db.factors && db.factors[calibration.value].Some? then
      var f := db.factors[calibration.value].value;
      f > 0.0 && volume == Some(pulses as real / f)
    else volume.None?
  }

  lemma InsertBills(db: Db, r: Measured, session: Option<Binding>, keg: Option<string>, calibration: Option<string>) returns (cents: int)
    requires InsertPour(db, r, session, keg, calibration).Ok?
    ensures var (n, pour) := (InsertPour(db, r, session, keg, calibration).value, |db.pours|);
            && |n.pours| == pour + 1 && n.pours[..pour] == db.pours
            && n.results == db.results + [ResultRow(r.device, r.boot, r.sequence, r.pulses, Some(pour))]
            && Measures(db, calibration, r.pulses, n.pours[pour].volume)
            && n.pours[pour] == Pour(r.device, r.boot, Some(r.sequence), r.sid, if session.Some? then session.value.person else None,
                                     keg, calibration, r.pulses, n.pours[pour].volume, r.attributed,
                                     if n.pours[pour].volume.None? then NeedsReview
                                     else if r.status == InterruptedStatus then Interrupted
                                     else if r.attributed then Complete else Unattributed)
            && Paid(db, n, n.pours[pour].person, n.pours[pour].volume, pour, cents)
  {
    hide Insertable, ChargePour;
    var n := InsertPour(db, r, session, keg, calibration).value;
    var volume := Volume(r.pulses, Factor(db, calibration)).value;
    var quality := if Factor(db, calibration).None? then NeedsReview
                   else if r.status == InterruptedStatus then Interrupted
                   else if !r.attributed then Unattributed else Complete;
    var person := if session.Some? then session.value.person else None;
    var pour := |db.pours|;
    var row := Pour(r.device, r.boot, Some(r.sequence), r.sid, person, keg, calibration, r.pulses, volume, r.attributed, quality);
    var inserted := db.(pours := db.pours + [row], results := db.results + [ResultRowOf(r, Some(pour))]);
    cents := 0;
    if person.Some? && volume.Some? {
      cents := ChargePaid(inserted, pour, person.value, volume.value);
      PaidFrom(db, inserted, n, person, volume, pour, cents);
    }
    hide Paid;
    MeasuresIs(db, calibration, r.pulses);
  }

  lemma MeasuresIs(db: Db, calibration: Option<string>, pulses: nat)
    ensures var v := Volume(pulses, Factor(db, calibration)); v.Ok? ==> Measures(db, calibration, pulses, v.value)
  {
  }

  /** Adding rows first changes nothing about who pays what. */
  lemma PaidFrom(db: Db, inserted: Db, n: Db, person: Option<Person>, volume: Option<real>, pour: PourId, cents: int)
    requires Paid(inserted, n, person, volume, pour, cents)
    requires inserted.balances == db.balances && inserted.ledger == db.ledger && inserted.charges == db.charges && inserted.rate == db.rate
    ensures Paid(db, n, person, volume, pour, cents)
  {
    hide Nearest, Worth;
  }

  /** Every fresh pour: one row and one result more, and its person pays the whole
      cents nearest to its volume at the going rate, and nobody else anything. */
  lemma PourCommitted(db: Db, r: Measured, keg: Option<string>, calibration: Option<string>, captured: bool) returns (cents: int)
    requires var f := FinalizeResult(db, r, keg, calibration, captured); f.Ok? && !f.value.1
    requires !OfCalibration(db, r) && !EmptyTimeOut(r)
    ensures var (n, pour) := (FinalizeResult(db, r, keg, calibration, captured).value.0, |db.pours|);
            && |n.pours| == pour + 1 && n.pours[..pour] == db.pours && PourOf(db, r, keg, calibration, captured, n.pours[pour])
            && n.results == db.results + [ResultRow(r.device, r.boot, r.sequence, r.pulses, Some(pour))]
            && Paid(db, n, n.pours[pour].person, n.pours[pour].volume, pour, cents)
  {
    hide HasResult, Plausible, Bound, InsertPour, Paid, Measures;
    var s := SessionOf(db, r);
    cents := InsertBills(db, r, s,
                         if s.Some? then s.value.keg else if !captured && keg.None? then db.openKeg else keg,
                         if s.Some? then s.value.calibration else if !captured && calibration.None? then db.activeCalibration else calibration);
  }

  /** A result of a session of a known person, with a calibrated factor and a
      positive rate: their balance falls by exactly the whole cents nearest to
      pulses / factor / 29.5735295625 * rate. */
  lemma CommitBills(db: Db, r: Measured, keg: Option<string>, calibration: Option<string>, captured: bool,
                    p: Person, c: string, factor: real) returns (cents: nat)
    requires var f := FinalizeResult(db, r, keg, calibration, captured); f.Ok? && !f.value.1
    requires SessionOf(db, r).Some? && SessionOf(db, r).value.forPour && SessionOf(db, r).value.person == Some(p)
    requires SessionOf(db, r).value.calibration == Some(c) && c in db.factors && db.factors[c] == Some(factor)
    requires p in db.balances && db.rate > 0.0 && !EmptyTimeOut(r)
    ensures factor > 0.0 && Nearest(cents, r.pulses as real / factor / 29.5735295625 * db.rate)
    ensures var n := FinalizeResult(db, r, keg, calibration, captured).value.0;
            && n.balances == db.balances[p := db.balances[p] - cents]
            && |n.pours| == |db.pours| + 1
            && var pour := n.pours[|db.pours|];
            && pour.person == Some(p) && pour.keg == SessionOf(db, r).value.keg && pour.calibration == Some(c)
            && pour.volume == Some(r.pulses as real / factor)
  {
    hide FinalizeResult, SessionOf, Worth;
    var paid := PourCommitted(db, r, keg, calibration, captured);
    NonnegativeQuotient(r.pulses as real, factor);
    Nonnegative(r.pulses as real / factor, db.rate);
    WorthIs(r.pulses as real / factor, db.rate);
    cents := paid;
  }

  lemma NonnegativeQuotient(a: real, b: real)
    requires a >= 0.0 && b > 0.0
    ensures a / b >= 0.0
  {
  }

  lemma WorthIs(volume: real, rate: real)
    ensures Worth(volume, rate) == volume / 29.5735295625 * rate
  {
  }

  lemma Nonnegative(volume: real, rate: real)
    requires volume >= 0.0 && rate > 0.0
    ensures Worth(volume, rate) >= 0.0
  {
    NonnegativeQuotient(volume, 29.5735295625);
    NonnegativeProduct(volume / 29.5735295625, rate);
  }

  lemma NonnegativeProduct(a: real, b: real)
    requires a >= 0.0 && b >= 0.0
    ensures a * b >= 0.0
  {
  }

  /** A calibration session's result and an empty time-out add a result row alone:
      no pour and no charge. */
  lemma RowOnly(db: Db, r: Measured, keg: Option<string>, calibration: Option<string>, captured: bool)
    requires var f := FinalizeResult(db, r, keg, calibration, captured); f.Ok? && !f.value.1
    requires OfCalibration(db, r) || EmptyTimeOut(r)
    ensures FinalizeResult(db, r, keg, calibration, captured).value.0
            == db.(results := db.results + [ResultRow(r.device, r.boot, r.sequence, r.pulses, None)])
  {
    hide HasResult, Plausible, Bound, InsertPour;
  }

  /** Nobody pays for a pour without a session: what the board could not attribute. */
  lemma UnattributedIsFree(db: Db, r: Measured, keg: Option<string>, calibration: Option<string>, captured: bool)
    requires FinalizeResult(db, r, keg, calibration, captured).Ok? && SessionOf(db, r).None?
    ensures NobodyPays(db, FinalizeResult(db, r, keg, calibration, captured).value.0)
  {
    hide FinalizeResult, SessionOf;
    FinalizeGrows(db, r, keg, calibration, captured);
    if !FinalizeResult(db, r, keg, calibration, captured).value.1 {
      if EmptyTimeOut(r) {
        RowOnly(db, r, keg, calibration, captured);
      } else {
        var cents := PourCommitted(db, r, keg, calibration, captured);
      }
    }
  }

  /** 1000 pulses at 10 a millilitre and 100 cents an ounce: 338 cents. */
  lemma BillExample(db: Db, r: Measured, p: Person, c: string)
    requires var f := FinalizeResult(db, r, None, None, true); f.Ok? && !f.value.1
    requires SessionOf(db, r).Some? && SessionOf(db, r).value.forPour && SessionOf(db, r).value.person == Some(p)
    requires SessionOf(db, r).value.calibration == Some(c) && c in db.factors && db.factors[c] == Some(10.0)
    requires p in db.balances && db.rate == 100.0 && r.status == CompleteStatus && r.pulses == 1000
    ensures FinalizeResult(db, r, None, None, true).value.0.balances == db.balances[p := db.balances[p] - 338]
  {
    hide FinalizeResult, SessionOf;
    var cents := CommitBills(db, r, None, None, true, p, c, 10.0);
    assert r.pulses as real / 10.0 == 100.0;
  }

  // ---- which measurements are taken ----

  predicate Measurable(r: Measured) {
    && r.startedMs < 0x1_0000_0000 && r.endedMs < 0x1_0000_0000
    && var duration := (r.endedMs - r.startedMs) % 0x1_0000_0000;
    duration < 0x8000_0000 && WithinRate(r.pulses, duration)
  }

  predicate BoundToEvent(db: Db, r: Measured) {
    var s := SessionOf(db, r);
    s.Some? && s.value.device == r.device && s.value.boot == r.boot && s.value.sequence == r.sequence
  }

  /** A result outside the envelope is refused, an attributed one whose session is
      not bound to that very event is a conflict, and nothing else about it can
      stop a result that is already there, of a calibration session or empty. */
  lemma ResultTaken(db: Db, r: Measured, keg: Option<string>, calibration: Option<string>, captured: bool)
    ensures var f := FinalizeResult(db, r, keg, calibration, captured);
            && (f == Err(Refused) <==> !Measurable(r))
            && (Measurable(r) && r.attributed && !BoundToEvent(db, r) ==> f == Err(Conflict))
            && ((Measurable(r) && (r.attributed ==> BoundToEvent(db, r))
                 && (HasResult(db.results, r.device, r.boot, r.sequence) || OfCalibration(db, r) || EmptyTimeOut(r))) ==> f.Ok?)
            && (f.Ok? ==> (f.value.1 <==> HasResult(db.results, r.device, r.boot, r.sequence)))
  {
    hide HasResult, InsertPour, Plausible, WithinRate;
    var elapsed := ElapsedU32(r.startedMs, r.endedMs);
    if elapsed.Ok? {
      PlausibleInNumbers(r.pulses, elapsed.value);
    }
    if !HasResult(db.results, r.device, r.boot, r.sequence) {
      var s := SessionOf(db, r);
      InsertFailure(db, r, s,
                    if s.Some? then s.value.keg else if !captured && keg.None? then db.openKeg else keg,
                    if s.Some? then s.value.calibration else if !captured && calibration.None? then db.activeCalibration else calibration);
    }
  }

  lemma InsertFailure(db: Db, r: Measured, session: Option<Binding>, keg: Option<string>, calibration: Option<string>)
    ensures InsertPour(db, r, session, keg, calibration) != Err(Refused)
  {
    hide Insertable, ChargePour;
  }

  // ---- recovery readings ----

  function PriorOf(db: Db, device: string, boot: string): Checkpoint {
    if (device, boot) in db.checkpoints then db.checkpoints[(device, boot)] else Checkpoint(0, 0, 0, None)
  }

  /** A cumulative reading is taken if and only if it is in range, goes back on
      neither counter, claims no more recovery than edges since the checkpoint,
      comes less than half a turn of the clock after it, and is inside the envelope. */
  lemma ReadingTakenExactly(db: Db, device: string, boot: string, recovery: int, accepted: int, uptime: int)
    ensures var seen := (device, boot) in db.checkpoints;
            var prior := PriorOf(db, device, boot);
            var elapsed := if seen then (uptime - prior.uptime) % 0x1_0000_0000 else uptime;
            CheckReading(db, device, boot, recovery, accepted, uptime).None? <==>
              && 1 <= |device| <= 64 && 1 <= |boot| <= 64
              && prior.recovery <= recovery <= accepted < 0x1_0000_0000_0000_0000 && prior.accepted <= accepted
              && recovery - prior.recovery <= accepted - prior.accepted
              && 0 <= uptime < 0x1_0000_0000 && (seen ==> elapsed < 0x8000_0000)
              && WithinRate(recovery - prior.recovery, elapsed)
  {
    hide Plausible, WithinRate;
    var prior := PriorOf(db, device, boot);
    if prior.recovery <= recovery && 0 <= uptime < 0x1_0000_0000 {
      PlausibleInNumbers(recovery - prior.recovery,
                         if (device, boot) in db.checkpoints then Wrap(uptime - prior.uptime) else uptime);
    }
  }

  /** The keg or calibration named, if the tables know it; the current one when
      nothing was captured. */
  function Captured(named: Option<string>, known: bool, current: Option<string>, captured: bool): Option<string> {
    if !captured then current else if named.Some? && known then named else None
  }

  /** Nobody's pour of a recovery counter. */
  predicate RecoveredPour(db: Db, device: string, boot: string, pulses: int, keg: Option<string>, calibration: Option<string>, row: Pour) {
    && row.device == device && row.boot == boot && row.sequence.None? && row.sid.None? && row.person.None?
    && row.pulses == pulses && !row.attributed && row.quality == EstimatedRecovered
    && row.keg == keg && row.calibration == calibration && Measures(db, calibration, row.pulses, row.volume)
  }

  /** Only this boot's checkpoint moves, to this reading. */
  predicate Checkpointed(db: Db, n: Db, k: (string, string), recovery: int, accepted: int, uptime: int) {
    && n.checkpoints.Keys == db.checkpoints.Keys + {k}
    && n.checkpoints[k].recovery == recovery && n.checkpoints[k].accepted == accepted && n.checkpoints[k].uptime == uptime
    && forall j :: j in db.checkpoints && j != k ==> n.checkpoints[j] == db.checkpoints[j]
  }

  lemma CheckpointOnly(db: Db, k: (string, string), reading: Checkpoint)
    ensures Checkpointed(db, db.(checkpoints := db.checkpoints[k := reading]), k, reading.recovery, reading.accepted, reading.uptime)
  {
  }

  lemma MaterializeIs(db: Db, device: string, boot: string, delta: nat, reading: Checkpoint, keg: Option<string>, calibration: Option<string>)
    requires Materialize(db, device, boot, delta, reading, keg, calibration).Ok?
    ensures var n := Materialize(db, device, boot, delta, reading, keg, calibration).value;
            && NobodyPays(db, n) && n.results == db.results
            && Checkpointed(db, n, (device, boot), reading.recovery, reading.accepted, reading.uptime)
            && |n.pours| == |db.pours| + 1 && n.pours[..|db.pours|] == db.pours
            && RecoveredPour(db, device, boot, delta, keg, calibration, n.pours[|db.pours|])
  {
  }

  /** A reading with more recovery than the checkpoint adds one pour: nobody's, of
      just the difference, with the keg and calibration captured with it, its
      volume by that calibration's factor; money and results stay as they were. */
  lemma RecoveryPour(db: Db, device: string, boot: string, recovery: int, accepted: int, uptime: int,
                     keg: Option<string>, calibration: Option<string>, captured: bool)
    requires CheckpointRecovery(db, device, boot, recovery, accepted, uptime, keg, calibration, captured).Ok?
    ensures var (n, same) := CheckpointRecovery(db, device, boot, recovery, accepted, uptime, keg, calibration, captured).value;
            && NobodyPays(db, n) && n.results == db.results
            && Checkpointed(db, n, (device, boot), recovery, accepted, uptime)
            && PriorOf(db, device, boot).recovery <= recovery && (same <==> recovery == PriorOf(db, device, boot).recovery)
            && (same ==> n.pours == db.pours)
            && (!same ==>
                  && |n.pours| == |db.pours| + 1 && n.pours[..|db.pours|] == db.pours
                  && RecoveredPour(db, device, boot, recovery - PriorOf(db, device, boot).recovery,
                                   Captured(keg, keg.Some? && keg.value in db.kegs, db.openKeg, captured),
                                   Captured(calibration, calibration.Some? && calibration.value in db.factors, db.activeCalibration, captured),
                                   n.pours[|db.pours|]))
  {
    CheckedNonnegative(db, device, boot, recovery, accepted, uptime);
    hide CheckReading, Materialize, RecoveredPour, Volume, Factor, Checkpointed;
    var prior := PriorOf(db, device, boot);
    if recovery == prior.recovery {
      CheckpointOnly(db, (device, boot), Checkpoint(recovery, accepted, uptime, prior.lastPour));
    } else {
      MaterializeIs(db, device, boot, recovery - prior.recovery, Checkpoint(recovery, accepted, uptime, prior.lastPour),
                    Captured(keg, keg.Some? && keg.value in db.kegs, db.openKeg, captured),
                    Captured(calibration, calibration.Some? && calibration.value in db.factors, db.activeCalibration, captured));
    }
  }

  // ---- adjustments and reassignments ----

  /** Money is paid in by whole cents, a reason and a known person, at most a
      hundred thousand dollars at a time, and reaches that person alone. */
  lemma AdjustmentBooked(db: Db, person: Person, cents: int, reason: string)
    ensures var a := Adjust(db, person, cents, reason);
            && (a.Ok? <==> cents != 0 && -10000000 <= cents <= 10000000 && 1 <= |reason| <= 500 && person in db.balances)
            && (a.Ok? ==>
                  && a.value.balances == db.balances[person := db.balances[person] + cents]
                  && a.value.ledger == db.ledger + [Entry(person, cents, Adjustment, None, db.balances[person] + cents)]
                  && a.value.charges == db.charges && a.value.pours == db.pours)
  {
  }

  /** Giving a pour that was never charged to a person makes them pay for it. */
  lemma ReassignBills(db: Db, pour: PourId, person: Person, reason: string) returns (cents: int)
    requires Reassign(db, pour, person, reason).Ok? && pour !in db.charges
    ensures pour < |db.pours| && person in db.balances
    ensures var n := Reassign(db, pour, person, reason).value;
            && Paid(db, n, Some(person), db.pours[pour].volume, pour, cents)
            && n.pours == db.pours[pour := db.pours[pour].(person := Some(person), attributed := true)]
  {
    hide ChargePour;
    var row := db.pours[pour];
    var moved := db.(audit := db.audit + [AuditRow(pour, row.person, person, reason)],
                     pours := db.pours[pour := row.(person := Some(person), attributed := true)]);
    cents := 0;
    if row.volume.Some? {
      cents := ChargePaid(moved, pour, person, row.volume.value);
    }
  }

  // ---- over runs ----

  /** The same measurement, whoever it now belongs to. */
  predicate SameMeasurement(a: Pour, b: Pour) {
    b == a.(person := b.person, attributed := b.attributed)
  }

  ghost predicate Lasting(db: Db, n: Db) {
    && |db.pours| <= |n.pours| && (forall i :: 0 <= i < |db.pours| ==> SameMeasurement(db.pours[i], n.pours[i]))
    && (forall i :: i in db.charges ==> i in n.charges && n.charges[i].amount == db.charges[i].amount)
    && (forall k :: k in db.checkpoints ==> k in n.checkpoints && Advanced(db.checkpoints[k], n.checkpoints[k]))
  }

  predicate Advanced(a: Checkpoint, b: Checkpoint) {
    a.recovery <= b.recovery && a.accepted <= b.accepted && b.recovery - a.recovery <= b.accepted - a.accepted
  }

  lemma LastingSelf(db: Db)
    ensures Lasting(db, db)
  {
  }

  lemma LastingTrans(a: Db, b: Db, c: Db)
    requires Lasting(a, b) && Lasting(b, c)
    ensures Lasting(a, c)
  {
    forall i | 0 <= i < |a.pours| ensures SameMeasurement(a.pours[i], c.pours[i]) {
      assert SameMeasurement(a.pours[i], b.pours[i]) && SameMeasurement(b.pours[i], c.pours[i]);
    }
    forall k | k in a.checkpoints ensures k in c.checkpoints && Advanced(a.checkpoints[k], c.checkpoints[k]) {
      assert Advanced(a.checkpoints[k], b.checkpoints[k]);
    }
  }

  lemma ReassignLasts(db: Db, pour: PourId, person: Person, reason: string)
    requires Sound(db) && Reassign(db, pour, person, reason).Ok?
    ensures Lasting(db, Reassign(db, pour, person, reason).value)
  {
    hide Reconciled, Tied, Telescoped, Keyed, Settled, Price, SameMeasurement;
    var n := Reassign(db, pour, person, reason).value;
    forall i | 0 <= i < |db.pours| ensures SameMeasurement(db.pours[i], n.pours[i]) {
      SamePour(db.pours[i], person);
    }
  }

  lemma SamePour(row: Pour, person: Person)
    ensures SameMeasurement(row, row) && SameMeasurement(row, row.(person := Some(person), attributed := true))
  {
  }

  lemma FinalizeLasts(db: Db, r: Measured, keg: Option<string>, calibration: Option<string>, captured: bool)
    requires Sound(db) && FinalizeResult(db, r, keg, calibration, captured).Ok?
    ensures Lasting(db, FinalizeResult(db, r, keg, calibration, captured).value.0)
  {
    LastingSelf(db);
    NoChargeYet(db);
    FinalizeGrows(db, r, keg, calibration, captured);
    FinalizeKeepsCheckpoints(db, r, keg, calibration, captured);
    hide FinalizeResult, Sound, PourOf, OfCalibration, HasResult, Paid, SameMeasurement, Advanced;
    if !FinalizeResult(db, r, keg, calibration, captured).value.1 {
      if OfCalibration(db, r) || EmptyTimeOut(r) {
        RowOnly(db, r, keg, calibration, captured);
      } else {
        var cents := PourCommitted(db, r, keg, calibration, captured);
        var n := FinalizeResult(db, r, keg, calibration, captured).value.0;
        PoursLast(db.pours, n.pours);
        PaidLasts(db, n, n.pours[|db.pours|].person, n.pours[|db.pours|].volume, |db.pours|, cents);
        ChecksLast(db, n);
      }
    }
  }

  lemma PoursLast(pours: seq<Pour>, more: seq<Pour>)
    requires |pours| <= |more| && more[..|pours|] == pours
    ensures forall i :: 0 <= i < |pours| ==> SameMeasurement(pours[i], more[i])
  {
    assert forall i :: 0 <= i < |pours| ==> more[i] == more[..|pours|][i];
  }

  lemma PaidLasts(db: Db, n: Db, person: Option<Person>, volume: Option<real>, pour: PourId, cents: int)
    requires Paid(db, n, person, volume, pour, cents) && pour !in db.charges
    ensures forall i :: i in db.charges ==> i in n.charges && n.charges[i].amount == db.charges[i].amount
  {
    hide Nearest;
  }

  lemma ChecksLast(db: Db, n: Db)
    requires n.checkpoints == db.checkpoints
    ensures forall k :: k in db.checkpoints ==> k in n.checkpoints && Advanced(db.checkpoints[k], n.checkpoints[k])
  {
  }

  lemma NoChargeYet(db: Db)
    requires Sound(db)
    ensures |db.pours| !in db.charges
  {
  }

  lemma FinalizeKeepsCheckpoints(db: Db, r: Measured, keg: Option<string>, calibration: Option<string>, captured: bool)
    requires FinalizeResult(db, r, keg, calibration, captured).Ok?
    ensures FinalizeResult(db, r, keg, calibration, captured).value.0.checkpoints == db.checkpoints
  {
    hide HasResult, Plausible, Bound, Insertable, Volume, Price;
  }

  lemma RecoveryLasts(db: Db, device: string, boot: string, recovery: int, accepted: int, uptime: int,
                      keg: Option<string>, calibration: Option<string>, captured: bool)
    requires CheckpointRecovery(db, device, boot, recovery, accepted, uptime, keg, calibration, captured).Ok?
    ensures Lasting(db, CheckpointRecovery(db, device, boot, recovery, accepted, uptime, keg, calibration, captured).value.0)
  {
    ReadingTakenExactly(db, device, boot, recovery, accepted, uptime);
    RecoveryPour(db, device, boot, recovery, accepted, uptime, keg, calibration, captured);
    hide CheckpointRecovery, WithinRate, Captured, RecoveredPour;
    var n := CheckpointRecovery(db, device, boot, recovery, accepted, uptime, keg, calibration, captured).value.0;
    assert n.pours[..|db.pours|] == db.pours;
    PoursLast(db.pours, n.pours);
  }

  lemma ApplyLasts(db: Db, tx: Tx)
    requires Sound(db)
    ensures Lasting(db, Apply(db, tx))
  {
    hide Sound, FinalizeResult, CheckpointRecovery, Reassign;
    LastingSelf(db);
    match tx {
      case ReassignTx(pour, person, reason) =>
        if Reassign(db, pour, person, reason).Ok? { ReassignLasts(db, pour, person, reason); }
      case FinalizeTx(r, keg, calibration, captured) =>
        if FinalizeResult(db, r, keg, calibration, captured).Ok? { FinalizeLasts(db, r, keg, calibration, captured); }
      case RecoveryTx(device, boot, recovery, accepted, uptime, keg, calibration, captured) =>
        if CheckpointRecovery(db, device, boot, recovery, accepted, uptime, keg, calibration, captured).Ok? {
          RecoveryLasts(db, device, boot, recovery, accepted, uptime, keg, calibration, captured);
        }
      case _ =>
    }
  }

  /** Whatever transactions follow, no pour loses or changes its measurement, keg,
      calibration or volume, no charge its amount, and no checkpoint goes back on
      either counter or gains more recovery than edges. */
  lemma {:induction false} RunLasts(db: Db, txs: seq<Tx>)
    requires Sound(db)
    ensures Lasting(db, Run(db, txs))
    decreases |txs|
  {
    hide Sound, Lasting, Apply;
    if txs == [] {
      LastingSelf(db);
    } else {
      ApplyLasts(db, txs[0]);
      ApplyKeeps(db, txs[0]);
      RunLasts(Apply(db, txs[0]), txs[1..]);
      LastingTrans(db, Apply(db, txs[0]), Run(db, txs));
    }
  }
}
