/** The repository object: each transaction updates the tables in place and is
    proved against its specification in Ledger, for failures as well. */
module RepositoryObject {
  import opened Common
  import opened PulseIntegrity
  import opened Ledger
  import opened LedgerRuns

  class Repository {
    var balances: map<Person, int>
    var ledger: seq<Entry>
    var pours: seq<Pour>
    var charges: map<PourId, Charge>
    var results: seq<ResultRow>
    var sessions: map<string, Binding>
    var checkpoints: map<(string, string), Checkpoint>
    var rate: real
    var kegs: set<string>
    var factors: map<string, Option<real>>
    var openKeg: Option<string>
    var activeCalibration: Option<string>
    var audit: seq<AuditRow>

    function Value(): Db
      reads this
    {
      Db(balances, ledger, pours, charges, results, sessions, checkpoints, rate, kegs, factors, openKeg, activeCalibration, audit)
    }

    constructor ()
      ensures Value() == NEW_DB && Sound(Value())
    {
      balances, ledger, pours, charges, results := map[], [], [], map[], [];
      sessions, checkpoints, rate, kegs, factors := map[], map[], 0.0, {}, map[];
      openKeg, activeCalibration, audit := None, None, [];
    }

    method PostEntry(person: Person, amount: int, kind: EntryKind, pour: Option<PourId>) returns (balance: int)
      requires person in balances
      modifies `balances, `ledger
      ensures Value() == Post(old(Value()), person, amount, kind, pour)
      ensures balance == balances[person]
    {
      balance := balances[person] + amount;
      balances := balances[person := balance];
      ledger := ledger + [Entry(person, amount, kind, pour, balance)];
    }

    method Charge(pour: PourId, person: Person, volumeMl: real)
      modifies `balances, `ledger, `charges
      ensures Value() == ChargePour(old(Value()), pour, person, volumeMl)
    {
      if rate <= 0.0 {
        return;
      }
      var amount := Price(volumeMl, rate);
      if amount <= 0 || person !in balances {
        return;
      }
      charges := charges[pour := Ledger.Charge(person, amount)];
      var _ := PostEntry(person, -amount, ChargeEntry, Some(pour));
    }

    method AdjustParticipantBalance(person: Person, cents: int, reason: string) returns (outcome: Result<int, Failure>)
      modifies this
      ensures var spec := Adjust(old(Value()), person, cents, reason);
              match outcome
              case Ok(balance) => spec == Ok(Value()) && balance == balances[person] == old(balances[person]) + cents
              case Err(e) => spec == Err(e) && Value() == old(Value())
      ensures old(Sound(Value())) ==> Sound(Value())
    {
      if cents == 0 || cents > 10_000_000 || cents < -10_000_000 {
        return Err(ValueError);
      }
      if !(1 <= |reason| <= 500) {
        return Err(ValueError);
      }
      if person !in balances {
        return Err(NotFound);
      }
      if Sound(Value()) {
        AdjustKeeps(Value(), person, cents);
      }
      var balance := PostEntry(person, cents, Adjustment, None);
      outcome := Ok(balance);
    }

    method ReassignPour(pour: PourId, person: Person, reason: string) returns (outcome: Result<(), Failure>)
      modifies this
      ensures var spec := Reassign(old(Value()), pour, person, reason);
              match outcome
              case Ok(_) => spec == Ok(Value())
              case Err(e) => spec == Err(e) && Value() == old(Value())
      ensures old(Sound(Value())) ==> Sound(Value())
    {
      hide Sound, MoveCharge;
      if !(1 <= |reason| <= 500) {
        return Err(ValueError);
      }
      if pour >= |pours| || person !in balances {
        return Err(NotFound);
      }
      if Sound(Value()) {
        ReassignKeeps(Value(), pour, person, reason);
      }
      var row := pours[pour];
      audit := audit + [AuditRow(pour, row.person, person, reason)];
      pours := pours[pour := row.(person := Some(person), attributed := true)];
      MoveOrMakeCharge(pour, row.person, row.volume, person);
      outcome := Ok(());
    }

    method MoveOrMakeCharge(pour: PourId, owner: Option<Person>, volume: Option<real>, person: Person)
      requires person in balances
      modifies `balances, `ledger, `charges
      ensures Value() == MoveCharge(old(Value()), pour, owner, volume, person)
    {
      hide Price;
      if pour in charges && owner != Some(person) {
        var amount: int := charges[pour].amount;
        if owner.Some? && owner.value in balances {
          var _ := PostEntry(owner.value, amount, Refund, Some(pour));
        }
        var _ := PostEntry(person, -amount, ChargeEntry, Some(pour));
        charges := charges[pour := Ledger.Charge(person, amount)];
      } else if pour !in charges && volume.Some? {
        Charge(pour, person, volume.value);
      }
    }

    /** Inserts the pour and its result row, and charges for it. */
    method InsertMeasuredPour(r: Measured, session: Option<Binding>, keg: Option<string>, calibration: Option<string>)
      returns (outcome: Result<(), Failure>)
      modifies this
      ensures var spec := InsertPour(old(Value()), r, session, keg, calibration);
              match outcome
              case Ok(_) => spec == Ok(Value())
              case Err(e) => spec == Err(e) && Value() == old(Value())
    {
      hide Insertable, Price;
      var factor := if calibration.Some? && calibration.value in factors then factors[calibration.value] else None;
      var volume := Volume(r.pulses, factor);
      if volume.Err? {
        return Err(volume.error);
      }
      if !Insertable(Value(), r, keg, calibration) {
        return Err(Conflict);
      }
      var quality := Complete;
      if factor.None? {
        quality := NeedsReview;
      } else if r.status == InterruptedStatus {
        quality := Interrupted;
      } else if !r.attributed {
        quality := Unattributed;
      }
      var person := if session.Some? then session.value.person else None;
      var pour := |pours|;
      pours := pours + [Pour(r.device, r.boot, Some(r.sequence), r.sid, person, keg, calibration, r.pulses, volume.value, r.attributed, quality)];
      results := results + [ResultRowOf(r, Some(pour))];
      if person.Some? && volume.value.Some? {
        Charge(pour, person.value, volume.value.value);
      }
      outcome := Ok(());
    }

    method FinalizeDeviceResult(r: Measured, keg: Option<string>, calibration: Option<string>, captured: bool)
      returns (outcome: Result<bool, Failure>)
      modifies this
      ensures var spec := FinalizeResult(old(Value()), r, keg, calibration, captured);
              match outcome
              case Ok(duplicate) => spec == Ok((Value(), duplicate))
              case Err(e) => spec == Err(e) && Value() == old(Value())
      ensures old(Sound(Value())) ==> Sound(Value())
    {
      hide Sound, HasResult, Plausible, InsertPour, Bound, ElapsedU32, ResultRowOf;
      if Sound(Value()) && FinalizeResult(Value(), r, keg, calibration, captured).Ok? {
        FinalizeKeeps(Value(), r, keg, calibration, captured);
      }
      var elapsed := ElapsedU32(r.startedMs, r.endedMs);
      if elapsed.Err? || !Plausible(r.pulses, elapsed.value) {
        return Err(Refused);
      }
      if r.attributed && !Bound(Value(), r) {
        return Err(Conflict);
      }
      if HasResult(results, r.device, r.boot, r.sequence) {
        return Ok(true);
      }
      var session := None;
      if r.sid.Some? && r.sid.value in sessions {
        session := Some(sessions[r.sid.value]);
      }
      if session.Some? && !session.value.forPour {
        results := results + [ResultRowOf(r, None)];
        return Ok(false);
      }
      if r.status == TimedOutStatus && r.pulses == 0 {
        results := results + [ResultRowOf(r, None)];
        return Ok(false);
      }
      var theKeg, theCalibration := keg, calibration;
      if session.Some? {
        theKeg, theCalibration := session.value.keg, session.value.calibration;
      } else if !captured {
        theKeg := if keg.None? then openKeg else keg;
        theCalibration := if calibration.None? then activeCalibration else calibration;
      }
      var inserted := InsertMeasuredPour(r, session, theKeg, theCalibration);
      if inserted.Err? {
        return Err(inserted.error);
      }
      outcome := Ok(false);
    }

    /** Inserts the recovery pour and moves the checkpoint over it. */
    method MaterializeRecovery(device: string, boot: string, delta: nat, reading: Checkpoint, keg: Option<string>, calibration: Option<string>)
      returns (outcome: Result<(), Failure>)
      modifies this
      ensures var spec := Materialize(old(Value()), device, boot, delta, reading, keg, calibration);
              match outcome
              case Ok(_) => spec == Ok(Value())
              case Err(e) => spec == Err(e) && Value() == old(Value())
    {
      var factor := if calibration.Some? && calibration.value in factors then factors[calibration.value] else None;
      var volume := Volume(delta, factor);
      if volume.Err? {
        return Err(volume.error);
      }
      var pour := |pours|;
      pours := pours + [Pour(device, boot, None, None, None, keg, calibration, delta, volume.value, false, EstimatedRecovered)];
      checkpoints := checkpoints[(device, boot) := reading.(lastPour := Some(pour))];
      outcome := Ok(());
    }

    method CheckpointRecoveryPulses(device: string, boot: string, recovery: int, accepted: int, uptime: int,
                                    keg: Option<string>, calibration: Option<string>, captured: bool)
      returns (outcome: Result<bool, Failure>)
      modifies this
      ensures var spec := CheckpointRecovery(old(Value()), device, boot, recovery, accepted, uptime, keg, calibration, captured);
              match outcome
              case Ok(duplicate) => spec == Ok((Value(), duplicate))
              case Err(e) => spec == Err(e) && Value() == old(Value())
      ensures old(Sound(Value())) ==> Sound(Value())
    {
      hide Sound, CheckReading, Previous, Materialize;
      var failure := CheckReading(Value(), device, boot, recovery, accepted, uptime);
      if failure.Some? {
        return Err(failure.value);
      }
      if Sound(Value()) && CheckpointRecovery(Value(), device, boot, recovery, accepted, uptime, keg, calibration, captured).Ok? {
        CheckpointKeeps(Value(), device, boot, recovery, accepted, uptime, keg, calibration, captured);
      }
      CheckedNonnegative(Value(), device, boot, recovery, accepted, uptime);
      var prior := Previous(Value(), device, boot);
      var reading := Checkpoint(recovery, accepted, uptime, prior.lastPour);
      if recovery == prior.recovery {
        checkpoints := checkpoints[(device, boot) := reading];
        return Ok(true);
      }
      var theKeg, theCalibration := openKeg, activeCalibration;
      if captured {
        theKeg := if keg.Some? && keg.value in kegs then keg else None;
        theCalibration := if calibration.Some? && calibration.value in factors then calibration else None;
      }
      var stored := MaterializeRecovery(device, boot, recovery - prior.recovery, reading, theKeg, theCalibration);
      if stored.Err? {
        return Err(stored.error);
      }
      outcome := Ok(false);
    }
  }
}
