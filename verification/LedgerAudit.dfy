/** What the attribution audit says of who a pour belongs to. */
module LedgerAudit {
  import opened Common
  import opened PulseIntegrity
  import opened Ledger
  import opened LedgerRuns

  /** Who a pour was last given to by a reassignment, if it ever was. */
  function LastGiven(audit: seq<AuditRow>, pour: PourId): Option<Person> {
    if audit == [] then None
    else
      var last := audit[|audit| - 1];
      if last.pour == pour then Some(last.givenTo) else LastGiven(audit[..|audit| - 1], pour)
  }

  /** Every reassigned pour belongs to whoever the audit last gave it to, and each
      row takes a pour from whoever the row before gave it to. */
  ghost predicate Chained(db: Db) {
    && (forall pour :: 0 <= pour < |db.pours| && LastGiven(db.audit, pour).Some? ==> db.pours[pour].person == LastGiven(db.audit, pour))
    && (forall i :: 0 <= i < |db.audit| ==>
          db.audit[i].pour < |db.pours|
          && (LastGiven(db.audit[..i], db.audit[i].pour).Some? ==> db.audit[i].takenFrom == LastGiven(db.audit[..i], db.audit[i].pour)))
  }

  lemma {:induction false} GivenInRange(audit: seq<AuditRow>, bound: nat, pour: PourId)
    requires forall i :: 0 <= i < |audit| ==> audit[i].pour < bound
    ensures LastGiven(audit, pour).Some? ==> pour < bound
    decreases |audit|
  {
    if audit != [] {
      GivenInRange(audit[..|audit| - 1], bound, pour);
    }
  }

  lemma ChargeKeepsRows(db: Db, pour: PourId, person: Person, volume: real)
    ensures var n := ChargePour(db, pour, person, volume); n.pours == db.pours && n.audit == db.audit
  {
    hide Price;
  }

  lemma ReassignRows(db: Db, pour: PourId, person: Person, reason: string)
    requires Reassign(db, pour, person, reason).Ok?
    ensures var n := Reassign(db, pour, person, reason).value;
            && n.pours == db.pours[pour := db.pours[pour].(person := Some(person), attributed := true)]
            && n.audit == db.audit + [AuditRow(pour, db.pours[pour].person, person, reason)]
  {
    hide ChargePour;
    var row := db.pours[pour];
    var moved := db.(audit := db.audit + [AuditRow(pour, row.person, person, reason)],
                     pours := db.pours[pour := row.(person := Some(person), attributed := true)]);
    if row.volume.Some? {
      ChargeKeepsRows(moved, pour, person, row.volume.value);
    }
  }

  lemma ReassignChains(db: Db, pour: PourId, person: Person, reason: string)
    requires Chained(db) && Reassign(db, pour, person, reason).Ok?
    ensures Chained(Reassign(db, pour, person, reason).value)
  {
    ReassignRows(db, pour, person, reason);
    hide Reassign;
    var n := Reassign(db, pour, person, reason).value;
    assert n.audit[..|db.audit|] == db.audit;
    forall i | 0 <= i < |n.audit|
      ensures n.audit[i].pour < |n.pours|
      ensures LastGiven(n.audit[..i], n.audit[i].pour).Some? ==> n.audit[i].takenFrom == LastGiven(n.audit[..i], n.audit[i].pour)
    {
      if i < |db.audit| {
        assert n.audit[..i] == db.audit[..i] && n.audit[i] == db.audit[i];
      }
    }
  }

  /** Every other transaction leaves the audit alone and only appends pours. */
  lemma OthersKeepRows(db: Db, tx: Tx)
    requires !tx.ReassignTx?
    ensures var n := Apply(db, tx); db.pours <= n.pours && n.audit == db.audit
  {
    hide FinalizeResult, CheckpointRecovery;
    match tx {
      case FinalizeTx(r, keg, calibration, captured) =>
        if FinalizeResult(db, r, keg, calibration, captured).Ok? { FinalizeRows(db, r, keg, calibration, captured); }
      case RecoveryTx(device, boot, recovery, accepted, uptime, keg, calibration, captured) =>
        if CheckpointRecovery(db, device, boot, recovery, accepted, uptime, keg, calibration, captured).Ok? {
          RecoveryRows(db, device, boot, recovery, accepted, uptime, keg, calibration, captured);
        }
      case _ =>
    }
  }

  lemma InsertRows(db: Db, r: Measured, session: Option<Binding>, keg: Option<string>, calibration: Option<string>)
    requires InsertPour(db, r, session, keg, calibration).Ok?
    ensures var n := InsertPour(db, r, session, keg, calibration).value; db.pours <= n.pours && n.audit == db.audit
  {
    hide Insertable, Volume, Factor, ChargePour;
    var factor := Factor(db, calibration);
    var volume := Volume(r.pulses, factor).value;
    var n := InsertPour(db, r, session, keg, calibration).value;
    var person := if session.Some? then session.value.person else None;
    var quality := if factor.None? then NeedsReview
                   else if r.status == InterruptedStatus then Interrupted
                   else if !r.attributed then Unattributed else Complete;
    var inserted := db.(pours := db.pours + [Pour(r.device, r.boot, Some(r.sequence), r.sid, person, keg, calibration, r.pulses, volume, r.attributed, quality)],
                        results := db.results + [ResultRowOf(r, Some(|db.pours|))]);
    if person.Some? && volume.Some? {
      ChargeKeepsRows(inserted, |db.pours|, person.value, volume.value);
    }
  }

  lemma FinalizeRows(db: Db, r: Measured, keg: Option<string>, calibration: Option<string>, captured: bool)
    requires FinalizeResult(db, r, keg, calibration, captured).Ok?
    ensures var n := FinalizeResult(db, r, keg, calibration, captured).value.0; db.pours <= n.pours && n.audit == db.audit
  {
    hide HasResult, Bound, InsertPour, Plausible, ElapsedU32;
    var session := if r.sid.Some? && r.sid.value in db.sessions then Some(db.sessions[r.sid.value]) else None;
    var theKeg := if session.Some? then session.value.keg
                  else if !captured && keg.None? then db.openKeg else keg;
    var theCalibration := if session.Some? then session.value.calibration
                          else if !captured && calibration.None? then db.activeCalibration else calibration;
    if InsertPour(db, r, session, theKeg, theCalibration).Ok? {
      InsertRows(db, r, session, theKeg, theCalibration);
    }
  }

  lemma RecoveryRows(db: Db, device: string, boot: string, recovery: int, accepted: int, uptime: int,
                     keg: Option<string>, calibration: Option<string>, captured: bool)
    requires CheckpointRecovery(db, device, boot, recovery, accepted, uptime, keg, calibration, captured).Ok?
    ensures var n := CheckpointRecovery(db, device, boot, recovery, accepted, uptime, keg, calibration, captured).value.0;
            db.pours <= n.pours && n.audit == db.audit
  {
    hide CheckReading, Volume, Factor, Previous;
    CheckedNonnegative(db, device, boot, recovery, accepted, uptime);
  }

  lemma ApplyChains(db: Db, tx: Tx)
    requires Chained(db)
    ensures Chained(Apply(db, tx))
  {
    hide Chained, FinalizeResult, CheckpointRecovery, Reassign;
    match tx {
      case ReassignTx(pour, person, reason) =>
        if Reassign(db, pour, person, reason).Ok? { ReassignChains(db, pour, person, reason); }
      case _ =>
        hide Apply;
        OthersKeepRows(db, tx);
        GrowthChains(db, Apply(db, tx));
    }
  }

  lemma GrowthChains(db: Db, n: Db)
    requires Chained(db) && db.pours <= n.pours && n.audit == db.audit
    ensures Chained(n)
  {
    forall pour | 0 <= pour < |n.pours| && LastGiven(n.audit, pour).Some? ensures n.pours[pour].person == LastGiven(n.audit, pour) {
      GivenInRange(db.audit, |db.pours|, pour);
    }
  }

  lemma {:induction false} RunChains(db: Db, txs: seq<Tx>)
    requires Chained(db)
    ensures Chained(Run(db, txs))
    decreases |txs|
  {
    hide Chained, Apply;
    if txs != [] {
      ApplyChains(db, txs[0]);
      RunChains(Apply(db, txs[0]), txs[1..]);
    }
  }

  /** The audit is a complete history of reassignments: over every run of
      transactions, failed ones included, a pour belongs to whoever its last audit
      row gave it to, and every row took it from whoever the row before gave it to. */
  lemma AuditExplainsOwners(txs: seq<Tx>)
    ensures Chained(Run(NEW_DB, txs))
  {
    hide Run;
    NewChained();
    RunChains(NEW_DB, txs);
  }

  lemma NewChained()
    ensures Chained(NEW_DB)
  {
  }
}
