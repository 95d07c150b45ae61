/** What every transaction, and so every run of the repository, keeps. */
module LedgerRuns {
  import opened Common
  import opened PulseIntegrity
  import opened Ledger

  // ---- one ledger entry at a time ----

  lemma BalanceAppend(ledger: seq<Entry>, e: Entry, p: Person)
    ensures Balance(ledger + [e], p) == Balance(ledger, p) + (if e.person == p then e.amount else 0)
  {
    assert (ledger + [e])[..|ledger|] == ledger;
  }

  lemma NetAppend(ledger: seq<Entry>, e: Entry, pour: PourId, p: Person)
    ensures Net(ledger + [e], pour, p) == Net(ledger, pour, p) + (if e.person == p && e.pour == Some(pour) then e.amount else 0)
  {
    assert (ledger + [e])[..|ledger|] == ledger;
  }

  lemma PostReconciles(db: Db, person: Person, amount: int, kind: EntryKind, pour: Option<PourId>)
    requires Reconciled(db) && person in db.balances
    ensures Reconciled(Post(db, person, amount, kind, pour))
  {
    var n := Post(db, person, amount, kind, pour);
    var e := n.ledger[|db.ledger|];
    forall p ensures Balance(n.ledger, p) == Balance(db.ledger, p) + (if person == p then amount else 0) {
      BalanceAppend(db.ledger, e, p);
    }
    forall i | 0 <= i < |n.ledger| ensures n.ledger[i].balanceAfter == Balance(n.ledger[..i + 1], n.ledger[i].person) {
      if i < |db.ledger| {
        assert n.ledger[..i + 1] == db.ledger[..i + 1];
      } else {
        assert n.ledger[..i + 1] == n.ledger;
      }
    }
  }

  /** Charging a pour that has no charge yet, to the person it belongs to. */
  lemma ChargeSettles(db: Db, pour: PourId, person: Person, amount: nat)
    requires Settled(db) && Tied(db) && person in db.balances && pour !in db.charges
    requires pour < |db.pours| && db.pours[pour].person == Some(person)
    ensures var n := Post(db, person, -(amount as int), ChargeEntry, Some(pour)).(charges := db.charges[pour := Charge(person, amount)]);
            Settled(n) && Tied(n)
  {
    var n := Post(db, person, -(amount as int), ChargeEntry, Some(pour)).(charges := db.charges[pour := Charge(person, amount)]);
    forall q, p ensures Net(n.ledger, q, p) == Owed(n.charges, q, p) {
      NetAppend(db.ledger, n.ledger[|db.ledger|], q, p);
      assert Net(db.ledger, q, p) == Owed(db.charges, q, p);
    }
  }

  lemma ChargePourKeeps(db: Db, pour: PourId, person: Person, volume: real)
    requires Sound(db) && pour !in db.charges && pour < |db.pours| && db.pours[pour].person == Some(person)
    ensures Sound(ChargePour(db, pour, person, volume))
  {
    hide Settled, Reconciled, Tied, Price;
    var amount := Price(volume, db.rate);
    if !(db.rate <= 0.0 || amount <= 0 || person !in db.balances) {
      PostReconciles(db, person, -amount, ChargeEntry, Some(pour));
      ChargeSettles(db, pour, person, amount);
      var posted := Post(db, person, -amount, ChargeEntry, Some(pour));
      ReconciledFrame(posted, posted.(charges := db.charges[pour := Charge(person, amount)]));
    }
  }

  lemma ReconciledFrame(db: Db, n: Db)
    requires Reconciled(db) && n.balances == db.balances && n.ledger == db.ledger
    ensures Reconciled(n)
  {
  }

  // ---- adjustments ----

  lemma AdjustSettles(db: Db, person: Person, cents: int)
    requires Settled(db) && Tied(db) && person in db.balances
    ensures var n := Post(db, person, cents, Adjustment, None); Settled(n) && Tied(n)
  {
    var n := Post(db, person, cents, Adjustment, None);
    forall q, p ensures Net(n.ledger, q, p) == Owed(n.charges, q, p) {
      NetAppend(db.ledger, n.ledger[|db.ledger|], q, p);
      assert Net(db.ledger, q, p) == Owed(db.charges, q, p);
    }
  }

  lemma AdjustKeeps(db: Db, person: Person, cents: int)
    requires Sound(db) && person in db.balances
    ensures Sound(Post(db, person, cents, Adjustment, None))
  {
    hide Settled, Reconciled, Tied;
    PostReconciles(db, person, cents, Adjustment, None);
    AdjustSettles(db, person, cents);
  }

  lemma AddPersonKeeps(db: Db, person: Person)
    requires Sound(db) && person !in db.balances
    ensures Sound(db.(balances := db.balances[person := 0]))
  {
  }

  // ---- reassignment ----

  lemma {:induction false} RecoveredUpdate(pours: seq<Pour>, i: nat, row: Pour, device: string, boot: string)
    requires i < |pours| && row.device == pours[i].device && row.boot == pours[i].boot
    requires row.sequence == pours[i].sequence && row.pulses == pours[i].pulses
    ensures Recovered(pours[i := row], device, boot) == Recovered(pours, device, boot)
  {
    var n := |pours| - 1;
    var updated := pours[i := row];
    if i < n {
      RecoveredUpdate(pours[..n], i, row, device, boot);
      assert updated[..n] == pours[..n][i := row];
    } else {
      assert updated[..n] == pours[..n];
    }
  }

  function Moved(db: Db, pour: PourId, person: Person): Db
    requires pour < |db.pours|
  {
    db.(pours := db.pours[pour := db.pours[pour].(person := Some(person), attributed := true)])
  }

  lemma MovedKeepsRows(db: Db, pour: PourId, person: Person)
    requires Sound(db) && pour < |db.pours|
    ensures var n := Moved(db, pour, person); Reconciled(n) && Telescoped(n) && Keyed(n) && Tied(n)
  {
    hide Settled;
    var n := Moved(db, pour, person);
    forall device, boot ensures Recovered(n.pours, device, boot) == Previous(n, device, boot).recovery {
      RecoveredUpdate(db.pours, pour, n.pours[pour], device, boot);
    }
  }

  /** Moving a charge: the old owner is refunded exactly what the new one is charged. */
  function Transferred(db: Db, pour: PourId, person: Person): Db
    requires Settled(db) && pour in db.charges && person in db.balances
  {
    var amount: int := db.charges[pour].amount;
    Post(Post(Moved(db, pour, person), db.charges[pour].person, amount, Refund, Some(pour)), person, -amount, ChargeEntry, Some(pour))
      .(charges := db.charges[pour := Charge(person, amount)])
  }

  lemma TransferSettles(db: Db, pour: PourId, person: Person)
    requires Settled(db) && Tied(db) && pour in db.charges && person in db.balances && db.charges[pour].person != person
    ensures Settled(Transferred(db, pour, person)) && Tied(Transferred(db, pour, person))
  {
    hide Tied;
    TransferTies(db, pour, person);
    var amount: int := db.charges[pour].amount;
    var from := db.charges[pour].person;
    var mid := Post(Moved(db, pour, person), from, amount, Refund, Some(pour));
    var n := Transferred(db, pour, person);
    forall q, p ensures Net(n.ledger, q, p) == Owed(n.charges, q, p) {
      NetAppend(db.ledger, mid.ledger[|db.ledger|], q, p);
      NetAppend(mid.ledger, n.ledger[|mid.ledger|], q, p);
      assert Net(db.ledger, q, p) == Owed(db.charges, q, p);
    }
  }

  lemma TransferTies(db: Db, pour: PourId, person: Person)
    requires Settled(db) && Tied(db) && pour in db.charges && person in db.balances
    ensures Tied(Transferred(db, pour, person))
  {
    var n := Transferred(db, pour, person);
    assert |n.ledger| == |db.ledger| + 2;
    assert n.ledger[..|db.ledger|] == db.ledger;
    forall i | 0 <= i < |n.ledger|
      ensures (n.ledger[i].kind == Adjustment <==> n.ledger[i].pour.None?) && (n.ledger[i].pour.Some? ==> n.ledger[i].pour.value < |n.pours|)
    {
      assert i < |db.ledger| ==> n.ledger[i] == db.ledger[i];
    }
  }

  lemma ChargeOwner(db: Db, pour: PourId)
    requires Settled(db) && pour in db.charges
    ensures pour < |db.pours| && db.pours[pour].person == Some(db.charges[pour].person) && db.charges[pour].person in db.balances
  {
  }

  lemma TransferReconciles(db: Db, pour: PourId, person: Person)
    requires Reconciled(db) && Settled(db) && pour in db.charges && person in db.balances
    ensures Reconciled(Transferred(db, pour, person))
  {
    hide Settled, Reconciled;
    ChargeOwner(db, pour);
    var amount: int := db.charges[pour].amount;
    var from := db.charges[pour].person;
    var moved := Moved(db, pour, person);
    ReconciledFrame(db, moved);
    var mid := Post(moved, from, amount, Refund, Some(pour));
    PostReconciles(moved, from, amount, Refund, Some(pour));
    PostReconciles(mid, person, -amount, ChargeEntry, Some(pour));
    ReconciledFrame(Post(mid, person, -amount, ChargeEntry, Some(pour)), Transferred(db, pour, person));
  }

  lemma TransferKeeps(db: Db, pour: PourId, person: Person)
    requires Sound(db) && pour in db.charges && person in db.balances && db.charges[pour].person != person
    ensures Sound(Transferred(db, pour, person))
  {
    TransferSettles(db, pour, person);
    TransferReconciles(db, pour, person);
    hide Settled, Reconciled, Tied, Telescoped, Keyed;
    ChargeOwner(db, pour);
    MovedKeepsRows(db, pour, person);
    RowsFrame(Moved(db, pour, person), Transferred(db, pour, person));
  }

  lemma RowsFrame(db: Db, n: Db)
    requires Telescoped(db) && Keyed(db) && n.pours == db.pours && n.checkpoints == db.checkpoints && n.results == db.results
    ensures Telescoped(n) && Keyed(n)
  {
    forall device, boot ensures Recovered(n.pours, device, boot) == Previous(n, device, boot).recovery {
      assert Recovered(db.pours, device, boot) == Previous(db, device, boot).recovery;
    }
  }

  /** Moving a pour nobody was charged for, or back to its own owner. */
  lemma MovedSettles(db: Db, pour: PourId, person: Person)
    requires Settled(db) && pour < |db.pours| && (pour in db.charges ==> db.charges[pour].person == person)
    ensures Settled(Moved(db, pour, person))
  {
  }

  lemma ReassignKeeps(db: Db, pour: PourId, person: Person, reason: string)
    requires Sound(db) && Reassign(db, pour, person, reason).Ok?
    ensures Sound(Reassign(db, pour, person, reason).value)
  {
    var row := db.pours[pour];
    var logged := db.(audit := db.audit + [AuditRow(pour, row.person, person, reason)]);
    SettingsKeep(db, logged);
    ReassignAfterAudit(db, logged, pour, person, reason);
    if pour in db.charges && row.person != Some(person) {
      TransferKeeps(logged, pour, person);
    } else {
      hide Reassign;
      MovedKeepsRows(logged, pour, person);
      MovedSettles(logged, pour, person);
      assert Sound(Moved(logged, pour, person));
      if pour !in db.charges && row.volume.Some? {
        ChargePourKeeps(Moved(logged, pour, person), pour, person, row.volume.value);
      }
    }
  }

  lemma ReassignAfterAudit(db: Db, logged: Db, pour: PourId, person: Person, reason: string)
    requires Sound(db) && Reassign(db, pour, person, reason).Ok?
    requires logged == db.(audit := db.audit + [AuditRow(pour, db.pours[pour].person, person, reason)])
    ensures Settled(logged)
    ensures var row := db.pours[pour];
            Reassign(db, pour, person, reason).value ==
              if pour in db.charges && row.person != Some(person) then Transferred(logged, pour, person)
              else if pour !in db.charges && row.volume.Some? then ChargePour(Moved(logged, pour, person), pour, person, row.volume.value)
              else Moved(logged, pour, person)
  {
    hide Reconciled, Tied, Telescoped, Keyed, ChargePour;
    if pour in db.charges { ChargeOwner(db, pour); }
  }

  // ---- measurements ----

  lemma RecoveredAppend(pours: seq<Pour>, row: Pour, device: string, boot: string)
    ensures Recovered(pours + [row], device, boot)
            == Recovered(pours, device, boot) + (if row.device == device && row.boot == boot && row.sequence.None? then row.pulses else 0)
  {
    assert (pours + [row])[..|pours|] == pours;
  }

  lemma AppendPourSettles(db: Db, row: Pour)
    requires Reconciled(db) && Settled(db) && Tied(db)
    ensures var n := db.(pours := db.pours + [row]); Reconciled(n) && Settled(n) && Tied(n)
  {
  }

  lemma BooksFrame(db: Db, n: Db)
    requires Reconciled(db) && Settled(db) && Tied(db)
    requires n.balances == db.balances && n.ledger == db.ledger && n.charges == db.charges && n.pours == db.pours
    ensures Reconciled(n) && Settled(n) && Tied(n)
  {
  }

  lemma RowKeeps(db: Db, r: Measured)
    requires Sound(db) && !HasResult(db.results, r.device, r.boot, r.sequence)
    ensures Sound(db.(results := db.results + [ResultRowOf(r, None)]))
  {
    var n := db.(results := db.results + [ResultRowOf(r, None)]);
    BooksFrame(db, n);
    TelescopedFrame(db, n);
  }

  lemma TelescopedFrame(db: Db, n: Db)
    requires Telescoped(db) && n.pours == db.pours && n.checkpoints == db.checkpoints
    ensures Telescoped(n)
  {
    forall device, boot ensures Recovered(n.pours, device, boot) == Previous(n, device, boot).recovery {
      assert Recovered(db.pours, device, boot) == Previous(db, device, boot).recovery;
    }
  }

  lemma PourRowKeyed(db: Db, r: Measured, row: Pour)
    requires Keyed(db) && !HasResult(db.results, r.device, r.boot, r.sequence)
    requires row.device == r.device && row.boot == r.boot && row.sequence == Some(r.sequence) && row.pulses == r.pulses
    ensures Keyed(db.(pours := db.pours + [row], results := db.results + [ResultRowOf(r, Some(|db.pours|))]))
  {
  }

  lemma PourRowTelescoped(db: Db, row: Pour, results: seq<ResultRow>)
    requires Telescoped(db) && row.sequence.Some?
    ensures Telescoped(db.(pours := db.pours + [row], results := results))
  {
    var n := db.(pours := db.pours + [row], results := results);
    forall device, boot ensures Recovered(n.pours, device, boot) == Previous(n, device, boot).recovery {
      RecoveredAppend(db.pours, row, device, boot);
      assert Recovered(db.pours, device, boot) == Previous(db, device, boot).recovery;
    }
  }

  lemma PourRowKeeps(db: Db, r: Measured, row: Pour)
    requires Sound(db) && !HasResult(db.results, r.device, r.boot, r.sequence)
    requires row.device == r.device && row.boot == r.boot && row.sequence == Some(r.sequence) && row.pulses == r.pulses
    ensures var n := db.(pours := db.pours + [row], results := db.results + [ResultRowOf(r, Some(|db.pours|))]);
            Sound(n) && |db.pours| !in n.charges
  {
    assert |db.pours| !in db.charges by {
      assert Settled(db);
    }
    var grown := db.(pours := db.pours + [row]);
    var n := grown.(results := db.results + [ResultRowOf(r, Some(|db.pours|))]);
    hide Settled, Reconciled, Tied, Telescoped, Keyed, HasResult;
    AppendPourSettles(db, row);
    BooksFrame(grown, n);
    PourRowKeyed(db, r, row);
    PourRowTelescoped(db, row, n.results);
  }

  lemma InsertKeeps(db: Db, r: Measured, session: Option<Binding>, keg: Option<string>, calibration: Option<string>)
    requires Sound(db) && !HasResult(db.results, r.device, r.boot, r.sequence)
    requires InsertPour(db, r, session, keg, calibration).Ok?
    ensures Sound(InsertPour(db, r, session, keg, calibration).value)
  {
    hide Sound, HasResult, Insertable, Volume, Factor, ChargePour;
    var factor := Factor(db, calibration);
    var volume := Volume(r.pulses, factor).value;
    var quality := if factor.None? then NeedsReview
                   else if r.status == InterruptedStatus then Interrupted
                   else if !r.attributed then Unattributed else Complete;
    var person := if session.Some? then session.value.person else None;
    var row := Pour(r.device, r.boot, Some(r.sequence), r.sid, person, keg, calibration, r.pulses, volume, r.attributed, quality);
    PourRowKeeps(db, r, row);
    if person.Some? && volume.Some? {
      ChargePourKeeps(db.(pours := db.pours + [row], results := db.results + [ResultRowOf(r, Some(|db.pours|))]),
                      |db.pours|, person.value, volume.value);
    }
  }

  lemma FinalizeKeeps(db: Db, r: Measured, keg: Option<string>, calibration: Option<string>, captured: bool)
    requires Sound(db) && FinalizeResult(db, r, keg, calibration, captured).Ok?
    ensures Sound(FinalizeResult(db, r, keg, calibration, captured).value.0)
  {
    hide HasResult, Plausible, Bound, InsertPour, Sound;
    if !HasResult(db.results, r.device, r.boot, r.sequence) {
      var session := if r.sid.Some? && r.sid.value in db.sessions then Some(db.sessions[r.sid.value]) else None;
      if (session.Some? && !session.value.forPour) || (r.status == TimedOutStatus && r.pulses == 0) {
        RowKeeps(db, r);
      } else {
        var theKeg := if session.Some? then session.value.keg
                      else if !captured && keg.None? then db.openKeg else keg;
        var theCalibration := if session.Some? then session.value.calibration
                              else if !captured && calibration.None? then db.activeCalibration else calibration;
        InsertKeeps(db, r, session, theKeg, theCalibration);
      }
    }
  }

  /** Moving one checkpoint while adding exactly its excess as recovery pulses. */
  lemma CheckpointTelescopes(db: Db, n: Db, device: string, boot: string, reading: Checkpoint)
    requires Telescoped(db) && Previous(db, device, boot).recovery <= reading.recovery
    requires n.checkpoints == db.checkpoints[(device, boot) := reading]
    requires forall d, b :: Recovered(n.pours, d, b) ==
               Recovered(db.pours, d, b) + (if d == device && b == boot then reading.recovery - Previous(db, device, boot).recovery else 0)
    ensures Telescoped(n)
  {
    forall d, b ensures Recovered(n.pours, d, b) == Previous(n, d, b).recovery {
      assert Recovered(db.pours, d, b) == Previous(db, d, b).recovery;
    }
  }

  lemma MaterializeKeeps(db: Db, device: string, boot: string, delta: nat, reading: Checkpoint,
                         keg: Option<string>, calibration: Option<string>)
    requires Sound(db) && reading.recovery == Previous(db, device, boot).recovery + delta
    requires Materialize(db, device, boot, delta, reading, keg, calibration).Ok?
    ensures Sound(Materialize(db, device, boot, delta, reading, keg, calibration).value)
  {
    hide Settled, Reconciled, Tied, Keyed, Telescoped, Volume, Factor, Previous;
    var n := Materialize(db, device, boot, delta, reading, keg, calibration).value;
    var row := n.pours[|db.pours|];
    AppendPourSettles(db, row);
    BooksFrame(db.(pours := n.pours), n);
    KeyedFrame(db, n);
    forall d, b ensures Recovered(n.pours, d, b) == Recovered(db.pours, d, b) + (if d == device && b == boot then delta else 0) {
      RecoveredAppend(db.pours, row, d, b);
    }
    CheckpointTelescopes(db, n, device, boot, reading.(lastPour := Some(|db.pours|)));
  }

  lemma CheckpointMoves(db: Db, device: string, boot: string, reading: Checkpoint)
    requires Sound(db) && reading.recovery == Previous(db, device, boot).recovery
    ensures Sound(db.(checkpoints := db.checkpoints[(device, boot) := reading]))
  {
    hide Settled, Reconciled, Tied, Keyed, Telescoped, Previous;
    var n := db.(checkpoints := db.checkpoints[(device, boot) := reading]);
    BooksFrame(db, n);
    KeyedFrame(db, n);
    CheckpointTelescopes(db, n, device, boot, reading);
  }

  lemma CheckpointKeeps(db: Db, device: string, boot: string, recovery: int, accepted: int, uptime: int,
                        keg: Option<string>, calibration: Option<string>, captured: bool)
    requires Sound(db) && CheckpointRecovery(db, device, boot, recovery, accepted, uptime, keg, calibration, captured).Ok?
    ensures Sound(CheckpointRecovery(db, device, boot, recovery, accepted, uptime, keg, calibration, captured).value.0)
  {
    CheckedNonnegative(db, device, boot, recovery, accepted, uptime);
    hide Sound, CheckReading, Materialize, Previous;
    var prior := Previous(db, device, boot);
    var reading := Checkpoint(recovery, accepted, uptime, prior.lastPour);
    if recovery == prior.recovery {
      CheckpointMoves(db, device, boot, reading);
    } else {
      var theKeg := if captured then (if keg.Some? && keg.value in db.kegs then keg else None) else db.openKeg;
      var theCalibration := if captured then (if calibration.Some? && calibration.value in db.factors then calibration else None)
                            else db.activeCalibration;
      MaterializeKeeps(db, device, boot, recovery - prior.recovery, reading, theKeg, theCalibration);
    }
  }

  /** An accepted reading never moves a counter back. */
  lemma CheckedNonnegative(db: Db, device: string, boot: string, recovery: int, accepted: int, uptime: int)
    requires CheckReading(db, device, boot, recovery, accepted, uptime).None?
    ensures 0 <= Previous(db, device, boot).recovery <= recovery <= accepted && 0 <= uptime
  {
  }

  lemma KeyedFrame(db: Db, n: Db)
    requires Keyed(db) && n.results == db.results && db.pours <= n.pours
    ensures Keyed(n)
  {
  }

  // ---- whole runs ----

  datatype Tx =
    | AddPersonTx(person: Person)
    | SetRateTx(rate: real)
    | KegTx(kegId: string, tapped: bool)
    | CalibrationTx(calibrationId: string, factor: Option<real>, active: bool)
    | BindTx(sid: string, binding: Binding)
    | AdjustTx(person: Person, cents: int, reason: string)
    | ReassignTx(pour: PourId, person: Person, reason: string)
    | FinalizeTx(r: Measured, keg: Option<string>, calibration: Option<string>, captured: bool)
    | RecoveryTx(device: string, boot: string, recovery: int, accepted: int, uptime: int,
                 keg: Option<string>, calibration: Option<string>, captured: bool)

  /** A transaction that fails leaves nothing behind. */
  function Commit(db: Db, outcome: Result<Db, Failure>): Db {
    if outcome.Ok? then outcome.value else db
  }

  function CommitPair(db: Db, outcome: Result<(Db, bool), Failure>): Db {
    if outcome.Ok? then outcome.value.0 else db
  }

  function Apply(db: Db, tx: Tx): Db {
    match tx
    case AddPersonTx(person) => Commit(db, AddPerson(db, person))
    case SetRateTx(rate) => db.(rate := rate)
    case KegTx(keg, tapped) => db.(kegs := db.kegs + {keg}, openKeg := if tapped then Some(keg) else None)
    case CalibrationTx(c, factor, active) =>
      db.(factors := db.factors[c := factor], activeCalibration := if active then Some(c) else db.activeCalibration)
    case BindTx(sid, binding) => db.(sessions := db.sessions[sid := binding])
    case AdjustTx(person, cents, reason) => Commit(db, Adjust(db, person, cents, reason))
    case ReassignTx(pour, person, reason) => Commit(db, Reassign(db, pour, person, reason))
    case FinalizeTx(r, keg, calibration, captured) => CommitPair(db, FinalizeResult(db, r, keg, calibration, captured))
    case RecoveryTx(device, boot, recovery, accepted, uptime, keg, calibration, captured) =>
      CommitPair(db, CheckpointRecovery(db, device, boot, recovery, accepted, uptime, keg, calibration, captured))
  }

  function Run(db: Db, txs: seq<Tx>): Db
    decreases |txs|
  {
    if txs == [] then db else Run(Apply(db, txs[0]), txs[1..])
  }

  lemma SettingsKeep(db: Db, n: Db)
    requires Sound(db) && n.balances == db.balances && n.ledger == db.ledger && n.charges == db.charges
    requires n.pours == db.pours && n.results == db.results && n.checkpoints == db.checkpoints
    ensures Sound(n)
  {
    BooksFrame(db, n);
    RowsFrame(db, n);
  }

  lemma ApplyKeeps(db: Db, tx: Tx)
    requires Sound(db)
    ensures Sound(Apply(db, tx))
  {
    hide Sound, FinalizeResult, CheckpointRecovery, Reassign;
    match tx {
      case AddPersonTx(person) =>
        if person !in db.balances { AddPersonKeeps(db, person); }
      case AdjustTx(person, cents, reason) =>
        if Adjust(db, person, cents, reason).Ok? { AdjustKeeps(db, person, cents); }
      case ReassignTx(pour, person, reason) =>
        if Reassign(db, pour, person, reason).Ok? { ReassignKeeps(db, pour, person, reason); }
      case FinalizeTx(r, keg, calibration, captured) =>
        if FinalizeResult(db, r, keg, calibration, captured).Ok? { FinalizeKeeps(db, r, keg, calibration, captured); }
      case RecoveryTx(device, boot, recovery, accepted, uptime, keg, calibration, captured) =>
        if CheckpointRecovery(db, device, boot, recovery, accepted, uptime, keg, calibration, captured).Ok? {
          CheckpointKeeps(db, device, boot, recovery, accepted, uptime, keg, calibration, captured);
        }
      case _ => SettingsKeep(db, Apply(db, tx));
    }
  }

  /** Every run of transactions, failed ones included, keeps the books: balances
      are ledger sums, entries show running balances, a pour's entries net to
      minus its charge on its owner and to zero on everyone else, recovery pours
      add up to the checkpoint, and no measurement key has two rows. */
  lemma {:induction false} RunKeepsSound(db: Db, txs: seq<Tx>)
    requires Sound(db)
    ensures Sound(Run(db, txs))
    decreases |txs|
  {
    if txs != [] {
      ApplyKeeps(db, txs[0]);
      RunKeepsSound(Apply(db, txs[0]), txs[1..]);
    }
  }

  lemma EveryRunSound(txs: seq<Tx>)
    ensures Sound(Run(NEW_DB, txs))
  {
    RunKeepsSound(NEW_DB, txs);
  }
}
