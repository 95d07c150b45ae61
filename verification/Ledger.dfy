/** The repository's measurement and money tables (repository.py): transactions
    as functions from one database state to the next. */
module Ledger {
  import opened Common
  import opened PulseIntegrity

  type Person = string
  /** A pour's id: its position in the table, from which no row is ever removed. */
  type PourId = nat

  datatype EntryKind = Adjustment | ChargeEntry | Refund

  datatype Entry = Entry(person: Person, amount: int, kind: EntryKind, pour: Option<PourId>, balanceAfter: int)

  datatype Charge = Charge(person: Person, amount: nat)

  datatype Quality = Complete | Unattributed | Interrupted | EstimatedRecovered | NeedsReview

  datatype Pour = Pour(
    device: string, boot: string, sequence: Option<nat>, sid: Option<string>, person: Option<Person>,
    keg: Option<string>, calibration: Option<string>, pulses: nat, volume: Option<real>,
    attributed: bool, quality: Quality)

  datatype ResultRow = ResultRow(device: string, boot: string, sequence: nat, pulses: nat, pour: Option<PourId>)

  /** A host session bound to one device event before it was armed. */
  datatype Binding = Binding(
    device: string, boot: string, sequence: nat, forPour: bool,
    person: Option<Person>, keg: Option<string>, calibration: Option<string>)

  datatype Checkpoint = Checkpoint(recovery: nat, accepted: nat, uptime: nat, lastPour: Option<PourId>)

  datatype Status = CompleteStatus | TimedOutStatus | InterruptedStatus

  datatype Measured = Measured(
    device: string, boot: string, sequence: nat, sid: Option<string>, attributed: bool,
    status: Status, pulses: nat, startedMs: nat, endedMs: nat)

  /** One row of the attribution audit: who a pour was taken from and given to. */
  datatype AuditRow = AuditRow(pour: PourId, takenFrom: Option<Person>, givenTo: Person, reason: string)

  datatype Db = Db(
    balances: map<Person, int>, ledger: seq<Entry>, pours: seq<Pour>, charges: map<PourId, Charge>,
    results: seq<ResultRow>, sessions: map<string, Binding>, checkpoints: map<(string, string), Checkpoint>,
    rate: real, kegs: set<string>, factors: map<string, Option<real>>, openKeg: Option<string>, activeCalibration: Option<string>,
    audit: seq<AuditRow>)

  datatype Failure = ValueError | NotFound | Conflict | Refused

  const NEW_DB := Db(map[], [], [], map[], [], map[], map[], 0.0, {}, map[], None, None, [])

  // ---- money ----

  const ML_PER_FL_OZ: real := 29.5735295625

  /** Rounded half up to whole cents. */
  function RoundHalfUp(x: real): int {
    (x + 0.5).Floor
  }

  function Price(volumeMl: real, rate: real): int {
    RoundHalfUp(volumeMl / ML_PER_FL_OZ * rate)
  }

  /** One balance change and its ledger entry. */
  function Post(db: Db, person: Person, amount: int, kind: EntryKind, pour: Option<PourId>): Db
    requires person in db.balances
  {
    var balance := db.balances[person] + amount;
    db.(balances := db.balances[person := balance],
        ledger := db.ledger + [Entry(person, amount, kind, pour, balance)])
  }

  function ChargePour(db: Db, pour: PourId, person: Person, volumeMl: real): Db {
    var amount := Price(volumeMl, db.rate);
    if db.rate <= 0.0 || amount <= 0 || person !in db.balances then db
    else Post(db, person, -amount, ChargeEntry, Some(pour)).(charges := db.charges[pour := Charge(person, amount)])
  }

  function Adjust(db: Db, person: Person, cents: int, reason: string): Result<Db, Failure> {
    if cents == 0 || cents > 10_000_000 || cents < -10_000_000 then Err(ValueError)
    else if !(1 <= |reason| <= 500) then Err(ValueError)
    else if person !in db.balances then Err(NotFound)
    else Ok(Post(db, person, cents, Adjustment, None))
  }

  function AddPerson(db: Db, person: Person): Result<Db, Failure> {
    if person in db.balances then Err(Conflict) else Ok(db.(balances := db.balances[person := 0]))
  }

  /** The charge follows the pour: moved with it, or made now if there was none. */
  function MoveCharge(db: Db, pour: PourId, owner: Option<Person>, volume: Option<real>, person: Person): Db
    requires person in db.balances
  {
    if pour in db.charges && owner != Some(person) then
      var amount: int := db.charges[pour].amount;
      var refunded := if owner.Some? && owner.value in db.balances
                      then Post(db, owner.value, amount, Refund, Some(pour)) else db;
      Post(refunded, person, -amount, ChargeEntry, Some(pour)).(charges := db.charges[pour := Charge(person, amount)])
    else if pour !in db.charges && volume.Some? then ChargePour(db, pour, person, volume.value)
    else db
  }

  function Reassign(db: Db, pour: PourId, person: Person, reason: string): Result<Db, Failure> {
    if !(1 <= |reason| <= 500) then Err(ValueError)
    else if pour >= |db.pours| || person !in db.balances then Err(NotFound)
    else
      var row := db.pours[pour];
      var moved := db.(audit := db.audit + [AuditRow(pour, row.person, person, reason)],
                       pours := db.pours[pour := row.(person := Some(person), attributed := true)]);
      Ok(MoveCharge(moved, pour, row.person, row.volume, person))
  }

  // ---- measurements ----

  predicate HasResult(results: seq<ResultRow>, device: string, boot: string, sequence: nat) {
    exists i :: 0 <= i < |results| && results[i].device == device && results[i].boot == boot && results[i].sequence == sequence
  }

  /** pulses_to_ml; a factor that is not positive aborts the transaction. */
  function Volume(pulses: nat, factor: Option<real>): Result<Option<real>, Failure> {
    match factor
    case None => Ok(None)
    case Some(f) => if f <= 0.0 then Err(ValueError) else Ok(Some(pulses as real / f))
  }

  function Factor(db: Db, calibration: Option<string>): Option<real> {
    if calibration.Some? && calibration.value in db.factors then db.factors[calibration.value] else None
  }

  function ResultRowOf(r: Measured, pour: Option<PourId>): ResultRow {
    ResultRow(r.device, r.boot, r.sequence, r.pulses, pour)
  }

  predicate Bound(db: Db, r: Measured) {
    r.sid.Some? && r.sid.value in db.sessions &&
    var b := db.sessions[r.sid.value];
    b.device == r.device && b.boot == r.boot && b.sequence == r.sequence
  }

  /** The schema's references: a pour names a known keg and calibration, and no other pour has its session. */
  predicate Insertable(db: Db, r: Measured, keg: Option<string>, calibration: Option<string>) {
    && (keg.Some? ==> keg.value in db.kegs)
    && (calibration.Some? ==> calibration.value in db.factors)
    && (r.sid.Some? ==> forall i :: 0 <= i < |db.pours| ==> db.pours[i].sid != r.sid)
  }

  /** The first time a result is seen, past every check and special case. */
  function InsertPour(db: Db, r: Measured, session: Option<Binding>, keg: Option<string>, calibration: Option<string>): Result<Db, Failure> {
    var factor := Factor(db, calibration);
    match Volume(r.pulses, factor)
    case Err(e) => Err(e)
    case Ok(volume) =>
      if !Insertable(db, r, keg, calibration) then Err(Conflict) else
      var quality := if factor.None? then NeedsReview
                     else if r.status == InterruptedStatus then Interrupted
                     else if !r.attributed then Unattributed else Complete;
      var person := if session.Some? then session.value.person else None;
      var pour := |db.pours|;
      var inserted := db.(pours := db.pours + [Pour(r.device, r.boot, Some(r.sequence), r.sid, person, keg, calibration, r.pulses, volume, r.attributed, quality)],
                          results := db.results + [ResultRowOf(r, Some(pour))]);
      Ok(if person.Some? && volume.Some? then ChargePour(inserted, pour, person.value, volume.value) else inserted)
  }

  /** `finalize_device_result`: the new state, and whether the result was a duplicate. */
  function FinalizeResult(db: Db, r: Measured, keg: Option<string>, calibration: Option<string>, captured: bool): Result<(Db, bool), Failure> {
    var elapsed := ElapsedU32(r.startedMs, r.endedMs);
    if elapsed.Err? || !Plausible(r.pulses, elapsed.value) then Err(Refused)
    else if r.attributed && !Bound(db, r) then Err(Conflict)
    else if HasResult(db.results, r.device, r.boot, r.sequence) then Ok((db, true))
    else
      var session := if r.sid.Some? && r.sid.value in db.sessions then Some(db.sessions[r.sid.value]) else None;
      if session.Some? && !session.value.forPour then
        Ok((db.(results := db.results + [ResultRowOf(r, None)]), false))
      else if r.status == TimedOutStatus && r.pulses == 0 then
        Ok((db.(results := db.results + [ResultRowOf(r, None)]), false))
      else
        var theKeg := if session.Some? then session.value.keg
                      else if !captured && keg.None? then db.openKeg else keg;
        var theCalibration := if session.Some? then session.value.calibration
                              else if !captured && calibration.None? then db.activeCalibration else calibration;
        match InsertPour(db, r, session, theKeg, theCalibration)
        case Err(e) => Err(e)
        case Ok(next) => Ok((next, false))
  }

  function Previous(db: Db, device: string, boot: string): Checkpoint {
    if (device, boot) in db.checkpoints then db.checkpoints[(device, boot)] else Checkpoint(0, 0, 0, None)
  }

  /** Why a cumulative reading is turned away, if it is. */
  function CheckReading(db: Db, device: string, boot: string, recovery: int, accepted: int, uptime: int): Option<Failure> {
    var prior := Previous(db, device, boot);
    if !(1 <= |device| <= 64) || !(1 <= |boot| <= 64) then Some(ValueError)
    else if !(0 <= recovery <= UINT64_MAX) || !(0 <= accepted <= UINT64_MAX) || recovery > accepted then Some(Refused)
    else if !(0 <= uptime <= UINT32_MAX) then Some(ValueError)
    else if recovery < prior.recovery || accepted < prior.accepted then Some(Conflict)
    else if recovery - prior.recovery > accepted - prior.accepted then Some(Refused)
    else
      var seen := (device, boot) in db.checkpoints;
      var elapsed := if seen then Wrap(uptime - prior.uptime) else uptime;
      if seen && elapsed >= TWO_31 then Some(Conflict)
      else if !Plausible(recovery - prior.recovery, elapsed) then Some(Refused)
      else None
  }

  /** The new pulses as a pour of their own, together with the checkpoint that covers them. */
  function Materialize(db: Db, device: string, boot: string, delta: nat, reading: Checkpoint,
                       keg: Option<string>, calibration: Option<string>): Result<Db, Failure> {
    match Volume(delta, Factor(db, calibration))
    case Err(e) => Err(e)
    case Ok(volume) =>
      Ok(db.(pours := db.pours + [Pour(device, boot, None, None, None, keg, calibration, delta, volume, false, EstimatedRecovered)],
             checkpoints := db.checkpoints[(device, boot) := reading.(lastPour := Some(|db.pours|))]))
  }

  /** `checkpoint_recovery_pulses`: materializes only what is new. */
  function CheckpointRecovery(db: Db, device: string, boot: string, recovery: int, accepted: int, uptime: int,
                              keg: Option<string>, calibration: Option<string>, captured: bool): Result<(Db, bool), Failure> {
    var failure := CheckReading(db, device, boot, recovery, accepted, uptime);
    if failure.Some? then Err(failure.value)
    else
      var prior := Previous(db, device, boot);
      var reading := Checkpoint(recovery, accepted, uptime, prior.lastPour);
      if recovery == prior.recovery then
        Ok((db.(checkpoints := db.checkpoints[(device, boot) := reading]), true))
      else
        var theKeg := if captured then (if keg.Some? && keg.value in db.kegs then keg else None) else db.openKeg;
        var theCalibration := if captured then (if calibration.Some? && calibration.value in db.factors then calibration else None)
                              else db.activeCalibration;
        match Materialize(db, device, boot, recovery - prior.recovery, reading, theKeg, theCalibration)
        case Err(e) => Err(e)
        case Ok(next) => Ok((next, false))
  }

  // ---- what is kept ----

  function Balance(ledger: seq<Entry>, person: Person): int {
    if ledger == [] then 0
    else Balance(ledger[..|ledger| - 1], person)
         + (if ledger[|ledger| - 1].person == person then ledger[|ledger| - 1].amount else 0)
  }

  function Net(ledger: seq<Entry>, pour: PourId, person: Person): int {
    if ledger == [] then 0
    else
      var last := ledger[|ledger| - 1];
      Net(ledger[..|ledger| - 1], pour, person) + (if last.person == person && last.pour == Some(pour) then last.amount else 0)
  }

  /** What a pour's entries must net to for a person. */
  function Owed(charges: map<PourId, Charge>, pour: PourId, person: Person): int {
    if pour in charges && charges[pour].person == person then -(charges[pour].amount as int) else 0
  }

  /** Each balance is the sum of its entries, and each entry shows the running balance. */
  ghost predicate Reconciled(db: Db) {
    && (forall p :: p in db.balances ==> db.balances[p] == Balance(db.ledger, p))
    && (forall p :: p !in db.balances ==> Balance(db.ledger, p) == 0)
    && (forall i :: 0 <= i < |db.ledger| ==> db.ledger[i].balanceAfter == Balance(db.ledger[..i + 1], db.ledger[i].person))
  }

  /** Each pour's entries net to minus its charge on its owner and to nothing on anyone else. */
  ghost predicate Settled(db: Db) {
    && (forall pour, p :: Net(db.ledger, pour, p) == Owed(db.charges, pour, p))
    && (forall pour :: pour in db.charges ==>
          pour < |db.pours| && db.pours[pour].person == Some(db.charges[pour].person) && db.charges[pour].person in db.balances)
  }

  /** Charges and refunds name a pour of the table; adjustments name none. */
  ghost predicate Tied(db: Db) {
    forall i :: 0 <= i < |db.ledger| ==>
      var e := db.ledger[i];
      (e.kind == Adjustment <==> e.pour.None?) && (e.pour.Some? ==> e.pour.value < |db.pours|)
  }

  function Recovered(pours: seq<Pour>, device: string, boot: string): nat {
    if pours == [] then 0
    else
      var last := pours[|pours| - 1];
      Recovered(pours[..|pours| - 1], device, boot)
        + (if last.device == device && last.boot == boot && last.sequence.None? then last.pulses else 0)
  }

  /** The pulses materialized for a boot are exactly its checkpoint. */
  ghost predicate Telescoped(db: Db) {
    forall device, boot :: Recovered(db.pours, device, boot) == Previous(db, device, boot).recovery
  }

  /** One row a key, and each row's pour carries its measurement. */
  ghost predicate Keyed(db: Db) {
    && (forall i, j :: 0 <= i < j < |db.results| ==>
          db.results[i].device != db.results[j].device || db.results[i].boot != db.results[j].boot || db.results[i].sequence != db.results[j].sequence)
    && (forall i :: 0 <= i < |db.results| && db.results[i].pour.Some? ==>
          var row := db.results[i];
          row.pour.value < |db.pours| &&
          var pour := db.pours[row.pour.value];
          pour.device == row.device && pour.boot == row.boot && pour.sequence == Some(row.sequence) && pour.pulses == row.pulses)
  }

  ghost predicate Sound(db: Db) {
    Reconciled(db) && Settled(db) && Tied(db) && Telescoped(db) && Keyed(db)
  }
}
