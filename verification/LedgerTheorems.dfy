/** What the kept books mean: for people's money, for replays and for the
    firmware's counters. */
module LedgerTheorems {
  import opened Common
  import opened PulseIntegrity
  import opened Ledger
  import opened LedgerRuns
  import Firmware
  import Runs

  // ---- money ----

  function Adjusted(ledger: seq<Entry>, p: Person): int {
    if ledger == [] then 0
    else
      var last := ledger[|ledger| - 1];
      Adjusted(ledger[..|ledger| - 1], p) + (if last.person == p && last.kind == Adjustment then last.amount else 0)
  }

  /** The charges a person bears among the first `n` pours. */
  function Charged(charges: map<PourId, Charge>, n: nat, p: Person): nat {
    if n == 0 then 0
    else Charged(charges, n - 1, p) + (if n - 1 in charges && charges[n - 1].person == p then charges[n - 1].amount else 0)
  }

  function NetBelow(ledger: seq<Entry>, n: nat, p: Person): int {
    if n == 0 then 0 else NetBelow(ledger, n - 1, p) + Net(ledger, n - 1, p)
  }

  lemma {:induction false} NetBelowAppend(ledger: seq<Entry>, e: Entry, n: nat, p: Person)
    ensures NetBelow(ledger + [e], n, p)
            == NetBelow(ledger, n, p) + (if e.person == p && e.pour.Some? && e.pour.value < n then e.amount else 0)
  {
    if n > 0 {
      NetBelowAppend(ledger, e, n - 1, p);
      NetAppend(ledger, e, n - 1, p);
    }
  }

  lemma {:induction false} NetBelowEmpty(n: nat, p: Person)
    ensures NetBelow([], n, p) == 0
  {
    if n > 0 { NetBelowEmpty(n - 1, p); }
  }

  lemma {:induction false} EntriesSplit(ledger: seq<Entry>, n: nat, p: Person)
    requires forall i :: 0 <= i < |ledger| ==>
               (ledger[i].kind == Adjustment <==> ledger[i].pour.None?) && (ledger[i].pour.Some? ==> ledger[i].pour.value < n)
    ensures Balance(ledger, p) == Adjusted(ledger, p) + NetBelow(ledger, n, p)
  {
    if ledger == [] {
      NetBelowEmpty(n, p);
    } else {
      var k := |ledger| - 1;
      EntriesSplit(ledger[..k], n, p);
      NetBelowAppend(ledger[..k], ledger[k], n, p);
      assert ledger == ledger[..k] + [ledger[k]];
    }
  }

  lemma {:induction false} NetIsOwed(db: Db, n: nat, p: Person)
    requires Settled(db)
    ensures NetBelow(db.ledger, n, p) == -(Charged(db.charges, n, p) as int)
  {
    if n > 0 {
      NetIsOwed(db, n - 1, p);
      assert Net(db.ledger, n - 1, p) == Owed(db.charges, n - 1, p);
    }
  }

  /** A person's balance is what was paid in by adjustments less the charges of
      the pours that now carry their name, whatever was reassigned on the way. */
  lemma BalanceExplained(txs: seq<Tx>, p: Person)
    ensures var db := Run(NEW_DB, txs);
            p in db.balances ==> db.balances[p] == Adjusted(db.ledger, p) - Charged(db.charges, |db.pours|, p)
  {
    hide Run;
    EveryRunSound(txs);
    var db := Run(NEW_DB, txs);
    NetIsOwed(db, |db.pours|, p);
    EntriesSplit(db.ledger, |db.pours|, p);
  }

  /** Reassigning a charged pour and then giving it back leaves every balance as
      it was and the charge where it was: two refunds cancel two charges. */
  lemma ReassignBack(db: Db, pour: PourId, person: Person, reason: string)
    requires Sound(db) && pour in db.charges && person in db.balances && db.charges[pour].person != person && 1 <= |reason| <= 500
    ensures var there := Reassign(db, pour, person, reason);
            there.Ok? &&
            var back := Reassign(there.value, pour, db.charges[pour].person, reason);
            back.Ok? && back.value.balances == db.balances && back.value.charges == db.charges
            && there.value.balances[person] == db.balances[person] - db.charges[pour].amount
            && there.value.balances[db.charges[pour].person] == db.balances[db.charges[pour].person] + db.charges[pour].amount
  {
    hide Reconciled, Tied, Telescoped, Keyed, Settled;
    ChargeOwner(db, pour);
    var there := Reassign(db, pour, person, reason).value;
    ReassignKeeps(db, pour, person, reason);
    ChargeOwner(there, pour);
  }

  /** A price is within half a cent of volume times rate, and a tie goes up. */
  lemma PriceIsNearest(volume: real, rate: real)
    ensures var exact := volume / ML_PER_FL_OZ * rate;
            Price(volume, rate) as real - 0.5 <= exact < Price(volume, rate) as real + 0.5
  {
  }

  // ---- replays ----

  lemma InsertGrows(db: Db, r: Measured, session: Option<Binding>, keg: Option<string>, calibration: Option<string>)
    requires InsertPour(db, r, session, keg, calibration).Ok?
    ensures InsertPour(db, r, session, keg, calibration).value.results == db.results + [ResultRowOf(r, Some(|db.pours|))]
  {
    hide Insertable, Volume, Factor, Price;
  }

  lemma FinalizeGrows(db: Db, r: Measured, keg: Option<string>, calibration: Option<string>, captured: bool)
    requires FinalizeResult(db, r, keg, calibration, captured).Ok?
    ensures var (n, duplicate) := FinalizeResult(db, r, keg, calibration, captured).value;
            && db.results <= n.results
            && (duplicate <==> HasResult(db.results, r.device, r.boot, r.sequence))
            && (duplicate ==> n == db)
            && (!duplicate ==> |n.results| == |db.results| + 1 && n.results[|db.results|].device == r.device && n.results[|db.results|].boot == r.boot
                               && n.results[|db.results|].sequence == r.sequence && n.results[|db.results|].pulses == r.pulses)
  {
    hide HasResult, Plausible, Bound, InsertPour;
    var n := FinalizeResult(db, r, keg, calibration, captured).value.0;
    if !HasResult(db.results, r.device, r.boot, r.sequence) {
      var session := if r.sid.Some? && r.sid.value in db.sessions then Some(db.sessions[r.sid.value]) else None;
      if !((session.Some? && !session.value.forPour) || (r.status == TimedOutStatus && r.pulses == 0)) {
        var theKeg := if session.Some? then session.value.keg
                      else if !captured && keg.None? then db.openKeg else keg;
        var theCalibration := if session.Some? then session.value.calibration
                              else if !captured && calibration.None? then db.activeCalibration else calibration;
        InsertGrows(db, r, session, theKeg, theCalibration);
      }
    }
  }

  lemma ApplyGrows(db: Db, tx: Tx)
    ensures db.results <= Apply(db, tx).results
  {
    hide FinalizeResult, CheckReading;
    match tx {
      case FinalizeTx(r, keg, calibration, captured) =>
        if FinalizeResult(db, r, keg, calibration, captured).Ok? { FinalizeGrows(db, r, keg, calibration, captured); }
      case _ =>
    }
  }

  lemma {:induction false} RunGrows(db: Db, txs: seq<Tx>)
    ensures db.results <= Run(db, txs).results
    decreases |txs|
  {
    if txs != [] {
      ApplyGrows(db, txs[0]);
      RunGrows(Apply(db, txs[0]), txs[1..]);
    }
  }

  /** Once a result is committed, replaying it after any further transactions
      changes nothing: no second pour, no second charge, under any captured
      context. It is reported as a duplicate, so it can be acknowledged, unless
      its session was meanwhile bound to another event. */
  lemma ReplayChangesNothing(db: Db, r: Measured, keg: Option<string>, calibration: Option<string>, captured: bool, between: seq<Tx>,
                             keg': Option<string>, calibration': Option<string>, captured': bool)
    requires FinalizeResult(db, r, keg, calibration, captured).Ok?
    ensures var n := Run(FinalizeResult(db, r, keg, calibration, captured).value.0, between);
            var again := FinalizeResult(n, r, keg', calibration', captured');
            again == if r.attributed && !Bound(n, r) then Err(Conflict) else Ok((n, true))
  {
    hide Run, Plausible, Bound, InsertPour;
    var first := FinalizeResult(db, r, keg, calibration, captured).value.0;
    var n := Run(first, between);
    RunGrows(first, between);
    FinalizeGrows(db, r, keg, calibration, captured);
    assert HasResult(first.results, r.device, r.boot, r.sequence) by {
      if !HasResult(db.results, r.device, r.boot, r.sequence) {
        assert first.results[|db.results|].sequence == r.sequence;
      }
    }
    var i :| 0 <= i < |first.results| && first.results[i].device == r.device && first.results[i].boot == r.boot && first.results[i].sequence == r.sequence;
    assert n.results[i] == first.results[i];
    assert HasResult(n.results, r.device, r.boot, r.sequence);
  }

  // ---- counters from the firmware ----

  predicate Named(device: string, boot: string) {
    1 <= |device| <= 64 && 1 <= |boot| <= 64
  }

  /** Two readings of one firmware run, the earlier one checkpointed, pass every
      check of the host but the rate envelope; that one sees the true elapsed
      time across a rollover. */
  lemma GenuineReadingAccepted(cfg: Firmware.Config, m: Firmware.Machine, ops: seq<Firmware.Op>, db: Db,
                               device: string, boot: string, earlier: nat, now: nat)
    requires Runs.Consistent(m) && Named(device, boot) && earlier <= now < earlier + TWO_31
    requires (device, boot) in db.checkpoints
    requires var c := db.checkpoints[(device, boot)]; c.recovery == m.recovery && c.accepted == m.lifetime && c.uptime == Wrap(earlier)
    ensures var n := Firmware.Run(cfg, m, ops);
            CheckReading(db, device, boot, n.recovery, n.lifetime, Wrap(now))
            == if Plausible(n.recovery - m.recovery, now - earlier) then None else Some(Refused)
  {
    hide Firmware.Run, Runs.Consistent, Plausible;
    Runs.CountersMonotone(cfg, m, ops);
    assert Wrap(Wrap(now) - Wrap(earlier)) == now - earlier by {
      ElapsedIsTrueDuration(earlier, now);
    }
  }

  /** The first reading of a boot is held only against its uptime. */
  lemma FirstReadingAccepted(cfg: Firmware.Config, ops: seq<Firmware.Op>, db: Db, device: string, boot: string, now: nat)
    requires Named(device, boot) && (device, boot) !in db.checkpoints
    ensures var n := Firmware.Run(cfg, Firmware.FRESH, ops);
            CheckReading(db, device, boot, n.recovery, n.lifetime, Wrap(now))
            == if Plausible(n.recovery, Wrap(now)) then None else Some(Refused)
  {
    hide Plausible, Firmware.Run, Runs.Consistent;
    Runs.FreshConsistent();
    Runs.CountersMonotone(cfg, Firmware.FRESH, ops);
  }
}
