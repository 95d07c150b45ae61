/** That delivery gets somewhere: what is committed is acknowledged, what is
    acknowledged leaves the board, and the store can always be emptied of what the
    host accepts. */
module DeliveryProgress {
  import opened Common
  import opened Conservation
  import opened Wire
  import opened HostResult
  import opened PulseIntegrity
  import opened Delivery
  import opened DeliverySafety
  import opened DeliveryTheorems
  import opened DeliveryLoss
  import opened DeliveryMisstamped
  import opened HostCounters
  import F = Firmware
  import L = Ledger
  import LedgerBilling
  import LedgerRuns
  import LedgerTheorems

  // ---- commit, then acknowledge ----

  lemma TakenIsAnswered(w: World, k: Boot, o: F.Outcome, keg: Option<string>, calibration: Option<string>, captured: bool)
    requires Core(w) && k in w.books && InHistory(w.books[k], o)
    ensures var n := HostTakesResult(w, k, o, keg, calibration, captured);
            if Acceptable(w, k, o, keg, calibration, captured) then
              && n.sent == w.sent + (if w.line.identity == Some(k) then {AckMsg(k, o.sequence)} else {})
              && n == w.(sent := n.sent, db := n.db, quarantined := n.quarantined)
            else n == w
  {
    hide Core, InHistory, WithinEnvelope, L.FinalizeResult, ReadResult, ResultFields, MeasuredOf, Meant, Sane, Kept,
      IsIdentity, GoodOutcome, L.HasResult, HexText;
    KnownBoot(w, k);
    HistoryGood(w.books[k], o);
    ResultReadBack(k.0, k.1, o);
    if WithinEnvelope(o) {
      RefusedMeansOutside(w.db, k, o, keg, calibration, captured);
    }
  }

  /** In every run, processing a RESULT of a boot sends exactly one ACK, for that
      boot and number, if the host accepts the result and its last handshake was
      with that boot; otherwise none. What is not accepted changes nothing. */
  lemma AckExactly(cfg: F.Config, gateUs: U32, before: seq<Event>, k: Boot, o: F.Outcome,
                   keg: Option<string>, calibration: Option<string>, captured: bool)
    ensures var w := Run(Opening(cfg, gateUs), before);
            var n := Run(Opening(cfg, gateUs), before + [TakeResult(ResultMsg(k, o), keg, calibration, captured)]);
            ResultMsg(k, o) in w.line.results ==>
              if Acceptable(w, k, o, keg, calibration, captured) then
                && Durable(n, k, o)
                && n.sent == w.sent + (if w.line.identity == Some(k) then {AckMsg(k, o.sequence)} else {})
              else n == w
  {
    hide Run, Core, HostTakesResult, Acceptable, Durable, InHistory;
    var e := TakeResult(ResultMsg(k, o), keg, calibration, captured);
    OpeningCore(cfg, gateUs);
    RunKeeps(Opening(cfg, gateUs), before);
    var w := Run(Opening(cfg, gateUs), before);
    RunPush(Opening(cfg, gateUs), before, e);
    if ResultMsg(k, o) in w.line.results {
      ResultsSent(w);
      MessageGenuine(w, ResultMsg(k, o));
      TakenIsAnswered(w, k, o, keg, calibration, captured);
      if Acceptable(w, k, o, keg, calibration, captured) {
        TakenIsDurable(w, k, o, keg, calibration, captured);
      }
    }
  }

  // ---- acknowledged, then removed ----

  /** All but the one with this number, in order. */
  function Others(rs: seq<F.Outcome>, sequence: U32): seq<F.Outcome> {
    if rs == [] then []
    else (if rs[0].sequence == sequence then [] else [rs[0]]) + Others(rs[1..], sequence)
  }

  lemma {:induction false} OthersNone(rs: seq<F.Outcome>, sequence: U32)
    requires forall i :: 0 <= i < |rs| ==> rs[i].sequence != sequence
    ensures Others(rs, sequence) == rs
    decreases |rs|
  {
    if rs != [] {
      OthersNone(rs[1..], sequence);
    }
  }

  lemma {:induction false} OthersWithout(rs: seq<F.Outcome>, i: nat)
    requires i < |rs| && forall j :: 0 <= j < |rs| && j != i ==> rs[j].sequence != rs[i].sequence
    ensures Others(rs, rs[i].sequence) == rs[..i] + rs[i + 1..]
    decreases |rs|
  {
    var rest := rs[1..];
    if i == 0 {
      OthersNone(rest, rs[0].sequence);
      assert [] + rest == rest && rs[..0] + rs[1..] == rest;
    } else {
      assert rest[i - 1] == rs[i] && forall j :: 0 <= j < |rest| ==> rest[j] == rs[j + 1];
      OthersWithout(rest, i - 1);
      assert rs[..i] == [rs[0]] + rest[..i - 1] && rs[i + 1..] == rest[i..];
    }
  }

  lemma {:induction false} OthersMembers(rs: seq<F.Outcome>, sequence: U32, o: F.Outcome)
    ensures o in Others(rs, sequence) <==> o in rs && o.sequence != sequence
    ensures |Others(rs, sequence)| <= |rs|
    decreases |rs|
  {
    if rs != [] {
      OthersMembers(rs[1..], sequence, o);
    }
  }

  lemma {:induction false} OthersFewer(rs: seq<F.Outcome>, o: F.Outcome)
    requires o in rs
    ensures |Others(rs, o.sequence)| < |rs|
    decreases |rs|
  {
    if rs[0] == o {
      OthersMembers(rs[1..], o.sequence, o);
    } else {
      OthersFewer(rs[1..], o);
    }
  }

  lemma AckRemoves(m: F.Machine, sequence: U32)
    requires Inv(m)
    ensures F.Acknowledge(m, sequence).m.results == Others(m.results, sequence)
  {
    hide InStore, GoodActive, PulseSum;
    var i := F.IndexOf(m.results, sequence);
    if i == |m.results| {
      OthersNone(m.results, sequence);
    } else {
      OthersWithout(m.results, i);
    }
  }

  /** The board after an ACK: the result of that number is gone, the others stay in
      order, and nothing else that counts has changed. */
  predicate LetGo(b: Books, n: Books, sequence: U32) {
    && n.m.results == Others(b.m.results, sequence)
    && n.m.active == b.m.active && n.m.lifetime == b.m.lifetime && n.m.recovery == b.m.recovery
    && n.fed == b.fed && n.clamped == b.clamped
  }

  lemma AckBooks(cfg: F.Config, b: Books, sequence: U32)
    requires Balanced(b)
    ensures LetGo(b, Record(cfg, b, F.OpAck(sequence)), sequence)
  {
    hide Inv, Accounted, DistinctHistory;
    AckRemoves(b.m, sequence);
  }

  /** Delivering a sent ACK to the live boot it is for releases exactly that result. */
  lemma AckDelivered(w: World, device: string, k: Boot, sequence: U32) returns (b: Books)
    requires Core(w) && device in w.live && k == LiveBoot(w, device) && k in w.books && AckMsg(k, sequence) in w.sent
    ensures Step(w, DeliverAck(device, AckMsg(k, sequence))) == w.(books := w.books[k := b])
    ensures LetGo(w.books[k], b, sequence)
  {
    hide Core, Record, LetGo, Sane, IsIdentity;
    KnownBoot(w, k);
    SaneBalanced(w.books[k]);
    AckBooks(w.cfg, w.books[k], sequence);
    b := Record(w.cfg, w.books[k], F.OpAck(sequence));
  }

  // ---- one result through ----

  lemma ArrivalAnswers(w: World, k: Boot, o: F.Outcome, keg: Option<string>, calibration: Option<string>, captured: bool)
    requires Core(w) && k in w.books && InHistory(w.books[k], o) && ResultMsg(k, o) in w.sent
    requires Acceptable(w, k, o, keg, calibration, captured)
    ensures var n := Run(w, Arrival(k, o, keg, calibration, captured));
            && Core(n) && Durable(n, k, o) && AckMsg(k, o.sequence) in n.sent
            && n.live == w.live && n.books == w.books && n.cfg == w.cfg && n.gateUs == w.gateUs
  {
    var m := ResultMsg(k, o);
    var line := w.line.(identity := Some(k), connected := true, confirmed := false, results := w.line.results + {m});
    var n := w.(line := line);
    hide *;
    ArrivalSteps(w, k, o, keg, calibration, captured);
    RunKeeps(w, Arrival(k, o, keg, calibration, captured));
    ResultsSent(w);
    LineKeeps(w, line);
    SameTables(w, n, k, o, keg, calibration, captured);
    TakenIsAnswered(n, k, o, keg, calibration, captured);
    TakenIsDurable(n, k, o, keg, calibration, captured);
  }

  /** For every run: a result the live boot retains and has sent, and the host
      accepts, is acknowledged once the host has heard the boot's HELLO and the
      RESULT and processed it; that ACK, delivered, takes it out of the store. */
  lemma RetainedIsReleased(cfg: F.Config, gateUs: U32, before: seq<Event>, device: string, k: Boot, o: F.Outcome,
                           keg: Option<string>, calibration: Option<string>, captured: bool)
    ensures var w := Run(Opening(cfg, gateUs), before);
            (&& device in w.live && k == LiveBoot(w, device) && k in w.books && o in w.books[k].m.results && ResultMsg(k, o) in w.sent
             && Acceptable(w, k, o, keg, calibration, captured))
              ==> var n := Run(w, Arrival(k, o, keg, calibration, captured));
                  var after := Run(n, [DeliverAck(device, AckMsg(k, o.sequence))]);
                  && AckMsg(k, o.sequence) in n.sent && Durable(n, k, o) && n.books == w.books
                  && k in after.books && after.books[k].m.results == Others(w.books[k].m.results, o.sequence)
                  && o !in after.books[k].m.results
  {
    hide Run, Core, Acceptable, Durable, InHistory, Step, Others, LetGo, Arrival;
    OpeningCore(cfg, gateUs);
    RunKeeps(Opening(cfg, gateUs), before);
    var w := Run(Opening(cfg, gateUs), before);
    if device in w.live && k == LiveBoot(w, device) && k in w.books && o in w.books[k].m.results && ResultMsg(k, o) in w.sent
       && Acceptable(w, k, o, keg, calibration, captured) {
      RetainedInHistory(w.books[k], o);
      ArrivalAnswers(w, k, o, keg, calibration, captured);
      var n := Run(w, Arrival(k, o, keg, calibration, captured));
      var b := AckDelivered(n, device, k, o.sequence);
      RunOne(n, DeliverAck(device, AckMsg(k, o.sequence)));
      LetGoResults(n.books[k], b, o.sequence);
      OthersMembers(w.books[k].m.results, o.sequence, o);
    }
  }

  lemma LetGoResults(b: Books, n: Books, sequence: U32)
    requires LetGo(b, n, sequence)
    ensures n.m.results == Others(b.m.results, sequence) && n.m.active == b.m.active
    ensures n.m.lifetime == b.m.lifetime && n.m.recovery == b.m.recovery && n.fed == b.fed && n.clamped == b.clamped
  {
    hide Others;
  }

  // ---- what is accepted stays accepted ----

  /** The same sessions, kegs and calibrations. */
  predicate SameSettings(db: L.Db, n: L.Db) {
    && n.sessions == db.sessions && n.factors == db.factors && n.kegs == db.kegs
    && n.openKeg == db.openKeg && n.activeCalibration == db.activeCalibration
  }

  lemma FinalizeSettings(db: L.Db, r: L.Measured, keg: Option<string>, calibration: Option<string>, captured: bool)
    requires L.FinalizeResult(db, r, keg, calibration, captured).Ok?
    ensures SameSettings(db, L.FinalizeResult(db, r, keg, calibration, captured).value.0)
  {
    hide L.HasResult, Plausible, L.Bound, L.InsertPour;
    if !L.HasResult(db.results, r.device, r.boot, r.sequence) {
      var session := if r.sid.Some? && r.sid.value in db.sessions then Some(db.sessions[r.sid.value]) else None;
      InsertSettings(db, r, session,
                     if session.Some? then session.value.keg else if !captured && keg.None? then db.openKeg else keg,
                     if session.Some? then session.value.calibration
                     else if !captured && calibration.None? then db.activeCalibration else calibration);
    }
  }

  lemma InsertSettings(db: L.Db, r: L.Measured, session: Option<L.Binding>, keg: Option<string>, calibration: Option<string>)
    ensures var f := L.InsertPour(db, r, session, keg, calibration); f.Ok? ==> SameSettings(db, f.value)
  {
    hide L.Insertable, L.Volume, L.Factor, L.Price;
  }

  /** Every new pour is of this result's session. */
  predicate OnlySid(db: L.Db, n: L.Db, sid: Option<string>) {
    forall i :: 0 <= i < |n.pours| ==> n.pours[i].sid == sid || (i < |db.pours| && n.pours[i].sid == db.pours[i].sid)
  }

  lemma FinalizeSids(db: L.Db, r: L.Measured, keg: Option<string>, calibration: Option<string>, captured: bool)
    requires L.FinalizeResult(db, r, keg, calibration, captured).Ok?
    ensures OnlySid(db, L.FinalizeResult(db, r, keg, calibration, captured).value.0, r.sid)
  {
    LedgerTheorems.FinalizeGrows(db, r, keg, calibration, captured);
    hide L.FinalizeResult, LedgerBilling.PourOf, LedgerBilling.OfCalibration, LedgerBilling.Paid, L.HasResult;
    var (n, duplicate) := L.FinalizeResult(db, r, keg, calibration, captured).value;
    if !duplicate {
      if LedgerBilling.OfCalibration(db, r) || LedgerBilling.EmptyTimeOut(r) {
        LedgerBilling.RowOnly(db, r, keg, calibration, captured);
      } else {
        var cents := LedgerBilling.PourCommitted(db, r, keg, calibration, captured);
        PourSid(db, r, keg, calibration, captured, n.pours[|db.pours|]);
        assert forall i :: 0 <= i < |db.pours| ==> n.pours[i] == n.pours[..|db.pours|][i];
      }
    }
  }

  lemma PourSid(db: L.Db, r: L.Measured, keg: Option<string>, calibration: Option<string>, captured: bool, row: L.Pour)
    requires LedgerBilling.PourOf(db, r, keg, calibration, captured, row)
    ensures row.sid == r.sid
  {
  }

  lemma InsertStays(db: L.Db, n: L.Db, r: L.Measured, session: Option<L.Binding>,
                    keg: Option<string>, calibration: Option<string>, sid: Option<string>)
    requires L.InsertPour(db, r, session, keg, calibration).Ok? && SameSettings(db, n) && OnlySid(db, n, sid)
    requires r.sid.Some? ==> r.sid != sid
    ensures L.InsertPour(n, r, session, keg, calibration).Ok?
  {
    hide L.ChargePour;
    assert L.Factor(n, calibration) == L.Factor(db, calibration);
    if r.sid.Some? {
      forall i | 0 <= i < |n.pours| ensures n.pours[i].sid != r.sid {
        assert n.pours[i].sid == sid || (i < |db.pours| && n.pours[i].sid == db.pours[i].sid);
      }
    }
  }

  /** A result that could be committed still can after others with no claim to its session. */
  lemma CommitStays(db: L.Db, n: L.Db, r: L.Measured, keg: Option<string>, calibration: Option<string>, captured: bool, sid: Option<string>)
    requires L.FinalizeResult(db, r, keg, calibration, captured).Ok? && SameSettings(db, n) && OnlySid(db, n, sid)
    requires L.HasResult(db.results, r.device, r.boot, r.sequence) ==> L.HasResult(n.results, r.device, r.boot, r.sequence)
    requires r.sid.Some? ==> r.sid != sid
    ensures L.FinalizeResult(n, r, keg, calibration, captured).Ok?
  {
    hide L.HasResult, Plausible, L.InsertPour, OnlySid;
    var session := if r.sid.Some? && r.sid.value in db.sessions then Some(db.sessions[r.sid.value]) else None;
    var theKeg := if session.Some? then session.value.keg else if !captured && keg.None? then db.openKeg else keg;
    var theCalibration := if session.Some? then session.value.calibration
                          else if !captured && calibration.None? then db.activeCalibration else calibration;
    if L.InsertPour(db, r, session, theKeg, theCalibration).Ok? {
      InsertStays(db, n, r, session, theKeg, theCalibration, sid);
    }
  }

  lemma AttributedIsBound(db: L.Db, r: L.Measured, keg: Option<string>, calibration: Option<string>, captured: bool)
    requires L.FinalizeResult(db, r, keg, calibration, captured).Ok? && r.attributed
    ensures L.Bound(db, r)
  {
    hide L.HasResult, Plausible, L.InsertPour, L.Bound;
  }

  /** Taking one retained result in leaves the other ones acceptable. */
  lemma OthersAcceptable(w: World, k: Boot, o: F.Outcome, keg: Option<string>, calibration: Option<string>, captured: bool,
                         p: F.Outcome, keg': Option<string>, calibration': Option<string>, captured': bool)
    requires Core(w) && k in w.books && InHistory(w.books[k], o)
    requires Acceptable(w, k, o, keg, calibration, captured) && Acceptable(w, k, p, keg', calibration', captured')
    requires o.sequence != p.sequence
    ensures Acceptable(HostTakesResult(w, k, o, keg, calibration, captured), k, p, keg', calibration', captured')
  {
    var (r, q) := (MeasuredOf(Meant(k.0, k.1, o)), MeasuredOf(Meant(k.0, k.1, p)));
    MeantSid(k, o);
    MeantSid(k, p);
    TakenTables(w, k, o, keg, calibration, captured);
    hide Core, InHistory, WithinEnvelope, L.FinalizeResult, HostTakesResult, MeasuredOf, Meant, L.HasResult, HexText, SameSettings, OnlySid;
    if WithinEnvelope(o) && WithinEnvelope(p) {
      var n := L.FinalizeResult(w.db, r, keg, calibration, captured).value.0;
      FinalizeSettings(w.db, r, keg, calibration, captured);
      FinalizeSids(w.db, r, keg, calibration, captured);
      LedgerTheorems.FinalizeGrows(w.db, r, keg, calibration, captured);
      HasStays(w.db.results, n.results, q.device, q.boot, q.sequence);
      if q.sid.Some? && q.sid == r.sid {
        AttributedIsBound(w.db, r, keg, calibration, captured);
        AttributedIsBound(w.db, q, keg', calibration', captured');
        assert false;
      }
      CommitStays(w.db, n, q, keg', calibration', captured', r.sid);
    }
  }

  lemma MeantSid(k: Boot, o: F.Outcome)
    ensures var r := MeasuredOf(Meant(k.0, k.1, o)); (r.sid.Some? <==> r.attributed) && r.sequence == o.sequence
  {
  }

  lemma HasStays(rows: seq<L.ResultRow>, more: seq<L.ResultRow>, device: string, boot: string, sequence: nat)
    requires rows <= more
    ensures L.HasResult(rows, device, boot, sequence) ==> L.HasResult(more, device, boot, sequence)
  {
    if L.HasResult(rows, device, boot, sequence) {
      var i :| 0 <= i < |rows| && rows[i].device == device && rows[i].boot == boot && rows[i].sequence == sequence;
      assert more[i] == rows[i];
    }
  }

  /** What a result taken in does to the tables. */
  lemma TakenTables(w: World, k: Boot, o: F.Outcome, keg: Option<string>, calibration: Option<string>, captured: bool)
    requires Core(w) && k in w.books && InHistory(w.books[k], o) && Acceptable(w, k, o, keg, calibration, captured)
    ensures HostTakesResult(w, k, o, keg, calibration, captured).db ==
              if WithinEnvelope(o) then L.FinalizeResult(w.db, MeasuredOf(Meant(k.0, k.1, o)), keg, calibration, captured).value.0 else w.db
  {
    hide Core, InHistory, WithinEnvelope, L.FinalizeResult, ReadResult, ResultFields, MeasuredOf, Meant, Sane, Kept,
      IsIdentity, GoodOutcome, L.HasResult, HexText;
    KnownBoot(w, k);
    HistoryGood(w.books[k], o);
    ResultReadBack(k.0, k.1, o);
  }

  // ---- the store can be emptied ----

  /** The host would accept it, with some keg and calibration captured or none. */
  ghost predicate CanTake(w: World, k: Boot, o: F.Outcome) {
    exists keg, calibration, captured :: Acceptable(w, k, o, keg, calibration, captured)
  }

  ghost predicate CanTakeAll(w: World, k: Boot)
    requires k in w.books
  {
    forall o :: o in w.books[k].m.results ==> CanTake(w, k, o)
  }

  /** Everything the host had it still has. */
  ghost predicate HostKeeps(w: World, n: World) {
    && w.db.results <= n.db.results && w.quarantined <= n.quarantined && n.db.checkpoints == w.db.checkpoints
    && n.live == w.live
  }

  lemma TakenGrows(w: World, k: Boot, o: F.Outcome, keg: Option<string>, calibration: Option<string>, captured: bool)
    ensures HostKeeps(w, HostTakesResult(w, k, o, keg, calibration, captured))
  {
    hide L.FinalizeResult, ReadResult, ResultFields, MeasuredOf, L.HasResult, HexText;
    var read := ReadResult(ResultFields(k.0, k.1, o));
    if read.Ok? && L.FinalizeResult(w.db, MeasuredOf(read.value), keg, calibration, captured).Ok? {
      LedgerTheorems.FinalizeGrows(w.db, MeasuredOf(read.value), keg, calibration, captured);
      LedgerBilling.FinalizeKeepsCheckpoints(w.db, MeasuredOf(read.value), keg, calibration, captured);
    }
  }

  lemma DurableStays(w: World, n: World, k: Boot, o: F.Outcome)
    requires HostKeeps(w, n) && Durable(w, k, o)
    ensures Durable(n, k, o)
  {
    hide WithinEnvelope, HexText;
    var (rows, more) := if WithinEnvelope(o) then (w.db.results, n.db.results) else (w.quarantined, n.quarantined);
    var i :| 0 <= i < |rows| && rows[i].device == k.0 && rows[i].boot == BootText(k) && rows[i].sequence == o.sequence && rows[i].pulses == o.pulses;
    assert more[i] == rows[i];
  }

  /** From here: nothing but the store, the channel and the host's tables has changed. */
  ghost predicate Onward(w: World, n: World, k: Boot) {
    && Core(n) && HostKeeps(w, n) && k in w.books && k in n.books
    && n.books[k].m.active == w.books[k].m.active && n.books[k].m.lifetime == w.books[k].m.lifetime
    && n.books[k].m.recovery == w.books[k].m.recovery
    && n.books[k].fed == w.books[k].fed && n.books[k].clamped == w.books[k].clamped
  }

  lemma OnwardTrans(a: World, b: World, c: World, k: Boot)
    requires Onward(a, b, k) && Onward(b, c, k)
    ensures Onward(a, c, k)
  {
    hide Core;
  }

  lemma OnwardSelf(w: World, k: Boot)
    requires Core(w) && k in w.books
    ensures Onward(w, w, k)
  {
    hide Core;
  }

  lemma SomeContext(w: World, k: Boot, o: F.Outcome) returns (keg: Option<string>, calibration: Option<string>, captured: bool)
    requires CanTake(w, k, o)
    ensures Acceptable(w, k, o, keg, calibration, captured)
  {
    hide Acceptable;
    keg, calibration, captured :| Acceptable(w, k, o, keg, calibration, captured);
  }

  lemma CanTakeSame(w: World, n: World, k: Boot, o: F.Outcome)
    requires CanTake(w, k, o) && n.db == w.db
    ensures CanTake(n, k, o)
  {
    hide Acceptable;
    var keg, calibration, captured := SomeContext(w, k, o);
    SameTables(w, n, k, o, keg, calibration, captured);
  }

  /** The host hears and takes one retained result; the others stay acceptable. */
  lemma TakeOne(w: World, k: Boot, o: F.Outcome) returns (events: seq<Event>)
    requires Core(w) && k in w.books && o in w.books[k].m.results && ResultMsg(k, o) in w.sent && CanTakeAll(w, k)
    ensures var n := Run(w, events);
            && Core(n) && HostKeeps(w, n) && n.books == w.books && Durable(n, k, o) && AckMsg(k, o.sequence) in n.sent
            && forall p :: p in w.books[k].m.results && p.sequence != o.sequence ==> CanTake(n, k, p)
  {
    hide *;
    RetainedInHistory(w.books[k], o);
    Takes(w, k, o);
    var keg, calibration, captured := SomeContext(w, k, o);
    events := Arrival(k, o, keg, calibration, captured);
    ArrivalAnswers(w, k, o, keg, calibration, captured);
    ArrivalSteps(w, k, o, keg, calibration, captured);
    var line := w.line.(identity := Some(k), connected := true, confirmed := false, results := w.line.results + {ResultMsg(k, o)});
    var m := w.(line := line);
    ResultsSent(w);
    LineKeeps(w, line);
    TakenGrows(m, k, o, keg, calibration, captured);
    SameHost(w, m, Run(w, events));
    SameTables(w, m, k, o, keg, calibration, captured);
    forall p | p in w.books[k].m.results && p.sequence != o.sequence ensures CanTake(Run(w, events), k, p) {
      Takes(w, k, p);
      var keg', calibration', captured' := SomeContext(w, k, p);
      SameTables(w, m, k, p, keg', calibration', captured');
      OthersAcceptable(m, k, o, keg, calibration, captured, p, keg', calibration', captured');
      CanTakeIn(Run(w, events), k, p, keg', calibration', captured');
    }
  }

  lemma Takes(w: World, k: Boot, o: F.Outcome)
    requires k in w.books && o in w.books[k].m.results && CanTakeAll(w, k)
    ensures CanTake(w, k, o)
  {
    hide CanTake;
  }

  lemma CanTakeIn(w: World, k: Boot, o: F.Outcome, keg: Option<string>, calibration: Option<string>, captured: bool)
    requires Acceptable(w, k, o, keg, calibration, captured)
    ensures CanTake(w, k, o)
  {
    hide Acceptable;
  }

  lemma SameHost(w: World, m: World, n: World)
    requires HostKeeps(m, n) && m.db == w.db && m.quarantined == w.quarantined && m.live == w.live
    ensures HostKeeps(w, n)
  {
  }

  lemma Emitted(w: World, device: string, k: Boot, o: F.Outcome)
    requires Core(w) && device in w.live && k == LiveBoot(w, device) && k in w.books && o in w.books[k].m.results
    ensures Step(w, EmitResult(device, o)) == w.(sent := w.sent + {ResultMsg(k, o)})
    ensures Core(w.(sent := w.sent + {ResultMsg(k, o)}))
  {
    hide Core, IsIdentity;
    StepKeeps(w, EmitResult(device, o));
  }

  lemma RunThree(w: World, e: Event, es: seq<Event>, f: Event)
    ensures Run(w, [e] + es + [f]) == Step(Run(Step(w, e), es), f)
  {
    hide Run, Step;
    RunPush(w, [e] + es, f);
    RunAppend(w, [e], es);
    RunOne(w, e);
  }

  /** One retained result is sent, taken, acknowledged and released. */
  lemma DeliverOne(w: World, device: string, k: Boot, o: F.Outcome) returns (events: seq<Event>)
    requires Core(w) && device in w.live && k == LiveBoot(w, device) && k in w.books && o in w.books[k].m.results && CanTakeAll(w, k)
    ensures var n := Run(w, events);
            && Onward(w, n, k) && n.books[k].m.results == Others(w.books[k].m.results, o.sequence)
            && Durable(n, k, o) && CanTakeAll(n, k)
  {
    hide *;
    var sent := w.(sent := w.sent + {ResultMsg(k, o)});
    Emitted(w, device, k, o);
    StillTakes(w, sent, k);
    var es := TakeOne(sent, k, o);
    var taken := Run(sent, es);
    SameLive(w, sent, taken, device, k);
    var b := AckDelivered(taken, device, k, o.sequence);
    events := [EmitResult(device, o)] + es + [DeliverAck(device, AckMsg(k, o.sequence))];
    RunThree(w, EmitResult(device, o), es, DeliverAck(device, AckMsg(k, o.sequence)));
    RunKeeps(w, events);
    LetGoResults(taken.books[k], b, o.sequence);
    AfterAck(w, taken, Run(w, events), k, b, o);
  }

  lemma StillTakes(w: World, n: World, k: Boot)
    requires k in w.books && CanTakeAll(w, k) && n.db == w.db && n.books == w.books
    ensures CanTakeAll(n, k)
  {
    hide CanTake;
    forall o | o in n.books[k].m.results ensures CanTake(n, k, o) {
      CanTakeSame(w, n, k, o);
    }
  }

  lemma SameLive(w: World, sent: World, taken: World, device: string, k: Boot)
    requires device in w.live && k == LiveBoot(w, device) && HostKeeps(sent, taken)
    requires sent.live == w.live && sent.db == w.db && sent.quarantined == w.quarantined
    ensures device in taken.live && k == LiveBoot(taken, device) && HostKeeps(w, taken)
  {
  }

  lemma AfterAck(w: World, taken: World, n: World, k: Boot, b: Books, o: F.Outcome)
    requires k in w.books && taken.books == w.books && HostKeeps(w, taken) && Durable(taken, k, o) && Core(n)
    requires forall p :: p in w.books[k].m.results && p.sequence != o.sequence ==> CanTake(taken, k, p)
    requires n == taken.(books := taken.books[k := b])
    requires b.m.results == Others(w.books[k].m.results, o.sequence) && b.m.active == w.books[k].m.active
    requires b.m.lifetime == w.books[k].m.lifetime && b.m.recovery == w.books[k].m.recovery
    requires b.fed == w.books[k].fed && b.clamped == w.books[k].clamped
    ensures Onward(w, n, k) && n.books[k].m.results == Others(w.books[k].m.results, o.sequence)
    ensures Durable(n, k, o) && CanTakeAll(n, k)
  {
    hide Core, CanTake, Durable;
    DurableSame(taken, n, k, o);
    forall p | p in n.books[k].m.results ensures CanTake(n, k, p) {
      OthersMembers(w.books[k].m.results, o.sequence, p);
      CanTakeSame(taken, n, k, p);
    }
  }

  lemma DurableSame(w: World, n: World, k: Boot, o: F.Outcome)
    requires Durable(w, k, o) && n.db == w.db && n.quarantined == w.quarantined
    ensures Durable(n, k, o)
  {
    hide WithinEnvelope, Recorded;
  }

  /** So a store the host accepts can be emptied, all of it durable then. */
  lemma {:induction false} EmptyStore(w: World, device: string, k: Boot) returns (events: seq<Event>)
    requires Core(w) && device in w.live && k == LiveBoot(w, device) && k in w.books && CanTakeAll(w, k)
    ensures var n := Run(w, events);
            Onward(w, n, k) && n.books[k].m.results == [] && forall o :: o in w.books[k].m.results ==> Durable(n, k, o)
    decreases |w.books[k].m.results|
  {
    hide *;
    if w.books[k].m.results == [] {
      events := [];
      NoEvents(w);
      OnwardSelf(w, k);
    } else {
      var o := w.books[k].m.results[0];
      var first := DeliverOne(w, device, k, o);
      var m := Run(w, first);
      OthersFewer(w.books[k].m.results, o);
      OnwardFacts(w, m, device, k);
      var rest := EmptyStore(m, device, k);
      events := first + rest;
      RunAppend(w, first, rest);
      var n := Run(m, rest);
      OnwardTrans(w, m, n, k);
      OnwardFacts(m, n, device, k);
      forall p | p in w.books[k].m.results ensures Durable(n, k, p) {
        OthersMembers(w.books[k].m.results, o.sequence, p);
        if p.sequence == o.sequence {
          OneOfItsNumber(w, k, o, p);
          DurableStays(m, n, k, o);
        }
      }
    }
  }

  lemma NoEvents(w: World)
    ensures Run(w, []) == w
  {
  }

  lemma OnwardFacts(w: World, n: World, device: string, k: Boot)
    requires Onward(w, n, k) && device in w.live && k == LiveBoot(w, device)
    ensures Core(n) && HostKeeps(w, n) && device in n.live && k == LiveBoot(n, device) && k in n.books
  {
    hide Core;
  }

  lemma OneOfItsNumber(w: World, k: Boot, o: F.Outcome, p: F.Outcome)
    requires Core(w) && k in w.books && o in w.books[k].m.results && p in w.books[k].m.results && o.sequence == p.sequence
    ensures o == p
  {
    hide Core, Sane, Balanced, InHistory;
    KnownBoot(w, k);
    SaneBalanced(w.books[k]);
    RetainedInHistory(w.books[k], o);
    RetainedInHistory(w.books[k], p);
    SameSequence(w.books[k], o, p);
  }

  /** Progress: from every state a run can reach, if the host would accept all the
      live boot retains, some continuation takes it all over and empties the store. */
  lemma StoreCanEmpty(cfg: F.Config, gateUs: U32, before: seq<Event>, device: string, k: Boot) returns (after: seq<Event>)
    ensures var w := Run(Opening(cfg, gateUs), before);
            (device in w.live && k == LiveBoot(w, device) && k in w.books && CanTakeAll(w, k)) ==>
              var n := Run(w, after);
              && k in n.books && n.books[k].m.results == [] && n.live == w.live
              && n.books[k].m.active == w.books[k].m.active && n.books[k].fed == w.books[k].fed
              && forall o :: o in w.books[k].m.results ==> Durable(n, k, o)
  {
    hide Run, Core, CanTakeAll, Durable;
    OpeningCore(cfg, gateUs);
    RunKeeps(Opening(cfg, gateUs), before);
    var w := Run(Opening(cfg, gateUs), before);
    after := [];
    if device in w.live && k == LiveBoot(w, device) && k in w.books && CanTakeAll(w, k) {
      after := EmptyStore(w, device, k);
    }
  }

  // ---- and the recovery counter booked ----

  /** The counters the live boot would report can be booked at this uptime, and are
      not those queued last. */
  predicate CanBook(w: World, k: Boot, rejected: U32, uptime: U32)
    requires k in w.books
  {
    var c := CountersOf(w.books[k].m, rejected);
    w.line.cache != Some(c) && Accepted(w.db, k, c, uptime)
  }

  lemma RecoverySettings(db: L.Db, device: string, boot: string, recovery: int, accepted: int, uptime: int)
    requires L.CheckReading(db, device, boot, recovery, accepted, uptime).None?
    ensures var f := L.CheckpointRecovery(db, device, boot, recovery, accepted, uptime, None, None, true);
            && f.Ok? && SameSettings(db, f.value.0) && OnlySid(db, f.value.0, None)
            && f.value.0.results == db.results
            && (device, boot) in f.value.0.checkpoints && f.value.0.checkpoints[(device, boot)].recovery == recovery
  {
    LedgerRuns.CheckedNonnegative(db, device, boot, recovery, accepted, uptime);
    hide L.CheckReading;
  }

  lemma BookedTables(w: World, k: Boot, c: Counters, uptime: U32)
    requires Stamped(k, c, uptime) in w.line.readings && Accepted(w.db, k, c, uptime)
    ensures var n := Step(w, TakeCounters(Stamped(k, c, uptime), None, None, true));
            && n == w.(db := n.db) && SameSettings(w.db, n.db) && OnlySid(w.db, n.db, None) && n.db.results == w.db.results
            && (k.0, BootText(k)) in n.db.checkpoints && n.db.checkpoints[(k.0, BootText(k))].recovery == c.recovery
  {
    hide HexText, Plausible, IsFaultToken, L.CheckpointRecovery, L.CheckReading, ParseCounterSnapshot, CountersFields, SameSettings, OnlySid;
    CountersParsed(c, w.gateUs, uptime);
    RecoverySettings(w.db, k.0, BootText(k), c.recovery, c.accepted, uptime);
  }

  /** A board that reports its boot and then its counters to a host that has just shaken hands with it. */
  function Reporting(device: string, k: Boot, c: Counters): seq<Event> {
    [EmitCounters(device, c.rejected), EmitStatus(device), Handshake(k)] + [ReceiveStatus(StatusMsg(k))]
  }

  lemma Reports(w: World, device: string, k: Boot, c: Counters)
    requires device in w.live && k == LiveBoot(w, device) && k in w.books && c == CountersOf(w.books[k].m, c.rejected)
    ensures Run(w, Reporting(device, k, c)) ==
              w.(sent := w.sent + {CountersMsg(c, k)} + {StatusMsg(k)},
                 line := w.line.(identity := Some(k), connected := true, confirmed := true))
  {
    hide Run;
    RunPush(w, [EmitCounters(device, c.rejected), EmitStatus(device), Handshake(k)], ReceiveStatus(StatusMsg(k)));
    ThreeSteps(w, EmitCounters(device, c.rejected), EmitStatus(device), Handshake(k));
    hide HexText, CountersOf;
  }

  lemma BookedCanTake(w: World, n: World, k: Boot)
    requires k in w.books && n.books == w.books && CanTakeAll(w, k)
    requires SameSettings(w.db, n.db) && OnlySid(w.db, n.db, None) && n.db.results == w.db.results
    ensures CanTakeAll(n, k)
  {
    hide SameSettings, OnlySid, CanTake;
    forall o | o in n.books[k].m.results ensures CanTake(n, k, o) {
      BookedTakes(w, n, k, o);
    }
  }

  lemma BookedTakes(w: World, n: World, k: Boot, o: F.Outcome)
    requires CanTake(w, k, o) && SameSettings(w.db, n.db) && OnlySid(w.db, n.db, None) && n.db.results == w.db.results
    ensures CanTake(n, k, o)
  {
    hide SameSettings, OnlySid, WithinEnvelope, L.FinalizeResult, MeasuredOf, Meant, L.HasResult;
    var keg, calibration, captured := SomeContext(w, k, o);
    if WithinEnvelope(o) {
      CommitStays(w.db, n.db, MeasuredOf(Meant(k.0, k.1, o)), keg, calibration, captured, None);
    }
    CanTakeIn(n, k, o, keg, calibration, captured);
  }

  lemma BookCounters(w: World, device: string, k: Boot, rejected: U32, uptime: U32) returns (events: seq<Event>)
    requires Core(w) && device in w.live && k == LiveBoot(w, device) && k in w.books && CanTakeAll(w, k)
    requires CanBook(w, k, rejected, uptime)
    ensures var n := Run(w, events);
            && Core(n) && n.live == w.live && n.books == w.books && CanTakeAll(n, k)
            && (k.0, BootText(k)) in n.db.checkpoints && n.db.checkpoints[(k.0, BootText(k))].recovery == w.books[k].m.recovery
  {
    var c := CountersOf(w.books[k].m, rejected);
    var m := w.(sent := w.sent + {CountersMsg(c, k)} + {StatusMsg(k)},
                line := w.line.(identity := Some(k), connected := true, confirmed := true));
    var heard := m.(line := m.line.(cache := Some(c), readings := m.line.readings + {Stamped(k, c, uptime)}));
    var message := CountersMsg(c, k);
    hide *;
    CountersAre(w, k, rejected, uptime);
    events := Reporting(device, k, c) + Booking(message, k, uptime);
    Reports(w, device, k, c);
    RunAppend(w, Reporting(device, k, c), Booking(message, k, uptime));
    BookingSteps(message, k, uptime);
    TwoSteps(m, ReceiveCounters(message, uptime), TakeCounters(Stamped(k, c, uptime), None, None, true));
    Hears(m, k, c);
    ReadingReceived(m, message, k, uptime);
    SameAccepted(w, heard, k, c, uptime);
    BookedTables(heard, k, c, uptime);
    RunKeeps(w, events);
    BookedCanTake(w, Run(w, events), k);
  }

  lemma Hears(w: World, k: Boot, c: Counters)
    requires w.line.connected && w.line.confirmed && w.line.identity == Some(k) && w.line.cache != Some(c)
    ensures Listening(w, k, c)
  {
  }

  lemma SameAccepted(w: World, n: World, k: Boot, c: Counters, uptime: U32)
    requires Accepted(w.db, k, c, uptime) && n.db == w.db
    ensures Accepted(n.db, k, c, uptime)
  {
  }

  lemma CountersAre(w: World, k: Boot, rejected: U32, uptime: U32)
    requires k in w.books && CanBook(w, k, rejected, uptime)
    ensures var c := CountersOf(w.books[k].m, rejected);
            && w.line.cache != Some(c) && Accepted(w.db, k, c, uptime)
            && c.rejected == rejected && c.recovery == w.books[k].m.recovery
  {
    hide Accepted;
  }

  /** The end that `ExactlyOnce` speaks of can be reached: from every state of every
      run, with nothing open on the live boot, no clamp fired, everything it
      retains acceptable and its counters bookable, some continuation ends with
      every pulse fed into that boot held by the host, once. */
  lemma ExactlyOnceIsReached(cfg: F.Config, gateUs: U32, before: seq<Event>, device: string, k: Boot, rejected: U32, uptime: U32)
    returns (after: seq<Event>)
    ensures var w := Run(Opening(cfg, gateUs), before);
            (device in w.live && k == LiveBoot(w, device) && k in w.books && w.books[k].m.active.None? && !w.books[k].clamped
             && CanTakeAll(w, k) && CanBook(w, k, rejected, uptime)) ==>
              var n := Run(Opening(cfg, gateUs), before + after);
              && k in n.books && n.books[k].m.results == [] && n.books[k].fed == w.books[k].fed
              && HostPulses(n, k) == w.books[k].fed
  {
    hide *;
    OpeningCore(cfg, gateUs);
    RunKeeps(Opening(cfg, gateUs), before);
    var w := Run(Opening(cfg, gateUs), before);
    after := [];
    if device in w.live && k == LiveBoot(w, device) && k in w.books && w.books[k].m.active.None? && !w.books[k].clamped
       && CanTakeAll(w, k) && CanBook(w, k, rejected, uptime) {
      var book := BookCounters(w, device, k, rejected, uptime);
      var m := Run(w, book);
      LiveIs(w, m, device);
      var empty := EmptyStore(m, device, k);
      after := book + empty;
      RunAppend(Opening(cfg, gateUs), before, after);
      RunAppend(w, book, empty);
      var n := Run(m, empty);
      OnwardBooks(m, n, k);
      ExactlyOnce(cfg, gateUs, before + after, k);
      NothingLeft(n, k);
      PreviousIs(n.db, k);
    }
  }

  lemma LiveIs(w: World, n: World, device: string)
    requires device in w.live && n.live == w.live
    ensures LiveBoot(n, device) == LiveBoot(w, device)
  {
  }

  lemma OnwardBooks(w: World, n: World, k: Boot)
    requires Onward(w, n, k)
    ensures k in w.books && k in n.books && n.db.checkpoints == w.db.checkpoints
    ensures n.books[k].m.active == w.books[k].m.active && n.books[k].m.recovery == w.books[k].m.recovery
    ensures n.books[k].fed == w.books[k].fed && n.books[k].clamped == w.books[k].clamped
  {
    hide Core;
  }

  lemma NothingLeft(w: World, k: Boot)
    requires k in w.books && w.books[k].m.results == [] && w.books[k].m.active.None?
    ensures Delivered(w, k)
  {
  }

  lemma PreviousIs(db: L.Db, k: Boot)
    requires (k.0, BootText(k)) in db.checkpoints
    ensures L.Previous(db, k.0, BootText(k)) == db.checkpoints[(k.0, BootText(k))]
  {
  }
}
