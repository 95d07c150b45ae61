/** What a STATUS tells the host over whole runs: which event it shows, and how its
    arm time counts down to the tick that ends the session. */
module StatusReport {
  import opened Common
  import opened Decimal
  import opened Frames
  import opened RoundTrip
  import opened Conservation
  import opened PulseIntegrity
  import opened Wire
  import HostResult
  import F = Firmware
  import opened Runs
  import opened Twin
  import opened Refinement
  import opened Timing

  // ---- the frame ----

  const STATUS_KEYS: seq<string> :=
    ["state", "boot", "seq", "sid", "attributed", "pulses", "lifetime", "uptime", "next", "retained", "arm_left"]

  /** A length and one character tell a status's keys apart. */
  function KeyNumber(s: string): int
    requires |s| >= 1
  {
    match |s|
    case 3 => if s[1] == 'e' then 2 else 3
    case 4 => if s[0] == 'b' then 1 else 8
    case 5 => 0
    case 6 => if s[0] == 'p' then 5 else 7
    case 10 => 4
    case _ => if s[0] == 'l' then 6 else if s[0] == 'r' then 9 else 10
  }

  lemma KeysDistinct()
    ensures forall i, j :: 0 <= i < j < 11 ==> STATUS_KEYS[i] != STATUS_KEYS[j]
  {
    assert KeyNumber(STATUS_KEYS[0]) == 0 && KeyNumber(STATUS_KEYS[1]) == 1 && KeyNumber(STATUS_KEYS[2]) == 2;
    assert KeyNumber(STATUS_KEYS[3]) == 3 && KeyNumber(STATUS_KEYS[4]) == 4 && KeyNumber(STATUS_KEYS[5]) == 5;
    assert KeyNumber(STATUS_KEYS[6]) == 6 && KeyNumber(STATUS_KEYS[7]) == 7 && KeyNumber(STATUS_KEYS[8]) == 8;
    assert KeyNumber(STATUS_KEYS[9]) == 9 && KeyNumber(STATUS_KEYS[10]) == 10;
    assert forall k :: 0 <= k < 11 ==> |STATUS_KEYS[k]| >= 1 && KeyNumber(STATUS_KEYS[k]) == k;
  }

  lemma FieldOf(boot: U32, s: F.Snapshot, now: U32, k: nat)
    requires k < 11
    ensures Lookup(StatusFields(boot, s, now), STATUS_KEYS[k]) == Some(StatusFields(boot, s, now)[k].1)
  {
    hide HexText, Print, StateName, Lookup;
    KeysDistinct();
    var f := StatusFields(boot, s, now);
    assert forall i :: 0 <= i < 11 ==> f[i].0 == STATUS_KEYS[i];
    HostResult.FieldAt(f, k);
  }

  lemma StatusValid(requestId: string, boot: U32, m: F.Machine, now: U32)
    requires Inv(m) && IsRequestId(requestId)
    ensures var frame := StatusFrame(requestId, boot, F.TakeSnapshot(m, now), now);
            ValidHeader(frame) && ValidFields(frame.fields)
  {
    var s := F.TakeSnapshot(m, now);
    SnapshotSid(m, now);
    hide F.TakeSnapshot, Inv, HexText, Print, StateName, IsValue, F.ValidSid;
    HostResult.StateNames(s.state);
    HostResult.PrintIsValue(s.sequence);
    HostResult.PrintIsValue(s.sessionPulses);
    HostResult.PrintIsValue(s.lifetime);
    HostResult.PrintIsValue(now);
    HostResult.PrintIsValue(s.nextSequence);
    HostResult.PrintIsValue(s.retained);
    HostResult.PrintIsValue(s.armRemainingMs);
    HostResult.WordsAreValues(HexText(boot, 16));
    if s.attributed {
      HostResult.SidIsValue(s.sid);
    }
    KeysDistinct();
    KeysAreKeys();
    var f := StatusFields(boot, s, now);
    assert forall i :: 0 <= i < 11 ==> f[i].0 == STATUS_KEYS[i];
  }

  lemma KeysAreKeys()
    ensures forall k :: 0 <= k < 11 ==> IsKey(STATUS_KEYS[k])
    ensures IsOperation("STATUS") && IsKind("R")
  {
    assert IsKey("state") && IsKey("boot") && IsKey("seq") && IsKey("sid") && IsKey("attributed") && IsKey("pulses");
    assert IsKey("lifetime") && IsKey("uptime") && IsKey("next") && IsKey("retained") && IsKey("arm_left");
  }

  lemma SnapshotSid(m: F.Machine, now: U32)
    requires Inv(m)
    ensures var s := F.TakeSnapshot(m, now); s.attributed ==> F.ValidSid(s.sid)
  {
    hide F.ValidSid;
    if m.active.None? && |m.results| > 0 {
      assert InStore(m.results[|m.results| - 1], Frontier(m), m.lifetime);
    }
  }

  // ---- which event it shows ----

  /** The number, session and pulses of one event as the fields show them. */
  predicate Shows(f: seq<(string, string)>, sequence: U32, sid: string, attributed: bool, pulses: nat) {
    && Lookup(f, "seq") == Some(Print(sequence)) && Lookup(f, "pulses") == Some(Print(pulses))
    && Lookup(f, "attributed") == Some(if attributed then "1" else "0")
    && Lookup(f, "sid") == Some(if attributed then sid else "none")
  }

  ghost predicate Newest(m: F.Machine, r: F.Outcome) {
    r in m.results && forall i :: 0 <= i < |m.results| ==> m.results[i].sequence <= r.sequence
  }

  lemma LastIsNewest(m: F.Machine)
    requires Inv(m) && m.results != []
    ensures Newest(m, m.results[|m.results| - 1])
    ensures m.results[|m.results| - 1].sequence >= 1
    ensures m.results[|m.results| - 1].attributed ==> m.results[|m.results| - 1].sid != ""
  {
    hide PulseSum;
    assert InStore(m.results[|m.results| - 1], Frontier(m), m.lifetime);
  }

  lemma NewestUnique(m: F.Machine, r: F.Outcome, q: F.Outcome)
    requires Inv(m) && Newest(m, r) && Newest(m, q)
    ensures r == q
  {
    var i :| 0 <= i < |m.results| && m.results[i] == r;
    var j :| 0 <= j < |m.results| && m.results[j] == q;
  }

  /** In every run, a STATUS decodes on the host and shows the open event; with none
      open the newest result still retained, by number; with none retained no
      event; and beside it the counts as they are. */
  lemma StatusDelivered(cfg: F.Config, ops: seq<F.Op>, requestId: string, boot: U32, now: U32, r: F.Outcome)
    requires IsRequestId(requestId)
    ensures var m := F.Run(cfg, F.FRESH, ops);
            var frame := StatusFrame(requestId, boot, F.TakeSnapshot(m, now), now);
            var f := frame.fields;
            && Decode(SendFields(frame)) == Ok(frame)
            && (m.active.Some? ==>
                  Shows(f, m.active.value.sequence, m.active.value.sid, m.active.value.attributed, m.active.value.pulses))
            && (m.active.None? && Newest(m, r) ==> Shows(f, r.sequence, r.sid, r.attributed, r.pulses))
            && (m.active.None? && m.results == [] ==> Lookup(f, "seq") == Some("none") && Lookup(f, "sid") == Some("none")
                                                      && Lookup(f, "pulses") == Some(Print(0)))
            && Lookup(f, "boot") == Some(HexText(boot, 16)) && Lookup(f, "uptime") == Some(Print(now))
            && Lookup(f, "lifetime") == Some(Print(m.lifetime)) && Lookup(f, "next") == Some(Print(m.nextSequence))
            && Lookup(f, "retained") == Some(Print(|m.results|)) && Lookup(f, "state") == Some(StateName(m.state))
  {
    hide *;
    var m := F.Run(cfg, F.FRESH, ops);
    PowerOnConsistent(cfg, ops);
    ConsistentInv(m);
    StatusSent(requestId, boot, m, now);
    StatusShows(requestId, boot, m, now, r);
  }

  lemma ConsistentInv(m: F.Machine)
    requires Consistent(m)
    ensures Inv(m)
  {
  }

  lemma StatusSent(requestId: string, boot: U32, m: F.Machine, now: U32)
    requires Inv(m) && IsRequestId(requestId)
    ensures var frame := StatusFrame(requestId, boot, F.TakeSnapshot(m, now), now);
            Decode(SendFields(frame)) == Ok(frame)
  {
    var frame := StatusFrame(requestId, boot, F.TakeSnapshot(m, now), now);
    StatusFits(requestId, boot, m, now);
    StatusValid(requestId, boot, m, now);
    FrameLengthExact(frame);
    hide Payload, Checked, Decode, ValidFields, ValidHeader, FrameLength, StatusFields, F.TakeSnapshot, Inv;
    DecodeEncode(frame);
  }

  lemma StatusShows(requestId: string, boot: U32, m: F.Machine, now: U32, r: F.Outcome)
    requires Inv(m)
    ensures var f := StatusFrame(requestId, boot, F.TakeSnapshot(m, now), now).fields;
            && (m.active.Some? ==>
                  Shows(f, m.active.value.sequence, m.active.value.sid, m.active.value.attributed, m.active.value.pulses))
            && (m.active.None? && Newest(m, r) ==> Shows(f, r.sequence, r.sid, r.attributed, r.pulses))
            && (m.active.None? && m.results == [] ==> Lookup(f, "seq") == Some("none") && Lookup(f, "sid") == Some("none")
                                                      && Lookup(f, "pulses") == Some(Print(0)))
            && Lookup(f, "boot") == Some(HexText(boot, 16)) && Lookup(f, "uptime") == Some(Print(now))
            && Lookup(f, "lifetime") == Some(Print(m.lifetime)) && Lookup(f, "next") == Some(Print(m.nextSequence))
            && Lookup(f, "retained") == Some(Print(|m.results|)) && Lookup(f, "state") == Some(StateName(m.state))
  {
    hide HexText, Print, StateName, Lookup, F.ValidSid, Newest, Store;
    var s := F.TakeSnapshot(m, now);
    FieldsOf(boot, s, now);
    if m.active.None? && m.results != [] {
      LastIsNewest(m);
      if Newest(m, r) {
        NewestUnique(m, r, m.results[|m.results| - 1]);
      }
    } else if Newest(m, r) {
      SomeNewest(m, r);
    }
    OpenSid(m);
  }

  lemma SomeNewest(m: F.Machine, r: F.Outcome)
    requires Newest(m, r)
    ensures m.results != []
  {
  }

  lemma OpenSid(m: F.Machine)
    requires Inv(m)
    ensures m.active.Some? ==> m.active.value.sequence >= 1 && (m.active.value.attributed ==> m.active.value.sid != "")
  {
    hide Store;
  }

  lemma FieldsOf(boot: U32, s: F.Snapshot, now: U32)
    ensures var f := StatusFields(boot, s, now);
            && Lookup(f, "state") == Some(StateName(s.state)) && Lookup(f, "boot") == Some(HexText(boot, 16))
            && Lookup(f, "seq") == Some(if s.sequence == 0 then "none" else Print(s.sequence))
            && Lookup(f, "sid") == Some(if s.attributed && s.sid != "" then s.sid else "none")
            && Lookup(f, "attributed") == Some(if s.attributed then "1" else "0")
            && Lookup(f, "pulses") == Some(Print(s.sessionPulses)) && Lookup(f, "lifetime") == Some(Print(s.lifetime))
            && Lookup(f, "uptime") == Some(Print(now)) && Lookup(f, "next") == Some(Print(s.nextSequence))
            && Lookup(f, "retained") == Some(Print(s.retained)) && Lookup(f, "arm_left") == Some(Print(s.armRemainingMs))
  {
    hide HexText, Print, StateName, Lookup;
    forall k | 0 <= k < 11 ensures Lookup(StatusFields(boot, s, now), STATUS_KEYS[k]) == Some(StatusFields(boot, s, now)[k].1) {
      FieldOf(boot, s, now, k);
    }
    assert STATUS_KEYS[0] == "state" && STATUS_KEYS[1] == "boot" && STATUS_KEYS[2] == "seq" && STATUS_KEYS[3] == "sid"
        && STATUS_KEYS[4] == "attributed" && STATUS_KEYS[5] == "pulses" && STATUS_KEYS[6] == "lifetime" && STATUS_KEYS[7] == "uptime"
        && STATUS_KEYS[8] == "next" && STATUS_KEYS[9] == "retained" && STATUS_KEYS[10] == "arm_left";
  }

  // ---- the arm time ----

  lemma LeftOnClock(deadline: nat, at: nat)
    requires at <= deadline < at + TWO_31
    ensures Wrap(Wrap(deadline) - Wrap(at)) == deadline - at
  {
    ElapsedIsTrueDuration(at, deadline);
  }

  lemma ArmLeft(cfg: F.Config, m: F.Machine, t: TwinMachine, now: nat, a: F.Active, deadline: nat, at: nat, boot: U32)
    requires Timers(cfg) && Agrees(cfg, m, t, now) && ArmedUntil(t, m, a, deadline) && now <= at < now + TWO_31
    ensures Lookup(StatusFields(boot, F.TakeSnapshot(m, Wrap(at)), Wrap(at)), "arm_left")
            == Some(Print(if at < deadline then deadline - at else 0))
  {
    TimelyDeadline(cfg, m, t, now, a, deadline);
    FieldsOf(boot, F.TakeSnapshot(m, Wrap(at)), Wrap(at));
    hide Lookup, Print, StatusFields, Agrees, F.Due;
    DueIsUnbounded(at, deadline);
    if at < deadline {
      LeftOnClock(deadline, at);
    }
  }

  /** An armed session, after any quiet calls that have not reached its deadline:
      at any later moment STATUS shows the milliseconds still left, and a tick at
      that moment ends the session if and only if it shows none; until then the
      tick changes nothing. */
  lemma ArmCountsDown(cfg: F.Config, m: F.Machine, t: TwinMachine, now: nat, a: F.Active, deadline: nat, ops: seq<F.Op>, at: nat, boot: U32)
    requires Timers(cfg) && Agrees(cfg, m, t, now) && Held(m) <= m.lifetime && Usable(cfg, m, now, ops)
    requires forall op :: op in ops ==> Quiet(op)
    requires ArmedUntil(t, m, a, deadline) && Clock(now, ops) < deadline && now <= Clock(now, ops)
    requires Clock(now, ops) <= at < Clock(now, ops) + TWO_31
    ensures var n := F.Run(cfg, m, ops);
            var left := if at < deadline then deadline - at else 0;
            && Lookup(StatusFields(boot, F.TakeSnapshot(n, Wrap(at)), Wrap(at)), "arm_left") == Some(Print(left))
            && (left > 0 ==> F.Tick(cfg, n, Wrap(at)).m == n && n.active == Some(a))
            && (left == 0 ==> Expired(F.Tick(cfg, n, Wrap(at)).m, a.sequence, deadline))
  {
    hide *;
    DecidesNow(m, t, now, a, deadline);
    QuietRun(cfg, m, t, now, a, deadline, ops);
    RunMatches(cfg, m, t, now, ops);
    var (n, u, clock) := (F.Run(cfg, m, ops), TwinRun(HostConfig(cfg), t, ops), Clock(now, ops));
    StillArmed(n, u, clock, a, deadline);
    ArmLeft(cfg, n, u, clock, a, deadline, at, boot);
    ArmedTick(cfg, n, u, clock, a, deadline, at);
    IsOpen(n, u, a, deadline);
  }

  lemma IsOpen(m: F.Machine, t: TwinMachine, a: F.Active, deadline: nat)
    requires ArmedUntil(t, m, a, deadline)
    ensures m.active == Some(a)
  {
  }

  lemma DecidesNow(m: F.Machine, t: TwinMachine, now: nat, a: F.Active, deadline: nat)
    requires ArmedUntil(t, m, a, deadline) && now < deadline
    ensures DeadlineDecides(m, t, now, a, deadline)
  {
  }

  lemma StillArmed(m: F.Machine, t: TwinMachine, now: nat, a: F.Active, deadline: nat)
    requires DeadlineDecides(m, t, now, a, deadline) && now < deadline
    ensures ArmedUntil(t, m, a, deadline)
  {
  }

  /** How such a session begins: an ARM that opens an event arms it until its time
      to live is over. */
  lemma ArmBegins(cfg: F.Config, m: F.Machine, t: TwinMachine, now: nat, sid: string, sequence: U32, at: nat, ttl: U32)
    requires Timers(cfg) && Agrees(cfg, m, t, now) && Admissible(F.OpArm(sid, sequence, at, ttl), now)
    requires Fits(cfg, m, F.OpArm(sid, sequence, at, ttl))
    requires var r := F.Apply(cfg, m, F.OpArm(sid, sequence, at, ttl)); r.error == F.NoError && !r.flag
    ensures var op := F.OpArm(sid, sequence, at, ttl);
            var (n, u) := (F.Apply(cfg, m, op).m, TwinApply(HostConfig(cfg), t, op).t);
            && Agrees(cfg, n, u, at) && n.active.Some? && ArmedUntil(u, n, n.active.value, at + ttl)
            && n.active.value.sequence == sequence && n.active.value.sid == sid && n.active.value.pulses == 0
  {
    var op := F.OpArm(sid, sequence, at, ttl);
    ArmMatches(cfg, m, t, now, op);
    hide F.Tick, TwinTick, Agrees, F.Known, KeyIndex;
    ArmIs(cfg, m, t, op);
  }

  lemma ArmIs(cfg: F.Config, m: F.Machine, t: TwinMachine, op: F.Op)
    requires op.OpArm?
    requires var r := F.Apply(cfg, m, op); r.error == F.NoError && !r.flag
    requires var s := TwinApply(HostConfig(cfg), t, op); s.raised == Fine && !s.flag
    ensures var (n, u) := (F.Apply(cfg, m, op).m, TwinApply(HostConfig(cfg), t, op).t);
            && n.active.Some? && n.active.value.phase == F.Armed && n.active.value.pulses == 0
            && n.active.value.sequence == op.sequence && n.active.value.sid == op.sid
            && u.active.Some? && u.active.value.armDeadlineMs == Some(op.at + op.ttl)
  {
    hide F.Tick, TwinTick, F.Known, KeyIndex;
  }
}
