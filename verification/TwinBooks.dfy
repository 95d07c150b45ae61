/** The pulse books of the host's device model, beside those of the board. */
module TwinBooks {
  import opened Common
  import opened Firmware
  import opened Twin
  import opened Refinement

  function TwinSum(rs: seq<TwinResult>): nat {
    if rs == [] then 0 else TwinSum(rs[..|rs| - 1]) + rs[|rs| - 1].pulses
  }

  function TwinHeld(t: TwinMachine): nat {
    TwinSum(t.results) + (if t.active.Some? then t.active.value.pulses else 0) + t.recovery
  }

  function TwinFrontier(t: TwinMachine): int {
    t.nextSequence - (if t.active.Some? then 1 else 0)
  }

  /** Results are numbered below the open event, which has the newest number. */
  predicate TwinInv(t: TwinMachine) {
    && (forall i :: 0 <= i < |t.results| ==> t.results[i].sequence < TwinFrontier(t))
    && (t.active.Some? ==> t.active.value.sequence == t.nextSequence - 1)
  }

  /** Pulses that arrive with nothing open, a free slot and no number left: the
      branch of the model that counts them and keeps them nowhere. */
  predicate Exhausted(c: TwinConfig, t: TwinMachine, count: nat, now: nat) {
    && count > 0 && t.lifetime <= UINT64_MAX - count
    && var a := TwinAdvanceTo(c, t, now);
       a.active.None? && |a.results| < c.capacity && a.nextSequence > UINT32_MAX
  }

  /** One of the two clamps, as on the board. */
  predicate TwinClamps(c: TwinConfig, t: TwinMachine, count: nat, now: nat) {
    && count > 0
    && (t.lifetime > UINT64_MAX - count
        || var a := TwinAdvanceTo(c, t, now);
           a.active.Some? && a.active.value.pulses > MAX_RESULT_PULSES - count)
  }

  predicate OpExhausted(c: TwinConfig, t: TwinMachine, op: Op) {
    match op
    case OpPulses(count, at) => Exhausted(c, t, count, at)
    case OpBatch(count, first, at) =>
      if count <= 1 then Exhausted(c, t, count, first)
      else Exhausted(c, t, 1, first) || Exhausted(c, TwinPulse(c, t, 1, first).t, count - 1, at)
    case _ => false
  }

  predicate OpClamps(c: TwinConfig, t: TwinMachine, op: Op) {
    match op
    case OpPulses(count, at) => TwinClamps(c, t, count, at)
    case OpBatch(count, first, at) =>
      if count <= 1 then TwinClamps(c, t, count, first)
      else TwinClamps(c, t, 1, first) || TwinClamps(c, TwinPulse(c, t, 1, first).t, count - 1, at)
    case _ => false
  }

  /** No call of the run meets this. */
  predicate Never(c: TwinConfig, t: TwinMachine, ops: seq<Op>, met: (TwinConfig, TwinMachine, Op) -> bool)
    decreases |ops|
  {
    ops == [] || (!met(c, t, ops[0]) && Never(c, TwinApply(c, t, ops[0]).t, ops[1..], met))
  }

  /** The pulses an acknowledgement takes out of the store. */
  function Released(t: TwinMachine, op: Op): nat {
    if op.OpAck? && KeyIndex(t.results, op.sequence) < |t.results| then t.results[KeyIndex(t.results, op.sequence)].pulses else 0
  }

  /** Pulses acknowledged over a run. */
  function AckedPulses(c: TwinConfig, t: TwinMachine, ops: seq<Op>): nat
    decreases |ops|
  {
    if ops == [] then 0 else Released(t, ops[0]) + AckedPulses(c, TwinApply(c, t, ops[0]).t, ops[1..])
  }

  // ---- sums ----

  lemma SumPush(rs: seq<TwinResult>, r: TwinResult)
    ensures TwinSum(rs + [r]) == TwinSum(rs) + r.pulses
  {
    assert (rs + [r])[..|rs|] == rs;
  }

  lemma {:induction false} SumAppend(a: seq<TwinResult>, b: seq<TwinResult>)
    ensures TwinSum(a + b) == TwinSum(a) + TwinSum(b)
    decreases |b|
  {
    if b == [] {
      assert a + b == a;
    } else {
      var n := |b| - 1;
      SumAppend(a, b[..n]);
      assert (a + b)[..|a + b| - 1] == a + b[..n];
    }
  }

  lemma SumWithout(rs: seq<TwinResult>, i: nat)
    requires i < |rs|
    ensures TwinSum(rs[..i] + rs[i + 1..]) + rs[i].pulses == TwinSum(rs)
  {
    hide TwinSum;
    var (front, back) := (rs[..i], rs[i + 1..]);
    assert rs == front + [rs[i]] + back;
    SumAppend(front + [rs[i]], back);
    SumPush(front, rs[i]);
    SumAppend(front, back);
  }

  // ---- one lemma per call ----

  /** What a call that is no acknowledgement leaves of the books. */
  predicate KeepsBooks(t: TwinMachine, n: TwinMachine) {
    TwinInv(n) && TwinHeld(n) == TwinHeld(t) && n.lifetime == t.lifetime
  }

  lemma OpenIsNew(t: TwinMachine)
    requires TwinInv(t) && t.active.Some?
    ensures KeyIndex(t.results, t.active.value.sequence) == |t.results|
  {
  }

  lemma ClosedAppends(t: TwinMachine, status: DeviceState, ended: nat, fault: string)
    requires t.active.Some? && KeyIndex(t.results, t.active.value.sequence) == |t.results|
    ensures var n := Close(t, status, ended, fault);
            && |n.results| == |t.results| + 1 && n.results == t.results + [n.results[|t.results|]]
            && n.results[|t.results|].sequence == t.active.value.sequence && n.results[|t.results|].pulses == t.active.value.pulses
            && n.active.None? && n.nextSequence == t.nextSequence && n.lifetime == t.lifetime && n.recovery == t.recovery
  {
    hide KeyIndex;
  }

  lemma CloseKeeps(t: TwinMachine, status: DeviceState, ended: nat, fault: string)
    requires TwinInv(t) && t.active.Some?
    ensures KeepsBooks(t, Close(t, status, ended, fault)) && Close(t, status, ended, fault).active.None?
  {
    OpenIsNew(t);
    ClosedAppends(t, status, ended, fault);
    hide Close, TwinSum;
    SumPush(t.results, Close(t, status, ended, fault).results[|t.results|]);
  }

  lemma TwinTickKeeps(c: TwinConfig, t: TwinMachine, now: nat)
    requires TwinInv(t)
    ensures KeepsBooks(t, TwinTick(c, t, now).t)
  {
    hide Close, TwinSum;
    var s := t.(lastNowMs := Max(t.lastNowMs, now));
    if s.active.Some? {
      var a := s.active.value;
      if a.phase == Armed {
        if a.armDeadlineMs.Some? { CloseKeeps(s, TimedOut, a.armDeadlineMs.value, "none"); }
      } else {
        var b := if a.phase == Pouring && a.lastPulseMs.Some? && now >= a.lastPulseMs.value + c.flowGapMs
                 then a.(phase := Settling, settleDeadlineMs := Some(a.lastPulseMs.value + c.flowGapMs + c.settlingMs))
                 else a;
        var u := if b.phase == a.phase then s else s.(active := Some(b), state := Settling);
        if b.settleDeadlineMs.Some? { CloseKeeps(u, Complete, b.settleDeadlineMs.value, "none"); }
      }
    }
  }

  lemma TwinAdvanceKeeps(c: TwinConfig, t: TwinMachine, now: nat)
    requires TwinInv(t)
    ensures KeepsBooks(t, TwinAdvanceTo(c, t, now))
  {
    hide TwinTick, TwinHeld;
    TwinTickKeeps(c, t, now);
  }

  lemma TwinPulseKeeps(c: TwinConfig, t: TwinMachine, count: nat, now: nat)
    requires TwinInv(t) && !TwinClamps(c, t, count, now)
    ensures var n := TwinPulse(c, t, count, now).t;
            && TwinInv(n) && n.lifetime == t.lifetime + count
            && TwinHeld(n) == TwinHeld(t) + (if Exhausted(c, t, count, now) then 0 else count)
  {
    hide TwinAdvanceTo, TwinSum, Close;
    TwinAdvanceKeeps(c, t, now);
  }

  lemma TwinArmKeeps(c: TwinConfig, t: TwinMachine, sid: string, sequence: nat, now: nat, ttl: nat)
    requires TwinInv(t)
    ensures KeepsBooks(t, TwinArm(c, t, sid, sequence, now, ttl).t)
  {
    hide TwinTick, TwinSum;
    TwinTickKeeps(c, t, now);
  }

  lemma TwinCancelKeeps(c: TwinConfig, t: TwinMachine, sid: string, sequence: nat, now: nat)
    requires TwinInv(t)
    ensures KeepsBooks(t, TwinCancel(c, t, sid, sequence, now).t)
  {
    hide TwinTick, TwinSum, Close;
    TwinTickKeeps(c, t, now);
    var n := TwinTick(c, t, now).t;
    if n.active.Some? { CloseKeeps(n, Interrupted, now, "none"); }
  }

  lemma TwinAckKeeps(t: TwinMachine, sequence: U32)
    requires TwinInv(t)
    ensures var n := TwinAcknowledge(t, sequence).t;
            TwinInv(n) && n.lifetime == t.lifetime && TwinHeld(n) + Released(t, OpAck(sequence)) == TwinHeld(t)
  {
    hide TwinSum;
    var i := KeyIndex(t.results, sequence);
    if i < |t.results| { SumWithout(t.results, i); }
  }

  /** Counted pulses the model keeps nowhere, over one call. */
  function Dropped(c: TwinConfig, t: TwinMachine, op: Op): nat {
    match op
    case OpPulses(count, at) => if Exhausted(c, t, count, at) then count else 0
    case OpBatch(count, first, at) =>
      if count <= 1 then (if Exhausted(c, t, count, first) then count else 0)
      else (if Exhausted(c, t, 1, first) then 1 else 0)
           + (if Exhausted(c, TwinPulse(c, t, 1, first).t, count - 1, at) then count - 1 else 0)
    case _ => 0
  }

  lemma TwinStepBooks(c: TwinConfig, t: TwinMachine, op: Op)
    requires TwinInv(t) && !OpClamps(c, t, op)
    ensures var n := TwinApply(c, t, op).t;
            && TwinInv(n)
            && n.lifetime - t.lifetime == TwinHeld(n) + Released(t, op) + Dropped(c, t, op) - TwinHeld(t)
            && (Dropped(c, t, op) > 0 <==> OpExhausted(c, t, op))
  {
    hide TwinHeld, TwinArm, TwinCancel, TwinPulse, TwinTick, TwinAcknowledge, TwinClamps, TwinInv, Exhausted;
    ExhaustedCounts(c, t, op);
    match op {
      case OpArm(sid, sequence, at, ttl) => TwinArmKeeps(c, t, sid, sequence, at, ttl);
      case OpCancel(sid, sequence, at) => TwinCancelKeeps(c, t, sid, sequence, at);
      case OpPulses(count, at) => TwinPulseKeeps(c, t, count, at);
      case OpBatch(count, first, at) =>
        if count <= 1 {
          TwinPulseKeeps(c, t, count, first);
        } else {
          TwinPulseKeeps(c, t, 1, first);
          TwinPulseKeeps(c, TwinPulse(c, t, 1, first).t, count - 1, at);
        }
      case OpTick(at) => TwinTickKeeps(c, t, at);
      case OpAck(sequence) => TwinAckKeeps(t, sequence);
      case OpMarkSaturated(_) =>
    }
  }

  lemma ExhaustedCounts(c: TwinConfig, t: TwinMachine, op: Op)
    ensures op.OpPulses? && Exhausted(c, t, op.count, op.at) ==> op.count > 0
    ensures op.OpBatch? && Exhausted(c, t, op.count, op.first) ==> op.count > 0
  {
  }

  // ---- over runs ----

  lemma {:induction false} TwinRunBooks(c: TwinConfig, t: TwinMachine, ops: seq<Op>)
    requires TwinInv(t) && Never(c, t, ops, OpClamps)
    ensures var n := TwinRun(c, t, ops);
            var kept := TwinHeld(n) + AckedPulses(c, t, ops) - TwinHeld(t);
            && TwinInv(n) && kept <= n.lifetime - t.lifetime
            && (kept == n.lifetime - t.lifetime <==> Never(c, t, ops, OpExhausted))
    decreases |ops|
  {
    hide TwinHeld, TwinApply, TwinInv, OpClamps, OpExhausted, Dropped, Released;
    if ops != [] {
      TwinStepBooks(c, t, ops[0]);
      TwinRunBooks(c, TwinApply(c, t, ops[0]).t, ops[1..]);
    }
  }

  lemma NewTwinBooks()
    ensures TwinInv(NEW_TWIN) && TwinHeld(NEW_TWIN) == 0 && NEW_TWIN.lifetime == 0
  {
  }

  /** The model's half of pulse conservation, and exactly when it holds: over a
      run that meets no clamp, the pulses acknowledged, retained, open and in
      recovery are the pulses counted if and only if none arrived with nothing
      open, a free slot and no sequence number left; else they are fewer. On the
      board they are the pulses counted in every such run. */
  lemma TwinBooksExactly(c: TwinConfig, ops: seq<Op>)
    requires Never(c, NEW_TWIN, ops, OpClamps)
    ensures var n := TwinRun(c, NEW_TWIN, ops);
            var kept := AckedPulses(c, NEW_TWIN, ops) + TwinHeld(n);
            kept <= n.lifetime && (kept == n.lifetime <==> Never(c, NEW_TWIN, ops, OpExhausted))
  {
    hide *;
    NewTwinBooks();
    TwinRunBooks(c, NEW_TWIN, ops);
  }
}
