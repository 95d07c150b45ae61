/** Exactly when a drained batch is the same as its edges fed one by one, the
    clamps of the 64-bit counters included. */
module BatchExact {
  import opened Common
  import opened Firmware
  import opened Conservation
  import opened Runs
  import opened MainLoop

  /** When the edges after the first, at these times, can be fed as one count at
      the last of them: below the lifetime clamp, if they at most just overflow
      the flowing event, or no event can open, or the one they open starts and
      ends together; at it, if what the first of them closes is closed alike. */
  predicate OneCount(s: Machine, u: seq<U32>)
    requires u != []
  {
    var last := u[|u| - 1];
    if s.lifetime == UINT64_MAX then
      s.active.None?
      || (if s.active.value.pulses > 0 then u[0] == last
          else (exists i :: 0 <= i < |u| && After(u[i], s.active.value.armDeadlineMs)) == After(last, s.active.value.armDeadlineMs))
    else
      && s.lifetime + |u| <= UINT64_MAX
      && (if s.active.Some? then s.active.value.pulses + |u| <= MAX_RESULT_PULSES + 1
          else |s.results| >= RESULT_CAPACITY || s.nextSequence == UINT32_MAX || u[0] == last)
  }

  /** What an edge can leave open: a flowing event, or an armed one it could not count into. */
  predicate AfterEdge(s: Machine) {
    s.active.Some? ==> s.active.value.phase == Pouring || (s.active.value.phase == Armed && s.lifetime == UINT64_MAX)
  }

  lemma EdgeLeaves(cfg: Config, m: Machine, at: U32)
    requires Consistent(m)
    ensures AfterEdge(AddPulses(cfg, m, 1, at).m) && Consistent(AddPulses(cfg, m, 1, at).m)
  {
    EdgeAfter(cfg, m, at);
    U32Time(at);
    hide AddPulses, AfterEdge, Consistent, Wrap;
    StepConsistent(cfg, m, OpPulses(1, at));
  }

  /** A slot for the event, and pulses in any that has begun. */
  predicate OpenSound(m: Machine) {
    m.active.Some? ==> |m.results| < RESULT_CAPACITY && (m.active.value.pulses == 0 ==> m.active.value.phase == Armed)
  }

  lemma InvOpen(m: Machine)
    requires Inv(m)
    ensures OpenSound(m)
  {
    hide Store;
  }

  lemma EdgeAfter(cfg: Config, m: Machine, at: U32)
    requires Consistent(m)
    ensures AfterEdge(AddPulses(cfg, m, 1, at).m)
  {
    AdvanceKeeps(cfg, m, at);
    var n := AdvanceTo(cfg, m, at).m;
    InvOpen(n);
    hide Inv, Held, Keeps, AdvanceTo, OpenUnattributed, JoinActive, Finalize, AfterEdge;
    if LifetimeFull(n, 1) {
      FullAfter(n.(lifetime := UINT64_MAX, fault := "lifetime_saturated"), at);
    } else if n.active.None? {
      OpenAfter(n.(lifetime := n.lifetime + 1), at);
    } else {
      JoinAfter(n.(lifetime := n.lifetime + 1), at);
    }
  }

  lemma FullAfter(m: Machine, at: U32)
    requires OpenSound(m) && m.lifetime == UINT64_MAX
    ensures AfterEdge(if m.active.Some? && m.active.value.pulses > 0 then Finalize(m, Interrupted, at, m.fault).m else m)
  {
  }

  lemma OpenAfter(m: Machine, at: U32)
    requires m.active.None?
    ensures AfterEdge(OpenUnattributed(m, 1, at).m)
  {
  }

  lemma JoinAfter(m: Machine, at: U32)
    requires m.active.Some? && OpenSound(m)
    ensures AfterEdge(JoinActive(m, 1, at).m)
  {
  }

  // ---- edges ----

  lemma {:induction false} EdgesSplit(cfg: Config, m: Machine, a: seq<U32>, b: seq<U32>)
    ensures EdgeByEdge(cfg, m, a + b) == EdgeByEdge(cfg, EdgeByEdge(cfg, m, a), b)
    decreases |a|
  {
    hide AddPulses;
    if a == [] {
      assert a + b == b;
    } else {
      assert (a + b)[1..] == a[1..] + b;
      EdgesSplit(cfg, AddPulses(cfg, m, 1, a[0]).m, a[1..], b);
    }
  }

  lemma OneEdge(cfg: Config, m: Machine, at: U32)
    ensures EdgeByEdge(cfg, m, [at]) == AddPulses(cfg, m, 1, at).m
  {
    hide AddPulses;
    assert [at][1..] == [];
    assert EdgeByEdge(cfg, AddPulses(cfg, m, 1, at).m, [at][1..]) == AddPulses(cfg, m, 1, at).m;
  }

  /** Edges never take away what the machine holds, and only append results. */
  lemma {:induction false} EdgesHold(cfg: Config, m: Machine, u: seq<U32>)
    requires Consistent(m)
    ensures var n := EdgeByEdge(cfg, m, u); Consistent(n) && Held(m) <= Held(n) && m.results <= n.results
    decreases |u|
  {
    hide AddPulses, Consistent, Held;
    if u != [] {
      EdgeHolds(cfg, m, u[0]);
      EdgesHold(cfg, AddPulses(cfg, m, 1, u[0]).m, u[1..]);
    }
  }

  lemma EdgeHolds(cfg: Config, m: Machine, at: U32)
    requires Consistent(m)
    ensures var n := AddPulses(cfg, m, 1, at).m;
            && Consistent(n) && m.results <= n.results && Held(m) <= Held(n)
            && (!PulsesClamp(cfg, m, 1, at) ==> Held(n) == Held(m) + 1)
  {
    StepConsistent(cfg, m, OpPulses(1, at));
    assert Wrap(at) == at;
    ConsistentInv(m);
    hide Inv, Held, AddPulses, PulsesClamp;
    AddPulsesKeeps(cfg, m, 1, at);
    EdgeHeld(cfg, m, at);
  }

  lemma EdgeHeld(cfg: Config, m: Machine, at: U32)
    requires Inv(m)
    ensures Held(m) <= Held(AddPulses(cfg, m, 1, at).m)
  {
    hide Inv, Held, Keeps, Due, After, Tick, OpenUnattributed, JoinActive, Finalize;
    AdvanceKeeps(cfg, m, at);
    var adv := AdvanceTo(cfg, m, at).m;
    LifetimeFullKeeps(adv, at);
    if !LifetimeFull(adv, 1) {
      LifetimeGrows(adv, adv.lifetime + 1);
      if adv.active.Some? { ActiveWithin(adv); }
      CountsHeld(adv.(lifetime := adv.lifetime + 1), at);
    }
  }

  lemma CountsHeld(m: Machine, at: U32)
    requires Inv(m) && m.lifetime > 0
    requires m.active.Some? ==> m.active.value.pulses < m.lifetime
    ensures m.active.None? ==> Held(m) <= Held(OpenUnattributed(m, 1, at).m)
    ensures m.active.Some? ==> Held(m) <= Held(JoinActive(m, 1, at).m)
  {
    hide Store, Keeps, GoodActive;
    if m.active.Some? {
      JoinKeeps(m, 1, at);
    }
  }

  lemma ActiveWithin(m: Machine)
    requires Inv(m) && m.active.Some?
    ensures m.active.value.pulses <= m.lifetime
  {
  }

  // ---- below the lifetime clamp ----

  lemma FlowingAgrees(cfg: Config, s: Machine, u: seq<U32>)
    requires s.active.Some? && s.active.value.phase == Pouring && 0 < |u| <= UINT32_MAX && |s.results| < RESULT_CAPACITY
    requires s.lifetime + |u| <= UINT64_MAX && s.active.value.pulses + |u| <= MAX_RESULT_PULSES + 1
    ensures EdgeByEdge(cfg, s, u) == AddPulses(cfg, s, |u|, u[|u| - 1]).m
  {
    hide AddPulses;
    if Room(s, |u|) {
      SteadyEdges(cfg, s, u);
    } else if |u| == 1 {
      OneEdge(cfg, s, u[0]);
      assert u == [u[0]];
    } else {
      var k := |u| - 1;
      SteadyEdges(cfg, s, u[..k]);
      EdgesSplit(cfg, s, u[..k], [u[k]]);
      assert u == u[..k] + [u[k]];
      OneEdge(cfg, AddPulses(cfg, s, k, u[k - 1]).m, u[k]);
      JustOverflows(cfg, s, k, u[k - 1], u[k]);
    }
  }

  /** The one edge too many closes the event whether it comes alone or in the count. */
  lemma JustOverflows(cfg: Config, s: Machine, k: U32, before: U32, last: U32)
    requires s.active.Some? && s.active.value.phase == Pouring && 0 < k < UINT32_MAX && |s.results| < RESULT_CAPACITY
    requires s.lifetime + k + 1 <= UINT64_MAX && s.active.value.pulses + k == MAX_RESULT_PULSES
    ensures AddPulses(cfg, AddPulses(cfg, s, k, before).m, 1, last).m == AddPulses(cfg, s, k + 1, last).m
  {
    hide Due, After, Tick;
  }

  lemma NothingOpenAgrees(cfg: Config, s: Machine, u: seq<U32>)
    requires s.active.None? && 1 < |u| <= UINT32_MAX && s.lifetime + |u| <= UINT64_MAX
    ensures EdgeByEdge(cfg, s, u) == AddPulses(cfg, s, |u|, u[|u| - 1]).m <==>
              |s.results| >= RESULT_CAPACITY || s.nextSequence == UINT32_MAX || u[0] == u[|u| - 1]
  {
    hide AddPulses;
    var (k, last) := (|u| - 1, u[|u| - 1]);
    BatchIsExact(cfg, s, u);
    OpensAndJoins(cfg, s, k, u[0], last);
    assert AddPulseBatch(cfg, s, k + 1, u[0], last).m == EdgeByEdge(cfg, s, u);
  }

  lemma OpensAndJoins(cfg: Config, s: Machine, k: U32, first: U32, last: U32)
    requires s.active.None? && 0 < k < UINT32_MAX && s.lifetime + k + 1 <= UINT64_MAX
    ensures AddPulseBatch(cfg, s, k + 1, first, last).m == AddPulses(cfg, s, k + 1, last).m <==>
              |s.results| >= RESULT_CAPACITY || s.nextSequence == UINT32_MAX || first == last
  {
    hide Due, After, Tick;
  }

  /** Once the flowing event overflows by two, the edges hold more than the count. */
  lemma OverflowParts(cfg: Config, s: Machine, u: seq<U32>)
    requires Consistent(s) && s.active.Some? && s.active.value.phase == Pouring && |u| <= UINT32_MAX
    requires s.lifetime + |u| <= UINT64_MAX && s.active.value.pulses + |u| > MAX_RESULT_PULSES + 1
    ensures EdgeByEdge(cfg, s, u) != AddPulses(cfg, s, |u|, u[|u| - 1]).m
  {
    ConsistentActive(s);
    var j := MAX_RESULT_PULSES - s.active.value.pulses;
    var (front, back) := (u[..j + 1], u[j + 1..]);
    assert u == front + back && |front| == j + 1 && back != [];
    hide AddPulses, Held, Consistent, EdgeByEdge;
    FlowingAgrees(cfg, s, front);
    SaturatesTo(cfg, s, j + 1, front[j]);
    SaturatesTo(cfg, s, |u|, u[|u| - 1]);
    EdgesSplit(cfg, s, front, back);
    EdgesHold(cfg, s, front);
    IdleEdgesHold(cfg, EdgeByEdge(cfg, s, front), back);
  }

  /** With nothing open, the next edge is held. */
  lemma IdleEdgesHold(cfg: Config, m: Machine, u: seq<U32>)
    requires Consistent(m) && m.active.None? && m.lifetime < UINT64_MAX && u != []
    ensures Held(m) < Held(EdgeByEdge(cfg, m, u))
  {
    NothingOpenCounts(cfg, m, u[0]);
    hide AddPulses, Held, Consistent, PulsesClamp;
    EdgeHolds(cfg, m, u[0]);
    EdgesHold(cfg, AddPulses(cfg, m, 1, u[0]).m, u[1..]);
  }

  lemma SaturatesTo(cfg: Config, s: Machine, count: U32, last: U32)
    requires Consistent(s) && s.active.Some? && s.active.value.phase == Pouring && 0 < count
    requires s.lifetime + count <= UINT64_MAX && s.active.value.pulses + count > MAX_RESULT_PULSES
    ensures var n := AddPulses(cfg, s, count, last).m;
            && n.active.None? && Held(n) == Held(s) + (MAX_RESULT_PULSES - s.active.value.pulses)
            && n.lifetime == s.lifetime + count
  {
    hide Due, After, Tick, Store, FaultField;
    var a := s.active.value;
    var n := AddPulses(cfg, s, count, last).m;
    assert n.results == s.results + [n.results[|s.results|]];
    assert n.results[..|s.results|] == s.results;
  }

  lemma NothingOpenCounts(cfg: Config, m: Machine, at: U32)
    requires m.active.None? && m.lifetime < UINT64_MAX
    ensures !PulsesClamp(cfg, m, 1, at)
  {
  }

  // ---- across the lifetime clamp ----

  /** A count that reaches over the lifetime clamp holds nothing of it; the edges
      up to the clamp are held one by one. */
  lemma LifetimeParts(cfg: Config, s: Machine, u: seq<U32>)
    requires Consistent(s) && AfterEdge(s) && 1 < |u| <= UINT32_MAX && s.lifetime < UINT64_MAX < s.lifetime + |u|
    ensures EdgeByEdge(cfg, s, u) != AddPulses(cfg, s, |u|, u[|u| - 1]).m
  {
    var n := AddPulses(cfg, s, 1, u[0]).m;
    CountRefused(cfg, s, |u|, u[|u| - 1]);
    FirstCounts(cfg, s, u[0]);
    hide AddPulses, Held, Consistent, AfterEdge;
    EdgeHolds(cfg, s, u[0]);
    EdgesHold(cfg, n, u[1..]);
  }

  lemma CountRefused(cfg: Config, s: Machine, count: U32, last: U32)
    requires Consistent(s) && AfterEdge(s) && s.lifetime < UINT64_MAX < s.lifetime + count
    ensures var n := AddPulses(cfg, s, count, last).m;
            && Held(n) == Held(s)
            && (s.active.Some? ==> |n.results| == |s.results| + 1 && n.results[|s.results|].fault == "lifetime_saturate")
  {
    ConsistentInv(s);
    if s.active.Some? { PouringHasPulses(s); }
    hide Due, After, Tick, Inv, Held, Keeps, Consistent;
    LifetimeFullKeeps(s, last);
    assert "lifetime_saturated"[..FAULT_CHARS] == "lifetime_saturate";
  }

  lemma ConsistentInv(s: Machine)
    requires Consistent(s)
    ensures Inv(s) && Held(s) <= s.lifetime
  {
  }

  lemma PouringHasPulses(s: Machine)
    requires Inv(s) && s.active.Some?
    ensures |s.results| < RESULT_CAPACITY && (s.active.value.phase == Pouring ==> s.active.value.pulses > 0)
    ensures s.active.value.phase == Armed ==> s.active.value.pulses == 0
  {
  }

  lemma FirstCounts(cfg: Config, s: Machine, at: U32)
    requires Consistent(s) && AfterEdge(s) && s.lifetime < UINT64_MAX
    ensures PulsesClamp(cfg, s, 1, at) ==>
              var n := AddPulses(cfg, s, 1, at).m;
              s.active.Some? && |n.results| > |s.results| && n.results[|s.results|].fault == "session_saturated"
  {
    ConsistentActive(s);
    hide Due, After, Tick, Store, Held;
  }

  lemma ConsistentActive(s: Machine)
    requires Consistent(s)
    ensures s.active.Some? ==> s.active.value.pulses <= MAX_RESULT_PULSES && |s.results| < RESULT_CAPACITY
  {
  }

  // ---- at the lifetime clamp ----

  /** A machine whose lifetime counter is full only closes what is open. */
  function Full(s: Machine): Machine {
    s.(fault := "lifetime_saturated")
  }

  lemma {:induction false} FullAndIdle(cfg: Config, s: Machine, u: seq<U32>)
    requires s.lifetime == UINT64_MAX && s.active.None? && u != []
    ensures EdgeByEdge(cfg, s, u) == Full(s)
    decreases |u|
  {
    assert AddPulses(cfg, s, 1, u[0]).m == Full(s);
    if |u| > 1 {
      FullAndIdle(cfg, Full(s), u[1..]);
    } else {
      assert u[1..] == [];
    }
  }

  function TimedOutAt(cfg: Config, s: Machine): Machine
    requires s.active.Some?
  {
    Finalize(s, TimedOut, s.active.value.armDeadlineMs, "none").m
  }

  /** An armed event it cannot count into only ever times out. */
  lemma {:induction false} FullAndArmed(cfg: Config, s: Machine, u: seq<U32>)
    requires s.lifetime == UINT64_MAX && u != [] && |s.results| < RESULT_CAPACITY
    requires s.active.Some? && s.active.value.phase == Armed && s.active.value.pulses == 0
    ensures EdgeByEdge(cfg, s, u) ==
              if exists i :: 0 <= i < |u| && After(u[i], s.active.value.armDeadlineMs) then Full(TimedOutAt(cfg, s)) else Full(s)
    decreases |u|
  {
    var deadline := s.active.value.armDeadlineMs;
    FullEdge(cfg, s, 1, u[0]);
    if After(u[0], deadline) {
      if |u| > 1 {
        FullAndIdle(cfg, Full(TimedOutAt(cfg, s)), u[1..]);
      } else {
        assert u[1..] == [];
      }
    } else if |u| > 1 {
      FullAndArmed(cfg, Full(s), u[1..]);
      assert (exists i :: 0 <= i < |u[1..]| && After(u[1..][i], deadline)) <==> (exists i :: 0 <= i < |u| && After(u[i], deadline)) by {
        if i :| 0 <= i < |u| && After(u[i], deadline) { assert u[1..][i - 1] == u[i]; }
        if i :| 0 <= i < |u[1..]| && After(u[1..][i], deadline) { assert u[i + 1] == u[1..][i]; }
      }
    } else {
      assert u[1..] == [];
    }
  }

  lemma FullEdge(cfg: Config, s: Machine, count: U32, at: U32)
    requires s.lifetime == UINT64_MAX && 0 < count && |s.results| < RESULT_CAPACITY
    requires s.active.Some? && s.active.value.phase == Armed && s.active.value.pulses == 0
    ensures AddPulses(cfg, s, count, at).m == if After(at, s.active.value.armDeadlineMs) then Full(TimedOutAt(cfg, s)) else Full(s)
  {
    hide FaultField;
  }

  lemma FullAndFlowing(cfg: Config, s: Machine, u: seq<U32>)
    requires Consistent(s) && s.lifetime == UINT64_MAX && 1 < |u| <= UINT32_MAX
    requires s.active.Some? && s.active.value.phase == Pouring
    ensures EdgeByEdge(cfg, s, u) == AddPulses(cfg, s, |u|, u[|u| - 1]).m <==> u[0] == u[|u| - 1]
  {
    ConsistentInv(s);
    PouringHasPulses(s);
    var (x, y) := (AddPulses(cfg, s, 1, u[0]).m, AddPulses(cfg, s, |u|, u[|u| - 1]).m);
    FlowingCloses(cfg, s, 1, u[0]);
    FlowingCloses(cfg, s, |u|, u[|u| - 1]);
    FullAndIdle(cfg, x, u[1..]);
  }

  lemma FlowingCloses(cfg: Config, s: Machine, count: U32, at: U32)
    requires s.lifetime == UINT64_MAX && 0 < count && |s.results| < RESULT_CAPACITY
    requires s.active.Some? && s.active.value.phase == Pouring && s.active.value.pulses > 0
    ensures var n := AddPulses(cfg, s, count, at).m;
            && n == Finalize(Full(s), Interrupted, at, "lifetime_saturated").m && n.active.None? && n.lifetime == UINT64_MAX
            && |n.results| == |s.results| + 1 && n.results[|s.results|].endedMs == at && n.fault == "lifetime_saturated"
  {
    hide FaultField;
  }

  lemma FullAgreesExactly(cfg: Config, s: Machine, u: seq<U32>)
    requires Consistent(s) && AfterEdge(s) && s.lifetime == UINT64_MAX && 1 < |u| <= UINT32_MAX
    ensures EdgeByEdge(cfg, s, u) == AddPulses(cfg, s, |u|, u[|u| - 1]).m <==> OneCount(s, u)
  {
    var last := u[|u| - 1];
    ConsistentInv(s);
    if s.active.None? {
      FullAndIdle(cfg, s, u);
      FullAndIdle(cfg, s, [last]);
      IdleCount(cfg, s, |u|, last);
    } else {
      PouringHasPulses(s);
      if s.active.value.phase == Pouring {
        FullAndFlowing(cfg, s, u);
      } else {
        FullAndArmed(cfg, s, u);
        FullEdge(cfg, s, |u|, last);
        TimingOutCloses(cfg, s);
      }
    }
  }

  lemma IdleCount(cfg: Config, s: Machine, count: U32, at: U32)
    requires s.lifetime == UINT64_MAX && s.active.None? && 0 < count
    ensures AddPulses(cfg, s, count, at).m == Full(s)
  {
  }

  lemma TimingOutCloses(cfg: Config, s: Machine)
    requires s.active.Some? && |s.results| < RESULT_CAPACITY
    ensures Full(TimedOutAt(cfg, s)) != Full(s)
  {
  }

  // ---- the theorem ----

  lemma LaterEdgesExactly(cfg: Config, s: Machine, u: seq<U32>)
    requires Consistent(s) && AfterEdge(s) && 1 < |u| <= UINT32_MAX
    ensures EdgeByEdge(cfg, s, u) == AddPulses(cfg, s, |u|, u[|u| - 1]).m <==> OneCount(s, u)
  {
    ConsistentActive(s);
    hide Consistent, EdgeByEdge, AddPulses;
    if s.lifetime == UINT64_MAX {
      FullAgreesExactly(cfg, s, u);
    } else if s.lifetime + |u| > UINT64_MAX {
      LifetimeParts(cfg, s, u);
    } else if s.active.None? {
      NothingOpenAgrees(cfg, s, u);
    } else if s.active.value.pulses + |u| <= MAX_RESULT_PULSES + 1 {
      FlowingAgrees(cfg, s, u);
    } else {
      OverflowParts(cfg, s, u);
    }
  }

  /** From every state a run can reach, and for every batch: handing the machine
      the count with its first and last times reaches the state its edges reach
      one by one if and only if at most one edge follows the first, or those that
      follow can be fed as one count to the state the first leaves. */
  lemma BatchAgreesExactly(cfg: Config, m: Machine, times: seq<U32>)
    requires Consistent(m) && 0 < |times| <= UINT32_MAX
    ensures AddPulseBatch(cfg, m, |times|, times[0], times[|times| - 1]).m == EdgeByEdge(cfg, m, times) <==>
              |times| <= 2 || OneCount(AddPulses(cfg, m, 1, times[0]).m, times[1..])
  {
    var s := AddPulses(cfg, m, 1, times[0]).m;
    EdgeLeaves(cfg, m, times[0]);
    hide AddPulses, Consistent, OneCount;
    if |times| == 1 {
      assert times[1..] == [];
    } else if |times| == 2 {
      OneEdge(cfg, s, times[1]);
      assert times[1..] == [times[1]];
    } else {
      LaterEdgesExactly(cfg, s, times[1..]);
    }
  }
}
