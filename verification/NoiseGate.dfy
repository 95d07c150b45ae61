/** What the pulse interrupt's noise gate does over whole runs, in true
    microseconds: `micros()` shows them modulo 2^32. */
module NoiseGate {
  import opened Common
  import opened Firmware
  import opened Conservation
  import opened MainLoop

  /** When each edge the board counted came, by unbounded time. */
  function AcceptedTimes(gateUs: U32, cfg: Config, b: Board, es: seq<Event>): seq<nat>
    decreases |es|
  {
    if es == [] then []
    else
      var n := Handle(gateUs, cfg, b, es[0]);
      (if es[0].Edge? && n.accepted > b.accepted then [es[0].us] else []) + AcceptedTimes(gateUs, cfg, n, es[1..])
  }

  function Edges(es: seq<Event>): nat {
    if es == [] then 0 else (if es[0].Edge? then 1 else 0) + Edges(es[1..])
  }

  lemma WrapTurns(x: int, k: int)
    ensures Wrap(x + TWO_32 * k) == Wrap(x)
  {
  }

  /** The interrupt's stamp is that of the last accepted edge. */
  lemma {:induction false} StampIsLast(gateUs: U32, cfg: Config, b: Board, es: seq<Event>)
    ensures var ts := AcceptedTimes(gateUs, cfg, b, es);
            HandleAll(gateUs, cfg, b, es).front.lastAcceptedUs == if ts == [] then b.front.lastAcceptedUs else Wrap(ts[|ts| - 1])
    decreases |es|
  {
    hide RecordAll, DrainOps, Wrap;
    if es != [] {
      StampIsLast(gateUs, cfg, Handle(gateUs, cfg, b, es[0]), es[1..]);
    }
  }

  /** One edge, by the stamp. */
  lemma EdgeByStamp(gateUs: U32, cfg: Config, b: Board, us: nat, ms: nat)
    ensures var n := Handle(gateUs, cfg, b, Edge(us, ms));
            var stamp := b.front.lastAcceptedUs;
            if gateUs == 0 || stamp == 0 || Wrap(us - stamp) >= gateUs then
              n.accepted == b.accepted + 1 && n.front.rejected == b.front.rejected
            else
              && b.front.rejected <= n.front.rejected <= b.front.rejected + 1
              && (b.front.rejected < UINT32_MAX ==> n.front.rejected == b.front.rejected + 1)
              && n == b.(front := b.front.(rejected := n.front.rejected))
  {
    WrapStamp(us, b.front.lastAcceptedUs);
    hide Wrap;
  }

  lemma WrapStamp(us: nat, stamp: U32)
    ensures Wrap(Wrap(us) - stamp) == Wrap(us - stamp)
  {
    WrapTurns(us - stamp, -(us / TWO_32));
  }

  /** The first edge accepted is clear of the stamp, if the gate is on and there is one. */
  lemma {:induction false} FirstIsClear(gateUs: U32, cfg: Config, b: Board, es: seq<Event>)
    requires gateUs > 0 && b.front.lastAcceptedUs != 0 && AcceptedTimes(gateUs, cfg, b, es) != []
    ensures Wrap(AcceptedTimes(gateUs, cfg, b, es)[0] - b.front.lastAcceptedUs) >= gateUs
    decreases |es|
  {
    hide RecordAll, DrainOps, Wrap;
    var n := Handle(gateUs, cfg, b, es[0]);
    if es[0].Edge? {
      EdgeByStamp(gateUs, cfg, b, es[0].us, es[0].ms);
    }
    if !(es[0].Edge? && n.accepted > b.accepted) {
      FirstIsClear(gateUs, cfg, n, es[1..]);
    }
  }

  lemma {:induction false} PairIsClear(gateUs: U32, cfg: Config, b: Board, es: seq<Event>, i: nat)
    requires gateUs > 0 && i + 1 < |AcceptedTimes(gateUs, cfg, b, es)| && Wrap(AcceptedTimes(gateUs, cfg, b, es)[i]) != 0
    ensures var ts := AcceptedTimes(gateUs, cfg, b, es); Wrap(ts[i + 1] - Wrap(ts[i])) >= gateUs
    decreases |es|
  {
    hide RecordAll, DrainOps, Wrap;
    var n := Handle(gateUs, cfg, b, es[0]);
    var rest := AcceptedTimes(gateUs, cfg, n, es[1..]);
    if es[0].Edge? && n.accepted > b.accepted {
      if i == 0 {
        FirstIsClear(gateUs, cfg, n, es[1..]);
      } else {
        PairIsClear(gateUs, cfg, n, es[1..], i - 1);
      }
    } else {
      PairIsClear(gateUs, cfg, n, es[1..], i);
    }
  }

  /** In every run of the board, two edges counted one after the other within one
      turn of the microsecond clock are at least the gate apart, unless the
      earlier was stamped zero. */
  lemma AcceptedApart(gateUs: U32, cfg: Config, es: seq<Event>, i: nat)
    requires i + 1 < |AcceptedTimes(gateUs, cfg, POWERED, es)|
    ensures var ts := AcceptedTimes(gateUs, cfg, POWERED, es);
            ts[i] <= ts[i + 1] < ts[i] + TWO_32 && ts[i] % TWO_32 != 0 ==> ts[i + 1] - ts[i] >= gateUs
  {
    hide AcceptedTimes;
    var ts := AcceptedTimes(gateUs, cfg, POWERED, es);
    if gateUs > 0 && ts[i] % TWO_32 != 0 {
      PairIsClear(gateUs, cfg, POWERED, es, i);
      WrapTurns(ts[i + 1] - ts[i], ts[i] / TWO_32);
      assert ts[i + 1] - Wrap(ts[i]) == ts[i + 1] - ts[i] + TWO_32 * (ts[i] / TWO_32);
    }
  }

  /** Whatever happened before: an edge within one turn of the clock after the
      last one counted is counted, and nothing rejected, if it is at least the
      gate later; a nearer one changes the rejected counter alone; the first
      edge of all, and one after a stamp of zero, is counted at any distance. */
  lemma EdgeDecided(gateUs: U32, cfg: Config, es: seq<Event>, us: nat, ms: nat)
    ensures var b := HandleAll(gateUs, cfg, POWERED, es);
            var n := Handle(gateUs, cfg, b, Edge(us, ms));
            var ts := AcceptedTimes(gateUs, cfg, POWERED, es);
            var (counted, ignored) := (n.accepted == b.accepted + 1 && n.front.rejected == b.front.rejected,
                                       n == b.(front := b.front.(rejected := n.front.rejected)));
            && (ts == [] || ts[|ts| - 1] % TWO_32 == 0 ==> counted)
            && (ts != [] && ts[|ts| - 1] <= us < ts[|ts| - 1] + TWO_32 && us - ts[|ts| - 1] >= gateUs ==> counted)
            && (ts != [] && ts[|ts| - 1] <= us && us - ts[|ts| - 1] < gateUs && ts[|ts| - 1] % TWO_32 != 0 ==>
                  ignored && (b.front.rejected < UINT32_MAX ==> n.front.rejected == b.front.rejected + 1))
  {
    hide AcceptedTimes, HandleAll, Handle;
    var (b, ts) := (HandleAll(gateUs, cfg, POWERED, es), AcceptedTimes(gateUs, cfg, POWERED, es));
    StampIsLast(gateUs, cfg, POWERED, es);
    EdgeByStamp(gateUs, cfg, b, us, ms);
    if ts != [] && ts[|ts| - 1] <= us {
      AgainstStamp(us, ts[|ts| - 1]);
    }
  }

  lemma AgainstStamp(us: nat, last: nat)
    requires last <= us
    ensures Wrap(us - Wrap(last)) == Wrap(us - last) && (us < last + TWO_32 ==> Wrap(us - last) == us - last)
  {
    assert us - Wrap(last) == us - last + TWO_32 * (last / TWO_32);
    WrapTurns(us - last, last / TWO_32);
  }

  /** The exact condition under which the gate does what it is for, at any distance:
      count an edge if and only if it is at least the gate after the last one
      counted. It fails for a near edge after a stamp of zero, and for an edge a
      whole number of turns and less than the gate after any other stamp. */
  lemma GateExactly(gateUs: U32, cfg: Config, es: seq<Event>, us: nat, ms: nat)
    requires var ts := AcceptedTimes(gateUs, cfg, POWERED, es); ts != [] && ts[|ts| - 1] <= us
    ensures var b := HandleAll(gateUs, cfg, POWERED, es);
            var n := Handle(gateUs, cfg, b, Edge(us, ms));
            var ts := AcceptedTimes(gateUs, cfg, POWERED, es);
            var (last, gap) := (ts[|ts| - 1], us - ts[|ts| - 1]);
            (n.accepted == b.accepted + 1 <==> gap >= gateUs) <==>
              if last % TWO_32 == 0 then gap >= gateUs else gap < TWO_32 || gap % TWO_32 >= gateUs
  {
    hide AcceptedTimes, HandleAll, Handle;
    var (b, ts) := (HandleAll(gateUs, cfg, POWERED, es), AcceptedTimes(gateUs, cfg, POWERED, es));
    StampIsLast(gateUs, cfg, POWERED, es);
    EdgeByStamp(gateUs, cfg, b, us, ms);
    AgainstStamp(us, ts[|ts| - 1]);
  }

  /** With the gate at 0 every edge is counted and none rejected. */
  lemma {:induction false} GateOff(cfg: Config, b: Board, es: seq<Event>)
    ensures var n := HandleAll(0, cfg, b, es);
            n.front.rejected == b.front.rejected && n.accepted == b.accepted + Edges(es)
    decreases |es|
  {
    hide RecordAll, DrainOps, Wrap;
    if es != [] {
      GateOff(cfg, Handle(0, cfg, b, es[0]), es[1..]);
    }
  }

  /** Gate 150: an edge 10 ms after the last is counted, a bounce 50 microseconds after it is not. */
  lemma BounceExample(cfg: Config)
    ensures var b := HandleAll(150, cfg, POWERED, [Edge(1000, 1)]);
            && Handle(150, cfg, b, Edge(11000, 11)).front == Front(2, 1, 11, 11000, 0, false)
            && Handle(150, cfg, b, Edge(1050, 1)).front == Front(1, 1, 1, 1000, 1, false)
  {
    assert [Edge(1000, 1)][1..] == [];
    assert HandleAll(150, cfg, POWERED, [Edge(1000, 1)]) == Handle(150, cfg, POWERED, Edge(1000, 1));
  }
}
