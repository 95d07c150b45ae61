/** Which results the board has put on the wire (main.cpp, emit_new_results). */
module Announcements {
  import opened Common
  import opened Firmware
  import opened Conservation
  import opened Runs

  /** The results a pass over the store sends, given the last number sent. */
  function Announced(results: seq<Outcome>, last: U32): seq<Outcome>
    decreases |results|
  {
    if results == [] then []
    else if results[0].sequence > last then [results[0]] + Announced(results[1..], results[0].sequence)
    else Announced(results[1..], last)
  }

  /** The last number sent after it. */
  function LastAfter(results: seq<Outcome>, last: U32): U32
    decreases |results|
  {
    if results == [] then last
    else LastAfter(results[1..], if results[0].sequence > last then results[0].sequence else last)
  }

  /** What a point that may make a pass sends, and the last number sent after it. */
  function Said(pass: bool, results: seq<Outcome>, last: U32): seq<Outcome> {
    if pass then Announced(results, last) else []
  }

  function SaidLast(pass: bool, results: seq<Outcome>, last: U32): U32 {
    if pass then LastAfter(results, last) else last
  }

  predicate Ascending(results: seq<Outcome>) {
    forall i, j :: 0 <= i < j < |results| ==> results[i].sequence < results[j].sequence
  }

  /** How many results at the front are numbered up to the last one sent. */
  function Heard(results: seq<Outcome>, last: U32): (k: nat)
    ensures k <= |results|
    ensures forall i :: 0 <= i < k ==> results[i].sequence <= last
    ensures k < |results| ==> results[k].sequence > last
    decreases |results|
  {
    if results == [] || results[0].sequence > last then 0
    else
      var k := Heard(results[1..], last);
      assert forall i :: 0 < i < k + 1 ==> results[i] == results[1..][i - 1];
      k + 1
  }

  lemma AscendingRest(results: seq<Outcome>)
    requires Ascending(results) && results != []
    ensures Ascending(results[1..]) && (|results| > 1 ==> results[0].sequence < results[1].sequence)
  {
  }

  /** The first `k` are passed over; all of the rest are sent. */
  lemma {:induction false} AnnouncedFrom(results: seq<Outcome>, last: U32, k: nat)
    requires Ascending(results) && k <= |results|
    requires k > 0 ==> results[k - 1].sequence <= last
    requires k < |results| ==> last < results[k].sequence
    ensures Announced(results, last) == results[k..]
    ensures LastAfter(results, last) == if k == |results| then last else results[|results| - 1].sequence
    decreases |results|
  {
    if results != [] {
      AscendingRest(results);
      AscendingFirst(results, if k > 0 then k - 1 else 0);
      hide Ascending;
      if k > 0 {
        AnnouncedFrom(results[1..], last, k - 1);
      } else {
        AnnouncedFrom(results[1..], results[0].sequence, 0);
        assert results == [results[0]] + results[1..];
      }
    }
  }

  lemma AscendingFirst(results: seq<Outcome>, k: nat)
    requires Ascending(results) && k < |results|
    ensures results[0].sequence <= results[k].sequence
  {
  }

  /** On an ascending store the pass sends exactly the results numbered above the
      last one sent, in order and once each, and remembers the newest. */
  lemma {:induction false} AnnouncedExactly(results: seq<Outcome>, last: U32)
    requires Ascending(results)
    ensures var k := Heard(results, last);
            && (forall i :: 0 <= i < |results| ==> (i < k <==> results[i].sequence <= last))
            && Announced(results, last) == results[k..]
            && LastAfter(results, last) == if k == |results| then last else results[|results| - 1].sequence
  {
    hide Announced, LastAfter;
    AnnouncedFrom(results, last, Heard(results, last));
  }

  // ---- over runs ----

  /** A machine call, a pass of emit_new_results, or the host's RESULTS request, which sends all of the store. */
  datatype Move = Call(op: Op) | Emit | Replay

  datatype Speaker = Speaker(m: Machine, last: U32, output: seq<Outcome>)

  function Speak(cfg: Config, s: Speaker, move: Move): Speaker {
    match move
    case Call(op) => s.(m := Apply(cfg, s.m, op).m)
    case Emit => s.(last := LastAfter(s.m.results, s.last), output := s.output + Announced(s.m.results, s.last))
    case Replay =>
      s.(last := if s.m.results == [] then s.last else s.m.results[|s.m.results| - 1].sequence,
         output := s.output + s.m.results)
  }

  function SpeakAll(cfg: Config, s: Speaker, moves: seq<Move>): Speaker
    decreases |moves|
  {
    if moves == [] then s else SpeakAll(cfg, Speak(cfg, s, moves[0]), moves[1..])
  }

  const SILENT := Speaker(FRESH, 0, [])

  /** Every retained result numbered up to the last one sent has been sent. */
  ghost predicate NoneSkipped(s: Speaker) {
    && Consistent(s.m) && s.last < Frontier(s.m)
    && forall i :: 0 <= i < |s.m.results| && s.m.results[i].sequence <= s.last ==> s.m.results[i] in s.output
  }

  lemma CallNoneSkipped(cfg: Config, s: Speaker, op: Op)
    requires NoneSkipped(s)
    ensures NoneSkipped(Speak(cfg, s, Call(op)))
  {
    var n := Apply(cfg, s.m, op).m;
    hide Apply, Inv, Held, Acknowledge, Store, GoodActive;
    StepConsistent(cfg, s.m, op);
    if op.OpAck? {
      AckIs(cfg, s.m, op.sequence);
      AckNoneSkipped(cfg, s, op.sequence);
    } else {
      CallKeeps(cfg, s.m, op);
      forall i | 0 <= i < |n.results| && n.results[i].sequence <= s.last ensures n.results[i] in s.output {
        assert i < |s.m.results| && n.results[i] == s.m.results[i];
      }
    }
  }

  lemma AckIs(cfg: Config, m: Machine, sequence: U32)
    ensures Apply(cfg, m, OpAck(sequence)) == Acknowledge(m, sequence)
  {
  }

  lemma AckNoneSkipped(cfg: Config, s: Speaker, sequence: U32)
    requires NoneSkipped(s) && Consistent(Acknowledge(s.m, sequence).m)
    ensures NoneSkipped(s.(m := Acknowledge(s.m, sequence).m))
  {
    hide Consistent;
    var i := IndexOf(s.m.results, sequence);
    var n := Acknowledge(s.m, sequence).m;
    if i < |s.m.results| {
      assert forall j :: 0 <= j < |n.results| ==> n.results[j] == s.m.results[if j < i then j else j + 1];
    }
  }

  lemma ConsistentStore(m: Machine)
    requires Consistent(m)
    ensures Ascending(m.results) && forall i :: 0 <= i < |m.results| ==> m.results[i].sequence < Frontier(m)
  {
    assert forall i :: 0 <= i < |m.results| ==> InStore(m.results[i], Frontier(m), m.lifetime);
  }

  /** After a pass everything retained has been sent. */
  lemma EmitSendsAll(cfg: Config, s: Speaker)
    requires NoneSkipped(s)
    ensures var n := Speak(cfg, s, Emit);
            NoneSkipped(n) && forall i :: 0 <= i < |n.m.results| ==> n.m.results[i] in n.output
  {
    ConsistentStore(s.m);
    hide Consistent, Announced, LastAfter;
    AnnouncedExactly(s.m.results, s.last);
    var (k, n) := (Heard(s.m.results, s.last), Speak(cfg, s, Emit));
    forall i | 0 <= i < |n.m.results| ensures n.m.results[i] in n.output {
      if i >= k {
        assert s.m.results[k..][i - k] == n.m.results[i];
      }
    }
  }

  lemma {:induction false} SpeakNoneSkipped(cfg: Config, s: Speaker, moves: seq<Move>)
    requires NoneSkipped(s)
    ensures NoneSkipped(SpeakAll(cfg, s, moves))
    decreases |moves|
  {
    hide NoneSkipped, Speak;
    if moves != [] {
      match moves[0] {
        case Call(op) => CallNoneSkipped(cfg, s, op);
        case Emit => EmitSendsAll(cfg, s);
        case Replay => ReplaySendsAll(cfg, s);
      }
      SpeakNoneSkipped(cfg, Speak(cfg, s, moves[0]), moves[1..]);
    }
  }

  lemma ReplaySendsAll(cfg: Config, s: Speaker)
    requires NoneSkipped(s)
    ensures NoneSkipped(Speak(cfg, s, Replay))
  {
    ConsistentStore(s.m);
    hide Consistent;
  }

  lemma SilentSkipsNone()
    ensures NoneSkipped(SILENT)
  {
    FreshConsistent();
    hide Consistent;
  }

  /** Over any run of machine calls, passes and RESULTS requests from power-on,
      remembering only the last number sent never makes the board skip a result:
      after every pass, all that is retained has been sent. */
  lemma PassSendsEverything(cfg: Config, moves: seq<Move>)
    ensures var s := SpeakAll(cfg, SILENT, moves + [Emit]);
            forall i :: 0 <= i < |s.m.results| ==> s.m.results[i] in s.output
  {
    hide *;
    SilentSkipsNone();
    SpeakNoneSkipped(cfg, SILENT, moves);
    SpeakPush(cfg, SILENT, moves, Emit);
    EmitSendsAll(cfg, SpeakAll(cfg, SILENT, moves));
  }

  lemma {:induction false} SpeakPush(cfg: Config, s: Speaker, moves: seq<Move>, move: Move)
    ensures SpeakAll(cfg, s, moves + [move]) == Speak(cfg, SpeakAll(cfg, s, moves), move)
    decreases |moves|
  {
    hide Speak;
    if moves == [] {
      assert moves + [move] == [move] && [move][1..] == [];
      assert SpeakAll(cfg, Speak(cfg, s, move), [move][1..]) == Speak(cfg, s, move);
    } else {
      assert (moves + [move])[1..] == moves[1..] + [move];
      SpeakPush(cfg, Speak(cfg, s, moves[0]), moves[1..], move);
    }
  }
}
