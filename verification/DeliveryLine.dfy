/** How the host comes by what it queues: over every run, results only from the
    board it last shook hands with, counters only once a STATUS has confirmed its
    boot. */
module DeliveryLine {
  import opened Common
  import opened Wire
  import opened HostCounters
  import opened Delivery
  import opened DeliverySafety
  import opened DeliveryTheorems
  import F = Firmware

  /** The state before the event numbered `i` of a run. */
  function At(w: World, es: seq<Event>, i: nat): World
    requires i <= |es|
  {
    Run(w, es[..i])
  }

  lemma Last(w: World, es: seq<Event>)
    requires es != []
    ensures Run(w, es) == Step(Run(w, es[..|es| - 1]), es[|es| - 1])
  {
    var n := |es| - 1;
    assert es == es[..n] + [es[n]];
    RunPush(w, es[..n], es[n]);
  }

  /** One event's effect on the host's side of the line. */
  lemma StepLine(w: World, e: Event)
    ensures var (l, n) := (w.line, Step(w, e).line);
            && (n.confirmed && !l.confirmed ==>
                  && e.ReceiveStatus? && e.message.StatusMsg? && e.message in w.sent && l.connected && n.connected
                  && l.identity.Some? && n.identity == l.identity && BootText(e.message.of) == BootText(l.identity.value))
            && (n.confirmed && l.confirmed ==> n.identity == l.identity)
            && (forall m :: m in n.results && m !in l.results ==>
                  e == ReceiveResult(m) && m.ResultMsg? && m in w.sent && l.connected && l.identity == Some(m.from))
            && (forall s :: s in n.readings && s !in l.readings ==>
                  && e.ReceiveCounters? && e.message.CountersMsg? && e.message in w.sent && e.uptime == s.uptime
                  && e.message.counters == s.counters && l.connected && l.confirmed && l.identity == Some(s.boot) && l.cache != Some(s.counters))
  {
    hide HostTakesResult, HostTakesCounters, OnBoard, BootText, IsIdentity;
    if Enabled(w, e) {
      match e {
        case TakeResult(m, keg, calibration, captured) => TakeResultFrame(w, m.from, m.outcome, keg, calibration, captured);
        case TakeCounters(s, keg, calibration, captured) => TakeCountersLine(w, s, keg, calibration, captured);
        case Operate(device, op) => OnBoardFrame(w, device, op);
        case DeliverAck(device, ack) => OnBoardFrame(w, device, F.OpAck(ack.sequence));
        case _ =>
      }
    }
  }

  lemma TakeCountersLine(w: World, s: Stamped, keg: Option<string>, calibration: Option<string>, captured: bool)
    ensures HostTakesCounters(w, s, keg, calibration, captured).line == w.line
  {
    hide PulseIntegrity.ParseCounterSnapshot, CountersFields, BootText;
  }

  /** Heard on a line to the boot it is of. */
  predicate HeardResult(w: World, es: seq<Event>, i: nat, m: Message)
    requires i < |es|
  {
    es[i] == ReceiveResult(m) && m.ResultMsg? && m in At(w, es, i).sent
    && At(w, es, i).line.connected && At(w, es, i).line.identity == Some(m.from)
  }

  /** Heard, and not what was queued last, on a confirmed line to the boot it is stamped with. */
  predicate HeardCounters(w: World, es: seq<Event>, i: nat, s: Stamped)
    requires i < |es|
  {
    var l := At(w, es, i).line;
    && es[i].ReceiveCounters? && es[i].message.CountersMsg? && es[i].message in At(w, es, i).sent
    && es[i].message.counters == s.counters && es[i].uptime == s.uptime
    && l.connected && l.confirmed && l.identity == Some(s.boot) && l.cache != Some(s.counters)
  }

  lemma Earlier(w: World, es: seq<Event>, i: nat)
    requires i < |es| - 1
    ensures At(w, es, i) == At(w, es[..|es| - 1], i) && es[i] == es[..|es| - 1][i]
  {
    assert es[..|es| - 1][..i] == es[..i];
  }

  /** In every run, a RESULT is queued only when heard on a line to its own boot:
      one of another boot makes the host hang up instead. */
  lemma {:induction false} QueuedResultWasHeard(cfg: F.Config, gateUs: U32, es: seq<Event>, m: Message) returns (i: nat)
    requires m in Run(Opening(cfg, gateUs), es).line.results
    ensures i < |es| && HeardResult(Opening(cfg, gateUs), es, i, m)
    decreases |es|
  {
    hide Step, Run;
    var w := Opening(cfg, gateUs);
    if es == [] {
      OpeningLine(cfg, gateUs);
      assert false;
    } else {
      var n := |es| - 1;
      Last(w, es);
      StepLine(Run(w, es[..n]), es[n]);
      if m in Run(w, es[..n]).line.results {
        i := QueuedResultWasHeard(cfg, gateUs, es[..n], m);
        Earlier(w, es, i);
      } else {
        i := n;
      }
    }
  }

  lemma OpeningLine(cfg: F.Config, gateUs: U32)
    ensures Run(Opening(cfg, gateUs), []).line == NO_LINE
  {
  }

  /** And counters only on a line whose boot a STATUS has confirmed, when they are
      not those queued last; they carry the boot of that line's handshake. */
  lemma {:induction false} QueuedCountersWereHeard(cfg: F.Config, gateUs: U32, es: seq<Event>, s: Stamped) returns (i: nat)
    requires s in Run(Opening(cfg, gateUs), es).line.readings
    ensures i < |es| && HeardCounters(Opening(cfg, gateUs), es, i, s)
    decreases |es|
  {
    hide Step, Run;
    var w := Opening(cfg, gateUs);
    if es == [] {
      OpeningLine(cfg, gateUs);
      assert false;
    } else {
      var n := |es| - 1;
      Last(w, es);
      StepLine(Run(w, es[..n]), es[n]);
      if s in Run(w, es[..n]).line.readings {
        i := QueuedCountersWereHeard(cfg, gateUs, es[..n], s);
        Earlier(w, es, i);
      } else {
        i := n;
      }
    }
  }

  /** A STATUS with the text of the handshake's boot, on a connected line. */
  predicate HeardStatus(w: World, es: seq<Event>, i: nat, k: Boot)
    requires i < |es|
  {
    es[i].ReceiveStatus? && es[i].message.StatusMsg? && es[i].message in At(w, es, i).sent
    && At(w, es, i).line.connected && At(w, es, i).line.identity == Some(k) && BootText(es[i].message.of) == BootText(k)
  }

  /** A confirmed line has heard such a STATUS since its last handshake, and has
      neither hung up nor shaken hands again. */
  lemma {:induction false} ConfirmedByStatus(cfg: F.Config, gateUs: U32, es: seq<Event>) returns (i: nat, k: Boot)
    requires Run(Opening(cfg, gateUs), es).line.confirmed
    ensures var w := Opening(cfg, gateUs);
            && Run(w, es).line.identity == Some(k) && i < |es| && HeardStatus(w, es, i, k)
            && forall j :: i < j <= |es| ==> At(w, es, j).line.confirmed && At(w, es, j).line.identity == Some(k)
    decreases |es|
  {
    hide Step, Run, BootText;
    var w := Opening(cfg, gateUs);
    if es == [] {
      OpeningLine(cfg, gateUs);
      assert false;
    } else {
      var n := |es| - 1;
      Last(w, es);
      StepLine(Run(w, es[..n]), es[n]);
      assert es[..|es|] == es;
      if Run(w, es[..n]).line.confirmed {
        i, k := ConfirmedByStatus(cfg, gateUs, es[..n]);
        Earlier(w, es, i);
        forall j | i < j <= |es| ensures At(w, es, j).line.confirmed && At(w, es, j).line.identity == Some(k) {
          if j <= n {
            assert es[..n][..j] == es[..j];
            assert At(w, es[..n], j) == At(w, es, j);
          }
        }
      } else {
        i, k := n, Run(w, es[..n]).line.identity.value;
      }
    }
  }
}
