/** Sums of measurements that are told apart by their sequence numbers. */
module DeliverySums {
  import opened Conservation
  import F = Firmware
  import L = Ledger

  /** A sequence number and the pulses reported under it. */
  type Fact = (nat, nat)

  function FactSum(a: seq<Fact>): nat {
    if a == [] then 0 else FactSum(a[..|a| - 1]) + a[|a| - 1].1
  }

  ghost predicate DistinctFacts(a: seq<Fact>) {
    forall i, j :: 0 <= i < j < |a| ==> a[i].0 != a[j].0
  }

  lemma {:induction false} FactSumAppend(a: seq<Fact>, b: seq<Fact>)
    ensures FactSum(a + b) == FactSum(a) + FactSum(b)
  {
    if b == [] {
      assert a + b == a;
    } else {
      var n := |b| - 1;
      FactSumAppend(a, b[..n]);
      assert (a + b)[..|a + b| - 1] == a + b[..n];
    }
  }

  lemma FactSumPush(a: seq<Fact>, x: Fact)
    ensures FactSum(a + [x]) == FactSum(a) + x.1
  {
    assert (a + [x])[..|a|] == a;
  }

  lemma FactSumRemove(b: seq<Fact>, i: nat)
    requires i < |b|
    ensures FactSum(b) == FactSum(b[..i] + b[i + 1..]) + b[i].1
  {
    FactSumAppend(b[..i], b[i..]);
    assert b[..i] + b[i..] == b;
    FactSumAppend([b[i]], b[i + 1..]);
    assert [b[i]] + b[i + 1..] == b[i..];
    FactSumAppend(b[..i], b[i + 1..]);
    FactSumPush([], b[i]);
    assert [] + [b[i]] == [b[i]];
  }

  /** Distinct facts, all found in another list, cannot add up to more than it does. */
  lemma {:induction false} SumInjects(a: seq<Fact>, b: seq<Fact>)
    requires DistinctFacts(a) && forall i :: 0 <= i < |a| ==> a[i] in b
    ensures FactSum(a) <= FactSum(b)
    decreases |a|
  {
    if a != [] {
      var n := |a| - 1;
      var i :| 0 <= i < |b| && b[i] == a[n];
      var rest := b[..i] + b[i + 1..];
      forall k | 0 <= k < n ensures a[..n][k] in rest {
        assert a[k] in b && a[k].0 != a[n].0;
        var j :| 0 <= j < |b| && b[j] == a[k];
        assert rest[if j < i then j else j - 1] == a[k];
      }
      SumInjects(a[..n], rest);
      FactSumRemove(b, i);
    }
  }

  // ---- rows and outcomes as facts ----

  predicate Matches(row: L.ResultRow, device: string, boot: string) {
    row.device == device && row.boot == boot
  }

  /** The pulses the host holds in a table for one boot. */
  function RowPulses(rows: seq<L.ResultRow>, device: string, boot: string): nat {
    if rows == [] then 0
    else
      var last := rows[|rows| - 1];
      RowPulses(rows[..|rows| - 1], device, boot) + (if Matches(last, device, boot) then last.pulses else 0)
  }

  predicate Listed(rows: seq<L.ResultRow>, device: string, boot: string, fact: Fact) {
    exists i :: 0 <= i < |rows| && Matches(rows[i], device, boot) && fact == (rows[i].sequence, rows[i].pulses)
  }

  function RowFacts(rows: seq<L.ResultRow>, device: string, boot: string): seq<Fact> {
    if rows == [] then []
    else
      var last := rows[|rows| - 1];
      RowFacts(rows[..|rows| - 1], device, boot) + (if Matches(last, device, boot) then [(last.sequence, last.pulses)] else [])
  }

  lemma {:induction false} RowFactsListed(rows: seq<L.ResultRow>, device: string, boot: string, fact: Fact)
    ensures fact in RowFacts(rows, device, boot) <==> Listed(rows, device, boot, fact)
  {
    if rows != [] {
      var n := |rows| - 1;
      RowFactsListed(rows[..n], device, boot, fact);
      if Listed(rows[..n], device, boot, fact) {
        var i :| 0 <= i < n && Matches(rows[..n][i], device, boot) && fact == (rows[..n][i].sequence, rows[..n][i].pulses);
        assert rows[i] == rows[..n][i];
      }
      if Listed(rows, device, boot, fact) {
        var i :| 0 <= i < |rows| && Matches(rows[i], device, boot) && fact == (rows[i].sequence, rows[i].pulses);
        assert i < n ==> rows[..n][i] == rows[i];
      }
    }
  }

  lemma {:induction false} RowFactsSum(rows: seq<L.ResultRow>, device: string, boot: string)
    ensures FactSum(RowFacts(rows, device, boot)) == RowPulses(rows, device, boot)
  {
    if rows != [] {
      var n := |rows| - 1;
      RowFactsSum(rows[..n], device, boot);
      if Matches(rows[n], device, boot) {
        FactSumPush(RowFacts(rows[..n], device, boot), (rows[n].sequence, rows[n].pulses));
      } else {
        FactSumAppend(RowFacts(rows[..n], device, boot), []);
      }
    }
  }

  lemma {:induction false} RowFactsDistinct(rows: seq<L.ResultRow>, device: string, boot: string)
    requires forall i, j :: 0 <= i < j < |rows| ==>
               rows[i].device != rows[j].device || rows[i].boot != rows[j].boot || rows[i].sequence != rows[j].sequence
    ensures DistinctFacts(RowFacts(rows, device, boot))
  {
    if rows != [] {
      var n := |rows| - 1;
      RowFactsDistinct(rows[..n], device, boot);
      var before := RowFacts(rows[..n], device, boot);
      if Matches(rows[n], device, boot) {
        forall i | 0 <= i < |before| ensures before[i].0 != rows[n].sequence {
          RowFactsListed(rows[..n], device, boot, before[i]);
          var j :| 0 <= j < n && Matches(rows[..n][j], device, boot) && before[i] == (rows[..n][j].sequence, rows[..n][j].pulses);
          assert rows[j] == rows[..n][j];
        }
      }
    }
  }

  function OutcomeFacts(rs: seq<F.Outcome>): (facts: seq<Fact>)
    ensures |facts| == |rs| && forall i :: 0 <= i < |rs| ==> facts[i] == (rs[i].sequence, rs[i].pulses)
    decreases |rs|
  {
    if rs == [] then [] else OutcomeFacts(rs[..|rs| - 1]) + [(rs[|rs| - 1].sequence, rs[|rs| - 1].pulses)]
  }

  lemma {:induction false} OutcomeFactsSum(rs: seq<F.Outcome>)
    ensures FactSum(OutcomeFacts(rs)) == PulseSum(rs)
    decreases |rs|
  {
    if rs != [] {
      var n := |rs| - 1;
      OutcomeFactsSum(rs[..n]);
      assert OutcomeFacts(rs)[..n] == OutcomeFacts(rs[..n]);
    }
  }
}
