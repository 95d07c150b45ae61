/** Robust calibration (calibration.py) over exact reals: the pooled factor, the
    residuals, and the median-absolute-deviation outlier flags. */
module Calibration {
  import opened Common

  datatype Sample = Sample(rawPulses: int, massG: real, density: real, included: bool)

  datatype DomainError = WrongCount | TooFewIncluded | NoVolume | BadFactor

  datatype Analysis = Analysis(predicted: real, residual: real, percentage: real, flagged: bool)

  /** What `make_sample` accepts. */
  predicate Supported(s: Sample) {
    1 <= s.rawPulses <= INT64_MAX && 0.1 <= s.massG <= 10000.0 && 0.5 <= s.density <= 2.0
  }

  /** Samples no division of the analysis fails on. */
  predicate Divisible(s: Sample) {
    s.massG != 0.0 && s.density != 0.0
  }

  function Volume(s: Sample): (v: real)
    requires Divisible(s)
    ensures v != 0.0
    ensures Supported(s) ==> v > 0.0
  {
    assert s.massG / s.density * s.density == s.massG;
    s.massG / s.density
  }

  function Ratio(s: Sample): real
    requires Divisible(s)
  {
    s.rawPulses as real / Volume(s)
  }

  predicate AllDivisible(samples: seq<Sample>) {
    forall i :: 0 <= i < |samples| ==> Divisible(samples[i])
  }

  predicate AllSupported(samples: seq<Sample>) {
    forall i :: 0 <= i < |samples| ==> Supported(samples[i])
  }

  function Included(samples: seq<Sample>): (chosen: seq<Sample>)
    ensures |chosen| <= |samples|
    ensures forall s :: s in chosen <==> s in samples && s.included
    decreases |samples|
  {
    if samples == [] then []
    else
      var n := |samples| - 1;
      assert forall s :: s in samples <==> s in samples[..n] || s == samples[n];
      Included(samples[..n]) + (if samples[n].included then [samples[n]] else [])
  }

  function TotalPulses(samples: seq<Sample>): real
    decreases |samples|
  {
    if samples == [] then 0.0 else TotalPulses(samples[..|samples| - 1]) + samples[|samples| - 1].rawPulses as real
  }

  function TotalVolume(samples: seq<Sample>): real
    requires AllDivisible(samples)
    decreases |samples|
  {
    if samples == [] then 0.0 else TotalVolume(samples[..|samples| - 1]) + Volume(samples[|samples| - 1])
  }

  function Ratios(samples: seq<Sample>): (ratios: seq<real>)
    requires AllDivisible(samples)
    ensures |ratios| == |samples| && forall i :: 0 <= i < |samples| ==> ratios[i] == Ratio(samples[i])
    decreases |samples|
  {
    if samples == [] then [] else Ratios(samples[..|samples| - 1]) + [Ratio(samples[|samples| - 1])]
  }

  // ---- medians ----

  function Insert(x: real, s: seq<real>): seq<real>
    decreases |s|
  {
    if s == [] || x <= s[0] then [x] + s else [s[0]] + Insert(x, s[1..])
  }

  function Sort(s: seq<real>): (t: seq<real>)
    ensures |t| == |s|
    decreases |s|
  {
    if s == [] then [] else InsertLength(s[0], Sort(s[1..])); Insert(s[0], Sort(s[1..]))
  }

  lemma {:induction false} InsertLength(x: real, s: seq<real>)
    ensures |Insert(x, s)| == |s| + 1
    decreases |s|
  {
    if s != [] && x > s[0] {
      InsertLength(x, s[1..]);
    }
  }

  function Median(s: seq<real>): real
    requires s != []
  {
    var t := Sort(s);
    var n := |s|;
    if n % 2 == 1 then t[n / 2] else (t[n / 2 - 1] + t[n / 2]) / 2.0
  }

  function Abs(x: real): real {
    if x < 0.0 then -x else x
  }

  function Deviations(s: seq<real>, center: real): (d: seq<real>)
    ensures |d| == |s| && forall i :: 0 <= i < |s| ==> d[i] == Abs(s[i] - center)
    decreases |s|
  {
    if s == [] then [] else [Abs(s[0] - center)] + Deviations(s[1..], center)
  }

  predicate Flag(center: real, mad: real, value: real) {
    if mad == 0.0 then
      if center == 0.0 then value != center else Abs(value - center) / Abs(center) > 0.05
    else
      0.6745 * Abs(value - center) / mad > 3.5
  }

  function Mad(ratios: seq<real>): real
    requires ratios != []
  {
    Median(Deviations(ratios, Median(ratios)))
  }

  /** `_outlier_flags`. */
  function Flags(ratios: seq<real>): (flags: seq<bool>)
    ensures |flags| == |ratios|
    ensures forall i :: 0 <= i < |ratios| ==> flags[i] == Flag(Median(ratios), Mad(ratios), ratios[i])
  {
    seq(|ratios|, i requires 0 <= i < |ratios| => Flag(Median(ratios), Mad(ratios), ratios[i]))
  }

  // ---- the spread ----

  function Total(s: seq<real>): real
    decreases |s|
  {
    if s == [] then 0.0 else s[0] + Total(s[1..])
  }

  function Mean(s: seq<real>): real
    requires s != []
  {
    Total(s) / |s| as real
  }

  function Product(x: real, y: real): real {
    x * y
  }

  lemma ProductSigns(x: real, y: real)
    ensures x > 0.0 && y > 0.0 ==> Product(x, y) > 0.0
    ensures Product(-x, -y) == Product(x, y) && Product(0.0, y) == 0.0
  {
  }

  function Square(x: real): (r: real)
    ensures r >= 0.0 && (r == 0.0 <==> x == 0.0)
  {
    ProductSigns(x, x);
    ProductSigns(-x, -x);
    Product(x, x)
  }

  function Squares(s: seq<real>, mean: real): real
    decreases |s|
  {
    if s == [] then 0.0 else Square(s[0] - mean) + Squares(s[1..], mean)
  }

  /** The square of the coefficient of variation, as a fraction: the code reports
      a hundred times its root. One ratio has none. */
  function Spread(ratios: seq<real>): Option<real> {
    if |ratios| < 2 then None
    else if Mean(ratios) == 0.0 then Some(0.0)
    else Some(Squares(ratios, Mean(ratios)) / |ratios| as real / Square(Mean(ratios)))
  }

  // ---- the analysis ----

  function Factor(samples: seq<Sample>): real
    requires AllDivisible(samples) && TotalVolume(samples) > 0.0
  {
    TotalPulses(samples) / TotalVolume(samples)
  }

  /** The error the analysis ends in, if any. */
  function Fault(samples: seq<Sample>, requireTen: bool): Option<DomainError>
    requires AllDivisible(samples)
  {
    var chosen := Included(samples);
    if requireTen && |samples| != 10 then Some(WrongCount)
    else if |chosen| < (if requireTen then 7 else 1) then Some(TooFewIncluded)
    else if TotalVolume(chosen) <= 0.0 then Some(NoVolume)
    else if Factor(chosen) <= 0.0 then Some(BadFactor)
    else None
  }

  /** One sample against the pooled factor. */
  function Analyze(s: Sample, factor: real, flagged: bool): Analysis
    requires Divisible(s) && factor > 0.0
  {
    var predicted := s.rawPulses as real / factor;
    Analysis(predicted, predicted - Volume(s), Abs(predicted - Volume(s)) / Volume(s) * 100.0, flagged)
  }

  /** Whether a sample is flagged: it is included and the flag at its rank among the included is set. */
  function Flagged(samples: seq<Sample>, i: nat): bool
    requires AllDivisible(samples) && i < |samples|
  {
    RankInRange(samples, i);
    samples[i].included && Flags(Ratios(Included(samples)))[|Included(samples[..i])|]
  }

  lemma IncludedLast(samples: seq<Sample>)
    requires samples != []
    ensures var n := |samples| - 1;
            Included(samples) == Included(samples[..n]) + (if samples[n].included then [samples[n]] else [])
  {
  }

  lemma {:induction false} RankInRange(samples: seq<Sample>, i: nat)
    requires i < |samples|
    ensures Included(samples[..i]) <= Included(samples)
    ensures samples[i].included ==> |Included(samples[..i])| < |Included(samples)| && Included(samples)[|Included(samples[..i])|] == samples[i]
    decreases |samples|
  {
    var n := |samples| - 1;
    IncludedLast(samples);
    hide Included;
    if i < n {
      RankInRange(samples[..n], i);
      assert samples[..n][..i] == samples[..i];
    }
  }

  lemma IncludedStep(samples: seq<Sample>, i: nat)
    requires i < |samples|
    ensures |Included(samples[..i + 1])| == |Included(samples[..i])| + (if samples[i].included then 1 else 0)
  {
    assert samples[..i + 1][..i] == samples[..i];
  }

  lemma IncludedDivisible(samples: seq<Sample>)
    requires AllDivisible(samples)
    ensures AllDivisible(Included(samples))
    ensures forall i :: 0 <= i < |samples| ==> Divisible(samples[i])
  {
  }

  lemma FlaggedIs(samples: seq<Sample>, i: nat)
    requires AllDivisible(samples) && AllDivisible(Included(samples)) && i < |samples|
    ensures samples[i].included ==> |Included(samples[..i])| < |Included(samples)|
    ensures Flagged(samples, i) ==
              if samples[i].included then Flags(Ratios(Included(samples)))[|Included(samples[..i])|] else false
  {
    hide Included, Flags, Ratios;
    RankInRange(samples, i);
  }

  lemma NoneIncluded(samples: seq<Sample>)
    ensures Included(samples[..0]) == []
  {
  }

  /** The two pooled sums, accumulated sample by sample. */
  method Pool(chosen: seq<Sample>) returns (pulses: real, volume: real)
    requires AllDivisible(chosen)
    ensures pulses == TotalPulses(chosen) && volume == TotalVolume(chosen)
  {
    hide Volume;
    pulses, volume := 0.0, 0.0;
    for i := 0 to |chosen|
      invariant pulses == TotalPulses(chosen[..i])
      invariant volume == TotalVolume(chosen[..i])
    {
      assert chosen[..i + 1][..i] == chosen[..i];
      pulses := pulses + chosen[i].rawPulses as real;
      volume := volume + Volume(chosen[i]);
    }
    assert chosen[..|chosen|] == chosen;
  }

  /** One row a sample, taking the next flag for each included one. */
  method Rows(samples: seq<Sample>, factor: real) returns (rows: seq<Analysis>)
    requires AllDivisible(samples) && factor > 0.0
    ensures |rows| == |samples|
    ensures forall i :: 0 <= i < |samples| ==> rows[i] == Analyze(samples[i], factor, Flagged(samples, i))
  {
    hide Analyze, Flags, Ratios, Included, Divisible, AllDivisible, Flagged;
    IncludedDivisible(samples);
    var flags := Flags(Ratios(Included(samples)));
    var taken := 0;
    rows := [];
    NoneIncluded(samples);
    for i := 0 to |samples|
      invariant |rows| == i
      invariant taken == |Included(samples[..i])|
      invariant forall j :: 0 <= j < i ==> rows[j] == Analyze(samples[j], factor, Flagged(samples, j))
    {
      FlaggedIs(samples, i);
      IncludedStep(samples, i);
      var flagged := false;
      if samples[i].included {
        flagged := flags[taken];
        taken := taken + 1;
      }
      rows := rows + [Analyze(samples[i], factor, flagged)];
    }
  }

  /** `analyze_calibration`. */
  method AnalyzeCalibration(samples: seq<Sample>, requireTen: bool)
    returns (outcome: Result<(real, seq<Analysis>, Option<real>), DomainError>)
    requires AllDivisible(samples)
    ensures outcome.Err? <==> Fault(samples, requireTen).Some?
    ensures outcome.Err? ==> Fault(samples, requireTen) == Some(outcome.error)
    ensures outcome.Ok? ==>
              var (factor, rows, spread) := outcome.value;
              && factor == Factor(Included(samples)) > 0.0 && |rows| == |samples|
              && spread == Spread(Ratios(Included(samples)))
              && forall i :: 0 <= i < |samples| ==> rows[i] == Analyze(samples[i], factor, Flagged(samples, i))
  {
    hide Analyze, Flagged, TotalPulses, TotalVolume, Spread;
    if requireTen && |samples| != 10 {
      return Err(WrongCount);
    }
    var chosen := Included(samples);
    if |chosen| < (if requireTen then 7 else 1) {
      return Err(TooFewIncluded);
    }
    var pulses, volume := Pool(chosen);
    if volume <= 0.0 {
      return Err(NoVolume);
    }
    var factor := pulses / volume;
    if factor <= 0.0 {
      return Err(BadFactor);
    }
    var rows := Rows(samples, factor);
    outcome := Ok((factor, rows, Spread(Ratios(chosen))));
  }
}
