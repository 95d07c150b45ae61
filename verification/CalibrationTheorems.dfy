/** What the calibration analysis guarantees for every list of samples. */
module CalibrationTheorems {
  import opened Calibration

  // ---- the pooled factor ----

  function ResidualSum(samples: seq<Sample>, factor: real): real
    requires AllDivisible(samples) && factor != 0.0
    decreases |samples|
  {
    if samples == [] then 0.0
    else
      var s := samples[|samples| - 1];
      ResidualSum(samples[..|samples| - 1], factor) + (s.rawPulses as real / factor - Volume(s))
  }

  lemma SplitQuotient(a: real, b: real, f: real)
    requires f != 0.0
    ensures (a + b) / f == a / f + b / f
  {
  }

  lemma {:induction false} ResidualsTotal(samples: seq<Sample>, factor: real)
    requires AllDivisible(samples) && factor != 0.0
    ensures ResidualSum(samples, factor) == TotalPulses(samples) / factor - TotalVolume(samples)
    decreases |samples|
  {
    if samples == [] {
      assert 0.0 / factor == 0.0;
    } else {
      var n := |samples| - 1;
      ResidualsTotal(samples[..n], factor);
      SplitQuotient(TotalPulses(samples[..n]), samples[n].rawPulses as real, factor);
    }
  }

  lemma QuotientUndone(p: real, v: real)
    requires v != 0.0 && p / v != 0.0
    ensures p / (p / v) == v
  {
    var f := p / v;
    assert f * v == p;
    assert p / f * f == p;
  }

  /** The residuals of the included samples cancel. */
  lemma ResidualsCancel(samples: seq<Sample>, requireTen: bool)
    requires AllDivisible(samples) && Fault(samples, requireTen).None?
    ensures ResidualSum(Included(samples), Factor(Included(samples))) == 0.0
  {
    var chosen := Included(samples);
    ResidualsTotal(chosen, Factor(chosen));
    QuotientUndone(TotalPulses(chosen), TotalVolume(chosen));
  }

  /** Pulses between the low and the high ratio of a volume. */
  predicate InRatio(low: real, high: real, pulses: real, volume: real) {
    low * volume <= pulses <= high * volume
  }

  lemma RatioBound(s: Sample, low: real, high: real)
    requires Divisible(s) && Volume(s) > 0.0 && low <= Ratio(s) <= high
    ensures InRatio(low, high, s.rawPulses as real, Volume(s))
  {
    var v := Volume(s);
    assert Ratio(s) * v == s.rawPulses as real;
    Scaled(low, Ratio(s), v);
    Scaled(Ratio(s), high, v);
  }

  lemma Scaled(a: real, b: real, v: real)
    requires a <= b && v > 0.0
    ensures a * v <= b * v
  {
  }

  lemma ScaledStrictly(a: real, b: real, v: real)
    requires a < b && v > 0.0
    ensures a * v < b * v
  {
  }

  lemma {:induction false} TotalsBound(samples: seq<Sample>, low: real, high: real)
    requires AllDivisible(samples) && AllSupported(samples)
    requires forall i :: 0 <= i < |samples| ==> low <= Ratio(samples[i]) <= high
    ensures InRatio(low, high, TotalPulses(samples), TotalVolume(samples))
    ensures TotalVolume(samples) >= 0.0 && (samples != [] ==> TotalVolume(samples) > 0.0)
    decreases |samples|
  {
    if samples != [] {
      var n := |samples| - 1;
      var (before, last) := (samples[..n], samples[n]);
      TotalsStep(samples);
      RatioBound(last, low, high);
      hide Ratio, Volume, Supported, TotalPulses, TotalVolume, InRatio;
      TotalsBound(before, low, high);
      OneMoreBound(low, high, TotalPulses(before), TotalVolume(before), last.rawPulses as real, Volume(last));
    }
  }

  lemma TotalsStep(samples: seq<Sample>)
    requires AllDivisible(samples) && AllSupported(samples) && samples != []
    ensures var n := |samples| - 1;
            && Volume(samples[n]) > 0.0
            && TotalPulses(samples) == TotalPulses(samples[..n]) + samples[n].rawPulses as real
            && TotalVolume(samples) == TotalVolume(samples[..n]) + Volume(samples[n])
  {
  }

  lemma OneMoreBound(low: real, high: real, pulses: real, volume: real, p: real, v: real)
    requires InRatio(low, high, pulses, volume) && InRatio(low, high, p, v)
    ensures InRatio(low, high, pulses + p, volume + v)
  {
    Distribute(low, volume, v);
    Distribute(high, volume, v);
  }

  lemma Distribute(k: real, a: real, b: real)
    ensures k * (a + b) == k * a + k * b
  {
  }

  lemma QuotientBetween(p: real, v: real, low: real, high: real)
    requires v > 0.0 && InRatio(low, high, p, v)
    ensures low <= p / v <= high
  {
    assert p / v * v == p;
    if p / v < low { ScaledStrictly(p / v, low, v); }
    if high < p / v { ScaledStrictly(high, p / v, v); }
  }

  /** The factor lies between the least and the greatest included ratio. */
  lemma FactorBetweenRatios(samples: seq<Sample>, low: real, high: real)
    requires AllDivisible(samples) && AllSupported(samples) && samples != []
    requires forall i :: 0 <= i < |samples| ==> low <= Ratio(samples[i]) <= high
    ensures TotalVolume(samples) > 0.0 && low <= Factor(samples) <= high
  {
    hide TotalVolume, TotalPulses, Ratio, Supported, InRatio;
    TotalsBound(samples, low, high);
    QuotientBetween(TotalPulses(samples), TotalVolume(samples), low, high);
  }

  /** With supported samples the only faults are the two counts. */
  lemma SupportedNeverFails(samples: seq<Sample>, requireTen: bool)
    requires AllDivisible(samples) && AllSupported(samples)
    ensures Fault(samples, requireTen).None? <==>
              (requireTen ==> |samples| == 10) && |Included(samples)| >= (if requireTen then 7 else 1)
  {
    var chosen := Included(samples);
    if chosen != [] {
      forall i | 0 <= i < |chosen| ensures Supported(chosen[i]) && 0.0 <= Ratio(chosen[i]) {
        assert chosen[i] in chosen;
        PositiveQuotient(chosen[i].rawPulses as real, Volume(chosen[i]));
      }
      TotalIsPositive(chosen);
      PositiveQuotient(TotalPulses(chosen), TotalVolume(chosen));
    }
  }

  lemma PositiveQuotient(p: real, v: real)
    requires p > 0.0 && v > 0.0
    ensures p / v > 0.0
  {
    assert p / v * v == p;
  }

  lemma {:induction false} TotalIsPositive(samples: seq<Sample>)
    requires AllDivisible(samples) && AllSupported(samples) && samples != []
    ensures TotalVolume(samples) > 0.0 && TotalPulses(samples) > 0.0
    decreases |samples|
  {
    var n := |samples| - 1;
    if n > 0 {
      TotalIsPositive(samples[..n]);
    }
  }

  // ---- sorting and medians ----

  predicate Sorted(s: seq<real>) {
    forall i, j :: 0 <= i <= j < |s| ==> s[i] <= s[j]
  }

  predicate AtLeast(s: seq<real>, low: real) {
    forall i :: 0 <= i < |s| ==> low <= s[i]
  }

  lemma {:induction false} InsertAtLeast(x: real, s: seq<real>, low: real)
    requires AtLeast(s, low) && low <= x
    ensures AtLeast(Insert(x, s), low)
    decreases |s|
  {
    if s != [] && x > s[0] {
      InsertAtLeast(x, s[1..], low);
    }
  }

  lemma {:induction false} InsertSorts(x: real, s: seq<real>)
    requires Sorted(s)
    ensures Sorted(Insert(x, s))
    decreases |s|
  {
    if s != [] && x > s[0] {
      InsertSorts(x, s[1..]);
      InsertAtLeast(x, s[1..], s[0]);
    }
  }

  lemma {:induction false} SortSorts(s: seq<real>)
    ensures Sorted(Sort(s))
    decreases |s|
  {
    if s != [] {
      SortSorts(s[1..]);
      InsertSorts(s[0], Sort(s[1..]));
    }
  }

  lemma {:induction false} SortAtLeast(s: seq<real>, low: real)
    requires AtLeast(s, low)
    ensures AtLeast(Sort(s), low)
    decreases |s|
  {
    if s != [] {
      SortAtLeast(s[1..], low);
      InsertAtLeast(s[0], Sort(s[1..]), low);
    }
  }

  function Above(s: seq<real>, t: real): (n: nat)
    ensures n <= |s|
    decreases |s|
  {
    if s == [] then 0 else (if s[0] > t then 1 else 0) + Above(s[1..], t)
  }

  lemma {:induction false} InsertAbove(x: real, s: seq<real>, t: real)
    ensures Above(Insert(x, s), t) == Above(s, t) + (if x > t then 1 else 0)
    decreases |s|
  {
    if s == [] || x <= s[0] {
      assert ([x] + s)[1..] == s;
    } else {
      InsertAbove(x, s[1..], t);
      assert ([s[0]] + Insert(x, s[1..]))[1..] == Insert(x, s[1..]);
    }
  }

  lemma {:induction false} SortAbove(s: seq<real>, t: real)
    ensures Above(Sort(s), t) == Above(s, t)
    decreases |s|
  {
    if s != [] {
      SortAbove(s[1..], t);
      InsertAbove(s[0], Sort(s[1..]), t);
    }
  }

  /** A sorted list has at most `|s| - 1 - k` values above one at or past its `k`-th. */
  lemma {:induction false} SortedAbove(s: seq<real>, k: nat, t: real)
    requires Sorted(s) && k < |s| && s[k] <= t
    ensures Above(s, t) <= |s| - 1 - k
    decreases |s|
  {
    if k > 0 {
      SortedAbove(s[1..], k - 1, t);
    }
  }

  lemma {:induction false} SortedAtLeastAbove(s: seq<real>, k: nat, t: real)
    requires Sorted(s) && k < |s| && t < s[k]
    ensures Above(s, t) >= |s| - k
    decreases |s|
  {
    if k > 0 {
      SortedAtLeastAbove(s[1..], k - 1, t);
    } else if |s| > 1 {
      SortedAtLeastAbove(s[1..], 0, t);
    }
  }

  ghost predicate SameCounts(a: seq<real>, b: seq<real>) {
    |a| == |b| && forall t :: Above(a, t) == Above(b, t)
  }

  /** Sorting, and so the median, depends only on how many values lie above each bound. */
  lemma SortOfSameCounts(a: seq<real>, b: seq<real>)
    requires SameCounts(a, b)
    ensures Sort(a) == Sort(b)
  {
    hide Sort, Above;
    SortSorts(a);
    SortSorts(b);
    var (x, y) := (Sort(a), Sort(b));
    forall i | 0 <= i < |x| ensures x[i] == y[i] {
      if x[i] < y[i] {
        CountsDiffer(a, b, i);
      } else if y[i] < x[i] {
        CountsDiffer(b, a, i);
      }
    }
  }

  lemma CountsDiffer(a: seq<real>, b: seq<real>, i: nat)
    requires |a| == |b| && i < |a| && Sorted(Sort(a)) && Sorted(Sort(b)) && Sort(a)[i] < Sort(b)[i]
    ensures Above(a, Sort(a)[i]) < Above(b, Sort(a)[i])
  {
    hide Sort, Above;
    var t := Sort(a)[i];
    SortedAbove(Sort(a), i, t);
    SortedAtLeastAbove(Sort(b), i, t);
    SortAbove(a, t);
    SortAbove(b, t);
  }

  lemma {:induction false} AboveAppend(a: seq<real>, b: seq<real>, t: real)
    ensures Above(a + b, t) == Above(a, t) + Above(b, t)
    decreases |a|
  {
    if a == [] {
      assert a + b == b;
    } else {
      AboveAppend(a[1..], b, t);
      assert (a + b)[1..] == a[1..] + b;
    }
  }

  lemma AboveRemove(b: seq<real>, i: nat, t: real)
    requires i < |b|
    ensures Above(b, t) == Above(b[..i] + b[i + 1..], t) + (if b[i] > t then 1 else 0)
  {
    AboveAppend(b[..i], b[i..], t);
    assert b[..i] + b[i..] == b;
    AboveAppend(b[..i], b[i + 1..], t);
    assert b[i..][1..] == b[i + 1..];
  }

  lemma DeviationsRemove(b: seq<real>, i: nat, c: real)
    requires i < |b|
    ensures Deviations(b[..i] + b[i + 1..], c) == Deviations(b, c)[..i] + Deviations(b, c)[i + 1..]
  {
    hide Abs, Deviations;
    var (x, d) := (b[..i] + b[i + 1..], Deviations(b, c));
    var y := d[..i] + d[i + 1..];
    forall j | 0 <= j < |x| ensures Deviations(x, c)[j] == y[j] {
      assert x[j] == b[if j < i then j else j + 1] && y[j] == d[if j < i then j else j + 1];
    }
  }

  lemma MultisetRemove(a: seq<real>, b: seq<real>) returns (i: nat)
    requires a != [] && multiset(a) == multiset(b)
    ensures i < |b| && b[i] == a[0] && multiset(a[1..]) == multiset(b[..i] + b[i + 1..])
  {
    assert a[0] in multiset(b);
    i :| 0 <= i < |b| && b[i] == a[0];
    assert a == [a[0]] + a[1..];
    assert b == b[..i] + [b[i]] + b[i + 1..];
    assert multiset(a[1..]) == multiset(a) - multiset{a[0]};
    assert multiset(b[..i] + b[i + 1..]) == multiset(b) - multiset{b[i]};
  }

  lemma {:induction false} ReorderedAbove(a: seq<real>, b: seq<real>, c: real, t: real)
    requires multiset(a) == multiset(b)
    ensures |a| == |b| && Above(a, t) == Above(b, t) && Above(Deviations(a, c), t) == Above(Deviations(b, c), t)
    decreases |a|
  {
    hide Abs;
    assert |a| == |multiset(a)| && |b| == |multiset(b)|;
    if a != [] {
      var i := MultisetRemove(a, b);
      ReorderedAbove(a[1..], b[..i] + b[i + 1..], c, t);
      AboveRemove(b, i, t);
      DeviationsRemove(b, i, c);
      AboveRemove(Deviations(b, c), i, t);
    }
  }

  lemma ReorderedCounts(a: seq<real>, b: seq<real>, c: real)
    requires multiset(a) == multiset(b)
    ensures |a| == |b| && SameCounts(a, b) && SameCounts(Deviations(a, c), Deviations(b, c))
  {
    hide Above, Abs;
    ReorderedAbove(a, b, c, 0.0);
    forall t ensures Above(a, t) == Above(b, t) {
      ReorderedAbove(a, b, c, t);
    }
    forall t ensures Above(Deviations(a, c), t) == Above(Deviations(b, c), t) {
      ReorderedAbove(a, b, c, t);
    }
  }

  /** Reordering the ratios reorders the flags with them. */
  lemma FlagsFollowReordering(a: seq<real>, b: seq<real>, i: nat, j: nat)
    requires multiset(a) == multiset(b) && i < |a| && j < |b| && a[i] == b[j]
    ensures Flags(a)[i] == Flags(b)[j]
  {
    hide Flag, Deviations, Sort, SameCounts;
    ReorderedCounts(a, b, Median(a));
    SortOfSameCounts(a, b);
    SortOfSameCounts(Deviations(a, Median(a)), Deviations(b, Median(a)));
  }

  // ---- at most half ----

  function Count(flags: seq<bool>): nat
    decreases |flags|
  {
    if flags == [] then 0 else (if flags[0] then 1 else 0) + Count(flags[1..])
  }

  /** At most half of any list lies above its median. */
  lemma AboveMedian(s: seq<real>)
    requires s != []
    ensures Above(s, Median(s)) <= |s| / 2
  {
    hide Sort, Above;
    SortSorts(s);
    SortAbove(s, Median(s));
    SortedAbove(Sort(s), (|s| - 1) / 2, Median(s));
  }

  lemma MedianNonnegative(s: seq<real>)
    requires s != [] && AtLeast(s, 0.0)
    ensures Median(s) >= 0.0
  {
    hide Sort;
    SortAtLeast(s, 0.0);
  }

  lemma QuotientAtMost(a: real, c: real, m: real)
    requires m > 0.0 && a <= c * m
    ensures a / m <= c
  {
    assert a / m * m == a;
    if a / m > c { ScaledStrictly(c, a / m, m); }
  }

  /** Only a value further from the center than the median deviation is ever flagged. */
  lemma FlaggedIsFar(center: real, mad: real, value: real)
    requires mad >= 0.0 && Flag(center, mad, value)
    ensures Abs(value - center) > mad
  {
    var d := Abs(value - center);
    if mad > 0.0 && d <= mad {
      QuotientAtMost(0.6745 * d, 3.5, mad);
    }
    if mad == 0.0 && d == 0.0 && center != 0.0 {
      assert 0.0 / Abs(center) == 0.0;
    }
  }

  lemma {:induction false} CountBelowAbove(flags: seq<bool>, d: seq<real>, t: real)
    requires |flags| == |d| && forall i :: 0 <= i < |d| && flags[i] ==> d[i] > t
    ensures Count(flags) <= Above(d, t)
    decreases |d|
  {
    if d != [] {
      CountBelowAbove(flags[1..], d[1..], t);
    }
  }

  /** At most half of any list of ratios is ever flagged. */
  lemma AtMostHalfFlagged(ratios: seq<real>)
    ensures Count(Flags(ratios)) <= |ratios| / 2
  {
    if ratios != [] {
      var d := Deviations(ratios, Median(ratios));
      MedianNonnegative(d);
      AboveMedian(d);
      forall i | 0 <= i < |ratios| && Flags(ratios)[i] ensures d[i] > Mad(ratios) {
        FlaggedIsFar(Median(ratios), Mad(ratios), ratios[i]);
      }
      CountBelowAbove(Flags(ratios), d, Mad(ratios));
    }
  }

  // ---- scaling ----

  function Times(k: real, x: real): real {
    k * x
  }

  function Scale(k: real, s: seq<real>): (t: seq<real>)
    ensures |t| == |s| && forall i :: 0 <= i < |s| ==> t[i] == Times(k, s[i])
    decreases |s|
  {
    if s == [] then [] else [Times(k, s[0])] + Scale(k, s[1..])
  }

  lemma TimesOrder(k: real, x: real, y: real)
    requires k > 0.0
    ensures Times(k, x) <= Times(k, y) <==> x <= y
  {
    if x <= y { Scaled(x, y, k); }
    if y < x { ScaledStrictly(y, x, k); }
  }

  lemma TimesLinear(k: real, x: real, y: real)
    ensures Times(k, x) + Times(k, y) == Times(k, x + y)
    ensures Times(k, x) - Times(k, y) == Times(k, x - y)
    ensures Times(k, x) / 2.0 == Times(k, x / 2.0)
    ensures Times(k, -x) == -Times(k, x) && Times(k, 0.0) == 0.0
  {
  }

  lemma {:induction false} ScaleInsert(k: real, x: real, s: seq<real>)
    requires k > 0.0
    ensures Insert(Times(k, x), Scale(k, s)) == Scale(k, Insert(x, s))
    decreases |s|
  {
    hide Times;
    if s != [] {
      TimesOrder(k, x, s[0]);
      assert Scale(k, s)[1..] == Scale(k, s[1..]);
      if x <= s[0] {
        assert ([x] + s)[1..] == s;
      } else {
        ScaleInsert(k, x, s[1..]);
        assert ([s[0]] + Insert(x, s[1..]))[1..] == Insert(x, s[1..]);
      }
    }
  }

  lemma {:induction false} ScaleSort(k: real, s: seq<real>)
    requires k > 0.0
    ensures Sort(Scale(k, s)) == Scale(k, Sort(s))
    decreases |s|
  {
    hide Times, Insert;
    if s != [] {
      ScaleSort(k, s[1..]);
      ScaleInsert(k, s[0], Sort(s[1..]));
      assert Scale(k, s)[1..] == Scale(k, s[1..]);
    }
  }

  lemma ScaleMedian(k: real, s: seq<real>)
    requires k > 0.0 && s != []
    ensures Median(Scale(k, s)) == Times(k, Median(s))
  {
    hide Sort, Scale, Times;
    ScaleSort(k, s);
    if |s| % 2 == 0 {
      var (a, b) := (Sort(s)[|s| / 2 - 1], Sort(s)[|s| / 2]);
      TimesLinear(k, a, b);
      TimesLinear(k, a + b, 0.0);
    }
  }

  lemma ScaleAbs(k: real, x: real)
    requires k > 0.0
    ensures Abs(Times(k, x)) == Times(k, Abs(x))
  {
    hide Times;
    TimesOrder(k, 0.0, x);
    TimesLinear(k, x, 0.0);
  }

  lemma ScaleDistance(k: real, x: real, c: real)
    requires k > 0.0
    ensures Abs(Times(k, x) - Times(k, c)) == Times(k, Abs(x - c))
  {
    hide Times, Abs;
    TimesLinear(k, x, c);
    ScaleAbs(k, x - c);
  }

  lemma ScaleDeviations(k: real, s: seq<real>, c: real)
    requires k > 0.0
    ensures Deviations(Scale(k, s), Times(k, c)) == Scale(k, Deviations(s, c))
  {
    hide Deviations, Scale, Abs, Times;
    forall i | 0 <= i < |s| ensures Deviations(Scale(k, s), Times(k, c))[i] == Scale(k, Deviations(s, c))[i] {
      ScaleDistance(k, s[i], c);
    }
  }

  lemma ScaleQuotient(k: real, a: real, m: real)
    requires k > 0.0 && m != 0.0
    ensures Times(k, m) != 0.0 && Times(k, a) / Times(k, m) == a / m
  {
    var q := a / m;
    assert q * m == a;
    assert q * (k * m) == k * a;
    assert (k * a) / (k * m) * (k * m) == k * a;
  }

  lemma ScaleScore(k: real, a: real, m: real)
    requires k > 0.0 && m != 0.0
    ensures Times(k, m) != 0.0 && 0.6745 * Times(k, a) / Times(k, m) == 0.6745 * a / m
  {
    ScaleQuotient(k, 0.6745 * a, m);
    assert Times(k, 0.6745 * a) == 0.6745 * Times(k, a);
  }

  lemma TimesZero(k: real, x: real)
    requires k > 0.0
    ensures Times(k, x) == 0.0 <==> x == 0.0
    ensures Abs(x) == 0.0 <==> x == 0.0
  {
  }

  lemma ScaleFlag(k: real, center: real, mad: real, value: real)
    requires k > 0.0
    ensures Flag(Times(k, center), Times(k, mad), Times(k, value)) == Flag(center, mad, value)
  {
    hide Abs, Times;
    var d := Abs(value - center);
    ScaleDistance(k, value, center);
    TimesZero(k, mad);
    TimesZero(k, center);
    TimesZero(k, value);
    if mad != 0.0 {
      ScaleScore(k, d, mad);
    } else if center != 0.0 {
      ScaleAbs(k, center);
      ScaleQuotient(k, d, Abs(center));
    }
  }

  /** Measuring in another unit flags the same samples. */
  lemma FlagsIgnoreScale(k: real, ratios: seq<real>)
    requires k > 0.0
    ensures Flags(Scale(k, ratios)) == Flags(ratios)
  {
    hide Deviations, Scale, Median, Flag, Times;
    if ratios != [] {
      var c := Median(ratios);
      ScaleMedian(k, ratios);
      ScaleDeviations(k, ratios, c);
      ScaleMedian(k, Deviations(ratios, c));
      forall i | 0 <= i < |ratios| ensures Flags(Scale(k, ratios))[i] == Flags(ratios)[i] {
        ScaleFlag(k, c, Mad(ratios), ratios[i]);
      }
    }
  }

  // ---- the flagged samples of an analysis ----

  /** How many of the first `n` samples an analysis flags. */
  function FlaggedAmong(samples: seq<Sample>, n: nat): nat
    requires AllDivisible(samples) && n <= |samples|
  {
    if n == 0 then 0 else FlaggedAmong(samples, n - 1) + (if Flagged(samples, n - 1) then 1 else 0)
  }

  lemma {:induction false} CountPush(flags: seq<bool>, f: bool)
    ensures Count(flags + [f]) == Count(flags) + (if f then 1 else 0)
    decreases |flags|
  {
    if flags == [] {
      assert [] + [f] == [f];
    } else {
      CountPush(flags[1..], f);
      assert (flags + [f])[1..] == flags[1..] + [f];
    }
  }

  lemma CountTake(flags: seq<bool>, k: nat)
    requires k < |flags|
    ensures Count(flags[..k + 1]) == Count(flags[..k]) + (if flags[k] then 1 else 0)
  {
    CountPush(flags[..k], flags[k]);
    assert flags[..k + 1] == flags[..k] + [flags[k]];
  }

  lemma FlaggedAmongStep(samples: seq<Sample>, n: nat)
    requires AllDivisible(samples) && n <= |samples|
    ensures FlaggedAmong(samples, n) == if n == 0 then 0 else FlaggedAmong(samples, n - 1) + (if Flagged(samples, n - 1) then 1 else 0)
  {
    hide Flagged;
  }

  lemma {:induction false} FlaggedAmongIs(samples: seq<Sample>, n: nat)
    requires AllDivisible(samples) && AllDivisible(Included(samples)) && n <= |samples|
    ensures var rank := |Included(samples[..n])|;
            rank <= |Included(samples)| && FlaggedAmong(samples, n) == Count(Flags(Ratios(Included(samples)))[..rank])
  {
    hide *;
    var flags := Flags(Ratios(Included(samples)));
    FlaggedAmongStep(samples, n);
    if n == 0 {
      NoneIncluded(samples);
      CountEmpty(flags);
    } else {
      FlaggedAmongIs(samples, n - 1);
      FlaggedIs(samples, n - 1);
      IncludedStep(samples, n - 1);
      if samples[n - 1].included {
        CountTake(flags, |Included(samples[..n - 1])|);
      }
    }
  }

  lemma CountEmpty(flags: seq<bool>)
    ensures Count(flags[..0]) == 0
  {
  }

  /** An analysis flags at most half of the included samples, and no other. */
  lemma AtMostHalfOfSamplesFlagged(samples: seq<Sample>)
    requires AllDivisible(samples)
    ensures FlaggedAmong(samples, |samples|) <= |Included(samples)| / 2
  {
    hide Included, Flags, Ratios, Flagged, AllDivisible, Count;
    IncludedDivisible(samples);
    FlaggedAmongIs(samples, |samples|);
    AtMostHalfFlagged(Ratios(Included(samples)));
    var flags := Flags(Ratios(Included(samples)));
    assert samples[..|samples|] == samples;
    assert flags[..|flags|] == flags;
  }

  // ---- the spread ----

  lemma {:induction false} SquaresZero(s: seq<real>, mean: real)
    ensures Squares(s, mean) >= 0.0
    ensures Squares(s, mean) == 0.0 <==> forall i :: 0 <= i < |s| ==> s[i] == mean
    decreases |s|
  {
    hide Square;
    if s != [] {
      SquaresZero(s[1..], mean);
      assert Square(s[0] - mean) == 0.0 <==> s[0] == mean;
      if Squares(s, mean) == 0.0 {
        forall i | 0 <= i < |s| ensures s[i] == mean {
          assert i > 0 ==> s[i] == s[1..][i - 1];
        }
      }
    }
  }

  lemma {:induction false} TotalOfEqual(s: seq<real>, v: real)
    requires forall i :: 0 <= i < |s| ==> s[i] == v
    ensures Total(s) == Times(v, |s| as real)
    decreases |s|
  {
    if s != [] {
      assert forall i :: 0 <= i < |s[1..]| ==> s[1..][i] == s[i + 1];
      TotalOfEqual(s[1..], v);
    }
  }

  lemma MeanOfEqual(s: seq<real>)
    requires s != [] && forall i :: 0 <= i < |s| ==> s[i] == s[0]
    ensures Mean(s) == s[0]
  {
    TotalOfEqual(s, s[0]);
    var n := |s| as real;
    assert Times(s[0], n) / n == s[0];
  }

  lemma QuotientZero(a: real, m: real)
    requires m > 0.0 && a >= 0.0
    ensures a / m >= 0.0 && (a / m == 0.0 <==> a == 0.0)
  {
    assert a / m * m == a;
  }

  /** The spread is never negative, and zero exactly when all the ratios are equal. */
  lemma SpreadZeroExactly(ratios: seq<real>)
    requires |ratios| >= 2 && Mean(ratios) != 0.0
    ensures Spread(ratios).Some? && Spread(ratios).value >= 0.0
    ensures Spread(ratios).value == 0.0 <==> forall i :: 0 <= i < |ratios| ==> ratios[i] == ratios[0]
  {
    hide Total, Squares, Square, Mean;
    var mean := Mean(ratios);
    var sum := Squares(ratios, mean);
    SquaresZero(ratios, mean);
    QuotientZero(sum, |ratios| as real);
    QuotientZero(sum / |ratios| as real, Square(mean));
    if forall i :: 0 <= i < |ratios| ==> ratios[i] == ratios[0] {
      MeanOfEqual(ratios);
    }
  }

  // ---- the zero-deviation rule ----

  function Equal(s: seq<real>, v: real): (n: nat)
    ensures n <= |s|
    decreases |s|
  {
    if s == [] then 0 else (if s[0] == v then 1 else 0) + Equal(s[1..], v)
  }

  /** More than half of the ratios are this one. */
  predicate Majority(ratios: seq<real>, v: real) {
    2 * Equal(ratios, v) > |ratios|
  }

  lemma {:induction false} DeviationsAbove(s: seq<real>, center: real)
    ensures Above(Deviations(s, center), 0.0) == |s| - Equal(s, center)
    ensures AtLeast(Deviations(s, center), 0.0)
    decreases |s|
  {
    if s != [] {
      DeviationsAbove(s[1..], center);
    }
  }

  lemma {:induction false} EqualOrAbove(s: seq<real>, v: real, below: real)
    requires below < v
    ensures Above(s, v) + Equal(s, v) <= |s| && Equal(s, v) <= Above(s, below)
    decreases |s|
  {
    if s != [] {
      EqualOrAbove(s[1..], v, below);
    }
  }

  /** The middle of a sorted list is at most a bound exactly when few enough values lie above it. */
  lemma MiddleAtMost(s: seq<real>, k: nat, t: real)
    requires k < |s|
    ensures Sorted(Sort(s)) && (Sort(s)[k] <= t <==> Above(s, t) <= |s| - 1 - k)
  {
    hide Sort, Above;
    SortSorts(s);
    SortAbove(s, t);
    if Sort(s)[k] <= t {
      SortedAbove(Sort(s), k, t);
    } else {
      SortedAtLeastAbove(Sort(s), k, t);
    }
  }

  lemma MajorityIsMedian(ratios: seq<real>, v: real)
    requires Majority(ratios, v)
    ensures Median(ratios) == v
  {
    hide Sort, Above, Equal;
    var n := |ratios|;
    EqualOrAbove(ratios, v, v - 1.0);
    MiddleAtMost(ratios, n / 2, v);
    var k := (n - 1) / 2;
    var low := Sort(ratios)[k];
    if low < v {
      EqualOrAbove(ratios, v, low);
      MiddleAtMost(ratios, k, low);
    }
    assert k < n / 2 ==> Sort(ratios)[k] <= Sort(ratios)[n / 2];
  }

  /** The median deviation is zero exactly when more than half of the ratios are the median. */
  lemma ZeroDeviationExactly(ratios: seq<real>)
    requires ratios != []
    ensures Mad(ratios) == 0.0 <==> Majority(ratios, Median(ratios))
  {
    hide Sort, Above, Equal, Deviations;
    var (n, center) := (|ratios|, Median(ratios));
    var d := Deviations(ratios, center);
    DeviationsAbove(ratios, center);
    SortAtLeast(d, 0.0);
    MiddleAtMost(d, n / 2, 0.0);
    assert n % 2 == 0 ==> Sort(d)[n / 2 - 1] <= Sort(d)[n / 2];
  }

  /** Unequal to the center, and within five percent of it. */
  predicate Jitter(center: real, value: real) {
    value != center && Abs(value - center) <= 0.05 * Abs(center)
  }

  lemma ZeroDeviationFlag(center: real, value: real)
    ensures Flag(center, 0.0, value) <==> value != center && !Jitter(center, value)
  {
    if center != 0.0 {
      OverFivePercent(Abs(value - center), Abs(center));
    }
  }

  lemma OverFivePercent(a: real, m: real)
    requires m > 0.0
    ensures a / m > 0.05 <==> a > 0.05 * m
  {
    assert a / m * m == a;
    if a / m > 0.05 {
      ScaledStrictly(0.05, a / m, m);
    } else {
      Scaled(a / m, 0.05, m);
    }
  }

  /** The decision record says that with a zero deviation any unequal ratio is
      flagged; the code allows five percent of the center. When more than half of
      the ratios are one value, they meet the record if and only if no ratio lies
      within five percent of that value without being it. */
  lemma JitterTolerated(ratios: seq<real>, v: real)
    requires Majority(ratios, v)
    ensures (forall i :: 0 <= i < |ratios| && ratios[i] != v ==> Flags(ratios)[i])
            <==> forall i :: 0 <= i < |ratios| ==> !Jitter(v, ratios[i])
  {
    hide Sort, Equal, Flag, Jitter, Deviations;
    MajorityIsMedian(ratios, v);
    ZeroDeviationExactly(ratios);
    forall i | 0 <= i < |ratios| ensures Flags(ratios)[i] <==> ratios[i] != v && !Jitter(v, ratios[i]) {
      ZeroDeviationFlag(v, ratios[i]);
    }
    if i :| 0 <= i < |ratios| && Jitter(v, ratios[i]) {
      JitterUnequal(v, ratios[i]);
      assert !Flags(ratios)[i];
    }
  }

  lemma JitterUnequal(center: real, value: real)
    requires Jitter(center, value)
    ensures value != center
  {
  }

  /** A list that does not meet it: four percent off, and unflagged. */
  lemma JitterExample()
    ensures Majority([1.0, 1.0, 1.04], 1.0) && Jitter(1.0, [1.0, 1.0, 1.04][2]) && !Flags([1.0, 1.0, 1.04])[2]
  {
    var r := [1.0, 1.0, 1.04];
    assert Equal(r, 1.0) == 2 by {
      assert r[1..][1..] == [1.04] && [1.04][1..] == [];
      assert Equal([1.04], 1.0) == 0;
    }
    hide Equal, Sort, Flag, Deviations;
    MajorityIsMedian(r, 1.0);
    ZeroDeviationExactly(r);
    ZeroDeviationFlag(1.0, r[2]);
  }
}
