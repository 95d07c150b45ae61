/** What one row of a calibration says: the volume it predicts, how far off that
    is, and how far from the median of all ratios a flagged ratio lies. */
module CalibrationRows {
  import opened Calibration
  import opened CalibrationTheorems

  // ---- predictions ----

  lemma TimesOver(a: real, b: real)
    requires b != 0.0
    ensures a / b * b == a
  {
  }

  lemma Percent(a: real, v: real)
    requires v > 0.0
    ensures a / v * 100.0 * v == 100.0 * a
  {
    TimesOver(a, v);
    assert a / v * 100.0 * v == 100.0 * (a / v * v);
  }

  /** At the pooled factor the predicted volume gives back the pulses; the residual
      is what it exceeds the weighed volume by, mass over density; the percentage
      is the size of the residual as a share of that volume, never negative. */
  lemma RowMeans(s: Sample, factor: real, flagged: bool)
    requires Supported(s) && factor > 0.0
    ensures var row := Analyze(s, factor, flagged);
            var weighed := row.predicted - row.residual;
            && row.predicted * factor == s.rawPulses as real
            && weighed * s.density == s.massG && weighed > 0.0
            && row.percentage * weighed == 100.0 * Abs(row.residual) && row.percentage >= 0.0
            && row.flagged == flagged
  {
    var v := Volume(s);
    TimesOver(s.rawPulses as real, factor);
    TimesOver(s.massG, s.density);
    var off := Abs(s.rawPulses as real / factor - v);
    Percent(off, v);
    NotNegative(off, v);
  }

  lemma NotNegative(a: real, v: real)
    requires a >= 0.0 && v > 0.0
    ensures a / v * 100.0 >= 0.0
  {
  }

  /** The residual is positive exactly when the sample's own ratio exceeds the factor. */
  lemma ResidualSign(s: Sample, factor: real, flagged: bool)
    requires Supported(s) && factor > 0.0
    ensures Analyze(s, factor, flagged).residual > 0.0 <==> Ratio(s) > factor
  {
    Exceeds(s.rawPulses as real, Volume(s), factor);
  }

  lemma Exceeds(p: real, v: real, factor: real)
    requires v > 0.0 && factor > 0.0
    ensures p / factor - v > 0.0 <==> p / v > factor
  {
    OverExactly(p, factor, v);
    OverExactly(p, v, factor);
  }

  lemma OverExactly(p: real, d: real, bound: real)
    requires d > 0.0
    ensures p / d > bound <==> p > Times(bound, d)
  {
    var q := p / d;
    TimesOver(p, d);
    if q > bound {
      ScaledStrictly(bound, q, d);
    } else {
      Scaled(q, bound, d);
    }
  }

  // ---- medians ----

  function Below(s: seq<real>, t: real): (n: nat)
    decreases |s|
  {
    if s == [] then 0 else (if s[0] < t then 1 else 0) + Below(s[1..], t)
  }

  lemma {:induction false} InsertBelow(x: real, s: seq<real>, t: real)
    ensures Below(Insert(x, s), t) == Below(s, t) + (if x < t then 1 else 0)
    decreases |s|
  {
    if s == [] || x <= s[0] {
      assert ([x] + s)[1..] == s;
    } else {
      InsertBelow(x, s[1..], t);
      assert ([s[0]] + Insert(x, s[1..]))[1..] == Insert(x, s[1..]);
    }
  }

  lemma {:induction false} SortBelow(s: seq<real>, t: real)
    ensures Below(Sort(s), t) == Below(s, t)
    decreases |s|
  {
    if s != [] {
      SortBelow(s[1..], t);
      InsertBelow(s[0], Sort(s[1..]), t);
    }
  }

  lemma {:induction false} SortedBelow(s: seq<real>, k: nat, t: real)
    requires Sorted(s) && k < |s| && t <= s[k]
    ensures Below(s, t) <= k
    decreases |s|
  {
    if k == 0 {
      NoneBelow(s, t);
    } else {
      SortedBelow(s[1..], k - 1, t);
    }
  }

  lemma {:induction false} NoneBelow(s: seq<real>, t: real)
    requires AtLeast(s, t)
    ensures Below(s, t) == 0
    decreases |s|
  {
    if s != [] {
      NoneBelow(s[1..], t);
    }
  }

  lemma {:induction false} InsertMembers(x: real, s: seq<real>, y: real)
    ensures y in Insert(x, s) <==> y == x || y in s
    decreases |s|
  {
    if s != [] && x > s[0] {
      InsertMembers(x, s[1..], y);
    }
  }

  lemma {:induction false} SortMembers(s: seq<real>, y: real)
    ensures y in Sort(s) <==> y in s
    decreases |s|
  {
    if s != [] {
      SortMembers(s[1..], y);
      InsertMembers(s[0], Sort(s[1..]), y);
    }
  }

  /** One of the values, with at most k below it and at most |s| - 1 - k above it. */
  predicate OfRank(s: seq<real>, k: int, x: real) {
    x in s && Below(s, x) <= k && Above(s, x) <= |s| - 1 - k
  }

  lemma SortedRank(s: seq<real>, k: nat)
    requires k < |s|
    ensures OfRank(s, k, Sort(s)[k])
  {
    hide Sort, Above, Below;
    var x := Sort(s)[k];
    SortSorts(s);
    SortMembers(s, x);
    SortBelow(s, x);
    SortAbove(s, x);
    SortedBelow(Sort(s), k, x);
    SortedAbove(Sort(s), k, x);
  }

  lemma {:induction false} Counts(s: seq<real>, x: real, y: real)
    requires x < y
    ensures Above(s, x) + Below(s, y) >= |s|
    decreases |s|
  {
    if s != [] {
      Counts(s[1..], x, y);
    }
  }

  /** No two values have one rank. */
  lemma RankUnique(s: seq<real>, k: int, x: real, y: real)
    requires OfRank(s, k, x) && OfRank(s, k, y)
    ensures x == y
  {
    hide Above, Below;
    if x < y {
      Counts(s, x, y);
    } else if y < x {
      Counts(s, y, x);
    }
  }

  /** The median is halfway between the values of the two middle ranks, which are
      one for an odd number of values; it is the only such number. */
  lemma MedianIsMiddle(s: seq<real>, low: real, high: real)
    requires s != [] && OfRank(s, (|s| - 1) / 2, low) && OfRank(s, |s| / 2, high)
    ensures Median(s) == (low + high) / 2.0
    ensures |s| % 2 == 1 ==> Median(s) == low == high
  {
    hide Above, Below, Sort, OfRank;
    SortedRank(s, (|s| - 1) / 2);
    SortedRank(s, |s| / 2);
    RankUnique(s, (|s| - 1) / 2, low, Sort(s)[(|s| - 1) / 2]);
    RankUnique(s, |s| / 2, high, Sort(s)[|s| / 2]);
  }

  // ---- flags ----

  lemma ScoreBound(distance: real, mad: real)
    requires mad > 0.0 && distance >= 0.0
    ensures 0.6745 * distance / mad > 3.5 <==> 1349.0 * distance > 7000.0 * mad
  {
    var score := 0.6745 * distance / mad;
    TimesOver(0.6745 * distance, mad);
    if score > 3.5 {
      ScaledStrictly(3.5, score, mad);
    } else {
      Scaled(score, 3.5, mad);
    }
  }

  lemma FiveHundredths(distance: real, center: real)
    requires center > 0.0 && distance >= 0.0
    ensures distance / center > 0.05 <==> 20.0 * distance > center
  {
    TimesOver(distance, center);
    if distance / center > 0.05 {
      ScaledStrictly(0.05, distance / center, center);
    } else {
      Scaled(distance / center, 0.05, center);
    }
  }

  /** A ratio is flagged exactly when its distance from the median exceeds 7000/1349
      of the median distance, about 5.19 times; where the median distance is zero,
      when it exceeds a twentieth of the median; and where that is zero too, when
      there is any. */
  lemma FlaggedExactly(ratios: seq<real>, i: nat)
    requires i < |ratios|
    ensures var center := Median(ratios);
            var (distance, mad) := (Abs(ratios[i] - center), Median(Deviations(ratios, center)));
            && mad >= 0.0
            && (mad > 0.0 ==> (Flags(ratios)[i] <==> 1349.0 * distance > 7000.0 * mad))
            && (mad == 0.0 ==> (Flags(ratios)[i] <==> 20.0 * distance > Abs(center)))
  {
    hide Median, Deviations;
    var center := Median(ratios);
    var (distance, mad) := (Abs(ratios[i] - center), Mad(ratios));
    MedianNonnegative(Deviations(ratios, center));
    if mad > 0.0 {
      ScoreBound(distance, mad);
    } else if center != 0.0 {
      FiveHundredths(distance, Abs(center));
    }
  }

  // ---- the spread ----

  function SquareTotal(s: seq<real>): real {
    if s == [] then 0.0 else Square(s[0]) + SquareTotal(s[1..])
  }

  lemma SquareIs(x: real)
    ensures Square(x) == x * x
  {
  }

  /** The sum of k squared distances from m, of the sums of the values and their squares. */
  function Expanded(squares: real, total: real, k: real, m: real): real {
    squares - 2.0 * m * total + k * m * m
  }

  lemma ExpandStep(x: real, m: real, q: real, t: real, k: real)
    ensures Square(x - m) + Expanded(q, t, k, m) == Expanded(Square(x) + q, x + t, k + 1.0, m)
  {
    SquareIs(x);
    SquareIs(x - m);
    hide Square;
    ExpandTerms(x, m, t, k);
  }

  lemma ExpandTerms(x: real, m: real, t: real, k: real)
    ensures (x - m) * (x - m) == x * x - 2.0 * m * x + m * m
    ensures 2.0 * m * (x + t) == 2.0 * m * x + 2.0 * m * t && (k + 1.0) * m * m == k * m * m + m * m
  {
  }

  lemma {:induction false} SquaresExpand(s: seq<real>, m: real)
    ensures Squares(s, m) == Expanded(SquareTotal(s), Total(s), |s| as real, m)
    decreases |s|
  {
    if s == [] {
      assert Expanded(0.0, 0.0, 0.0, m) == 0.0;
    } else {
      hide Square, Expanded;
      SquaresExpand(s[1..], m);
      ExpandStep(s[0], m, SquareTotal(s[1..]), Total(s[1..]), |s[1..]| as real);
      assert |s| as real == |s[1..]| as real + 1.0;
    }
  }

  lemma SpreadAlgebra(squares: real, q: real, t: real, n: real, mean: real)
    requires n > 0.0 && mean != 0.0 && mean * n == t && mean * mean > 0.0
    requires squares == Expanded(q, t, n, mean)
    ensures squares / n / (mean * mean) * (t * t) == n * q - t * t
  {
    var v := squares / n / (mean * mean);
    TimesOver(squares / n, mean * mean);
    TimesOver(squares, n);
    assert v * (mean * mean) * n == squares;
    assert t * t == (mean * mean) * n * n;
    assert v * (t * t) == v * (mean * mean) * n * n;
    assert n * squares == n * q - 2.0 * (mean * n) * t + (n * mean) * (n * mean);
  }

  /** The spread in the ratios alone: times the square of their sum it is their
      number times the sum of their squares, less the square of their sum. */
  lemma SpreadMeans(ratios: seq<real>)
    requires |ratios| >= 2 && Total(ratios) != 0.0
    ensures Spread(ratios).Some?
    ensures Spread(ratios).value * (Total(ratios) * Total(ratios))
            == |ratios| as real * SquareTotal(ratios) - Total(ratios) * Total(ratios)
  {
    hide Total, Squares, SquareTotal, Square;
    var (n, mean) := (|ratios| as real, Mean(ratios));
    TimesOver(Total(ratios), n);
    SquaresExpand(ratios, mean);
    SquareIs(mean);
    assert mean != 0.0;
    SpreadAlgebra(Squares(ratios, mean), SquareTotal(ratios), Total(ratios), n, mean);
  }
}
