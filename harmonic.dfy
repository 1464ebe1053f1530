/**
 * The harmonic-pattern strategy: swing highs and lows, the last five swing points read as
 * X, A, B, C, D, a Fibonacci-ratio score for each of four shapes in both directions, the
 * strongest pattern, and a buy or sell decision with trend, pattern and volume confirmation.
 */
module HarmonicStrategy {
  import opened Wrappers
  import opened Floats
  import opened Models
  import opened Patterns
  import opened StrategyBase

  const MinCandles: int := 30

  /** Relative tolerance of a ratio check. */
  const Tolerance: real := 0.15

  /** Neighbours on each side a swing point must beat. */
  const SwingWindow: nat := 5

  /** A shape is recorded only above this score. */
  const PatternThreshold: real := 0.7

  /** A signal needs a combined confidence above this. */
  const ConfidenceThreshold: real := 0.8

  // ---- swing points ----

  /** `a > b` for a swing high, `a < b` for a swing low. */
  predicate Beats(a: real, b: real, high: bool)
  {
    if high then a > b else a < b
  }

  /** The value at `i` beats both values `j` places away from it. */
  predicate BeatsAt(xs: seq<real>, i: int, j: int, high: bool)
  {
    0 <= j <= i && i + j < |xs| && Beats(xs[i], xs[i - j], high) && Beats(xs[i], xs[i + j], high)
  }

  /** Index `i` strictly beats each of the `w` values on either side of it. */
  predicate IsSwing(xs: seq<real>, i: int, w: nat, high: bool)
  {
    w <= i < |xs| - w && forall j :: 1 <= j <= w ==> BeatsAt(xs, i, j, high)
  }

  /** Strictly ascending indices. */
  predicate Ascending(s: seq<int>)
  {
    forall i, j :: 0 <= i < j < |s| ==> s[i] < s[j]
  }

  /** The swing indices below `n`, in ascending order. */
  function SwingsBelow(xs: seq<real>, w: nat, high: bool, n: nat): (r: seq<int>)
    ensures forall i :: i in r <==> i < n && IsSwing(xs, i, w, high)
    ensures Ascending(r)
    ensures forall k :: 0 <= k < |r| ==> r[k] < n
    ensures n <= w || |xs| <= 2 * w ==> r == []
  {
    if n == 0 then []
    else
      var rest := SwingsBelow(xs, w, high, n - 1);
      if IsSwing(xs, n - 1, w, high) then rest + [n - 1] else rest
  }

  /** No index in the last `w` positions is a swing point. */
  lemma {:induction false} SwingsStopEarly(xs: seq<real>, w: nat, high: bool, n: nat)
    requires |xs| - w <= n <= |xs|
    ensures SwingsBelow(xs, w, high, n) == SwingsBelow(xs, w, high, |xs|)
    decreases |xs| - n
  {
    if n < |xs| {
      SwingsStopEarly(xs, w, high, n + 1);
      assert !IsSwing(xs, n, w, high);
    }
  }

  /** `find_swing_points`: the swing highs of the high column and the swing lows of the low column. */
  method FindSwingPoints(high: seq<real>, low: seq<real>, w: nat) returns (highs: seq<int>, lows: seq<int>)
    requires |high| == |low|
    ensures highs == SwingsBelow(high, w, true, |high|)
    ensures lows == SwingsBelow(low, w, false, |low|)
  {
    highs := [];
    lows := [];
    var i := w;
    while i < |high| - w
      invariant w <= i && (i <= |high| - w || i == w)
      invariant highs == SwingsBelow(high, w, true, i)
      invariant lows == SwingsBelow(low, w, false, i)
    {
      if IsSwing(high, i, w, true) {
        highs := highs + [i];
      }
      if IsSwing(low, i, w, false) {
        lows := lows + [i];
      }
      i := i + 1;
    }
    if |high| > 2 * w {
      SwingsStopEarly(high, w, true, i);
      SwingsStopEarly(low, w, false, i);
    }
  }

  // ---- `sorted(highs + lows)` ----

  predicate NonDecreasing(s: seq<int>)
  {
    forall i, j :: 0 <= i < j < |s| ==> s[i] <= s[j]
  }

  /** The sorted merge of two ascending index lists: a sorted permutation of their concatenation. */
  function Merge(a: seq<int>, b: seq<int>): (r: seq<int>)
    requires NonDecreasing(a) && NonDecreasing(b)
    ensures multiset(r) == multiset(a) + multiset(b)
    ensures NonDecreasing(r)
    ensures forall x :: x in r <==> x in a || x in b
    decreases |a| + |b|
  {
    if |a| == 0 then b
    else if |b| == 0 then a
    else if a[0] <= b[0] then
      var t := Merge(a[1..], b);
      MergeStep(a, b, t);
      [a[0]] + t
    else
      var t := Merge(b[1..], a);
      MergeStep(b, a, t);
      [b[0]] + t
  }

  /** Prefixing the smaller head to the merge of the rest keeps it sorted and a permutation. */
  lemma MergeStep(a: seq<int>, b: seq<int>, t: seq<int>)
    requires |a| > 0 && NonDecreasing(a) && NonDecreasing(b)
    requires |b| > 0 ==> a[0] <= b[0]
    requires NonDecreasing(t) && multiset(t) == multiset(a[1..]) + multiset(b)
    ensures NonDecreasing([a[0]] + t)
    ensures multiset([a[0]] + t) == multiset(a) + multiset(b)
    ensures forall x :: x in [a[0]] + t <==> x in a || x in b
  {
    assert a == [a[0]] + a[1..];
    forall k | 0 <= k < |t| ensures a[0] <= t[k] {
      assert t[k] in multiset(t);
      if t[k] in multiset(a[1..]) {
        var m :| 0 <= m < |a[1..]| && a[1..][m] == t[k];
        assert a[m + 1] == t[k];
      } else {
        assert t[k] in b;
        var m :| 0 <= m < |b| && b[m] == t[k];
      }
    }
    forall x ensures x in [a[0]] + t <==> x in a || x in b {
      assert x in t <==> x in multiset(t);
      assert x in a[1..] <==> x in multiset(a[1..]);
      assert x in b <==> x in multiset(b);
    }
  }

  // ---- ratios and scores ----

  /** `calculate_ratio(start, end, target)`: `|(end - target) / (end - start)|` on NumPy floats. */
  function Ratio(start: real, end: real, target: real): (r: Float)
    ensures r.Finite? ==> r.v >= 0.0
    ensures !r.NegInf?
  {
    Abs(Div(end - target, end - start))
  }

  /** A ratio does not change when all three points are negated. */
  lemma RatioNegated(start: real, end: real, target: real)
    ensures Ratio(-start, -end, -target) == Ratio(start, end, target)
  {
    var x, y := end - target, end - start;
    assert -end - -target == -x && -end - -start == -y;
    if y != 0.0 {
      assert -x / -y == x / y;
    }
  }

  /** The expected XA, AB, BC and CD ratios of each shape. */
  function Expected(shape: HarmonicShape): (e: seq<real>)
    ensures |e| == 4 && e[0] == 1.0
    ensures forall k :: 0 <= k < 4 ==> e[k] > 0.0
  {
    match shape
    case Gartley => [1.0, 0.618, 0.386, 1.272]
    case Butterfly => [1.0, 0.786, 0.382, 1.618]
    case Bat => [1.0, 0.382, 0.886, 2.618]
    case Crab => [1.0, 0.382, 0.886, 3.618]
  }

  /**
   * One check: `diff = |actual - expected| / expected`, worth `(1 - diff / 0.15) * 0.25` when
   * within tolerance. An infinite or NaN ratio never passes `diff <= 0.15`.
   */
  function CheckScore(actual: Float, expected: real): (c: real)
    requires expected > 0.0
    ensures 0.0 <= c <= 0.25
    ensures c > 0.0 ==> actual.Finite? && AbsReal(actual.v - expected) < Tolerance * expected
    ensures c == 0.25 <==> actual == Finite(expected)
  {
    match actual
    case Finite(a) =>
      var diff := AbsReal(a - expected) / expected;
      assert diff * expected == AbsReal(a - expected);
      if diff <= Tolerance then (1.0 - diff / Tolerance) * 0.25 else 0.0
    case _ => 0.0
  }

  /** The sum of the checks pairing `actual` with `expected`, taken in order. */
  function ScoreSum(actual: seq<Float>, expected: seq<real>): (c: real)
    requires |actual| == |expected| && forall k :: 0 <= k < |expected| ==> expected[k] > 0.0
    ensures 0.0 <= c <= 0.25 * |actual| as real
  {
    if |actual| == 0 then 0.0
    else
      ScoreSum(actual[..|actual| - 1], expected[..|expected| - 1])
      + CheckScore(actual[|actual| - 1], expected[|expected| - 1])
  }

  /** A score of four checks is the sum of the four. */
  lemma ScoreSumFour(actual: seq<Float>, expected: seq<real>)
    requires |actual| == |expected| == 4 && forall k :: 0 <= k < 4 ==> expected[k] > 0.0
    ensures ScoreSum(actual, expected) ==
      CheckScore(actual[0], expected[0]) + CheckScore(actual[1], expected[1])
      + CheckScore(actual[2], expected[2]) + CheckScore(actual[3], expected[3])
  {
    assert actual[..3][..2] == actual[..2] && actual[..2][..1] == actual[..1] && actual[..1][..0] == [];
    assert expected[..3][..2] == expected[..2] && expected[..2][..1] == expected[..1] && expected[..1][..0] == [];
    assert ScoreSum(actual[..1], expected[..1]) == CheckScore(actual[0], expected[0]);
    assert ScoreSum(actual[..2], expected[..2]) == ScoreSum(actual[..1], expected[..1]) + CheckScore(actual[1], expected[1]);
    assert ScoreSum(actual[..3], expected[..3]) == ScoreSum(actual[..2], expected[..2]) + CheckScore(actual[2], expected[2]);
  }

  /** The score of four leg ratios against a shape. */
  function PatternScore(ratios: seq<Float>, shape: HarmonicShape): (c: real)
    requires |ratios| == 4
  {
    ScoreSum(ratios, Expected(shape))
  }

  /**
   * The XA, AB, BC and CD ratios of the points X, A, B, C, D: XA against itself, and each
   * later leg as the retracement or extension of the leg before it.
   */
  function LegRatios(p: seq<real>): (r: seq<Float>)
    requires |p| == 5
    ensures |r| == 4
  {
    [Ratio(p[0], p[1], p[0]), Ratio(p[0], p[1], p[2]), Ratio(p[1], p[2], p[3]), Ratio(p[2], p[3], p[4])]
  }

  /**
   * The ratios `validate_pattern` computes as written: each call passes the start or the end of
   * the leg again as the target, instead of the point after the leg.
   */
  function AsWrittenRatios(p: seq<real>): (r: seq<Float>)
    requires |p| == 5
    ensures |r| == 4
  {
    [Ratio(p[0], p[1], p[1]), Ratio(p[1], p[2], p[1]), Ratio(p[2], p[3], p[2]), Ratio(p[3], p[4], p[3])]
  }

  /** `validate_pattern`: the four checks summed in a loop, a score between 0 and 1. */
  method ValidatePattern(points: seq<real>, shape: HarmonicShape) returns (confidence: real)
    requires |points| == 5
    ensures confidence == PatternScore(LegRatios(points), shape)
    ensures 0.0 <= confidence <= 1.0
  {
    var actual := LegRatios(points);
    var expected := Expected(shape);
    confidence := 0.0;
    var k := 0;
    while k < 4
      invariant 0 <= k <= 4
      invariant confidence == ScoreSum(actual[..k], expected[..k])
    {
      assert actual[..k + 1][..k] == actual[..k];
      assert expected[..k + 1][..k] == expected[..k];
      confidence := confidence + CheckScore(actual[k], expected[k]);
      k := k + 1;
    }
    assert actual[..4] == actual && expected[..4] == expected;
  }

  /** As written, XA is 0 (or NaN when X equals A) and every other ratio is 1 (or NaN). */
  lemma AsWrittenRatiosConstant(p: seq<real>)
    requires |p| == 5
    ensures var r := AsWrittenRatios(p);
      && (r[0] == Finite(0.0) || r[0] == NaN)
      && (r[1] == Finite(1.0) || r[1] == NaN)
      && (r[2] == Finite(1.0) || r[2] == NaN)
      && (r[3] == Finite(1.0) || r[3] == NaN)
  {
    RatioToEnd(p[0], p[1]);
    RatioToStart(p[1], p[2]);
    RatioToStart(p[2], p[3]);
    RatioToStart(p[3], p[4]);
  }

  /** A leg measured against its own end is 0, or NaN for a leg of length zero. */
  lemma RatioToEnd(start: real, end: real)
    ensures Ratio(start, end, end) == (if start == end then NaN else Finite(0.0))
  {
  }

  /** A leg measured against its own start is 1, or NaN for a leg of length zero. */
  lemma RatioToStart(start: real, end: real)
    ensures Ratio(start, end, start) == (if start == end then NaN else Finite(1.0))
  {
    if start != end {
      assert (end - start) / (end - start) == 1.0;
    }
  }

  /** The score of the as-written ratios: only BC of the bat and the crab is ever in tolerance. */
  lemma AsWrittenScore(p: seq<real>, shape: HarmonicShape)
    requires |p| == 5
    ensures PatternScore(AsWrittenRatios(p), shape) < 0.04
  {
    AsWrittenRatiosConstant(p);
    var r := AsWrittenRatios(p);
    var e := Expected(shape);
    assert CheckScore(r[0], e[0]) == 0.0;
    assert CheckScore(r[1], e[1]) == 0.0;
    assert CheckScore(r[3], e[3]) == 0.0;
    assert CheckScore(r[2], e[2]) < 0.04;
    ScoreSumFour(r, e);
  }

  /** As written no shape, bullish or bearish, ever scores above 0.7, so nothing is recorded. */
  lemma AsWrittenNeverQualifies(p: seq<real>, shape: HarmonicShape)
    requires |p| == 5
    ensures PatternScore(AsWrittenRatios(p), shape) <= PatternThreshold
    ensures PatternScore(AsWrittenRatios(Negated(p)), shape) <= PatternThreshold
  {
    AsWrittenScore(p, shape);
    AsWrittenScore(Negated(p), shape);
  }

  /** Legs in exactly the shape's proportions score the full 1.0. */
  lemma ExactRatiosScoreOne(p: seq<real>, shape: HarmonicShape)
    requires |p| == 5
    requires forall k :: 0 <= k < 4 ==> LegRatios(p)[k] == Finite(Expected(shape)[k])
    ensures PatternScore(LegRatios(p), shape) == 1.0
  {
    ScoreSumFour(LegRatios(p), Expected(shape));
  }

  /** A Gartley with exact proportions: X=0, A=1, B=0.382, C=0.620548, D=0.317114944. */
  lemma GartleyRecognised()
    ensures PatternScore(LegRatios([0.0, 1.0, 0.382, 0.620548, 0.317114944]), Gartley) == 1.0
  {
    var p := [0.0, 1.0, 0.382, 0.620548, 0.317114944];
    assert LegRatios(p)[0] == Finite(1.0);
    assert LegRatios(p)[1] == Finite(0.618);
    assert LegRatios(p)[2] == Finite(0.386);
    assert LegRatios(p)[3] == Finite(1.272);
    ExactRatiosScoreOne(p, Gartley);
  }

  /** `[-v for v in values]` */
  function Negated(p: seq<real>): (r: seq<real>)
    ensures |r| == |p| && forall k :: 0 <= k < |p| ==> r[k] == -p[k]
  {
    seq(|p|, k requires 0 <= k < |p| => -p[k])
  }

  /** The inverse points score exactly as the points themselves, for every shape. */
  lemma NegatedScoresEqual(p: seq<real>, shape: HarmonicShape)
    requires |p| == 5
    ensures PatternScore(LegRatios(Negated(p)), shape) == PatternScore(LegRatios(p), shape)
  {
    var q := Negated(p);
    RatioNegated(p[0], p[1], p[0]);
    RatioNegated(p[0], p[1], p[2]);
    RatioNegated(p[1], p[2], p[3]);
    RatioNegated(p[2], p[3], p[4]);
    assert LegRatios(q) == LegRatios(p);
  }

  // ---- `find_patterns` ----

  /** One entry of the pattern dictionary, in insertion order. */
  datatype Entry = Entry(pattern: Pattern, confidence: real)

  /** The entries one shape contributes: bullish, then bearish, each only above 0.7. */
  function ShapeEntries(values: seq<real>, shape: HarmonicShape): (r: seq<Entry>)
    requires |values| == 5
  {
    var up := PatternScore(LegRatios(values), shape);
    var down := PatternScore(LegRatios(Negated(values)), shape);
    (if up > PatternThreshold then [Entry(Pattern.Harmonic(shape, Bullish), up)] else [])
    + (if down > PatternThreshold then [Entry(Pattern.Harmonic(shape, Bearish), down)] else [])
  }

  /** The entries of the shapes in `shapes`, in order. */
  function ShapesEntries(values: seq<real>, shapes: seq<HarmonicShape>): (r: seq<Entry>)
    requires |values| == 5
  {
    if |shapes| == 0 then []
    else ShapesEntries(values, shapes[..|shapes| - 1]) + ShapeEntries(values, shapes[|shapes| - 1])
  }

  /** The ratio table's key order. */
  const Shapes: seq<HarmonicShape> := [Gartley, Butterfly, Bat, Crab]

  /** The last five swing points, if there are five. */
  function PatternPoints(high: seq<real>, low: seq<real>): (r: Option<seq<int>>)
    requires |high| == |low|
    ensures r.Some? ==> |r.value| == 5 && forall k :: 0 <= k < 5 ==> 0 <= r.value[k] < |high|
  {
    var highs := SwingsBelow(high, SwingWindow, true, |high|);
    var lows := SwingsBelow(low, SwingWindow, false, |low|);
    if |highs| + |lows| < 5 then None
    else
      var points := SliceFrom(Merge(highs, lows), -5);
      if |points| < 5 then None
      else
        assert forall k :: 0 <= k < 5 ==> points[k] in highs || points[k] in lows by {
          forall k | 0 <= k < 5 ensures points[k] in highs || points[k] in lows {
            assert points[k] in Merge(highs, lows);
          }
        }
        Some(points)
  }

  /** The dictionary `find_patterns` builds, as its entries in insertion order. */
  function PatternEntries(high: seq<real>, low: seq<real>, close: seq<real>): (r: seq<Entry>)
    requires |high| == |low| == |close|
  {
    match PatternPoints(high, low)
    case None => []
    case Some(points) => ShapesEntries(seq(5, k requires 0 <= k < 5 => close[points[k]]), Shapes)
  }

  /** One pass of the loop of `find_patterns`: a shape scored on the points and on their inverse. */
  method ScoreShape(values: seq<real>, shape: HarmonicShape) returns (step: seq<Entry>)
    requires |values| == 5
    ensures step == ShapeEntries(values, shape)
  {
    step := [];
    var confidence := ValidatePattern(values, shape);
    if confidence > PatternThreshold {
      step := step + [Entry(Pattern.Harmonic(shape, Bullish), confidence)];
    }
    confidence := ValidatePattern(Negated(values), shape);
    if confidence > PatternThreshold {
      step := step + [Entry(Pattern.Harmonic(shape, Bearish), confidence)];
    }
  }

  /** The loop of `find_patterns` over the shapes of the ratio table. */
  method ScoreShapes(values: seq<real>) returns (entries: seq<Entry>)
    requires |values| == 5
    ensures entries == ShapesEntries(values, Shapes)
  {
    entries := [];
    var i := 0;
    while i < |Shapes|
      invariant 0 <= i <= |Shapes|
      invariant entries == ShapesEntries(values, Shapes[..i])
    {
      assert Shapes[..i + 1][..i] == Shapes[..i];
      var step := ScoreShape(values, Shapes[i]);
      entries := entries + step;
      i := i + 1;
    }
    assert Shapes[..4] == Shapes;
  }

  /** `find_patterns`: score every shape in both directions and keep those above 0.7. */
  method FindPatterns(high: seq<real>, low: seq<real>, close: seq<real>) returns (entries: seq<Entry>)
    requires |high| == |low| == |close|
    ensures entries == PatternEntries(high, low, close)
  {
    var highs, lows := FindSwingPoints(high, low, SwingWindow);
    if |highs| + |lows| < 5 {
      return [];
    }
    var points := SliceFrom(Merge(highs, lows), -5);
    if |points| < 5 {
      return [];
    }
    assert PatternPoints(high, low) == Some(points);
    entries := ScoreShapes(seq(5, k requires 0 <= k < 5 => close[points[k]]));
  }

  /**
   * The entries come in pairs: a shape's bullish entry is followed by its bearish entry with
   * the same confidence, and every confidence is above 0.7.
   */
  predicate Paired(entries: seq<Entry>)
  {
    && |entries| % 2 == 0
    && (forall k :: 0 <= k < |entries| ==> entries[k].pattern.Harmonic? && entries[k].confidence > PatternThreshold)
    && (forall k :: 0 <= k < |entries| / 2 ==>
          && entries[2 * k].pattern.d == Bullish
          && entries[2 * k + 1] == Entry(Pattern.Harmonic(entries[2 * k].pattern.shape, Bearish), entries[2 * k].confidence))
  }

  /** Appending a pair keeps the entries paired. */
  lemma PairedAppend(a: seq<Entry>, b: seq<Entry>)
    requires Paired(a) && Paired(b)
    ensures Paired(a + b)
  {
    var c := a + b;
    forall k | 0 <= k < |c| / 2
      ensures c[2 * k].pattern.d == Bullish
      ensures c[2 * k + 1] == Entry(Pattern.Harmonic(c[2 * k].pattern.shape, Bearish), c[2 * k].confidence)
    {
      if k >= |a| / 2 {
        var m := k - |a| / 2;
        assert c[2 * k] == b[2 * m] && c[2 * k + 1] == b[2 * m + 1];
      }
    }
  }

  /** Each shape contributes nothing or a bullish-bearish pair. */
  lemma ShapeEntriesPaired(values: seq<real>, shape: HarmonicShape)
    requires |values| == 5
    ensures Paired(ShapeEntries(values, shape))
  {
    NegatedScoresEqual(values, shape);
  }

  lemma {:induction false} ShapesEntriesPaired(values: seq<real>, shapes: seq<HarmonicShape>)
    requires |values| == 5
    ensures Paired(ShapesEntries(values, shapes))
  {
    if |shapes| > 0 {
      ShapesEntriesPaired(values, shapes[..|shapes| - 1]);
      ShapeEntriesPaired(values, shapes[|shapes| - 1]);
      PairedAppend(ShapesEntries(values, shapes[..|shapes| - 1]), ShapeEntries(values, shapes[|shapes| - 1]));
    }
  }

  /** Every recorded pattern is harmonic, above 0.7, and paired with its inverse at equal confidence. */
  lemma PatternEntriesPaired(high: seq<real>, low: seq<real>, close: seq<real>)
    requires |high| == |low| == |close|
    ensures Paired(PatternEntries(high, low, close))
  {
    match PatternPoints(high, low)
    case None =>
    case Some(points) =>
      ShapesEntriesPaired(seq(5, k requires 0 <= k < 5 => close[points[k]]), Shapes);
  }

  /** Fewer than five swing points record nothing. */
  lemma FewSwingsNoPatterns(high: seq<real>, low: seq<real>, close: seq<real>)
    requires |high| == |low| == |close|
    requires |SwingsBelow(high, SwingWindow, true, |high|)| + |SwingsBelow(low, SwingWindow, false, |low|)| < 5
    ensures PatternEntries(high, low, close) == []
  {
  }

  // ---- `calculate_indicator` ----

  /** The confidences of the entries, in order. */
  function Confidences(entries: seq<Entry>): (c: seq<real>)
    ensures |c| == |entries| && forall k :: 0 <= k < |entries| ==> c[k] == entries[k].confidence
  {
    seq(|entries|, k requires 0 <= k < |entries| => entries[k].confidence)
  }

  /** `calculate_indicator`: the strongest entry, or `None` when nothing was recorded. */
  function CalculateIndicator(entries: seq<Entry>): (r: Option<Entry>)
    ensures r.None? <==> |entries| == 0
    ensures r.Some? ==> r.value in entries && forall e :: e in entries ==> e.confidence <= r.value.confidence
  {
    if |entries| == 0 then None else Some(entries[FirstMaxIndex(Confidences(entries))])
  }

  /** On paired entries the strongest is always a bullish one: its bearish twin comes later. */
  lemma StrongestIsBullish(entries: seq<Entry>)
    requires Paired(entries) && |entries| > 0
    ensures CalculateIndicator(entries).value.pattern == Pattern.Harmonic(CalculateIndicator(entries).value.pattern.shape, Bullish)
  {
    var i := FirstMaxIndex(Confidences(entries));
    var k := i / 2;
    assert 2 * k + 1 < |entries|;
    assert entries[2 * k].confidence == entries[2 * k + 1].confidence;
    assert i == 2 * k;
  }

  // ---- `analyze_market` ----

  function BuyConfidence(base: real, trend: real, general: PatternMap, volumeConfirmed: bool): real
  {
    base + AbsReal(trend) * 0.2 + Score(general, DoubleBottom) * 0.1 + Score(general, Breakout) * 0.1
    + VolumeBonus(volumeConfirmed)
  }

  function SellConfidence(base: real, trend: real, general: PatternMap, volumeConfirmed: bool): real
  {
    base + AbsReal(trend) * 0.2 + Score(general, DoubleTop) * 0.1 + Score(general, Breakdown) * 0.1
    + VolumeBonus(volumeConfirmed)
  }

  /**
   * `analyze_market(df, pattern_data)` with the trend, the general patterns and the volume flag
   * as inputs: a bullish pattern buys in an uptrend, a bearish one sells in a downtrend.
   */
  function AnalyzeMarket(data: Entry, trend: real, general: PatternMap, volumeConfirmed: bool): (r: Option<Signal>)
    ensures r.Some? ==> r.value.name == "harmonic" && r.value.value == Text(PatternName(data.pattern))
    ensures r.Some? && r.value.kind == Buy <==>
              data.pattern.Harmonic? && data.pattern.d == Bullish && trend > 0.0
              && BuyConfidence(data.confidence, trend, general, volumeConfirmed) > ConfidenceThreshold
    ensures r.Some? && r.value.kind == Sell <==>
              data.pattern.Harmonic? && data.pattern.d == Bearish && trend < 0.0
              && SellConfidence(data.confidence, trend, general, volumeConfirmed) > ConfidenceThreshold
  {
    match data.pattern
    case Harmonic(_, Bullish) =>
      if trend > 0.0 && BuyConfidence(data.confidence, trend, general, volumeConfirmed) > ConfidenceThreshold
      then Some(Signal("harmonic", Buy, Text(PatternName(data.pattern)))) else None
    case Harmonic(_, Bearish) =>
      if trend < 0.0 && SellConfidence(data.confidence, trend, general, volumeConfirmed) > ConfidenceThreshold
      then Some(Signal("harmonic", Sell, Text(PatternName(data.pattern)))) else None
    case _ => None
  }

  /** The strategy end to end: find the patterns, take the strongest, decide. */
  function Process(high: seq<real>, low: seq<real>, close: seq<real>, trend: real, general: PatternMap,
                   volumeConfirmed: bool): (r: Option<Signal>)
    requires |high| == |low| == |close|
  {
    match CalculateIndicator(PatternEntries(high, low, close))
    case None => None
    case Some(data) => AnalyzeMarket(data, trend, general, volumeConfirmed)
  }

  /** Because the inverse points score like the points, the strategy never emits a sell. */
  lemma NeverSells(high: seq<real>, low: seq<real>, close: seq<real>, trend: real, general: PatternMap,
                   volumeConfirmed: bool)
    requires |high| == |low| == |close|
    ensures var r := Process(high, low, close, trend, general, volumeConfirmed);
      r.Some? ==> r.value.kind == Buy
  {
    var entries := PatternEntries(high, low, close);
    if |entries| > 0 {
      PatternEntriesPaired(high, low, close);
      StrongestIsBullish(entries);
    }
  }

  /** A buy needs an uptrend and a pattern above 0.7. */
  lemma BuyNeedsUptrend(high: seq<real>, low: seq<real>, close: seq<real>, trend: real, general: PatternMap,
                        volumeConfirmed: bool)
    requires |high| == |low| == |close|
    ensures var r := Process(high, low, close, trend, general, volumeConfirmed);
      r.Some? ==> trend > 0.0 && exists e :: e in PatternEntries(high, low, close) && e.confidence > PatternThreshold
  {
    var entries := PatternEntries(high, low, close);
    if |entries| > 0 {
      PatternEntriesPaired(high, low, close);
      var e := CalculateIndicator(entries).value;
      assert e in entries;
      StrongestIsBullish(entries);
    }
  }
}
