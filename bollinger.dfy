/**
 * The Bollinger Bands strategy: %B and band width from the latest bands, squeeze / touch /
 * walking patterns, and a buy near the lower band in an uptrend or a sell near the upper
 * band in a downtrend.
 */
module BollingerStrategy {
  import opened Wrappers
  import opened Floats
  import opened Models
  import opened Patterns
  import opened StrategyBase

  /** 20 candles for the bands plus the current one. */
  const MinCandles: int := 21

  const ConfidenceThreshold: real := 0.7
  const TouchTolerance: real := 0.001

  /** One row of the 20-period, 2-deviation bands. */
  datatype Band = Band(upper: real, middle: real, lower: real)

  /** What `calculate_indicator` returns. */
  datatype BandValues = BandValues(
    close: real, upper: real, middle: real, lower: real, width: real, percentB: real)

  /**
   * `calculate_indicator`: `None` when no bands could be computed, and also when a Python
   * float division by zero (a zero middle band, or equal upper and lower bands) raises.
   */
  function CalculateIndicator(latest: Option<Band>, close: real): (r: Option<BandValues>)
    ensures r.Some? <==> latest.Some? && latest.value.middle != 0.0 && latest.value.upper != latest.value.lower
    ensures r.Some? ==>
              && r.value.close == close && r.value.upper == latest.value.upper
              && r.value.middle == latest.value.middle && r.value.lower == latest.value.lower
              && r.value.width * r.value.middle == r.value.upper - r.value.lower
              && r.value.percentB * (r.value.upper - r.value.lower) == close - r.value.lower
  {
    match latest
    case None => None
    case Some(b) =>
      if b.middle == 0.0 || b.upper == b.lower then None
      else Some(BandValues(close, b.upper, b.middle, b.lower,
                           (b.upper - b.lower) / b.middle, (close - b.lower) / (b.upper - b.lower)))
  }

  /** Dividing by a positive number preserves `<`. */
  lemma DivLess(x: real, w: real, k: real)
    requires w > 0.0
    ensures x / w < k <==> x < k * w
  {
    var q := x / w;
    assert q * w == x;
    if q < k {
      assert (k - q) * w > 0.0;
    } else {
      assert (q - k) * w >= 0.0;
    }
  }

  /** %B is 0 on the lower band, 1 on the upper band, and below 0.1 exactly in the lowest tenth of the band. */
  lemma PercentBScale(b: Band, close: real)
    requires b.middle != 0.0 && b.upper > b.lower
    ensures close == b.lower ==> CalculateIndicator(Some(b), close).value.percentB == 0.0
    ensures close == b.upper ==> CalculateIndicator(Some(b), close).value.percentB == 1.0
    ensures CalculateIndicator(Some(b), close).value.percentB < 0.1 <==>
              close < b.lower + 0.1 * (b.upper - b.lower)
  {
    assert CalculateIndicator(Some(b), close).value.percentB == (close - b.lower) / (b.upper - b.lower);
    DivLess(close - b.lower, b.upper - b.lower, 0.1);
  }

  // ---- pattern detection ----

  /** The width of a history row, NumPy-style (no exception on a zero middle band); a warm-up row is NaN. */
  function HistWidth(row: Option<Band>): (w: Float)
  {
    match row
    case None => NaN
    case Some(b) => Div(b.upper - b.lower, b.middle)
  }

  /** The sum of the finite entries. */
  function FiniteSum(ws: seq<Float>): real
  {
    if |ws| == 0 then 0.0
    else FiniteSum(ws[..|ws| - 1]) + (if ws[|ws| - 1].Finite? then ws[|ws| - 1].v else 0.0)
  }

  /** The number of entries that are not NaN (infinities included, as pandas counts them). */
  function PresentCount(ws: seq<Float>): (n: nat)
    ensures n <= |ws|
  {
    if |ws| == 0 then 0 else PresentCount(ws[..|ws| - 1]) + (if ws[|ws| - 1].NaN? then 0 else 1)
  }

  /** An entry that is not NaN is counted. */
  lemma {:induction false} PresentCounted(ws: seq<Float>, i: nat)
    requires i < |ws| && !ws[i].NaN?
    ensures PresentCount(ws) > 0
  {
    if i < |ws| - 1 {
      assert ws[..|ws| - 1][i] == ws[i];
      PresentCounted(ws[..|ws| - 1], i);
    }
  }

  /**
   * `Series.mean()`: NaN entries are skipped and NaN is the mean of nothing. An infinity among
   * the entries makes the mean that infinity, and infinities of both signs make it NaN.
   */
  function MeanSkipNaN(ws: seq<Float>): (m: Float)
    ensures m.NaN? <==> PresentCount(ws) == 0 || (PosInf in ws && NegInf in ws)
    ensures m == PosInf <==> PosInf in ws && NegInf !in ws
    ensures m == NegInf <==> NegInf in ws && PosInf !in ws
    ensures m.Finite? ==> m.v * PresentCount(ws) as real == FiniteSum(ws)
  {
    if PosInf in ws then
      var i :| 0 <= i < |ws| && ws[i] == PosInf;
      PresentCounted(ws, i);
      if NegInf in ws then NaN else PosInf
    else if NegInf in ws then
      var i :| 0 <= i < |ws| && ws[i] == NegInf;
      PresentCounted(ws, i);
      NegInf
    else if PresentCount(ws) == 0 then NaN
    else Finite(FiniteSum(ws) / PresentCount(ws) as real)
  }

  /** The recent widths of the history frame. */
  function RecentWidths(hist: seq<Option<Band>>): (ws: seq<Float>)
    ensures |ws| == |hist| && forall i :: 0 <= i < |hist| ==> ws[i] == HistWidth(hist[i])
  {
    seq(|hist|, i requires 0 <= i < |hist| => HistWidth(hist[i]))
  }

  /** `abs(c - b) / b < 0.001` on NumPy values: never true against a warm-up (NaN) row. */
  function HistTouch(c: real, band: Option<real>): bool
  {
    match band
    case None => false
    case Some(b) => Lt(Div(AbsReal(c - b), b), Finite(TouchTolerance))
  }

  /** `sum(1 for c, u in zip(closes, bands) if touch)`, pairing entries from the front. */
  function CountTouches(closes: seq<real>, bands: seq<Option<real>>): (n: nat)
    ensures n <= |closes| && n <= |bands|
  {
    if |closes| == 0 || |bands| == 0 then 0
    else (if HistTouch(closes[0], bands[0]) then 1 else 0) + CountTouches(closes[1..], bands[1..])
  }

  function Uppers(hist: seq<Option<Band>>): (us: seq<Option<real>>)
    ensures |us| == |hist|
    ensures forall i :: 0 <= i < |hist| ==> us[i] == if hist[i].Some? then Some(hist[i].value.upper) else None
  {
    seq(|hist|, i requires 0 <= i < |hist| => if hist[i].Some? then Some(hist[i].value.upper) else None)
  }

  function Lowers(hist: seq<Option<Band>>): (ls: seq<Option<real>>)
    ensures |ls| == |hist|
    ensures forall i :: 0 <= i < |hist| ==> ls[i] == if hist[i].Some? then Some(hist[i].value.lower) else None
  {
    seq(|hist|, i requires 0 <= i < |hist| => if hist[i].Some? then Some(hist[i].value.lower) else None)
  }

  /** The squeeze test: the current width at least 20% below the recent average. */
  predicate IsSqueeze(v: BandValues, hist: seq<Option<Band>>)
  {
    Lt(Finite(v.width), Mul(MeanSkipNaN(RecentWidths(hist)), 0.8))
  }

  /** Multiplication of a value by a positive constant. */
  function Mul(x: Float, k: real): (r: Float)
    requires k > 0.0
  {
    match x
    case Finite(a) => Finite(a * k)
    case _ => x
  }

  /** The outcome of the current-touch test on Python floats. */
  datatype TouchTest = TouchesUpper | TouchesLower | TouchesNeither | ZeroBand

  /** `if abs(c - u) / u < 0.001 ... elif abs(c - l) / l < 0.001`, raising on a zero band. */
  function CurrentTouch(v: BandValues): (t: TouchTest)
  {
    if v.upper == 0.0 then ZeroBand
    else if AbsReal(v.close - v.upper) / v.upper < TouchTolerance then TouchesUpper
    else if v.lower == 0.0 then ZeroBand
    else if AbsReal(v.close - v.lower) / v.lower < TouchTolerance then TouchesLower
    else TouchesNeither
  }

  /**
   * `detect_bb_patterns`: `hist` is the band frame of the last 20 closes (warm-up rows `None`),
   * `closes` the close column. The current-touch tests use Python floats, so a zero band raises,
   * and the patterns found up to that point are returned.
   */
  function DetectPatterns(v: BandValues, hist: seq<Option<Band>>, closes: seq<real>): (p: PatternMap)
  {
    Assemble(IsSqueeze(v, hist), CurrentTouch(v), hist, closes)
  }

  /** The pattern map from the squeeze test, the current-touch test and the walking test. */
  function Assemble(squeeze: bool, touch: TouchTest, hist: seq<Option<Band>>, closes: seq<real>): (p: PatternMap)
  {
    var p0: PatternMap := if squeeze then map[Squeeze := 0.8] else map[];
    match touch
    case ZeroBand => p0
    case TouchesUpper => Walking(p0[UpperTouch := 0.7], hist, closes)
    case TouchesLower => Walking(p0[LowerTouch := 0.7], hist, closes)
    case TouchesNeither => Walking(p0, hist, closes)
  }

  /** What the assembled map holds, in terms of the three tests. */
  lemma AssembleSpec(squeeze: bool, touch: TouchTest, hist: seq<Option<Band>>, closes: seq<real>)
    ensures var p := Assemble(squeeze, touch, hist, closes);
      && (Squeeze in p <==> squeeze)
      && !(UpperTouch in p && LowerTouch in p)
      && (UpperTouch in p <==> touch == TouchesUpper)
      && (LowerTouch in p <==> touch == TouchesLower)
      && !(WalkingUpper in p && WalkingLower in p)
      && (WalkingUpper in p <==> touch != ZeroBand && CountTouches(SliceFrom(closes, -5), Uppers(hist)) >= 3)
      && (WalkingLower in p <==> touch != ZeroBand && CountTouches(SliceFrom(closes, -5), Uppers(hist)) < 3
                                 && CountTouches(SliceFrom(closes, -5), Lowers(hist)) >= 3)
  {
    var p0: PatternMap := if squeeze then map[Squeeze := 0.8] else map[];
    assert p0.Keys <= {Squeeze};
    match touch
    case ZeroBand =>
    case TouchesUpper =>
      var q := p0[UpperTouch := 0.7];
      assert q.Keys <= {Squeeze, UpperTouch} && UpperTouch in q && (Squeeze in q <==> squeeze);
      WalkingKeys(q, hist, closes);
    case TouchesLower =>
      var q := p0[LowerTouch := 0.7];
      assert q.Keys <= {Squeeze, LowerTouch} && LowerTouch in q && (Squeeze in q <==> squeeze);
      WalkingKeys(q, hist, closes);
    case TouchesNeither =>
      WalkingKeys(p0, hist, closes);
  }

  /** The walking step keeps every other key as it was. */
  lemma WalkingKeys(p: PatternMap, hist: seq<Option<Band>>, closes: seq<real>)
    requires WalkingUpper !in p && WalkingLower !in p
    ensures forall k :: k != WalkingUpper && k != WalkingLower ==> (k in Walking(p, hist, closes) <==> k in p)
  {
  }

  /**
   * The squeeze is recorded exactly on a squeeze; at most one band touch and at most one walking
   * pattern are recorded. Once the touch tests have not raised, walking the upper band is recorded
   * exactly on three upper touches among the last five closes, and walking the lower band exactly
   * on three lower touches with fewer than three upper ones.
   */
  lemma DetectPatternsSpec(v: BandValues, hist: seq<Option<Band>>, closes: seq<real>)
    ensures var p := DetectPatterns(v, hist, closes);
      && (Squeeze in p <==> IsSqueeze(v, hist))
      && !(UpperTouch in p && LowerTouch in p)
      && (UpperTouch in p <==> CurrentTouch(v) == TouchesUpper)
      && (LowerTouch in p <==> CurrentTouch(v) == TouchesLower)
      && !(WalkingUpper in p && WalkingLower in p)
      && (WalkingUpper in p <==> CurrentTouch(v) != ZeroBand && CountTouches(SliceFrom(closes, -5), Uppers(hist)) >= 3)
      && (WalkingLower in p <==> CurrentTouch(v) != ZeroBand && CountTouches(SliceFrom(closes, -5), Uppers(hist)) < 3
                                 && CountTouches(SliceFrom(closes, -5), Lowers(hist)) >= 3)
  {
    AssembleSpec(IsSqueeze(v, hist), CurrentTouch(v), hist, closes);
  }

  /** The walking-the-band step: at least three of the last five closes on a band. */
  function Walking(p: PatternMap, hist: seq<Option<Band>>, closes: seq<real>): (r: PatternMap)
    requires WalkingUpper !in p && WalkingLower !in p
    ensures forall k :: k in p ==> k in r && r[k] == p[k]
    ensures r.Keys <= p.Keys + {WalkingUpper, WalkingLower}
    ensures !(WalkingUpper in r && WalkingLower in r)
    ensures WalkingUpper in r <==> CountTouches(SliceFrom(closes, -5), Uppers(hist)) >= 3
    ensures WalkingLower in r <==>
      CountTouches(SliceFrom(closes, -5), Uppers(hist)) < 3 && CountTouches(SliceFrom(closes, -5), Lowers(hist)) >= 3
  {
    var recent := SliceFrom(closes, -5);
    if CountTouches(recent, Uppers(hist)) >= 3 then p[WalkingUpper := 0.9]
    else if CountTouches(recent, Lowers(hist)) >= 3 then p[WalkingLower := 0.9]
    else p
  }

  /**
   * The zip in the walking test pairs the last five closes with the FIRST five history rows,
   * which are warm-up rows of the 20-candle band frame, so walking is never detected.
   */
  lemma {:induction false} WarmUpNeverWalks(closes: seq<real>, bands: seq<Option<real>>)
    requires |closes| <= 5 && |bands| >= 5
    requires forall i :: 0 <= i < 5 ==> bands[i].None?
    ensures CountTouches(closes, bands) == 0
  {
    var c := closes;
    var b := bands;
    var k := 0;
    while k < |closes|
      invariant 0 <= k <= |closes|
      invariant c == closes[k..] && b == bands[k..]
      invariant CountTouches(closes, bands) == CountTouches(c, b)
    {
      assert b[0] == bands[k];
      c := c[1..];
      b := b[1..];
      k := k + 1;
    }
  }

  /** The band frame of the last 20 closes: 19 warm-up rows, then one row. */
  predicate IsWarmUpHistory(hist: seq<Option<Band>>)
  {
    |hist| == 20 && (forall i :: 0 <= i < 19 ==> hist[i].None?) && hist[19].Some?
  }

  /** With a warm-up history no walking pattern is ever recorded. */
  lemma WalkingNeverDetected(v: BandValues, hist: seq<Option<Band>>, closes: seq<real>)
    requires IsWarmUpHistory(hist)
    ensures WalkingUpper !in DetectPatterns(v, hist, closes)
    ensures WalkingLower !in DetectPatterns(v, hist, closes)
  {
    DetectPatternsSpec(v, hist, closes);
    WarmUpNeverWalks(SliceFrom(closes, -5), Uppers(hist));
    WarmUpNeverWalks(SliceFrom(closes, -5), Lowers(hist));
  }

  /**
   * The only history row is the band over the same 20 closes as the current one, so the
   * average width is the current width and a non-negative width is never 20% below itself.
   */
  lemma SqueezeNeverDetected(v: BandValues, hist: seq<Option<Band>>, closes: seq<real>)
    requires IsWarmUpHistory(hist)
    requires hist[19] == Some(Band(v.upper, v.middle, v.lower))
    requires v.middle != 0.0 && v.width == (v.upper - v.lower) / v.middle && v.width >= 0.0
    ensures Squeeze !in DetectPatterns(v, hist, closes)
  {
    DetectPatternsSpec(v, hist, closes);
    WarmUpMeanWidth(v, hist);
  }

  /** Over a warm-up history whose last row is the current band, the average width is the current width. */
  lemma WarmUpMeanWidth(v: BandValues, hist: seq<Option<Band>>)
    requires IsWarmUpHistory(hist)
    requires hist[19] == Some(Band(v.upper, v.middle, v.lower))
    requires v.middle != 0.0 && v.width == (v.upper - v.lower) / v.middle
    ensures MeanSkipNaN(RecentWidths(hist)) == Finite(v.width)
  {
    var ws := RecentWidths(hist);
    assert forall i :: 0 <= i < |ws| ==> ws[i].NaN? || ws[i].Finite?;
    assert PosInf !in ws && NegInf !in ws;
    var k := 0;
    while k < 19
      invariant 0 <= k <= 19
      invariant PresentCount(ws[..k]) == 0 && FiniteSum(ws[..k]) == 0.0
    {
      assert ws[..k + 1][..k] == ws[..k];
      assert ws[k] == NaN;
      k := k + 1;
    }
    assert ws[..20][..19] == ws[..19];
    assert ws[..20] == ws;
  }

  // ---- decision ----

  function BuyConfidence(trend: real, bb: PatternMap, general: PatternMap, vol: bool): real
  {
    0.5 + AbsReal(trend) * 0.3 + Score(bb, Squeeze) * 0.2 + Score(bb, LowerTouch) * 0.2
    + Score(general, DoubleBottom) * 0.2 + VolumeBonus(vol)
  }

  function SellConfidence(trend: real, bb: PatternMap, vol: bool): real
  {
    0.5 + AbsReal(trend) * 0.3 + Score(bb, Squeeze) * 0.2 + Score(bb, UpperTouch) * 0.2
    + Score(bb, WalkingUpper) * 0.2 + VolumeBonus(vol)
  }

  /** `analyze_market(df, bb_values)` with the trend, both pattern maps and the volume flag as inputs. */
  function AnalyzeMarket(v: BandValues, trend: real, bb: PatternMap, general: PatternMap,
                         volumeConfirmed: bool): (r: Option<Signal>)
    ensures r.Some? ==> r.value.name == "bollinger" && r.value.value == Number(v.percentB)
    ensures r.Some? && r.value.kind == Buy <==>
              v.percentB < 0.1 && trend > 0.0 && BuyConfidence(trend, bb, general, volumeConfirmed) > ConfidenceThreshold
    ensures r.Some? && r.value.kind == Sell <==>
              v.percentB >= 0.1 && v.percentB > 0.9 && trend < 0.0
              && SellConfidence(trend, bb, volumeConfirmed) > ConfidenceThreshold
  {
    if v.percentB < 0.1 then
      if trend > 0.0 && BuyConfidence(trend, bb, general, volumeConfirmed) > ConfidenceThreshold
      then Some(Signal("bollinger", Buy, Number(v.percentB))) else None
    else if v.percentB > 0.9 then
      if trend < 0.0 && SellConfidence(trend, bb, volumeConfirmed) > ConfidenceThreshold
      then Some(Signal("bollinger", Sell, Number(v.percentB))) else None
    else None
  }

  /** Without trend strength, patterns or volume the 0.5 base never clears the threshold. */
  lemma BareSignalRejected(v: BandValues, trend: real)
    requires -0.6 < trend < 0.6
    ensures AnalyzeMarket(v, trend, map[], map[], false) == None
  {
  }
}
