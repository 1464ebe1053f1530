/**
 * The Ichimoku strategy with crypto periods 20 / 60 / 120 and a displacement of 30: the five
 * lines, the TK-cross / cloud-breakout / cloud-twist / chikou patterns, and a buy above the
 * base line in an uptrend or a sell below it in a downtrend.
 */
module IchimokuStrategy {
  import opened Wrappers
  import opened Floats
  import opened Models
  import opened StrategyBase
  import opened Patterns

  const TenkanPeriod: int := 20
  const KijunPeriod: int := 60
  const SenkouPeriod: int := 120
  const Displacement: int := 30

  /** Enough candles for the 120-period span displaced by 30. */
  const MinCandles: int := SenkouPeriod + Displacement

  const ConfidenceThreshold: real := 0.7

  /**
   * Row `i` of `(high.rolling(w).max() + low.rolling(w).min()) / 2`: NaN until `w` rows are
   * available, then the midpoint of the highest high and lowest low of the last `w` rows.
   */
  function Midpoint(f: Frame, i: int, w: int): (r: Float)
    requires 0 <= i < |f| && w >= 1
    ensures r.NaN? <==> i < w - 1
  {
    if i < w - 1 then NaN
    else Finite((MaxHigh(f[i - w + 1..i + 1]) + MinLow(f[i - w + 1..i + 1])) / 2.0)
  }

  /** Where every candle has low <= high, the midpoint lies between the window's lowest low and highest high. */
  lemma MidpointInRange(f: Frame, i: int, w: int)
    requires 0 <= i < |f| && w >= 1 && w - 1 <= i
    requires forall k :: 0 <= k < |f| ==> f[k].low <= f[k].high
    ensures var window := f[i - w + 1..i + 1];
      MinLow(window) <= Midpoint(f, i, w).v <= MaxHigh(window)
  {
    var window := f[i - w + 1..i + 1];
    var k :| 0 <= k < |window| && window[k].low == MinLow(window);
    assert window[k] == f[i - w + 1 + k];
    assert MinLow(window) <= MaxHigh(window);
  }

  /** Tenkan-sen: the 20-period midpoint. */
  function Tenkan(f: Frame, i: int): Float
    requires 0 <= i < |f|
  {
    Midpoint(f, i, TenkanPeriod)
  }

  /** Kijun-sen: the 60-period midpoint. */
  function Kijun(f: Frame, i: int): Float
    requires 0 <= i < |f|
  {
    Midpoint(f, i, KijunPeriod)
  }

  /** `(a + b) / 2` on values that are finite or NaN. */
  function Average(a: Float, b: Float): (r: Float)
  {
    if a.Finite? && b.Finite? then Finite((a.v + b.v) / 2.0) else NaN
  }

  /** Senkou span A: the tenkan/kijun average, shifted forward 30 rows. */
  function SenkouA(f: Frame, i: int): Float
    requires 0 <= i < |f|
  {
    if i < Displacement then NaN else Average(Tenkan(f, i - Displacement), Kijun(f, i - Displacement))
  }

  /** Senkou span B: the 120-period midpoint, shifted forward 30 rows. */
  function SenkouB(f: Frame, i: int): Float
    requires 0 <= i < |f|
  {
    if i < Displacement then NaN else Midpoint(f, i - Displacement, SenkouPeriod)
  }

  /** Chikou span: the close 30 rows later (`close.shift(-30)`). */
  function Chikou(f: Frame, i: int): Float
    requires 0 <= i < |f|
  {
    if i + Displacement < |f| then Finite(f[i + Displacement].close) else NaN
  }

  /** What `calculate_indicator` returns. */
  datatype IchimokuValues = IchimokuValues(
    close: real, tenkan: Float, kijun: Float, senkouA: Float, senkouB: Float,
    chikou: Option<Float>, futureSenkouA: Float, futureSenkouB: Float)

  /**
   * `calculate_indicator`: the latest close, tenkan and kijun, the current cloud (31 rows back),
   * the chikou value 31 rows back when more than 30 chikou values exist, and the future cloud.
   * Fewer than 31 rows raise `IndexError`, caught into `None`.
   */
  function CalculateIndicator(f: Frame): (r: Option<IchimokuValues>)
    ensures r.Some? <==> |f| > Displacement
    ensures r.Some? ==> r.value.close == f[|f| - 1].close
  {
    var n := |f|;
    if n <= Displacement then None
    else
      // close.shift(-30) has a value in each of its first n - 30 rows
      var chikouCount := n - Displacement;
      Some(IchimokuValues(
        f[n - 1].close, Tenkan(f, n - 1), Kijun(f, n - 1),
        SenkouA(f, n - 1 - Displacement), SenkouB(f, n - 1 - Displacement),
        if chikouCount > Displacement then Some(Chikou(f, n - 1 - Displacement)) else None,
        SenkouA(f, n - 1), SenkouB(f, n - 1)))
  }

  /**
   * The chikou value read 31 rows back is the close 30 rows after that, which is the current
   * close itself; it is present exactly from 61 rows on.
   */
  lemma ChikouIsCurrentClose(f: Frame)
    requires |f| > Displacement
    ensures var v := CalculateIndicator(f).value;
      && (v.chikou.Some? <==> |f| > 2 * Displacement)
      && (v.chikou.Some? ==> v.chikou.value == Finite(v.close))
  {
  }

  /** Python's `max(a, b)`: `a` unless `b > a`. */
  function PyMax(a: Float, b: Float): (r: Float)
    ensures r == a || r == b
  {
    if Gt(b, a) then b else a
  }

  /** Python's `min(a, b)`: `a` unless `b < a`. */
  function PyMin(a: Float, b: Float): (r: Float)
    ensures r == a || r == b
  {
    if Lt(b, a) then b else a
  }

  /** One `if bullish: ... elif bearish: ...` step of the pattern detection. */
  function Pick(p: PatternMap, bullish: bool, bearish: bool, up: Pattern, down: Pattern, strength: real): (r: PatternMap)
  {
    if bullish then p[up := strength] else if bearish then p[down := strength] else p
  }

  /** A step adds the bullish key exactly when its test holds, and the bearish key when only its own test does. */
  lemma PickSpec(p: PatternMap, bullish: bool, bearish: bool, up: Pattern, down: Pattern, strength: real)
    requires up != down && up !in p && down !in p
    ensures var r := Pick(p, bullish, bearish, up, down, strength);
      (up in r <==> bullish) && (down in r <==> !bullish && bearish)
  {
  }

  /** A step keeps every key other than its own two. */
  lemma PickKeeps(p: PatternMap, bullish: bool, bearish: bool, up: Pattern, down: Pattern, strength: real, k: Pattern)
    requires k != up && k != down
    ensures k in Pick(p, bullish, bearish, up, down, strength) <==> k in p
  {
  }

  /** The eight crossing tests of the pattern detection, bullish and bearish for each family. */
  datatype CrossTests = CrossTests(
    tkUp: bool, tkDown: bool, cloudUp: bool, cloudDown: bool,
    twistUp: bool, twistDown: bool, chikouUp: bool, chikouDown: bool)

  /** The tests on the last two rows; the chikou tests fail when there is no chikou value. */
  function Tests(f: Frame, v: IchimokuValues): CrossTests
    requires |f| >= 2
  {
    var prevTenkan := Tenkan(f, |f| - 2);
    var prevKijun := Kijun(f, |f| - 2);
    var close := Finite(v.close);
    CrossTests(
      Lt(prevTenkan, prevKijun) && Gt(v.tenkan, v.kijun), Gt(prevTenkan, prevKijun) && Lt(v.tenkan, v.kijun),
      Gt(close, PyMax(v.senkouA, v.senkouB)), Lt(close, PyMin(v.senkouA, v.senkouB)),
      Gt(v.futureSenkouA, v.futureSenkouB) && Lt(v.senkouA, v.senkouB),
      Lt(v.futureSenkouA, v.futureSenkouB) && Gt(v.senkouA, v.senkouB),
      v.chikou.Some? && Gt(v.chikou.value, close), v.chikou.Some? && Lt(v.chikou.value, close))
  }

  /** The patterns recorded for the outcome of the tests, family by family. */
  function FromTests(t: CrossTests): PatternMap
  {
    var tk := Pick(map[], t.tkUp, t.tkDown, TkCross(Bullish), TkCross(Bearish), 0.8);
    var cloud := Pick(tk, t.cloudUp, t.cloudDown, CloudBreakout(Bullish), CloudBreakout(Bearish), 0.9);
    var twist := Pick(cloud, t.twistUp, t.twistDown, CloudTwist(Bullish), CloudTwist(Bearish), 0.7);
    Pick(twist, t.chikouUp, t.chikouDown, ChikouCross(Bullish), ChikouCross(Bearish), 0.6)
  }

  /** `detect_ichimoku_patterns`, reading the previous tenkan and kijun from the frame. */
  function DetectPatterns(f: Frame, v: IchimokuValues): (p: PatternMap)
  {
    if |f| < 2 then map[] else FromTests(Tests(f, v))
  }

  /** The TK-cross keys, which the later stages keep. */
  lemma TkFamily(t: CrossTests)
    ensures var p := FromTests(t);
      (TkCross(Bullish) in p <==> t.tkUp) && (TkCross(Bearish) in p <==> !t.tkUp && t.tkDown)
  {
    var tk := Pick(map[], t.tkUp, t.tkDown, TkCross(Bullish), TkCross(Bearish), 0.8);
    PickSpec(map[], t.tkUp, t.tkDown, TkCross(Bullish), TkCross(Bearish), 0.8);
    var cloud := Pick(tk, t.cloudUp, t.cloudDown, CloudBreakout(Bullish), CloudBreakout(Bearish), 0.9);
    var twist := Pick(cloud, t.twistUp, t.twistDown, CloudTwist(Bullish), CloudTwist(Bearish), 0.7);
    PickKeeps(tk, t.cloudUp, t.cloudDown, CloudBreakout(Bullish), CloudBreakout(Bearish), 0.9, TkCross(Bullish));
    PickKeeps(cloud, t.twistUp, t.twistDown, CloudTwist(Bullish), CloudTwist(Bearish), 0.7, TkCross(Bullish));
    PickKeeps(twist, t.chikouUp, t.chikouDown, ChikouCross(Bullish), ChikouCross(Bearish), 0.6, TkCross(Bullish));
    PickKeeps(tk, t.cloudUp, t.cloudDown, CloudBreakout(Bullish), CloudBreakout(Bearish), 0.9, TkCross(Bearish));
    PickKeeps(cloud, t.twistUp, t.twistDown, CloudTwist(Bullish), CloudTwist(Bearish), 0.7, TkCross(Bearish));
    PickKeeps(twist, t.chikouUp, t.chikouDown, ChikouCross(Bullish), ChikouCross(Bearish), 0.6, TkCross(Bearish));
  }

  /** The cloud-breakout keys. */
  lemma CloudFamily(t: CrossTests)
    ensures var p := FromTests(t);
      (CloudBreakout(Bullish) in p <==> t.cloudUp) && (CloudBreakout(Bearish) in p <==> !t.cloudUp && t.cloudDown)
  {
    var tk := Pick(map[], t.tkUp, t.tkDown, TkCross(Bullish), TkCross(Bearish), 0.8);
    PickKeeps(map[], t.tkUp, t.tkDown, TkCross(Bullish), TkCross(Bearish), 0.8, CloudBreakout(Bullish));
    PickKeeps(map[], t.tkUp, t.tkDown, TkCross(Bullish), TkCross(Bearish), 0.8, CloudBreakout(Bearish));
    PickSpec(tk, t.cloudUp, t.cloudDown, CloudBreakout(Bullish), CloudBreakout(Bearish), 0.9);
    var cloud := Pick(tk, t.cloudUp, t.cloudDown, CloudBreakout(Bullish), CloudBreakout(Bearish), 0.9);
    var twist := Pick(cloud, t.twistUp, t.twistDown, CloudTwist(Bullish), CloudTwist(Bearish), 0.7);
    PickKeeps(cloud, t.twistUp, t.twistDown, CloudTwist(Bullish), CloudTwist(Bearish), 0.7, CloudBreakout(Bullish));
    PickKeeps(twist, t.chikouUp, t.chikouDown, ChikouCross(Bullish), ChikouCross(Bearish), 0.6, CloudBreakout(Bullish));
    PickKeeps(cloud, t.twistUp, t.twistDown, CloudTwist(Bullish), CloudTwist(Bearish), 0.7, CloudBreakout(Bearish));
    PickKeeps(twist, t.chikouUp, t.chikouDown, ChikouCross(Bullish), ChikouCross(Bearish), 0.6, CloudBreakout(Bearish));
  }

  /** The cloud-twist keys. */
  lemma TwistFamily(t: CrossTests)
    ensures var p := FromTests(t);
      (CloudTwist(Bullish) in p <==> t.twistUp) && (CloudTwist(Bearish) in p <==> !t.twistUp && t.twistDown)
  {
    var tk := Pick(map[], t.tkUp, t.tkDown, TkCross(Bullish), TkCross(Bearish), 0.8);
    var cloud := Pick(tk, t.cloudUp, t.cloudDown, CloudBreakout(Bullish), CloudBreakout(Bearish), 0.9);
    PickKeeps(map[], t.tkUp, t.tkDown, TkCross(Bullish), TkCross(Bearish), 0.8, CloudTwist(Bullish));
    PickKeeps(tk, t.cloudUp, t.cloudDown, CloudBreakout(Bullish), CloudBreakout(Bearish), 0.9, CloudTwist(Bullish));
    PickKeeps(map[], t.tkUp, t.tkDown, TkCross(Bullish), TkCross(Bearish), 0.8, CloudTwist(Bearish));
    PickKeeps(tk, t.cloudUp, t.cloudDown, CloudBreakout(Bullish), CloudBreakout(Bearish), 0.9, CloudTwist(Bearish));
    PickSpec(cloud, t.twistUp, t.twistDown, CloudTwist(Bullish), CloudTwist(Bearish), 0.7);
    var twist := Pick(cloud, t.twistUp, t.twistDown, CloudTwist(Bullish), CloudTwist(Bearish), 0.7);
    PickKeeps(twist, t.chikouUp, t.chikouDown, ChikouCross(Bullish), ChikouCross(Bearish), 0.6, CloudTwist(Bullish));
    PickKeeps(twist, t.chikouUp, t.chikouDown, ChikouCross(Bullish), ChikouCross(Bearish), 0.6, CloudTwist(Bearish));
  }

  /** The chikou keys, added last. */
  lemma ChikouFamily(t: CrossTests)
    ensures var p := FromTests(t);
      (ChikouCross(Bullish) in p <==> t.chikouUp) && (ChikouCross(Bearish) in p <==> !t.chikouUp && t.chikouDown)
  {
    var tk := Pick(map[], t.tkUp, t.tkDown, TkCross(Bullish), TkCross(Bearish), 0.8);
    var cloud := Pick(tk, t.cloudUp, t.cloudDown, CloudBreakout(Bullish), CloudBreakout(Bearish), 0.9);
    var twist := Pick(cloud, t.twistUp, t.twistDown, CloudTwist(Bullish), CloudTwist(Bearish), 0.7);
    PickKeeps(map[], t.tkUp, t.tkDown, TkCross(Bullish), TkCross(Bearish), 0.8, ChikouCross(Bullish));
    PickKeeps(tk, t.cloudUp, t.cloudDown, CloudBreakout(Bullish), CloudBreakout(Bearish), 0.9, ChikouCross(Bullish));
    PickKeeps(cloud, t.twistUp, t.twistDown, CloudTwist(Bullish), CloudTwist(Bearish), 0.7, ChikouCross(Bullish));
    PickKeeps(map[], t.tkUp, t.tkDown, TkCross(Bullish), TkCross(Bearish), 0.8, ChikouCross(Bearish));
    PickKeeps(tk, t.cloudUp, t.cloudDown, CloudBreakout(Bullish), CloudBreakout(Bearish), 0.9, ChikouCross(Bearish));
    PickKeeps(cloud, t.twistUp, t.twistDown, CloudTwist(Bullish), CloudTwist(Bearish), 0.7, ChikouCross(Bearish));
    PickSpec(twist, t.chikouUp, t.chikouDown, ChikouCross(Bullish), ChikouCross(Bearish), 0.6);
  }

  /** Family by family, the bullish key is recorded when its test holds, the bearish key when only its own does. */
  lemma FromTestsSpec(t: CrossTests)
    ensures var p := FromTests(t);
      && (TkCross(Bullish) in p <==> t.tkUp) && (TkCross(Bearish) in p <==> !t.tkUp && t.tkDown)
      && (CloudBreakout(Bullish) in p <==> t.cloudUp) && (CloudBreakout(Bearish) in p <==> !t.cloudUp && t.cloudDown)
      && (CloudTwist(Bullish) in p <==> t.twistUp) && (CloudTwist(Bearish) in p <==> !t.twistUp && t.twistDown)
      && (ChikouCross(Bullish) in p <==> t.chikouUp) && (ChikouCross(Bearish) in p <==> !t.chikouUp && t.chikouDown)
  {
    TkFamily(t);
    CloudFamily(t);
    TwistFamily(t);
    ChikouFamily(t);
  }

  /** Each pattern family records at most one direction; a frame under two rows records nothing. */
  lemma PatternsExclusive(f: Frame, v: IchimokuValues)
    ensures var p := DetectPatterns(f, v);
      && (|f| < 2 ==> p == map[])
      && !(TkCross(Bullish) in p && TkCross(Bearish) in p)
      && !(CloudBreakout(Bullish) in p && CloudBreakout(Bearish) in p)
      && !(CloudTwist(Bullish) in p && CloudTwist(Bearish) in p)
      && !(ChikouCross(Bullish) in p && ChikouCross(Bearish) in p)
  {
    if |f| >= 2 {
      FromTestsSpec(Tests(f, v));
    }
  }

  /** With a finite cloud, a bullish breakout is a close above both spans, a bearish one a close below both. */
  lemma CloudBreakoutRule(f: Frame, v: IchimokuValues)
    requires |f| >= 2 && v.senkouA.Finite? && v.senkouB.Finite?
    ensures CloudBreakout(Bullish) in DetectPatterns(f, v) <==> v.close > v.senkouA.v && v.close > v.senkouB.v
    ensures CloudBreakout(Bearish) in DetectPatterns(f, v) <==>
              !(v.close > v.senkouA.v && v.close > v.senkouB.v) && v.close < v.senkouA.v && v.close < v.senkouB.v
  {
    FromTestsSpec(Tests(f, v));
  }

  /** A TK cross is bullish exactly when tenkan moves from below kijun to above it. */
  lemma TkCrossRule(f: Frame, v: IchimokuValues)
    requires |f| >= 2
    ensures TkCross(Bullish) in DetectPatterns(f, v) <==>
              Lt(Tenkan(f, |f| - 2), Kijun(f, |f| - 2)) && Gt(v.tenkan, v.kijun)
  {
    FromTestsSpec(Tests(f, v));
  }

  /** A chikou value that is absent or equal to the close records no chikou pattern. */
  lemma ChikouAtCloseNoCross(f: Frame, v: IchimokuValues)
    requires v.chikou.None? || v.chikou == Some(Finite(v.close))
    ensures ChikouCross(Bullish) !in DetectPatterns(f, v)
    ensures ChikouCross(Bearish) !in DetectPatterns(f, v)
  {
    if |f| >= 2 {
      FromTestsSpec(Tests(f, v));
    }
  }

  /** The chikou value equals the close, so no chikou pattern is ever recorded from the indicator's values. */
  lemma ChikouNeverCrosses(f: Frame)
    requires |f| > Displacement
    ensures ChikouCross(Bullish) !in DetectPatterns(f, CalculateIndicator(f).value)
    ensures ChikouCross(Bearish) !in DetectPatterns(f, CalculateIndicator(f).value)
  {
    ChikouIsCurrentClose(f);
    ChikouAtCloseNoCross(f, CalculateIndicator(f).value);
  }

  /** The pattern bonus for one direction: only patterns pointing that way count. */
  function DirectionBonus(patterns: PatternMap, direction: Direction): real
  {
    Score(patterns, TkCross(direction)) * 0.2
    + Score(patterns, CloudBreakout(direction)) * 0.2
    + Score(patterns, CloudTwist(direction)) * 0.1
    + Score(patterns, ChikouCross(direction)) * 0.1
  }

  function Confidence(trend: real, patterns: PatternMap, direction: Direction, volumeConfirmed: bool): real
  {
    0.5 + AbsReal(trend) * 0.3 + DirectionBonus(patterns, direction) + VolumeBonus(volumeConfirmed)
  }

  /** `analyze_market(df, values)` with the trend and the volume flag as inputs. */
  function AnalyzeMarket(f: Frame, v: IchimokuValues, trend: real, volumeConfirmed: bool): (r: Option<Signal>)
    ensures r.Some? ==> r.value.name == "ichimoku" && r.value.value == Formatted("TK", [v.tenkan, v.kijun])
    ensures r.Some? && r.value.kind == Buy <==>
              Gt(Finite(v.close), v.kijun) && trend > 0.0
              && Confidence(trend, DetectPatterns(f, v), Bullish, volumeConfirmed) > ConfidenceThreshold
    ensures r.Some? && r.value.kind == Sell <==>
              !Gt(Finite(v.close), v.kijun) && Lt(Finite(v.close), v.kijun) && trend < 0.0
              && Confidence(trend, DetectPatterns(f, v), Bearish, volumeConfirmed) > ConfidenceThreshold
  {
    var patterns := DetectPatterns(f, v);
    var close := Finite(v.close);
    if Gt(close, v.kijun) then
      if trend > 0.0 && Confidence(trend, patterns, Bullish, volumeConfirmed) > ConfidenceThreshold
      then Some(Signal("ichimoku", Buy, Formatted("TK", [v.tenkan, v.kijun]))) else None
    else if Lt(close, v.kijun) then
      if trend < 0.0 && Confidence(trend, patterns, Bearish, volumeConfirmed) > ConfidenceThreshold
      then Some(Signal("ichimoku", Sell, Formatted("TK", [v.tenkan, v.kijun]))) else None
    else None
  }

  /** A kijun still in warm-up (NaN) blocks every signal. */
  lemma NaNKijunNeverSignals(f: Frame, v: IchimokuValues, trend: real, volumeConfirmed: bool)
    requires v.kijun.NaN?
    ensures AnalyzeMarket(f, v, trend, volumeConfirmed) == None
  {
  }
}
