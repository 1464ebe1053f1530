/**
 * The RSI strategy: a buy when the RSI is below the lower threshold in a flat or rising market,
 * a sell when it is above the upper threshold in a flat or falling market, each only when the
 * confidence built from trend, patterns and volume exceeds 0.7.
 */
module RsiStrategy {
  import opened Wrappers
  import opened Floats
  import opened Models
  import opened Patterns

  /** Enough candles for the 50-period averages. */
  const MinCandles: int := 50

  /** Frames shorter than this use a neutral trend. */
  const TrendCandles: int := 50

  const ConfidenceThreshold: real := 0.7

  /**
   * `calculate_indicator`: the last value of the `RSI_14` column; `None` when the column is
   * missing, or empty (the `IndexError` is caught).
   */
  function CalculateIndicator(rsiColumn: Option<seq<Float>>): (r: Option<Float>)
    ensures rsiColumn.None? ==> r.None?
    ensures r.Some? ==> rsiColumn.Some? && |rsiColumn.value| > 0
                        && r.value == rsiColumn.value[|rsiColumn.value| - 1]
  {
    match rsiColumn
    case None => None
    case Some(column) => if |column| == 0 then None else Some(column[|column| - 1])
  }

  /** The trend the analysis uses: the measured one only from 50 candles on. */
  function EffectiveTrend(frameLength: int, trend: real): (t: real)
    ensures frameLength < TrendCandles ==> t == 0.0
    ensures frameLength >= TrendCandles ==> t == trend
  {
    if frameLength >= TrendCandles then trend else 0.0
  }

  /** The buy confidence: base 0.5, trend strength, double bottom, breakout, volume. */
  function BuyConfidence(trend: real, patterns: PatternMap, volumeConfirmed: bool): (c: real)
    ensures NonNegative(patterns) ==> c >= 0.5 + AbsReal(trend) * 0.3
  {
    0.5 + AbsReal(trend) * 0.3
    + Score(patterns, DoubleBottom) * 0.2
    + Score(patterns, Breakout) * 0.2
    + VolumeBonus(volumeConfirmed)
  }

  /** The sell confidence: base 0.5, trend strength, volume spike, volume. */
  function SellConfidence(trend: real, patterns: PatternMap, volumeConfirmed: bool): (c: real)
    ensures NonNegative(patterns) ==> c >= 0.5 + AbsReal(trend) * 0.3
  {
    0.5 + AbsReal(trend) * 0.3
    + Score(patterns, VolumeSpike) * 0.2
    + VolumeBonus(volumeConfirmed)
  }

  /** The market conditions `analyze_market` reads from the frame besides the RSI value. */
  datatype Market = Market(
    frameLength: int, lower: real, upper: real, trend: real,
    patterns: PatternMap, volumeConfirmed: bool)

  /**
   * `analyze_market(df, rsi_value)`. The RSI is NaN or lies in [0, 100]; an infinite value,
   * which the formula cannot produce, is treated like NaN.
   */
  function AnalyzeMarket(m: Market, rsi: Float): (r: Option<Signal>)
    ensures r.Some? ==> r.value.name == "rsi" && rsi.Finite? && r.value.value == Number(rsi.v)
  {
    var trend := EffectiveTrend(m.frameLength, m.trend);
    if !rsi.Finite? then None
    else if Lt(rsi, Finite(m.lower)) then
      if trend >= 0.0 && BuyConfidence(trend, m.patterns, m.volumeConfirmed) > ConfidenceThreshold
      then Some(Signal("rsi", Buy, Number(rsi.v)))
      else None
    else if Gt(rsi, Finite(m.upper)) then
      if trend <= 0.0 && SellConfidence(trend, m.patterns, m.volumeConfirmed) > ConfidenceThreshold
      then Some(Signal("rsi", Sell, Number(rsi.v)))
      else None
    else None
  }

  /** A buy exactly when the RSI is below the lower threshold, the trend is not falling and the confidence clears 0.7. */
  lemma BuyRule(m: Market, rsi: Float)
    ensures var trend := EffectiveTrend(m.frameLength, m.trend);
      (AnalyzeMarket(m, rsi).Some? && AnalyzeMarket(m, rsi).value.kind == Buy)
        <==> (rsi.Finite? && rsi.v < m.lower && trend >= 0.0
              && BuyConfidence(trend, m.patterns, m.volumeConfirmed) > ConfidenceThreshold)
  {
  }

  /**
   * A sell exactly when the RSI is not below the lower threshold, is above the upper one, the
   * trend is not rising and the confidence clears 0.7.
   */
  lemma SellRule(m: Market, rsi: Float)
    ensures var trend := EffectiveTrend(m.frameLength, m.trend);
      (AnalyzeMarket(m, rsi).Some? && AnalyzeMarket(m, rsi).value.kind == Sell)
        <==> (rsi.Finite? && rsi.v >= m.lower && rsi.v > m.upper && trend <= 0.0
              && SellConfidence(trend, m.patterns, m.volumeConfirmed) > ConfidenceThreshold)
  {
  }

  /** With too few candles the trend is neutral: a signal needs pattern or volume support beyond the 0.5 base. */
  lemma ShortFrameNeedsSupport(m: Market, rsi: Float)
    requires m.frameLength < TrendCandles
    requires !m.volumeConfirmed && m.patterns == map[]
    ensures AnalyzeMarket(m, rsi) == None
  {
  }

  /** A NaN RSI never signals. */
  lemma NaNNeverSignals(m: Market)
    ensures AnalyzeMarket(m, NaN) == None
  {
  }
}
