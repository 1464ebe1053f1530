/** The MACD strategy: a signal when the MACD histogram changes sign between the last two candles. */
module MacdStrategy {
  import opened Wrappers
  import opened Floats
  import opened Models

  /** 26 candles for the slow average plus the current one. */
  const MinCandles: int := 27

  const BullishCrossover: string := "bullish crossover"
  const BearishCrossover: string := "bearish crossover"

  /** Python's `s[-2:]`: the last two entries, or all of them when there are fewer. */
  function LastTwo<T>(s: seq<T>): (r: seq<T>)
    ensures |r| == if |s| < 2 then |s| else 2
    ensures r == s[|s| - |r|..]
  {
    if |s| < 2 then s else s[|s| - 2..]
  }

  /**
   * `process`: `histogram` is the `MACDh_12_26_9` column, `None` when the indicator could not
   * be appended. A positive value after a negative one is a bullish crossover, the reverse a
   * bearish one.
   */
  function Process(histogram: Option<seq<Float>>): (r: Option<Signal>)
    ensures r.Some? ==> r.value.name == "macd"
    ensures r.Some? ==> r.value.value == Text(BullishCrossover) || r.value.value == Text(BearishCrossover)
    ensures r.Some? ==> (r.value.kind == Buy <==> r.value.value == Text(BullishCrossover))
  {
    match histogram
    case None => None
    case Some(column) =>
      var hist := LastTwo(column);
      if |hist| < 2 || IsNaN(hist[0]) || IsNaN(hist[1]) then None
      else
        var prev := hist[0];
        var cur := hist[1];
        if Gt(cur, Finite(0.0)) && Lt(prev, Finite(0.0)) then Some(Signal("macd", Buy, Text(BullishCrossover)))
        else if Lt(cur, Finite(0.0)) && Gt(prev, Finite(0.0)) then Some(Signal("macd", Sell, Text(BearishCrossover)))
        else None
  }

  /** A buy exactly on a negative-to-positive flip, a sell exactly on a positive-to-negative flip. */
  lemma ProcessCrossovers(column: seq<Float>)
    requires |column| >= 2
    ensures var prev := column[|column| - 2]; var cur := column[|column| - 1];
      && (Process(Some(column)) == Some(Signal("macd", Buy, Text(BullishCrossover))) <==>
            Gt(cur, Finite(0.0)) && Lt(prev, Finite(0.0)))
      && (Process(Some(column)) == Some(Signal("macd", Sell, Text(BearishCrossover))) <==>
            Lt(cur, Finite(0.0)) && Gt(prev, Finite(0.0)))
  {
    var hist := LastTwo(column);
    assert hist[0] == column[|column| - 2] && hist[1] == column[|column| - 1];
  }

  /** Equal signs or a zero on either side give nothing. */
  lemma ProcessNeedsSignChange(column: seq<Float>)
    requires |column| >= 2
    requires var prev := column[|column| - 2]; var cur := column[|column| - 1];
      prev == Finite(0.0) || cur == Finite(0.0)
      || (prev.Finite? && cur.Finite? && (prev.v > 0.0) == (cur.v > 0.0))
    ensures Process(Some(column)) == None
  {
    var hist := LastTwo(column);
    assert hist[0] == column[|column| - 2] && hist[1] == column[|column| - 1];
  }

  /** A missing column, fewer than two values, or a NaN among the last two give nothing. */
  lemma ProcessRejectsIncomplete(column: seq<Float>)
    requires |column| < 2 || IsNaN(column[|column| - 1]) || IsNaN(column[|column| - 2])
    ensures Process(None) == None
    ensures Process(Some(column)) == None
  {
    if |column| >= 2 {
      var hist := LastTwo(column);
      assert hist[0] == column[|column| - 2] && hist[1] == column[|column| - 1];
    }
  }
}
