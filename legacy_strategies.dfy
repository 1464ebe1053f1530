/**
 * The first-generation strategy: a shared table of per-symbol price frames that `watch` extends
 * candle by candle, and an RSI strategy that marks symbols whose last RSI crosses its thresholds.
 */
module LegacyStrategies {
  import opened Wrappers
  import opened Floats
  import opened Models

  /** A final candle as the first-generation bot receives it. */
  datatype Quote = Quote(open: real, close: real, high: real, low: real, timestamp: int)

  /** One row of a frame, labelled by its timestamp. */
  datatype Bar = Bar(timestamp: int, open: real, high: real, low: real, close: real)

  type Frame = seq<Bar>

  /** A signal: its direction and the RSI value that caused it. */
  datatype Call = Call(kind: SignalType, value: Float)

  function BarOf(q: Quote): (b: Bar)
    ensures b.timestamp == q.timestamp && b.open == q.open && b.high == q.high
    ensures b.low == q.low && b.close == q.close
  {
    Bar(q.timestamp, q.open, q.high, q.low, q.close)
  }

  /** The rows whose label is not `t`: dropping a label drops every row carrying it. */
  function DropLabel(f: Frame, t: int): (r: Frame)
    ensures |r| <= |f|
    ensures forall b :: b in r <==> b in f && b.timestamp != t
  {
    if |f| == 0 then []
    else if f[0].timestamp == t then DropLabel(f[1..], t)
    else [f[0]] + DropLabel(f[1..], t)
  }

  /** A label carried by one row only. */
  function Occurrences(f: Frame, t: int): (n: nat)
    ensures n <= |f|
  {
    if |f| == 0 then 0 else (if f[0].timestamp == t then 1 else 0) + Occurrences(f[1..], t)
  }

  lemma {:induction false} DropLabelLength(f: Frame, t: int)
    ensures |DropLabel(f, t)| == |f| - Occurrences(f, t)
  {
    if |f| > 0 {
      DropLabelLength(f[1..], t);
    }
  }

  /** The frame after a candle when the table is full: the oldest label out, the candle in. */
  function Rolled(f: Frame, q: Quote): (r: Frame)
    requires |f| > 0
    ensures 0 < |r| <= |f| && r[|r| - 1] == BarOf(q)
  {
    DropLabel(f, f[0].timestamp) + [BarOf(q)]
  }

  /** With its oldest label unique, a rolled frame keeps its length. */
  lemma RolledKeepsLength(f: Frame, q: Quote)
    requires |f| > 0 && Occurrences(f, f[0].timestamp) == 1
    ensures |Rolled(f, q)| == |f|
  {
    DropLabelLength(f, f[0].timestamp);
  }

  /** The symbols of a batch of candles, in order. */
  function Symbols(prices: seq<(string, Quote)>): (r: seq<string>)
    ensures |r| == |prices| && forall i :: 0 <= i < |prices| ==> r[i] == prices[i].0
  {
    if |prices| == 0 then [] else [prices[0].0] + Symbols(prices[1..])
  }

  /** A batch keyed by symbol: no symbol twice. */
  predicate Keyed(prices: seq<(string, Quote)>)
  {
    forall i, j :: 0 <= i < j < |prices| ==> prices[i].0 != prices[j].0
  }

  /** The position of the first candle whose symbol has no frame, or the length of the batch. */
  function FirstUnknown(frames: map<string, Frame>, prices: seq<(string, Quote)>): (k: nat)
    ensures k <= |prices|
    ensures forall i :: 0 <= i < k ==> prices[i].0 in frames
    ensures k < |prices| ==> prices[k].0 !in frames
  {
    if |prices| == 0 then 0
    else if prices[0].0 !in frames then 0
    else 1 + FirstUnknown(frames, prices[1..])
  }

  /** The frames after every candle of the batch has been rolled in. */
  function RollAll(frames: map<string, Frame>, prices: seq<(string, Quote)>): (r: map<string, Frame>)
    requires forall i :: 0 <= i < |prices| ==> prices[i].0 in frames
    requires forall s :: s in frames ==> |frames[s]| > 0
    ensures r.Keys == frames.Keys && forall s :: s in r ==> |r[s]| > 0
    decreases |prices|
  {
    if |prices| == 0 then frames
    else
      var last := prices[|prices| - 1];
      var before := RollAll(frames, prices[..|prices| - 1]);
      before[last.0 := Rolled(before[last.0], last.1)]
  }

  /**
   * The rolling loop of `watch` on the table it updates: symbol by symbol the oldest row is dropped
   * and the candle appended, up to the first symbol without a frame, which fails.
   */
  method RollFrames(frames: map<string, Frame>, prices: seq<(string, Quote)>)
    returns (r: Result<()>, rolled: map<string, Frame>)
    requires forall s :: s in frames ==> |frames[s]| > 0
    ensures var k := FirstUnknown(frames, prices);
      && (r.Err? <==> k < |prices|)
      && rolled == RollAll(frames, prices[..k])
  {
    var k := FirstUnknown(frames, prices);
    var i := 0;
    rolled := frames;
    while i < |prices|
      invariant 0 <= i <= k
      invariant rolled == RollAll(frames, prices[..i])
      decreases |prices| - i
    {
      var symbol := prices[i].0;
      if symbol !in rolled {
        assert i == k by {
          assert RollAll(frames, prices[..i]).Keys == frames.Keys;
        }
        return Err("KeyError: " + symbol), rolled;
      }
      assert prices[..i + 1][..i] == prices[..i];
      rolled := rolled[symbol := Rolled(rolled[symbol], prices[i].1)];
      i := i + 1;
    }
    assert k == |prices| && prices[..k] == prices;
    return Ok(()), rolled;
  }

  /** The frames after every candle of the batch has been appended, new symbols starting a frame. */
  function AppendAll(frames: map<string, Frame>, prices: seq<(string, Quote)>): (r: map<string, Frame>)
    ensures frames.Keys <= r.Keys && forall i :: 0 <= i < |prices| ==> prices[i].0 in r
    decreases |prices|
  {
    if |prices| == 0 then frames
    else
      var last := prices[|prices| - 1];
      var before := AppendAll(frames, prices[..|prices| - 1]);
      before[last.0 := if last.0 in before then before[last.0] + [BarOf(last.1)] else [BarOf(last.1)]]
  }

  /** In a keyed batch each symbol ends up with its own candle appended, or alone in a new frame. */
  lemma {:induction false} AppendAllEffect(frames: map<string, Frame>, prices: seq<(string, Quote)>, i: int)
    requires Keyed(prices) && 0 <= i < |prices|
    ensures AppendAll(frames, prices)[prices[i].0] ==
      if prices[i].0 in frames then frames[prices[i].0] + [BarOf(prices[i].1)] else [BarOf(prices[i].1)]
    decreases |prices|
  {
    var n := |prices|;
    if i < n - 1 {
      AppendAllEffect(frames, prices[..n - 1], i);
      assert prices[..n - 1][i] == prices[i];
    } else {
      AppendAllUntouched(frames, prices[..n - 1], prices[i].0);
    }
  }

  /** Symbols outside the batch keep their frames. */
  lemma {:induction false} AppendAllUntouched(frames: map<string, Frame>, prices: seq<(string, Quote)>, s: string)
    requires forall i :: 0 <= i < |prices| ==> prices[i].0 != s
    ensures s in AppendAll(frames, prices) <==> s in frames
    ensures s in frames ==> AppendAll(frames, prices)[s] == frames[s]
    decreases |prices|
  {
    if |prices| > 0 {
      AppendAllUntouched(frames, prices[..|prices| - 1], s);
    }
  }

  /** Every frame holds at least one row and at most `window`. */
  predicate Bounded(frames: map<string, Frame>, window: int)
  {
    forall s :: s in frames ==> 0 < |frames[s]| <= window
  }

  /** The length of the longest frame, 0 for an empty table. */
  predicate IsMaxLength(frames: map<string, Frame>, m: int)
  {
    && (forall s :: s in frames ==> |frames[s]| <= m)
    && (if frames == map[] then m == 0 else exists s :: s in frames && |frames[s]| == m)
  }

  /** Appending to frames all shorter than the window keeps them within it. */
  lemma {:induction false} AppendAllBounded(frames: map<string, Frame>, prices: seq<(string, Quote)>, window: int)
    requires Keyed(prices) && window >= 1 && forall s :: s in frames ==> 0 < |frames[s]| < window
    ensures Bounded(AppendAll(frames, prices), window)
  {
    var r := AppendAll(frames, prices);
    forall s | s in r ensures 0 < |r[s]| <= window {
      if i :| 0 <= i < |prices| && prices[i].0 == s {
        AppendAllEffect(frames, prices, i);
      } else {
        AppendAllUntouched(frames, prices, s);
      }
    }
  }

  /** Rolling never lengthens a frame. */
  lemma {:induction false} RollAllBounded(frames: map<string, Frame>, prices: seq<(string, Quote)>, window: int)
    requires forall i :: 0 <= i < |prices| ==> prices[i].0 in frames
    requires Bounded(frames, window)
    ensures Bounded(RollAll(frames, prices), window)
    decreases |prices|
  {
    if |prices| > 0 {
      RollAllBounded(frames, prices[..|prices| - 1], window);
    }
  }

  /** The RSI reading after missing values are filled with 50. */
  function Filled(x: Float): (v: Float)
    ensures !v.NaN? && (x.NaN? ==> v == Finite(50.0)) && (!x.NaN? ==> v == x)
  {
    if x.NaN? then Finite(50.0) else x
  }

  /**
   * One symbol's decision: sell above the upper threshold unless the RSI is exactly 100, buy below
   * the lower threshold unless it is exactly 0; the buy test is made last and wins.
   */
  function Decide(reading: Option<Float>, buy: int, sell: int): (r: Option<Call>)
    ensures reading.None? ==> r.None?
    ensures r.Some? ==> r.value.value == Filled(reading.value)
  {
    match reading
    case None => None
    case Some(x) =>
      var v := Filled(x);
      if Lt(v, Finite(buy as real)) && v != Finite(0.0) then Some(Call(Buy, v))
      else if Gt(v, Finite(sell as real)) && v != Finite(100.0) then Some(Call(Sell, v))
      else None
  }

  /** With ordered thresholds a reading is a buy, a sell, or nothing, each by its own test. */
  lemma DecideRule(x: Float, buy: int, sell: int)
    requires buy <= sell
    ensures var v := Filled(x);
      && (Decide(Some(x), buy, sell) == Some(Call(Buy, v)) <==> Lt(v, Finite(buy as real)) && v != Finite(0.0))
      && (Decide(Some(x), buy, sell) == Some(Call(Sell, v)) <==> Gt(v, Finite(sell as real)) && v != Finite(100.0))
  {
    var v := Filled(x);
    if Lt(v, Finite(buy as real)) {
      LtStrictOrder(v, Finite(buy as real));
    }
  }

  /** A missing reading counts as 50, which signals only with thresholds around it. */
  lemma MissingReadsFifty(buy: int, sell: int)
    ensures Decide(Some(NaN), buy, sell).Some? <==> 50 < buy || 50 > sell
  {
  }

  /** `RSIStrategy` with the table it shares through its base. */
  class LegacyRsiStrategy {
    const sell: int
    const buy: int
    const interval: int
    const window: int
    var dataframes: map<string, Frame>

    /** No frame is empty. */
    predicate Valid()
      reads this
    {
      forall s :: s in dataframes ==> |dataframes[s]| > 0
    }

    /** The thresholds are put in order; defaults sell 85, buy 15, interval 5, window 20. */
    constructor(sell: int, buy: int, interval: int, window: int)
      ensures this.buy <= this.sell
      ensures (this.buy, this.sell) == if buy < sell then (buy, sell) else (sell, buy)
      ensures this.interval == interval && this.window == window && dataframes == map[]
      ensures Valid()
    {
      this.sell := if sell > buy then sell else buy;
      this.buy := if buy < sell then buy else sell;
      this.interval := interval;
      this.window := window;
      dataframes := map[];
    }

    /** `__max_length`: the length of the longest frame. */
    method MaxLength() returns (length: int)
      ensures IsMaxLength(dataframes, length)
    {
      length := 0;
      var seen: set<string> := {};
      var todo := dataframes.Keys;
      while todo != {}
        invariant todo + seen == dataframes.Keys && todo !! seen
        invariant forall s :: s in seen ==> |dataframes[s]| <= length
        invariant if seen == {} then length == 0 else exists s :: s in seen && |dataframes[s]| == length
        decreases todo
      {
        var s :| s in todo;
        if |dataframes[s]| > length {
          length := |dataframes[s]|;
        }
        todo := todo - {s};
        seen := seen + {s};
      }
    }

    /**
     * `watch`, up to the call of `process`: on an empty table each symbol starts a one-row frame;
     * when the longest frame has `window` rows each symbol's oldest label is dropped and its candle
     * appended, which fails with a missing key at the first symbol without a frame, after the
     * earlier ones were rolled; otherwise candles are appended and new symbols start a frame.
     */
    method Watch(prices: seq<(string, Quote)>) returns (r: Result<()>)
      requires Valid() && Keyed(prices)
      modifies this
      ensures Valid()
      ensures old(dataframes) == map[] ==> r.Ok? && dataframes == AppendAll(map[], prices)
      ensures old(dataframes) != map[] && IsMaxLength(old(dataframes), window) ==>
        var k := FirstUnknown(old(dataframes), prices);
        && (r.Err? <==> k < |prices|)
        && dataframes == RollAll(old(dataframes), prices[..k])
      ensures old(dataframes) != map[] && !IsMaxLength(old(dataframes), window) ==>
        r.Ok? && dataframes == AppendAll(old(dataframes), prices)
    {
      if dataframes == map[] {
        AppendLoop(prices);
        return Ok(());
      }
      var longest := MaxLength();
      if longest == window {
        var frames;
        r, frames := RollFrames(dataframes, prices);
        dataframes := frames;
        return;
      }
      AppendLoop(prices);
      return Ok(());
    }

    /** The appending branches of `watch`. */
    method AppendLoop(prices: seq<(string, Quote)>)
      requires Valid()
      modifies this
      ensures Valid()
      ensures dataframes == AppendAll(old(dataframes), prices)
    {
      var i := 0;
      while i < |prices|
        invariant 0 <= i <= |prices| && Valid()
        invariant dataframes == AppendAll(old(dataframes), prices[..i])
      {
        var symbol := prices[i].0;
        assert prices[..i + 1][..i] == prices[..i];
        if symbol !in dataframes {
          dataframes := dataframes[symbol := [BarOf(prices[i].1)]];
        } else {
          dataframes := dataframes[symbol := dataframes[symbol] + [BarOf(prices[i].1)]];
        }
        i := i + 1;
      }
      assert prices[..|prices|] == prices;
    }

    /**
     * `process`: for every stored frame, the decision on its last RSI; `rsi` stands for the
     * indicator library, giving no reading when the RSI column cannot be computed.
     */
    method Process(rsi: Frame -> Option<Float>) returns (signals: map<string, Call>)
      ensures forall s :: s in signals <==> s in dataframes && Decide(rsi(dataframes[s]), buy, sell).Some?
      ensures forall s :: s in signals ==> Some(signals[s]) == Decide(rsi(dataframes[s]), buy, sell)
    {
      signals := map[];
      var todo := dataframes.Keys;
      while todo != {}
        invariant todo <= dataframes.Keys
        invariant forall s :: s in signals <==> s in dataframes && s !in todo && Decide(rsi(dataframes[s]), buy, sell).Some?
        invariant forall s :: s in signals ==> Some(signals[s]) == Decide(rsi(dataframes[s]), buy, sell)
        decreases todo
      {
        var symbol :| symbol in todo;
        var decision := Decide(rsi(dataframes[symbol]), buy, sell);
        if decision.Some? {
          signals := signals[symbol := decision.value];
        }
        todo := todo - {symbol};
      }
    }
  }

  /** From a bounded table, `watch` keeps every frame within the window. */
  lemma WatchBounded(frames: map<string, Frame>, prices: seq<(string, Quote)>, window: int)
    requires Keyed(prices) && window >= 1 && Bounded(frames, window)
    ensures frames == map[] ==> Bounded(AppendAll(frames, prices), window)
    ensures frames != map[] && IsMaxLength(frames, window) ==>
      Bounded(RollAll(frames, prices[..FirstUnknown(frames, prices)]), window)
    ensures frames != map[] && !IsMaxLength(frames, window) ==> Bounded(AppendAll(frames, prices), window)
  {
    if frames != map[] && IsMaxLength(frames, window) {
      var k := FirstUnknown(frames, prices);
      RollAllBounded(frames, prices[..k], window);
    } else {
      forall s | s in frames ensures |frames[s]| < window {
        if |frames[s]| == window {
          assert IsMaxLength(frames, window);
        }
      }
      AppendAllBounded(frames, prices, window);
    }
  }

  /** On an empty table every symbol of the batch gets a frame holding its candle alone. */
  lemma WatchEmpty(prices: seq<(string, Quote)>, i: int)
    requires Keyed(prices) && 0 <= i < |prices|
    ensures AppendAll(map[], prices)[prices[i].0] == [BarOf(prices[i].1)]
  {
    AppendAllEffect(map[], prices, i);
  }
}
