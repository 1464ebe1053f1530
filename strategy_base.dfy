/**
 * The shared part of every signal strategy: the per-symbol rolling candle frame, the
 * `min_candles` gate and the indicator-then-analysis step.
 */
module StrategyBase {
  import opened Wrappers
  import opened Models
  import opened Floats

  /** One frame row: the candle's timestamp (the frame index) and the five columns of `PriceData.to_dict`. */
  datatype Row = Row(timestamp: int, open: real, high: real, low: real, close: real, volume: real)

  /** A strategy's candle history for one symbol, oldest first. */
  type Frame = seq<Row>

  /** The single-row frame built from a new candle. */
  function RowOf(p: PriceData): (r: Row)
  {
    Row(p.timestamp, p.open, p.high, p.low, p.close, p.volume)
  }

  /** A row holds exactly the columns of the candle's `to_dict`, indexed by its timestamp. */
  lemma RowIsDict(p: PriceData)
    ensures var r := RowOf(p); var d := ToDict(p);
      && r.timestamp == p.timestamp
      && r.open == d["open"] && r.high == d["high"] && r.low == d["low"]
      && r.close == d["close"] && r.volume == d["volume"]
  {
  }

  /** Python's `s[start:]` for any integer `start`. */
  function SliceFrom<T>(s: seq<T>, start: int): (r: seq<T>)
    ensures |r| <= |s| && r == s[|s| - |r|..]
    ensures start < 0 ==> |r| == if -start >= |s| then |s| else -start
    ensures start >= 0 ==> |r| == if start >= |s| then 0 else |s| - start
  {
    if start < 0 then (if -start >= |s| then s else s[|s| + start..])
    else if start >= |s| then [] else s[start..]
  }

  /** `high.max()` of a non-empty frame. */
  function MaxHigh(rows: seq<Row>): (m: real)
    requires |rows| > 0
    ensures forall k :: 0 <= k < |rows| ==> rows[k].high <= m
    ensures exists k :: 0 <= k < |rows| && rows[k].high == m
  {
    if |rows| == 1 then rows[0].high
    else
      var m' := MaxHigh(rows[..|rows| - 1]);
      assert forall k :: 0 <= k < |rows| - 1 ==> rows[..|rows| - 1][k] == rows[k];
      MaxReal(m', rows[|rows| - 1].high)
  }

  /** `low.min()` of a non-empty frame. */
  function MinLow(rows: seq<Row>): (m: real)
    requires |rows| > 0
    ensures forall k :: 0 <= k < |rows| ==> m <= rows[k].low
    ensures exists k :: 0 <= k < |rows| && rows[k].low == m
  {
    if |rows| == 1 then rows[0].low
    else
      var m' := MinLow(rows[..|rows| - 1]);
      assert forall k :: 0 <= k < |rows| - 1 ==> rows[..|rows| - 1][k] == rows[k];
      MinReal(m', rows[|rows| - 1].low)
  }

  /** `idxmax()`: the first index holding the largest value. */
  function FirstMaxIndex(s: seq<real>): (i: nat)
    requires |s| > 0
    ensures i < |s|
    ensures forall j :: 0 <= j < |s| ==> s[j] <= s[i]
    ensures forall j :: 0 <= j < i ==> s[j] < s[i]
  {
    if |s| == 1 then 0
    else
      var k := FirstMaxIndex(s[..|s| - 1]);
      if s[|s| - 1] > s[k] then |s| - 1 else k
  }

  predicate HasDuplicates(f: Frame)
  {
    exists i, j :: 0 <= i < j < |f| && f[i].timestamp == f[j].timestamp
  }

  /** The timestamps a frame carries. */
  function Timestamps(f: Frame): (ts: set<int>)
    ensures forall k :: 0 <= k < |f| ==> f[k].timestamp in ts
    ensures forall t :: t in ts ==> exists k :: 0 <= k < |f| && f[k].timestamp == t
  {
    if |f| == 0 then {}
    else
      var rest := Timestamps(f[1..]);
      assert forall k :: 1 <= k < |f| ==> f[k] == f[1..][k - 1];
      {f[0].timestamp} + rest
  }

  /** No row is followed by a later row with the same timestamp. */
  predicate IsLastOccurrence(f: Frame, i: int)
    requires 0 <= i < |f|
  {
    forall j :: i < j < |f| ==> f[j].timestamp != f[i].timestamp
  }

  /** Putting a row with a new timestamp in front of a frame without duplicates keeps it so. */
  lemma ConsNoDuplicates(x: Row, rest: Frame)
    requires !HasDuplicates(rest) && x.timestamp !in Timestamps(rest)
    ensures !HasDuplicates([x] + rest)
  {
    forall i, j | 0 <= i < j < |[x] + rest|
      ensures ([x] + rest)[i].timestamp != ([x] + rest)[j].timestamp
    {
      assert ([x] + rest)[j] == rest[j - 1];
      if i > 0 {
        assert ([x] + rest)[i] == rest[i - 1];
      }
    }
  }

  /** `df[~df.index.duplicated(keep='last')]`: keep each timestamp's last row, in order. */
  function KeepLast(f: Frame): (r: Frame)
    ensures |r| <= |f|
    ensures Timestamps(r) == Timestamps(f)
    ensures !HasDuplicates(r)
  {
    if |f| == 0 then []
    else
      var rest := KeepLast(f[1..]);
      if f[0].timestamp in Timestamps(f[1..]) then rest
      else
        ConsNoDuplicates(f[0], rest);
        [f[0]] + rest
  }

  /** A last occurrence in the tail is a last occurrence in the frame. */
  lemma LastOccurrenceShift(f: Frame, i: int)
    requires 0 <= i < |f| - 1 && IsLastOccurrence(f[1..], i)
    ensures IsLastOccurrence(f, i + 1)
  {
    forall j | i + 1 < j < |f| ensures f[j].timestamp != f[i + 1].timestamp {
      assert f[j] == f[1..][j - 1] && f[i + 1] == f[1..][i];
    }
  }

  /** A head whose timestamp does not recur is a last occurrence. */
  lemma HeadLastOccurrence(f: Frame)
    requires |f| > 0 && f[0].timestamp !in Timestamps(f[1..])
    ensures IsLastOccurrence(f, 0)
  {
    forall j | 0 < j < |f| ensures f[j].timestamp != f[0].timestamp {
      assert f[j] == f[1..][j - 1];
    }
  }

  /** The row KeepLast keeps for a timestamp is the last row carrying it. */
  lemma {:induction false} KeepLastKeepsLast(f: Frame, x: Row)
    requires x in KeepLast(f)
    ensures exists i :: 0 <= i < |f| && f[i] == x && IsLastOccurrence(f, i)
  {
    if |f| > 0 {
      var rest := KeepLast(f[1..]);
      if x in rest {
        KeepLastKeepsLast(f[1..], x);
        var i :| 0 <= i < |f[1..]| && f[1..][i] == x && IsLastOccurrence(f[1..], i);
        LastOccurrenceShift(f, i);
        assert f[i + 1] == x;
      } else {
        assert x == f[0] && f[0].timestamp !in Timestamps(f[1..]);
        HeadLastOccurrence(f);
      }
    }
  }

  predicate SortedByTime(f: Frame)
  {
    forall i, j :: 0 <= i < j < |f| ==> f[i].timestamp < f[j].timestamp
  }

  /** No row of the frame carries the timestamp `t`. */
  predicate TimeAbsent(f: Frame, t: int)
  {
    forall k :: 0 <= k < |f| ==> f[k].timestamp != t
  }

  /** A row older than the first row of a sorted frame can go in front of it. */
  lemma ConsSorted(x: Row, t: Frame)
    requires SortedByTime(t) && (|t| > 0 ==> x.timestamp < t[0].timestamp)
    ensures SortedByTime([x] + t)
  {
    forall i, j | 0 <= i < j < |[x] + t|
      ensures ([x] + t)[i].timestamp < ([x] + t)[j].timestamp
    {
      if i == 0 {
        assert ([x] + t)[j] == t[j - 1];
        if j > 1 {
          assert t[0].timestamp < t[j - 1].timestamp;
        }
      } else {
        assert ([x] + t)[i] == t[i - 1] && ([x] + t)[j] == t[j - 1];
      }
    }
  }

  /** The tail of a sorted frame without the timestamp `t` has the same two properties. */
  lemma TailSorted(f: Frame, t: int)
    requires |f| > 0 && SortedByTime(f) && TimeAbsent(f, t)
    ensures SortedByTime(f[1..]) && TimeAbsent(f[1..], t)
  {
    assert forall k :: 0 <= k < |f[1..]| ==> f[1..][k] == f[k + 1];
  }

  /** Putting the head back in front of the insertion into the tail finishes the insertion. */
  lemma InsertStep(x: Row, f: Frame, t: Frame)
    requires |f| > 0 && SortedByTime(f) && f[0].timestamp < x.timestamp
    requires SortedByTime(t) && multiset(t) == multiset(f[1..]) + multiset{x}
    requires t[0] == x || (|f| > 1 && t[0] == f[1])
    ensures SortedByTime([f[0]] + t)
    ensures multiset([f[0]] + t) == multiset(f) + multiset{x}
  {
    assert f == [f[0]] + f[1..];
    assert |f| > 1 ==> f[0].timestamp < f[1].timestamp;
    ConsSorted(f[0], t);
  }

  /** Insert a row into a frame sorted by time whose timestamps differ from the row's. */
  function InsertByTime(x: Row, f: Frame): (r: Frame)
    requires SortedByTime(f) && TimeAbsent(f, x.timestamp)
    ensures SortedByTime(r)
    ensures multiset(r) == multiset(f) + multiset{x}
    ensures r[0] == x || (|f| > 0 && r[0] == f[0])
  {
    if |f| == 0 then [x]
    else if x.timestamp < f[0].timestamp then
      ConsSorted(x, f);
      [x] + f
    else
      TailSorted(f, x.timestamp);
      var t := InsertByTime(x, f[1..]);
      InsertStep(x, f, t);
      [f[0]] + t
  }

  /** The first row's timestamp does not recur in a frame without duplicates. */
  lemma HeadAbsentFromTail(f: Frame)
    requires |f| > 0 && !HasDuplicates(f)
    ensures !HasDuplicates(f[1..])
    ensures TimeAbsent(f[1..], f[0].timestamp)
  {
    forall i, j | 0 <= i < j < |f[1..]| ensures f[1..][i].timestamp != f[1..][j].timestamp {
      assert f[1..][i] == f[i + 1] && f[1..][j] == f[j + 1];
    }
    forall k | 0 <= k < |f[1..]| ensures f[1..][k].timestamp != f[0].timestamp {
      assert f[1..][k] == f[k + 1];
    }
  }

  /** A timestamp absent from a frame is absent from every permutation of it. */
  lemma TimeAbsentPermutation(f: Frame, g: Frame, t: int)
    requires multiset(f) == multiset(g) && TimeAbsent(f, t)
    ensures TimeAbsent(g, t)
  {
    forall k | 0 <= k < |g| ensures g[k].timestamp != t {
      assert g[k] in multiset(f);
      var m :| 0 <= m < |f| && f[m] == g[k];
    }
  }

  /** `sort_index()` on a frame whose timestamps are distinct. */
  function SortByTime(f: Frame): (r: Frame)
    requires !HasDuplicates(f)
    ensures SortedByTime(r)
    ensures multiset(r) == multiset(f)
  {
    if |f| == 0 then []
    else
      HeadAbsentFromTail(f);
      var sorted := SortByTime(f[1..]);
      SortStep(f, sorted);
      InsertByTime(f[0], sorted)
  }

  /** Sorting the tail leaves room to insert the head, and the rows add up to the frame's. */
  lemma SortStep(f: Frame, sorted: Frame)
    requires |f| > 0 && !HasDuplicates(f) && multiset(sorted) == multiset(f[1..])
    ensures TimeAbsent(sorted, f[0].timestamp)
    ensures multiset(f) == multiset(sorted) + multiset{f[0]}
  {
    HeadAbsentFromTail(f);
    TimeAbsentPermutation(f[1..], sorted, f[0].timestamp);
    assert f == [f[0]] + f[1..];
  }

  /** The frame after the new candle's row is appended, dropping the oldest rows when full. */
  function Appended(df: Frame, row: Row, window: int): (r: Frame)
  {
    if |df| >= window then SliceFrom(df, -(window - 1)) + [row] else df + [row]
  }

  /** The frame `generate_signals` stores for a symbol that already has one. */
  function UpdateFrame(df: Frame, row: Row, window: int): (r: Frame)
  {
    var a := Appended(df, row, window);
    if HasDuplicates(a) then SortByTime(KeepLast(a)) else a
  }

  /** Below the window the candle is appended and the frame grows by one. */
  lemma UpdateBelowWindow(df: Frame, row: Row, window: int)
    requires |df| < window && !HasDuplicates(df + [row])
    ensures UpdateFrame(df, row, window) == df + [row]
    ensures |UpdateFrame(df, row, window)| == |df| + 1
  {
  }

  /** At the window the oldest rows go: the last `window - 1` rows plus the candle, exactly `window` rows. */
  lemma UpdateAtWindow(df: Frame, row: Row, window: int)
    requires 2 <= window <= |df|
    requires !HasDuplicates(df[|df| - (window - 1)..] + [row])
    ensures UpdateFrame(df, row, window) == df[|df| - (window - 1)..] + [row]
    ensures |UpdateFrame(df, row, window)| == window
  {
  }

  /**
   * `df.iloc[-0:]` is the whole frame: with a window of 1 a full frame keeps every row and
   * still grows, unless the new timestamp is already present.
   */
  lemma UpdateWindowOne(df: Frame, row: Row)
    requires |df| >= 1 && !HasDuplicates(df + [row])
    ensures UpdateFrame(df, row, 1) == df + [row]
  {
  }

  /** On a repeated timestamp the later row wins and the frame is sorted by time. */
  lemma UpdateDeduplicates(df: Frame, row: Row, window: int)
    requires HasDuplicates(Appended(df, row, window))
    ensures SortedByTime(UpdateFrame(df, row, window))
    ensures multiset(UpdateFrame(df, row, window)) == multiset(KeepLast(Appended(df, row, window)))
    ensures |UpdateFrame(df, row, window)| < |Appended(df, row, window)|
    ensures row in UpdateFrame(df, row, window)
  {
    var a := Appended(df, row, window);
    var k := KeepLast(a);
    var r := SortByTime(k);
    assert |r| == |k| by {
      assert |multiset(r)| == |multiset(k)|;
    }
    KeepLastShrinks(a);
    assert row == a[|a| - 1];
    KeepLastHasFinal(a);
    assert row in multiset(r);
  }

  /** Every row kept after de-duplication is the last row of its timestamp in the appended frame. */
  lemma DeduplicatedRowsAreLast(df: Frame, row: Row, window: int, x: Row)
    requires HasDuplicates(Appended(df, row, window))
    requires x in UpdateFrame(df, row, window)
    ensures exists i :: 0 <= i < |Appended(df, row, window)| && Appended(df, row, window)[i] == x
                        && IsLastOccurrence(Appended(df, row, window), i)
  {
    var a := Appended(df, row, window);
    assert x in multiset(SortByTime(KeepLast(a)));
    assert x in KeepLast(a);
    KeepLastKeepsLast(a, x);
  }

  /** A frame with a repeated timestamp loses at least one row in KeepLast. */
  lemma {:induction false} KeepLastShrinks(f: Frame)
    requires HasDuplicates(f)
    ensures |KeepLast(f)| < |f|
  {
    var i, j :| 0 <= i < j < |f| && f[i].timestamp == f[j].timestamp;
    if i == 0 {
      assert f[j] in f[1..];
      assert f[0].timestamp in Timestamps(f[1..]);
    } else {
      assert f[1..][i - 1] == f[i] && f[1..][j - 1] == f[j];
      KeepLastShrinks(f[1..]);
    }
  }

  /** The final row is always kept. */
  lemma {:induction false} KeepLastHasFinal(f: Frame)
    requires |f| > 0
    ensures f[|f| - 1] in KeepLast(f)
  {
    if |f| > 1 {
      KeepLastHasFinal(f[1..]);
      assert f[1..][|f| - 2] == f[|f| - 1];
    } else {
      assert Timestamps(f[1..]) == {};
    }
  }

  /** With a window of at least two, a frame within the window stays within it. */
  lemma UpdateBounded(df: Frame, row: Row, window: int)
    requires window >= 2 && |df| <= window
    ensures 1 <= |UpdateFrame(df, row, window)| <= window
  {
    var a := Appended(df, row, window);
    if HasDuplicates(a) {
      UpdateDeduplicates(df, row, window);
      assert row in UpdateFrame(df, row, window);
    }
  }

  /** The frame stored after one candle, whether or not the symbol was seen before. */
  function NextFrame(frames: map<string, Frame>, symbol: string, p: PriceData, window: int): (r: Frame)
  {
    if symbol !in frames then [RowOf(p)] else UpdateFrame(frames[symbol], RowOf(p), window)
  }

  /** A first candle for a symbol gives a one-row frame holding just that candle. */
  lemma NextFrameNewSymbol(frames: map<string, Frame>, symbol: string, p: PriceData, window: int)
    requires symbol !in frames
    ensures NextFrame(frames, symbol, p, window) == [RowOf(p)]
    ensures |NextFrame(frames, symbol, p, window)| == 1
  {
  }

  /** A symbol's signal: the strategy's decision when the frame is long enough, otherwise none. */
  function Gate(frame: Frame, minCandles: int, process: Frame -> Option<Signal>): (r: Option<Signal>)
    ensures |frame| < minCandles ==> r == None
    ensures |frame| >= minCandles ==> r == process(frame)
  {
    if |frame| >= minCandles then process(frame) else None
  }

  /** Every frame holds between one and `window` rows. */
  predicate FramesBounded(frames: map<string, Frame>, window: int)
  {
    forall s :: s in frames ==> 1 <= |frames[s]| <= window
  }

  /** With a window of at least two, each frame `generate_signals` stores stays within the window. */
  lemma NextFrameBounded(frames: map<string, Frame>, symbol: string, p: PriceData, window: int)
    requires window >= 2 && FramesBounded(frames, window)
    ensures FramesBounded(frames[symbol := NextFrame(frames, symbol, p, window)], window)
  {
    if symbol in frames {
      UpdateBounded(frames[symbol], RowOf(p), window);
    }
  }

  /** `SignalStrategy`: a strategy's interval, window, warm-up length and per-symbol frames. */
  class SignalStrategy {
    const interval: int
    const window: int
    const minCandles: int
    var dataframes: map<string, Frame>

    constructor(interval: int, window: int, minCandles: int)
      ensures this.interval == interval && this.window == window && this.minCandles == minCandles
      ensures dataframes == map[]
    {
      this.interval := interval;
      this.window := window;
      this.minCandles := minCandles;
      dataframes := map[];
    }

    /**
     * `generate_signals`: fold each symbol's candle into its frame, then ask the strategy's
     * `process` (the indicator and the decision, exceptions folded into `None`) for a signal
     * if the frame is long enough.
     */
    method GenerateSignals(prices: map<string, PriceData>, process: Frame -> Option<Signal>)
      returns (signals: map<string, Option<Signal>>)
      modifies this
      ensures dataframes.Keys == old(dataframes).Keys + prices.Keys
      ensures forall s :: s in prices ==> dataframes[s] == NextFrame(old(dataframes), s, prices[s], window)
      ensures forall s :: s in old(dataframes) && s !in prices ==> dataframes[s] == old(dataframes)[s]
      ensures signals.Keys == prices.Keys
      ensures forall s :: s in signals ==> signals[s] == Gate(dataframes[s], minCandles, process)
    {
      var frames := dataframes;
      signals := map[];
      var todo := prices.Keys;
      while todo != {}
        invariant todo <= prices.Keys
        invariant frames.Keys == old(dataframes).Keys + (prices.Keys - todo)
        invariant forall s :: s in prices && s !in todo ==> frames[s] == NextFrame(old(dataframes), s, prices[s], window)
        invariant forall s :: s in old(dataframes) && (s !in prices || s in todo) ==> frames[s] == old(dataframes)[s]
        invariant signals.Keys == prices.Keys - todo
        invariant forall s :: s in signals ==> signals[s] == Gate(frames[s], minCandles, process)
        decreases todo
      {
        var symbol :| symbol in todo;
        var frame := NextFrame(frames, symbol, prices[symbol], window);
        assert frame == NextFrame(old(dataframes), symbol, prices[symbol], window);
        frames := frames[symbol := frame];
        signals := signals[symbol := Gate(frame, minCandles, process)];
        todo := todo - {symbol};
      }
      dataframes := frames;
    }

    /** `cleanup`: drop every frame. */
    method Cleanup()
      modifies this
      ensures dataframes == map[]
    {
      dataframes := map[];
    }
  }

  /**
   * `process` as written: it calls `analyze_market(indicator)` with one argument, while every
   * strategy that inherits it declares `analyze_market(df, indicator)`. The call raises a
   * `TypeError`, which is caught, so the result is `None` whatever the indicator says.
   */
  function ProcessAsWritten<I>(indicator: Option<I>): (r: Option<Signal>)
  {
    None
  }

  /** `process` as intended: no indicator, no signal; otherwise the analysis of frame and indicator. */
  function Process<I>(df: Frame, indicator: Option<I>, analyze: (Frame, I) -> Option<Signal>): (r: Option<Signal>)
    ensures indicator.None? ==> r == None
    ensures indicator.Some? ==> r == analyze(df, indicator.value)
  {
    match indicator
    case None => None
    case Some(v) => analyze(df, v)
  }

  /** Where the analysis would signal, the process as written still returns nothing. */
  lemma ProcessAsWrittenLosesSignals<I>(df: Frame, v: I, analyze: (Frame, I) -> Option<Signal>)
    requires analyze(df, v).Some?
    ensures ProcessAsWritten(Some(v)) == None
    ensures Process(df, Some(v), analyze) != ProcessAsWritten(Some(v))
  {
  }
}
