/**
 * The price handler of the current bot: the tracked symbols, a bounded candle history per
 * symbol, the active strategies and their frames, the signals of the current candle, and the
 * round that emits the signals once every tracked symbol has reported its confirmed candle.
 */
module PriceHandler {
  import opened Wrappers
  import opened Models
  import Intervals
  import StrategyBase
  import Factory
  import Text

  /** The length of every price history and strategy frame the handler keeps. */
  const FixedWindowSize: nat := 150

  /** The handler's view of a strategy instance: its interval, window, warm-up length and frames. */
  datatype Instance = Instance(
    interval: int, window: int, minCandles: int, frames: map<string, StrategyBase.Frame>)

  /** The numeric fields of a kline, once `float` has converted every one of them. */
  datatype CandleValues = CandleValues(
    open: real, high: real, low: real, close: real, volume: real, turnover: real)

  /**
   * One kline of an update: its `confirm` flag (false when the key is absent), its `start` time
   * when the key is present, and its values when all of them convert.
   */
  datatype Candle = Candle(confirm: bool, start: Option<int>, values: Option<CandleValues>)

  /** The `data` of an update: anything that is not a list, or a list of klines. */
  datatype Payload = NotAList | Candles(items: seq<Candle>)

  /** The signals of the current candle, per symbol and strategy. */
  type SignalTable = map<string, map<StrategyType, SignalData>>

  /** `s[-n:]` for a non-negative `n`, which is also what a deque of maximum length `n` keeps. */
  function TakeLast<T>(s: seq<T>, n: nat): (r: seq<T>)
    ensures |r| == if |s| <= n then |s| else n
    ensures r == s[|s| - |r|..]
  {
    if |s| <= n then s else s[|s| - n..]
  }

  /** The candle an update carries. */
  function PriceOf(symbol: string, start: int, v: CandleValues): (p: PriceData)
  {
    PriceData(symbol, start, v.open, v.high, v.low, v.close, v.volume, v.turnover)
  }

  /** The frame rows of a price history, one per candle, in order. */
  function Rows(history: seq<PriceData>): (r: StrategyBase.Frame)
    ensures |r| == |history|
  {
    if |history| == 0 then [] else Rows(history[..|history| - 1]) + [StrategyBase.RowOf(history[|history| - 1])]
  }

  /** The handler's frame update for one instance: the row appended and the last 150 rows kept. */
  function Appended(inst: Instance, symbol: string, row: StrategyBase.Row): (r: Instance)
  {
    if symbol in inst.frames then
      inst.(frames := inst.frames[symbol := TakeLast(inst.frames[symbol] + [row], FixedWindowSize)])
    else inst
  }

  /** Every instance's frame update. */
  function AppendedAll(instances: map<StrategyType, Instance>, symbol: string, row: StrategyBase.Row)
    : (r: map<StrategyType, Instance>)
  {
    PartlyAppended(instances, symbol, row, instances.Keys)
  }

  /** The instances among `done` updated, the others as they were. */
  function PartlyAppended(instances: map<StrategyType, Instance>, symbol: string, row: StrategyBase.Row,
                          done: set<StrategyType>): (r: map<StrategyType, Instance>)
  {
    map k | k in instances :: if k in done then Appended(instances[k], symbol, row) else instances[k]
  }

  lemma PartlyAppendedStep(instances: map<StrategyType, Instance>, symbol: string, row: StrategyBase.Row,
                           done: set<StrategyType>, k: StrategyType)
    requires k in instances
    ensures PartlyAppended(instances, symbol, row, done + {k})
            == PartlyAppended(instances, symbol, row, done)[k := Appended(instances[k], symbol, row)]
  {
  }

  /** The instance after `generate_signals({symbol: p})` folded the candle into its frame. */
  function Checked(inst: Instance, symbol: string, p: PriceData): (r: Instance)
  {
    inst.(frames := inst.frames[symbol := StrategyBase.NextFrame(inst.frames, symbol, p, inst.window)])
  }

  function CheckedAll(instances: map<StrategyType, Instance>, symbol: string, p: PriceData)
    : (r: map<StrategyType, Instance>)
  {
    PartlyChecked(instances, symbol, p, instances.Keys)
  }

  /** The instances among `done` checked, the others as they were. */
  function PartlyChecked(instances: map<StrategyType, Instance>, symbol: string, p: PriceData, done: set<StrategyType>)
    : (r: map<StrategyType, Instance>)
  {
    map k | k in instances :: if k in done then Checked(instances[k], symbol, p) else instances[k]
  }

  lemma PartlyCheckedStep(instances: map<StrategyType, Instance>, symbol: string, p: PriceData, done: set<StrategyType>, k: StrategyType)
    requires k in instances
    ensures PartlyChecked(instances, symbol, p, done + {k}) == PartlyChecked(instances, symbol, p, done)[k := Checked(instances[k], symbol, p)]
  {
  }

  /** What `generate_signals({symbol: p})` answers for the symbol. */
  function Verdict(inst: Instance, symbol: string, p: PriceData, process: StrategyBase.Frame -> Option<Signal>)
    : (r: Option<Signal>)
  {
    StrategyBase.Gate(StrategyBase.NextFrame(inst.frames, symbol, p, inst.window), inst.minCandles, process)
  }

  /** The signal event recorded for a strategy's signal on the latest candle. */
  function EventOf(symbol: string, kind: StrategyType, s: Signal, p: PriceData): (d: SignalData)
  {
    SignalData(symbol, kind, s.kind, s.value, p.timestamp, p.close)
  }

  /** The events of the strategies among `kinds` that signal on the candle. */
  function Fired(instances: map<StrategyType, Instance>, symbol: string, p: PriceData,
                 process: StrategyType -> StrategyBase.Frame -> Option<Signal>, kinds: set<StrategyType>)
    : (r: map<StrategyType, SignalData>)
  {
    map k | k in kinds && k in instances && Verdict(instances[k], symbol, p, process(k)).Some?
      :: EventOf(symbol, k, Verdict(instances[k], symbol, p, process(k)).value, p)
  }

  /** The table once the fired events are stored; a symbol gets an entry only when something fired. */
  function Stored(signals: SignalTable, symbol: string, fired: map<StrategyType, SignalData>): (r: SignalTable)
  {
    if fired == map[] then signals
    else signals[symbol := (if symbol in signals then signals[symbol] else map[]) + fired]
  }

  /** The table without one strategy's signals. */
  function WithoutStrategy(signals: SignalTable, kind: StrategyType): (r: SignalTable)
  {
    PartlyWithout(signals, kind, signals.Keys)
  }

  /** The symbols among `done` without the strategy's signal, the others as they were. */
  function PartlyWithout(signals: SignalTable, kind: StrategyType, done: set<string>): (r: SignalTable)
  {
    map s | s in signals :: if s in done then signals[s] - {kind} else signals[s]
  }

  lemma PartlyWithoutStep(signals: SignalTable, kind: StrategyType, done: set<string>, s: string)
    requires s in signals
    ensures PartlyWithout(signals, kind, done + {s}) == PartlyWithout(signals, kind, done)[s := signals[s] - {kind}]
  {
  }

  /** Frames seeded for new symbols: a symbol that already has a frame keeps it. */
  function Seeded(frames: map<string, StrategyBase.Frame>, seeds: map<string, StrategyBase.Frame>)
    : (r: map<string, StrategyBase.Frame>)
  {
    map s | s in frames.Keys + seeds.Keys :: if s in frames then frames[s] else seeds[s]
  }

  function SeededAll(instances: map<StrategyType, Instance>, seeds: map<string, StrategyBase.Frame>)
    : (r: map<StrategyType, Instance>)
  {
    PartlySeeded(instances, seeds, instances.Keys)
  }

  function PartlySeeded(instances: map<StrategyType, Instance>, seeds: map<string, StrategyBase.Frame>,
                        done: set<StrategyType>): (r: map<StrategyType, Instance>)
  {
    map k | k in instances :: if k in done then instances[k].(frames := Seeded(instances[k].frames, seeds)) else instances[k]
  }

  lemma PartlySeededStep(instances: map<StrategyType, Instance>, seeds: map<string, StrategyBase.Frame>,
                         done: set<StrategyType>, k: StrategyType)
    requires k in instances
    ensures PartlySeeded(instances, seeds, done + {k})
            == PartlySeeded(instances, seeds, done)[k := instances[k].(frames := Seeded(instances[k].frames, seeds))]
  {
  }

  /** Seeding one symbol gives a frame to the instance only when it has none for it. */
  lemma SeededOne(frames: map<string, StrategyBase.Frame>, symbol: string, rows: StrategyBase.Frame)
    ensures Seeded(frames, map[symbol := rows]) == if symbol in frames then frames else frames[symbol := rows]
  {
  }

  /** Seeding one more symbol after others is seeding them all at once. */
  lemma SeededTwice(frames: map<string, StrategyBase.Frame>, seeds: map<string, StrategyBase.Frame>,
                    symbol: string, rows: StrategyBase.Frame)
    requires symbol !in seeds
    ensures Seeded(Seeded(frames, seeds), map[symbol := rows]) == Seeded(frames, seeds[symbol := rows])
  {
  }

  /** The histories fetched for the symbols among `names`, each cut to its last 150 candles. */
  function Histories(klines: map<string, seq<PriceData>>, names: set<string>): (r: map<string, seq<PriceData>>)
    ensures r.Keys == names * klines.Keys
    ensures forall s :: s in r ==> r[s] == TakeLast(klines[s], FixedWindowSize)
  {
    map s | s in names && s in klines :: TakeLast(klines[s], FixedWindowSize)
  }

  /** The frames those histories seed. */
  function Seeds(klines: map<string, seq<PriceData>>, names: set<string>): (r: map<string, StrategyBase.Frame>)
  {
    RowsOf(Histories(klines, names))
  }

  /** The frame rows of every history. */
  function RowsOf(histories: map<string, seq<PriceData>>): (r: map<string, StrategyBase.Frame>)
  {
    map s | s in histories :: Rows(histories[s])
  }

  lemma RowsOfUpdate(histories: map<string, seq<PriceData>>, symbol: string, history: seq<PriceData>)
    ensures RowsOf(histories[symbol := history]) == RowsOf(histories)[symbol := Rows(history)]
  {
    var a := RowsOf(histories[symbol := history]);
    var b := RowsOf(histories)[symbol := Rows(history)];
    assert a.Keys == b.Keys;
    forall s | s in a.Keys ensures a[s] == b[s] { }
  }

  /** Seeding one more symbol into every instance after others is seeding them all at once. */
  lemma SeededAllTwice(instances: map<StrategyType, Instance>, seeds: map<string, StrategyBase.Frame>,
                       symbol: string, rows: StrategyBase.Frame)
    requires symbol !in seeds
    ensures SeededAll(SeededAll(instances, seeds), map[symbol := rows]) == SeededAll(instances, seeds[symbol := rows])
  {
    var a := SeededAll(SeededAll(instances, seeds), map[symbol := rows]);
    var b := SeededAll(instances, seeds[symbol := rows]);
    forall k | k in instances
      ensures a[k] == b[k]
    {
      SeededTwice(instances[k].frames, seeds, symbol, rows);
    }
  }

  /** One more name fetched adds its history and its frame, when the fetch succeeded. */
  lemma FetchedStep(klines: map<string, seq<PriceData>>, names: set<string>, symbol: string)
    requires symbol !in names
    ensures symbol in klines ==>
      && Histories(klines, names + {symbol}) == Histories(klines, names)[symbol := TakeLast(klines[symbol], FixedWindowSize)]
      && Seeds(klines, names + {symbol}) == Seeds(klines, names)[symbol := Rows(TakeLast(klines[symbol], FixedWindowSize))]
    ensures symbol !in klines ==>
      Histories(klines, names + {symbol}) == Histories(klines, names) && Seeds(klines, names + {symbol}) == Seeds(klines, names)
  {
    HistoriesStep(klines, names, symbol);
    SeedsStep(klines, names, symbol);
  }

  lemma HistoriesStep(klines: map<string, seq<PriceData>>, names: set<string>, symbol: string)
    ensures Histories(klines, names + {symbol})
            == if symbol in klines then Histories(klines, names)[symbol := TakeLast(klines[symbol], FixedWindowSize)]
               else Histories(klines, names)
  {
    var a := Histories(klines, names + {symbol});
    var h := Histories(klines, names);
    if symbol in klines {
      var b := h[symbol := TakeLast(klines[symbol], FixedWindowSize)];
      assert a == b by {
        assert a.Keys == b.Keys;
        forall s | s in a.Keys ensures a[s] == b[s] { }
      }
    } else {
      assert a == h by {
        assert a.Keys == h.Keys;
        forall s | s in a.Keys ensures a[s] == h[s] { }
      }
    }
  }

  lemma SeedsStep(klines: map<string, seq<PriceData>>, names: set<string>, symbol: string)
    ensures Seeds(klines, names + {symbol})
            == if symbol in klines then Seeds(klines, names)[symbol := Rows(TakeLast(klines[symbol], FixedWindowSize))]
               else Seeds(klines, names)
  {
    HistoriesStep(klines, names, symbol);
    if symbol in klines {
      RowsOfUpdate(Histories(klines, names), symbol, TakeLast(klines[symbol], FixedWindowSize));
    }
  }

  /** One more listed symbol initialised, in terms of the state built for the ones before it. */
  lemma ListedStep(symbols: set<string>, priceData: map<string, seq<PriceData>>, instances: map<StrategyType, Instance>,
                   klines: map<string, seq<PriceData>>, done: set<string>, symbol: string)
    requires symbol !in done
    ensures symbol in klines ==>
      var history := TakeLast(klines[symbol], FixedWindowSize);
      && symbols + done * klines.Keys + {symbol} == symbols + (done + {symbol}) * klines.Keys
      && (priceData + Histories(klines, done))[symbol := history] == priceData + Histories(klines, done + {symbol})
      && SeededAll(SeededAll(instances, Seeds(klines, done)), map[symbol := Rows(history)])
         == SeededAll(instances, Seeds(klines, done + {symbol}))
    ensures symbol !in klines ==>
      && symbols + done * klines.Keys == symbols + (done + {symbol}) * klines.Keys
      && priceData + Histories(klines, done) == priceData + Histories(klines, done + {symbol})
      && SeededAll(instances, Seeds(klines, done)) == SeededAll(instances, Seeds(klines, done + {symbol}))
  {
    if symbol in klines {
      assert done * klines.Keys + {symbol} == (done + {symbol}) * klines.Keys;
      ListedHistory(priceData, klines, done, symbol);
      ListedSeeds(instances, klines, done, symbol);
    } else {
      assert done * klines.Keys == (done + {symbol}) * klines.Keys;
      FetchedStep(klines, done, symbol);
    }
  }

  /** The price data of one more fetched symbol is its history added to the rest. */
  lemma ListedHistory(priceData: map<string, seq<PriceData>>, klines: map<string, seq<PriceData>>,
                      done: set<string>, symbol: string)
    requires symbol !in done && symbol in klines
    ensures (priceData + Histories(klines, done))[symbol := TakeLast(klines[symbol], FixedWindowSize)]
            == priceData + Histories(klines, done + {symbol})
  {
    HistoriesStep(klines, done, symbol);
    UnionUpdate(priceData, Histories(klines, done), symbol, TakeLast(klines[symbol], FixedWindowSize));
  }

  /** The instances seeded with one more fetched symbol are seeded with all of them at once. */
  lemma ListedSeeds(instances: map<StrategyType, Instance>, klines: map<string, seq<PriceData>>,
                    done: set<string>, symbol: string)
    requires symbol !in done && symbol in klines
    ensures SeededAll(SeededAll(instances, Seeds(klines, done)), map[symbol := Rows(TakeLast(klines[symbol], FixedWindowSize))])
            == SeededAll(instances, Seeds(klines, done + {symbol}))
  {
    SeedsStep(klines, done, symbol);
    assert symbol !in Seeds(klines, done) by {
      assert symbol !in Histories(klines, done);
    }
    SeededAllTwice(instances, Seeds(klines, done), symbol, Rows(TakeLast(klines[symbol], FixedWindowSize)));
  }

  /** Adding one more entry to the right of a union is adding it to the union. */
  lemma UnionUpdate<K, V>(a: map<K, V>, b: map<K, V>, k: K, v: V)
    ensures a + b[k := v] == (a + b)[k := v]
  {
  }

  /** Dropping one more symbol after others is dropping them all at once. */
  lemma DroppedTwice(instances: map<StrategyType, Instance>, gone: set<string>, symbol: string)
    ensures Dropped(Dropped(instances, gone), {symbol}) == Dropped(instances, gone + {symbol})
  {
    var a := Dropped(Dropped(instances, gone), {symbol});
    var b := Dropped(instances, gone + {symbol});
    forall k | k in instances
      ensures a[k] == b[k]
    {
      assert instances[k].frames - gone - {symbol} == instances[k].frames - (gone + {symbol});
    }
  }

  /** Every instance without the symbol's frame. */
  function Dropped(instances: map<StrategyType, Instance>, gone: set<string>): (r: map<StrategyType, Instance>)
  {
    map k | k in instances :: instances[k].(frames := instances[k].frames - gone)
  }

  /** The interval a handler runs on: the given one, validated, or the default when none is given. */
  function HandlerInterval(interval: Option<string>, defaultInterval: string): (r: Result<(string, int)>)
  {
    if interval.None? || interval.value == "" then
      match Intervals.IntervalToMinutes(defaultInterval)
      case Ok(m) => Ok((defaultInterval, m))
      case Err(e) => Err(e)
    else
      match Intervals.ValidateInterval(interval.value)
      case Err(e) => Err(e)
      case Ok(v) =>
        match Intervals.IntervalToMinutes(v)
        case Ok(m) => Ok((v, m))
        case Err(e) => Err(e)
  }

  /** A given interval is used in its validated form, with its length in minutes. */
  lemma HandlerIntervalGiven(interval: string, defaultInterval: string)
    requires interval != ""
    ensures HandlerInterval(Some(interval), defaultInterval).Ok? <==> Intervals.ValidateInterval(interval).Ok?
    ensures HandlerInterval(Some(interval), defaultInterval).Ok? ==>
      var (s, m) := HandlerInterval(Some(interval), defaultInterval).value;
      s == Intervals.ValidateInterval(interval).value && s in Intervals.ValidIntervals && m > 0
  {
    if Intervals.ValidateInterval(interval).Ok? {
      var v := Intervals.ValidateInterval(interval).value;
      Intervals.ValidateIdempotent(interval);
      Intervals.MinutesRange(v);
    }
  }

  /** The TypeError of calling an initialiser that takes no argument besides `self` with `n` arguments. */
  function ArityError(n: nat): string
  {
    "TypeError: SignalHandler.__init__() takes 1 positional argument but " + Text.NatToString(n + 1) + " were given"
  }

  /** `SignalHandler(...)` with `n` positional arguments: its `__init__` takes none. */
  function SignalHandlerInit(n: nat): (r: Result<()>)
    ensures r.Ok? <==> n == 0
    ensures r.Err? ==> r.error == ArityError(n)
  {
    if n == 0 then Ok(()) else Err(ArityError(n))
  }

  /**
   * The start of `__init__` as written: the signal handler is created with the OpenRouter client
   * as its one argument before the interval is validated.
   */
  function ConstructAsWritten(interval: Option<string>, defaultInterval: string): (r: Result<(string, int)>)
  {
    match SignalHandlerInit(1)
    case Err(e) => Err(e)
    case Ok(_) => HandlerInterval(interval, defaultInterval)
  }

  /**
   * As written no handler is ever constructed: every call raises the TypeError before the
   * interval is looked at, even for the interval "60" that the corrected constructor accepts.
   */
  lemma ConstructionFailsAsWritten(interval: Option<string>, defaultInterval: string)
    ensures ConstructAsWritten(interval, defaultInterval) == Err(ArityError(1))
    ensures interval == Some("60") ==> HandlerInterval(interval, defaultInterval).Ok?
  {
    if interval == Some("60") {
      Intervals.SixtyMinutes();
      Intervals.ValidateIdempotent("60");
    }
  }

  /**
   * `add_strategy` as written, on the configuration and instance tables: an active kind changes
   * nothing; otherwise the configuration is recorded first, and the factory as written then either
   * adds an instance or raises, leaving the configuration behind.
   */
  function AddAsWritten(strategies: map<StrategyType, SignalConfig>, instances: map<StrategyType, Instance>,
                        kind: StrategyType, minutes: int, table: map<StrategyType, Factory.StrategyClass>)
    : (r: (Result<()>, map<StrategyType, SignalConfig>, map<StrategyType, Instance>))
    ensures kind in strategies ==> r == (Ok(()), strategies, instances)
    ensures kind !in strategies ==> r.1 == strategies[kind := SignalConfig(minutes, kind, FixedWindowSize, Some(30), Some(70), [])]
    ensures kind !in strategies ==> (r.0.Ok? <==> Factory.CreateAsWritten(table, kind).Ok?)
    ensures r.0.Err? ==> r.2 == instances
  {
    if kind in strategies then (Ok(()), strategies, instances)
    else
      var configured := strategies[kind := SignalConfig(minutes, kind, FixedWindowSize, Some(30), Some(70), [])];
      match Factory.CreateAsWritten(table, kind)
      case Err(e) => (Err(e), configured, instances)
      case Ok(cls) => (Ok(()), configured, instances[kind := Instance(minutes, FixedWindowSize, cls.minCandles, map[])])
  }

  /**
   * As written, adding the MACD strategy records its configuration and then raises, so the
   * handler lists MACD as active while it holds no instance of it.
   */
  lemma MacdAddLeavesConfigAsWritten(strategies: map<StrategyType, SignalConfig>,
                                     instances: map<StrategyType, Instance>, minutes: int)
    requires Macd !in strategies
    ensures var (res, configured, built) := AddAsWritten(strategies, instances, Macd, minutes, Factory.BuiltIns);
      res.Err? && Macd in configured && built == instances
  {
    Factory.MacdAbstractAsWritten();
  }

  /**
   * A frame that already ends with the candle's row goes through `generate_signals` one row short
   * of the window: the handler's own append plus the strategy's append of the same timestamp are
   * merged into one row, and a full frame loses its oldest row on top.
   */
  lemma CheckedBelowWindow(inst: Instance, symbol: string, p: PriceData)
    requires inst.window == FixedWindowSize
    ensures |Checked(Appended(inst, symbol, StrategyBase.RowOf(p)), symbol, p).frames[symbol]| < FixedWindowSize
  {
    var row := StrategyBase.RowOf(p);
    var a := Appended(inst, symbol, row);
    if symbol in inst.frames {
      var df := a.frames[symbol];
      assert |df| > 0 && df[|df| - 1] == row;
      var b := StrategyBase.Appended(df, row, FixedWindowSize);
      if |df| >= FixedWindowSize {
        assert b == df[|df| - (FixedWindowSize - 1)..] + [row];
        assert b[|b| - 2] == df[|df| - 1];
      } else {
        assert b == df + [row];
        assert b[|b| - 2] == df[|df| - 1];
      }
      assert StrategyBase.HasDuplicates(b) by {
        assert b[|b| - 2].timestamp == b[|b| - 1].timestamp;
      }
      StrategyBase.UpdateDeduplicates(df, row, FixedWindowSize);
    }
  }

  /**
   * Through the handler no strategy whose warm-up is the full window ever signals: its frame
   * never reaches 150 rows when it is judged. Ichimoku, which needs 150 candles, is such a
   * strategy, so it is silent however the market moves.
   */
  lemma FullWarmUpNeverFires(instances: map<StrategyType, Instance>, symbol: string, p: PriceData,
                             process: StrategyType -> StrategyBase.Frame -> Option<Signal>, k: StrategyType)
    requires k in instances && instances[k].window == FixedWindowSize && instances[k].minCandles >= FixedWindowSize
    ensures k !in Fired(AppendedAll(instances, symbol, StrategyBase.RowOf(p)), symbol, p, process, {k})
  {
    CheckedBelowWindow(instances[k], symbol, p);
  }

  /** Every history holds at most 150 candles. */
  predicate Bounded(priceData: map<string, seq<PriceData>>)
  {
    forall s :: s in priceData ==> |priceData[s]| <= FixedWindowSize
  }

  /** Every instance runs on the fixed window. */
  predicate Windowed(instances: map<StrategyType, Instance>)
  {
    forall k :: k in instances ==> instances[k].window == FixedWindowSize
  }

  /** Storing a history of at most 150 candles keeps the histories bounded. */
  lemma BoundedAppend(priceData: map<string, seq<PriceData>>, symbol: string, history: seq<PriceData>)
    requires Bounded(priceData) && |history| <= FixedWindowSize
    ensures Bounded(priceData[symbol := history])
  {
  }

  /** Forgetting histories keeps the rest bounded. */
  lemma BoundedDrop(priceData: map<string, seq<PriceData>>, gone: set<string>)
    requires Bounded(priceData)
    ensures Bounded(priceData - gone)
  {
  }

  /** Appending a row to the frames keeps every instance and its window. */
  lemma AppendedKept(instances: map<StrategyType, Instance>, symbol: string, row: StrategyBase.Row)
    requires Windowed(instances)
    ensures var r := AppendedAll(instances, symbol, row); r.Keys == instances.Keys && Windowed(r)
  {
  }

  /** Checking a candle keeps every instance and its window. */
  lemma CheckedKept(instances: map<StrategyType, Instance>, symbol: string, p: PriceData)
    requires Windowed(instances)
    ensures var r := CheckedAll(instances, symbol, p); r.Keys == instances.Keys && Windowed(r)
  {
  }

  /** Seeding frames keeps every instance and its window. */
  lemma SeededKept(instances: map<StrategyType, Instance>, seeds: map<string, StrategyBase.Frame>)
    requires Windowed(instances)
    ensures var r := SeededAll(instances, seeds); r.Keys == instances.Keys && Windowed(r)
  {
  }

  /** Dropping symbols keeps every instance and its window. */
  lemma DroppedKept(instances: map<StrategyType, Instance>, gone: set<string>)
    requires Windowed(instances)
    ensures var r := Dropped(instances, gone); r.Keys == instances.Keys && Windowed(r)
  {
  }

  /** The loop of the delisting pass on the values it shrinks: every delisted symbol removed from each. */
  method Forget(symbols: set<string>, priceData: map<string, seq<PriceData>>, signals: SignalTable,
                instances: map<StrategyType, Instance>, delisted: set<string>)
    returns (syms: set<string>, histories: map<string, seq<PriceData>>, table: SignalTable,
             insts: map<StrategyType, Instance>)
    ensures syms == symbols - delisted && histories == priceData - delisted
    ensures table == signals - delisted && insts == Dropped(instances, delisted)
  {
    syms, histories, table, insts := symbols, priceData, signals, instances;
    var gone := delisted;
    ghost var dropped: set<string> := {};
    assert Dropped(insts, {}) == insts by {
      forall k | k in insts
        ensures Dropped(insts, {})[k] == insts[k]
      {
        assert insts[k].frames - {} == insts[k].frames;
      }
    }
    while gone != {}
      invariant gone + dropped == delisted && gone !! dropped
      invariant syms == symbols - dropped
      invariant histories == priceData - dropped
      invariant table == signals - dropped
      invariant insts == Dropped(instances, dropped)
      decreases gone
    {
      var s :| s in gone;
      DroppedTwice(instances, dropped, s);
      syms := syms - {s};
      histories := histories - {s};
      table := table - {s};
      insts := Dropped(insts, {s});
      gone := gone - {s};
      dropped := dropped + {s};
    }
  }

  /** The strategy-frame loop of `handle_price_update`, on the instances it updates. */
  method AppendFrames(instances: map<StrategyType, Instance>, symbol: string, row: StrategyBase.Row)
    returns (r: map<StrategyType, Instance>)
    ensures r == AppendedAll(instances, symbol, row)
  {
    r := instances;
    var todo := r.Keys;
    ghost var done: set<StrategyType> := {};
    while todo != {}
      invariant todo + done == instances.Keys && todo !! done
      invariant r == PartlyAppended(instances, symbol, row, done)
      decreases todo
    {
      var k :| k in todo;
      var inst := r[k];
      if symbol in inst.frames {
        var df := inst.frames[symbol] + [row];
        if |df| > FixedWindowSize {
          df := df[|df| - FixedWindowSize..];
        }
        inst := inst.(frames := inst.frames[symbol := df]);
      }
      assert inst == Appended(instances[k], symbol, row);
      PartlyAppendedStep(instances, symbol, row, done, k);
      r := r[k := inst];
      todo := todo - {k};
      done := done + {k};
    }
    assert done == instances.Keys;
  }

  /** The loop of `_check_signals`, on the instances and the signal table it updates. */
  method CheckFrames(instances: map<StrategyType, Instance>, signals: SignalTable, symbol: string, p: PriceData,
                     process: StrategyType -> StrategyBase.Frame -> Option<Signal>)
    returns (insts: map<StrategyType, Instance>, table: SignalTable)
    ensures insts == CheckedAll(instances, symbol, p)
    ensures table == Stored(signals, symbol, Fired(instances, symbol, p, process, instances.Keys))
  {
    insts := instances;
    table := signals;
    var todo := insts.Keys;
    ghost var done: set<StrategyType> := {};
    while todo != {}
      invariant todo + done == instances.Keys && todo !! done
      invariant insts == PartlyChecked(instances, symbol, p, done)
      invariant table == Stored(signals, symbol, Fired(instances, symbol, p, process, done))
      decreases todo
    {
      var k :| k in todo;
      var inst := insts[k];
      var verdict := Verdict(inst, symbol, p, process(k));
      ghost var before := Fired(instances, symbol, p, process, done);
      FiredStep(instances, symbol, p, process, done, k);
      PartlyCheckedStep(instances, symbol, p, done, k);
      insts := insts[k := Checked(inst, symbol, p)];
      if verdict.Some? {
        var event := EventOf(symbol, k, verdict.value, p);
        var inner := if symbol in table then table[symbol] else map[];
        table := table[symbol := inner[k := event]];
        StoredStep(signals, symbol, before, k, event);
      }
      todo := todo - {k};
      done := done + {k};
    }
    assert done == instances.Keys;
  }

  /** The strategy loop of `_initialize_symbol_data`: an instance without a frame for the symbol gets `rows`. */
  method SeedFrames(instances: map<StrategyType, Instance>, symbol: string, rows: StrategyBase.Frame)
    returns (r: map<StrategyType, Instance>)
    ensures r == SeededAll(instances, map[symbol := rows])
  {
    r := instances;
    var todo := r.Keys;
    ghost var done: set<StrategyType> := {};
    while todo != {}
      invariant todo + done == instances.Keys && todo !! done
      invariant r == PartlySeeded(instances, map[symbol := rows], done)
      decreases todo
    {
      var k :| k in todo;
      var inst := r[k];
      if symbol !in inst.frames {
        inst := inst.(frames := inst.frames[symbol := rows]);
      }
      SeededOne(instances[k].frames, symbol, rows);
      PartlySeededStep(instances, map[symbol := rows], done, k);
      r := r[k := inst];
      todo := todo - {k};
      done := done + {k};
    }
    assert done == instances.Keys;
  }

  /** `PriceHandler`: the state one bot instance keeps while it listens to klines. */
  class PriceHandler {
    const intervalStr: string
    const intervalMinutes: int
    var symbols: set<string>
    var priceData: map<string, seq<PriceData>>
    var signals: SignalTable
    var strategies: map<StrategyType, SignalConfig>
    var instances: map<StrategyType, Instance>
    var updated: set<string>
    var candleTime: Option<int>
    var running: bool

    /** Every tracked symbol has a history of at most 150 candles; every instance has a configuration and the fixed window. */
    predicate Valid()
      reads this
    {
      && symbols == priceData.Keys
      && Bounded(priceData)
      && instances.Keys <= strategies.Keys
      && Windowed(instances)
    }

    constructor(intervalStr: string, intervalMinutes: int)
      ensures this.intervalStr == intervalStr && this.intervalMinutes == intervalMinutes
      ensures symbols == {} && priceData == map[] && signals == map[] && strategies == map[] && instances == map[]
      ensures updated == {} && candleTime == None && running
      ensures Valid()
    {
      this.intervalStr := intervalStr;
      this.intervalMinutes := intervalMinutes;
      symbols := {};
      priceData := map[];
      signals := map[];
      strategies := map[];
      instances := map[];
      updated := {};
      candleTime := None;
      running := true;
    }

    /**
     * `__init__`, with the signal handler created without arguments as its initialiser requires:
     * the interval is validated when given, otherwise the default is used; an invalid one raises.
     */
    static method Create(interval: Option<string>, defaultInterval: string) returns (r: Result<PriceHandler>)
      ensures r.Err? <==> HandlerInterval(interval, defaultInterval).Err?
      ensures r.Ok? ==> fresh(r.value) && r.value.Valid() && r.value.symbols == {} && r.value.strategies == map[]
      ensures r.Ok? ==> (r.value.intervalStr, r.value.intervalMinutes) == HandlerInterval(interval, defaultInterval).value
    {
      match HandlerInterval(interval, defaultInterval)
      case Err(e) =>
        return Err(e);
      case Ok(v) =>
        var h := new PriceHandler(v.0, v.1);
        return Ok(h);
    }

    /**
     * `add_strategy`: nothing for an active strategy; otherwise its configuration (the handler's
     * interval, window 150) is recorded and an instance is created from the factory's table. A
     * kind the table does not hold raises after its configuration has been recorded.
     */
    method AddStrategy(kind: StrategyType, factory: Factory.StrategyFactory) returns (r: Result<()>)
      requires Valid()
      modifies this`strategies, this`instances
      ensures Valid()
      ensures kind in old(strategies) ==> r == Ok(()) && strategies == old(strategies) && instances == old(instances)
      ensures kind !in old(strategies) ==>
        strategies == old(strategies)[kind := SignalConfig(intervalMinutes, kind, FixedWindowSize, Some(30), Some(70), [])]
      ensures kind !in old(strategies) && kind in factory.strategies ==>
        && r == Ok(())
        && instances == old(instances)[kind := Instance(intervalMinutes, FixedWindowSize, factory.strategies[kind].minCandles, map[])]
      ensures kind !in old(strategies) && kind !in factory.strategies ==>
        r == Err("Unknown strategy type: " + StrategyName(kind)) && instances == old(instances)
    {
      if kind in strategies {
        return Ok(());
      }
      var config := SignalConfig(intervalMinutes, kind, FixedWindowSize, Some(30), Some(70), []);
      strategies := strategies[kind := config];
      var created := factory.CreateStrategy(kind, config);
      match created
      case Err(e) =>
        return Err(e);
      case Ok(s) =>
        instances := instances[kind := Instance(s.interval, s.window, s.minCandles, s.dataframes)];
        return Ok(());
    }

    /**
     * `remove_strategy`: one strategy leaves the configurations, the instances and every
     * symbol's signals; with no strategy given, all three are emptied.
     */
    method RemoveStrategy(kind: Option<StrategyType>)
      requires Valid()
      modifies this`strategies, this`instances, this`signals
      ensures Valid()
      ensures kind.Some? ==> strategies == old(strategies) - {kind.value} && instances == old(instances) - {kind.value}
      ensures kind.Some? ==> signals == WithoutStrategy(old(signals), kind.value)
      ensures kind.None? ==> strategies == map[] && instances == map[] && signals == map[]
    {
      if kind.None? {
        strategies := map[];
        instances := map[];
        signals := map[];
        return;
      }
      var k := kind.value;
      var table := signals;
      var todo := table.Keys;
      ghost var done: set<string> := {};
      while todo != {}
        modifies {}
        invariant todo + done == old(signals).Keys && todo !! done
        invariant table == PartlyWithout(old(signals), k, done)
        decreases todo
      {
        var s :| s in todo;
        PartlyWithoutStep(old(signals), k, done, s);
        table := table[s := table[s] - {k}];
        todo := todo - {s};
        done := done + {s};
      }
      assert done == old(signals).Keys;
      strategies := strategies - {k};
      instances := instances - {k};
      signals := table;
    }

    /**
     * `handle_price_update`: an update for an untracked symbol, an empty or non-list payload or an
     * unconfirmed kline changes nothing. A new candle time clears the round and the signals. The
     * candle then joins the symbol's history and every frame holding the symbol; with at least two
     * candles of history, every strategy is asked for a signal. When as many symbols have reported
     * as are tracked, the signals go to aggregation (returned here) and the round is cleared.
     */
    method HandlePriceUpdate(data: Payload, symbol: string,
                             process: StrategyType -> StrategyBase.Frame -> Option<Signal>)
      returns (emitted: Option<SignalTable>)
      requires Valid()
      modifies this`priceData, this`instances, this`signals, this`updated, this`candleTime
      ensures Valid()
      ensures symbol !in old(symbols) || data.NotAList? || |data.items| == 0
              || !data.items[0].confirm || data.items[0].start.None? ==>
        && emitted == None && priceData == old(priceData) && instances == old(instances)
        && signals == old(signals) && updated == old(updated) && candleTime == old(candleTime)
      ensures symbol in old(symbols) && data.Candles? && |data.items| > 0
              && data.items[0].confirm && data.items[0].start.Some? ==>
        var c := data.items[0];
        var t := c.start.value;
        var newCandle := old(candleTime) != Some(t);
        var signals0 := if newCandle then map[] else old(signals);
        var round := (if newCandle then {} else old(updated)) + {symbol};
        && candleTime == Some(t)
        && (c.values.None? ==>
              emitted == None && priceData == old(priceData) && instances == old(instances)
              && signals == signals0 && updated == (if newCandle then {} else old(updated)))
        && (c.values.Some? ==>
              var p := PriceOf(symbol, t, c.values.value);
              var history := TakeLast(old(priceData)[symbol] + [p], FixedWindowSize);
              var appended := AppendedAll(old(instances), symbol, StrategyBase.RowOf(p));
              var check := |history| >= 2;
              && priceData == old(priceData)[symbol := history]
              && instances == (if check then CheckedAll(appended, symbol, p) else appended)
              && signals == (if check then Stored(signals0, symbol, Fired(appended, symbol, p, process, appended.Keys)) else signals0)
              && (|round| == |symbols| ==> updated == {} && emitted == Some(signals))
              && (|round| != |symbols| ==> updated == round && emitted == None))
    {
      emitted := None;
      if symbol !in symbols || data.NotAList? || |data.items| == 0 {
        return;
      }
      var candle := data.items[0];
      if !candle.confirm || candle.start.None? {
        return;
      }
      var candleStart := candle.start.value;
      if candleTime != Some(candleStart) {
        candleTime := Some(candleStart);
        updated := {};
        signals := map[];
      }
      if candle.values.None? {
        return;
      }
      emitted := RecordCandle(symbol, PriceOf(symbol, candleStart, candle.values.value), process);
    }

    /**
     * The rest of `handle_price_update` once the candle time is settled: history, frames, the
     * signal check when there are two candles of history, and the round.
     */
    method RecordCandle(symbol: string, p: PriceData, process: StrategyType -> StrategyBase.Frame -> Option<Signal>)
      returns (emitted: Option<SignalTable>)
      requires Valid() && symbol in symbols
      modifies this`priceData, this`instances, this`signals, this`updated
      ensures Valid()
      ensures
        var history := TakeLast(old(priceData)[symbol] + [p], FixedWindowSize);
        var appended := AppendedAll(old(instances), symbol, StrategyBase.RowOf(p));
        var check := |history| >= 2;
        var round := old(updated) + {symbol};
        && priceData == old(priceData)[symbol := history]
        && instances == (if check then CheckedAll(appended, symbol, p) else appended)
        && signals == (if check then Stored(old(signals), symbol, Fired(appended, symbol, p, process, appended.Keys)) else old(signals))
        && (|round| == |symbols| ==> updated == {} && emitted == Some(signals))
        && (|round| != |symbols| ==> updated == round && emitted == None)
    {
      StoreCandle(symbol, p, process);
      emitted := CloseRound(symbol);
    }

    /** The candle is stored, every frame gets its row, and with two candles the frames are checked. */
    method StoreCandle(symbol: string, p: PriceData, process: StrategyType -> StrategyBase.Frame -> Option<Signal>)
      requires Valid() && symbol in symbols
      modifies this`priceData, this`instances, this`signals
      ensures Valid()
      ensures
        var history := TakeLast(old(priceData)[symbol] + [p], FixedWindowSize);
        var appended := AppendedAll(old(instances), symbol, StrategyBase.RowOf(p));
        var check := |history| >= 2;
        && priceData == old(priceData)[symbol := history]
        && instances == (if check then CheckedAll(appended, symbol, p) else appended)
        && signals == (if check then Stored(old(signals), symbol, Fired(appended, symbol, p, process, appended.Keys)) else old(signals))
    {
      var history := TakeLast(priceData[symbol] + [p], FixedWindowSize);
      BoundedAppend(priceData, symbol, history);
      AppendedKept(instances, symbol, StrategyBase.RowOf(p));
      var insts := AppendFrames(instances, symbol, StrategyBase.RowOf(p));
      var table := signals;
      if |history| >= 2 {
        CheckedKept(insts, symbol, p);
        insts, table := CheckFrames(insts, table, symbol, p, process);
      }
      priceData := priceData[symbol := history];
      instances := insts;
      signals := table;
    }

    /** The end of `handle_price_update`: the symbol has reported; a complete round emits the signals and starts over. */
    method CloseRound(symbol: string) returns (emitted: Option<SignalTable>)
      modifies this`updated
      ensures var round := old(updated) + {symbol};
        && (|round| == |symbols| ==> updated == {} && emitted == Some(signals))
        && (|round| != |symbols| ==> updated == round && emitted == None)
    {
      emitted := None;
      updated := updated + {symbol};
      if |updated| == |symbols| {
        emitted := Some(signals);
        updated := {};
      }
    }

    /**
     * `_initialize_symbol_data`: when the history could be fetched, the symbol is tracked with
     * its last 150 candles, and every instance without a frame for it gets one built from them.
     * A failed fetch changes nothing.
     */
    method InitializeSymbolData(symbol: string, klines: Option<seq<PriceData>>)
      requires Valid()
      modifies this`symbols, this`priceData, this`instances
      ensures Valid()
      ensures klines.None? ==> symbols == old(symbols) && priceData == old(priceData) && instances == old(instances)
      ensures klines.Some? ==>
        var history := TakeLast(klines.value, FixedWindowSize);
        && symbols == old(symbols) + {symbol}
        && priceData == old(priceData)[symbol := history]
        && instances == SeededAll(old(instances), map[symbol := Rows(history)])
    {
      if klines.None? {
        return;
      }
      var history := TakeLast(klines.value, FixedWindowSize);
      var seeds := map[symbol := Rows(history)];
      var insts := SeedFrames(instances, symbol, Rows(history));
      BoundedAppend(priceData, symbol, history);
      SeededKept(instances, seeds);
      symbols := symbols + {symbol};
      priceData := priceData[symbol := history];
      instances := insts;
    }

    /**
     * One pass of `_check_symbols`, with the lock taken once: symbols newly listed are
     * initialised (their history is `klines[symbol]` when the fetch succeeded), and symbols no
     * longer listed leave the tracked set, the histories, the signals and every frame.
     */
    method CheckSymbols(listed: set<string>, klines: map<string, seq<PriceData>>)
      returns (added: set<string>, delisted: set<string>)
      requires Valid()
      modifies this`symbols, this`priceData, this`instances, this`signals
      ensures Valid()
      ensures added == listed - old(symbols) && delisted == old(symbols) - listed
      ensures symbols == (old(symbols) + added * klines.Keys) - delisted
      ensures priceData == (old(priceData) + Histories(klines, added)) - delisted
      ensures signals == old(signals) - delisted
      ensures instances == Dropped(SeededAll(old(instances), Seeds(klines, added)), delisted)
    {
      added := listed - symbols;
      delisted := symbols - listed;
      InitializeListed(added, klines);
      DropDelisted(delisted);
    }

    /** The first loop of `_check_symbols`: every new symbol initialised in turn. */
    method InitializeListed(added: set<string>, klines: map<string, seq<PriceData>>)
      requires Valid() && added !! symbols
      modifies this`symbols, this`priceData, this`instances
      ensures Valid()
      ensures symbols == old(symbols) + added * klines.Keys
      ensures priceData == old(priceData) + Histories(klines, added)
      ensures instances == SeededAll(old(instances), Seeds(klines, added))
    {
      var todo := added;
      ghost var done: set<string> := {};
      assert Seeds(klines, done) == map[] && Histories(klines, done) == map[];
      assert SeededAll(instances, map[]) == instances by {
        forall k | k in instances
          ensures SeededAll(instances, map[])[k] == instances[k]
        {
          assert Seeded(instances[k].frames, map[]) == instances[k].frames;
        }
      }
      while todo != {}
        invariant Valid()
        invariant todo + done == added && todo !! done
        invariant symbols == old(symbols) + done * klines.Keys
        invariant priceData == old(priceData) + Histories(klines, done)
        invariant instances == SeededAll(old(instances), Seeds(klines, done))
        decreases todo
      {
        var s :| s in todo;
        ListedStep(old(symbols), old(priceData), old(instances), klines, done, s);
        InitializeSymbolData(s, if s in klines then Some(klines[s]) else None);
        todo := todo - {s};
        done := done + {s};
      }
    }

    /** The second loop of `_check_symbols`: every delisted symbol forgotten. */
    method DropDelisted(delisted: set<string>)
      requires Valid()
      modifies this`symbols, this`priceData, this`instances, this`signals
      ensures Valid()
      ensures symbols == old(symbols) - delisted && priceData == old(priceData) - delisted
      ensures signals == old(signals) - delisted && instances == Dropped(old(instances), delisted)
    {
      var syms, histories, table, insts := Forget(symbols, priceData, signals, instances, delisted);
      BoundedDrop(priceData, delisted);
      DroppedKept(instances, delisted);
      symbols := syms;
      priceData := histories;
      signals := table;
      instances := insts;
    }

    /** `cleanup`: the symbol check stops. */
    method Cleanup()
      modifies this`running
      ensures !running
    {
      running := false;
    }
  }

  /** Storing one more event is storing it into the table already built. */
  lemma StoredStep(signals: SignalTable, symbol: string, fired: map<StrategyType, SignalData>,
                   k: StrategyType, event: SignalData)
    ensures var t := Stored(signals, symbol, fired);
      Stored(signals, symbol, fired[k := event])
      == t[symbol := (if symbol in t then t[symbol] else map[])[k := event]]
  {
    var inner := if symbol in signals then signals[symbol] else map[];
    var more := fired[k := event];
    assert more != map[] by {
      assert k in more;
    }
    if fired == map[] {
      assert inner + more == inner[k := event];
    } else {
      assert inner + more == (inner + fired)[k := event];
    }
  }

  /** One more strategy judged: its event joins the fired ones if it signals. */
  lemma FiredStep(instances: map<StrategyType, Instance>, symbol: string, p: PriceData,
                  process: StrategyType -> StrategyBase.Frame -> Option<Signal>, done: set<StrategyType>, k: StrategyType)
    requires k in instances
    ensures var v := Verdict(instances[k], symbol, p, process(k));
      Fired(instances, symbol, p, process, done + {k})
      == if v.Some? then Fired(instances, symbol, p, process, done)[k := EventOf(symbol, k, v.value, p)]
         else Fired(instances, symbol, p, process, done)
  {
  }
}
