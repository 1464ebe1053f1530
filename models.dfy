/**
 * The records the bot passes around: strategy and signal kinds, signals, candles,
 * the signal configuration and the clear command.
 */
module Models {
  import opened Wrappers
  import Intervals
  import opened Floats

  /**
   * The strategy kinds the code uses. The enumeration itself declares only RSI and MACD
   * (`DeclaredKinds`); the factory, the signal handler and the command handlers also use the
   * other five, so the model takes the union as the corrected enumeration.
   */
  datatype StrategyType = Rsi | Macd | Bollinger | Ichimoku | Harmonic | VolumeProfile | All

  /** The member name of a kind, which is also its value upper-cased (`strategy.upper()`). */
  function UpperName(k: StrategyType): (s: string)
  {
    match k
    case Rsi => "RSI"
    case Macd => "MACD"
    case Bollinger => "BOLLINGER"
    case Ichimoku => "ICHIMOKU"
    case Harmonic => "HARMONIC"
    case VolumeProfile => "VOLUME_PROFILE"
    case All => "ALL"
  }

  /** The members the enumeration declares as written. */
  const DeclaredKinds: seq<StrategyType> := [Rsi, Macd]

  /** `StrategyType.X` as written: a member the enumeration does not declare raises AttributeError. */
  function MemberAsWritten(k: StrategyType): (r: Result<StrategyType>)
    ensures r.Ok? <==> k in DeclaredKinds
    ensures r.Ok? ==> r.value == k
    ensures r.Err? ==> r.error == "AttributeError: " + UpperName(k)
  {
    if k == Rsi || k == Macd then Ok(k) else Err("AttributeError: " + UpperName(k))
  }

  /** `StrategyType(s)` as written: only the two declared values look up a kind. */
  function StrategyFromNameAsWritten(s: string): (r: Option<StrategyType>)
    ensures r.Some? <==> s in {"rsi", "macd"}
    ensures r.Some? ==> r.value in DeclaredKinds && StrategyName(r.value) == s
  {
    if s == "rsi" then Some(Rsi) else if s == "macd" then Some(Macd) else None
  }

  /**
   * As written, the five kinds the rest of the code uses beyond RSI and MACD are missing from the
   * enumeration: naming them as members raises, and their values look nothing up, while the
   * corrected enumeration has them.
   */
  lemma UndeclaredKinds(k: StrategyType)
    requires k !in DeclaredKinds
    ensures MemberAsWritten(k).Err?
    ensures StrategyFromNameAsWritten(StrategyName(k)) == None
    ensures StrategyFromName(StrategyName(k)) == Some(k)
  {
    StrategyNameRoundTrip(k);
  }

  /** The enumeration value of a kind. */
  function StrategyName(k: StrategyType): (s: string)
  {
    match k
    case Rsi => "rsi"
    case Macd => "macd"
    case Bollinger => "bollinger"
    case Ichimoku => "ichimoku"
    case Harmonic => "harmonic"
    case VolumeProfile => "volume_profile"
    case All => "all"
  }

  /** `StrategyType(s)`: the kind whose value is `s`, if any. */
  function StrategyFromName(s: string): (r: Option<StrategyType>)
    ensures r.Some? ==> StrategyName(r.value) == s
  {
    if s == "rsi" then Some(Rsi)
    else if s == "macd" then Some(Macd)
    else if s == "bollinger" then Some(Bollinger)
    else if s == "ichimoku" then Some(Ichimoku)
    else if s == "harmonic" then Some(Harmonic)
    else if s == "volume_profile" then Some(VolumeProfile)
    else if s == "all" then Some(All)
    else None
  }

  /** Kind names and kinds are in one-to-one correspondence. */
  lemma StrategyNameRoundTrip(k: StrategyType)
    ensures StrategyFromName(StrategyName(k)) == Some(k)
  {
  }

  /** The direction of a signal. */
  datatype SignalType = Buy | Sell

  function SignalTypeName(t: SignalType): (s: string)
  {
    match t
    case Buy => "buy"
    case Sell => "sell"
  }

  function SignalTypeFromName(s: string): (r: Option<SignalType>)
    ensures r.Some? ==> SignalTypeName(r.value) == s
  {
    if s == "buy" then Some(Buy) else if s == "sell" then Some(Sell) else None
  }

  /** Exactly the two values "buy" and "sell" name a direction. */
  lemma SignalTypeNames(s: string)
    ensures SignalTypeFromName(s).Some? <==> s in {"buy", "sell"}
    ensures forall t: SignalType :: SignalTypeFromName(SignalTypeName(t)) == Some(t)
  {
  }

  /**
   * A signal's value: a number, a descriptive text, or a text formatted from a caption and
   * numbers to two decimals (`f"TK: {a:.2f}/{b:.2f}"` is `Formatted("TK", [a, b])`).
   */
  datatype SignalValue = Number(x: real) | Text(s: string) | Formatted(caption: string, numbers: seq<Float>)

  /** A signal as a strategy emits it. */
  datatype Signal = Signal(name: string, kind: SignalType, value: SignalValue)

  /** One candle of a symbol. */
  datatype PriceData = PriceData(
    symbol: string, timestamp: int,
    open: real, high: real, low: real, close: real, volume: real, turnover: real)

  /** The row a candle contributes to a strategy frame. */
  function ToDict(p: PriceData): (d: map<string, real>)
    ensures d.Keys == {"open", "high", "low", "close", "volume"}
    ensures d["open"] == p.open && d["high"] == p.high && d["low"] == p.low
    ensures d["close"] == p.close && d["volume"] == p.volume
  {
    map["open" := p.open, "high" := p.high, "low" := p.low, "close" := p.close, "volume" := p.volume]
  }

  /** The configuration a strategy is created with. */
  datatype SignalConfig = SignalConfig(
    interval: int, strategyType: StrategyType, window: int,
    rsiBuy: Option<int>, rsiSell: Option<int>, symbols: seq<string>)

  /** The configuration with every field at its default. */
  const DefaultConfig: SignalConfig := SignalConfig(60, Rsi, 100, Some(30), Some(70), [])

  /** What the interval field accepts before validation: text or a number of minutes. */
  datatype IntervalInput = IntervalText(text: string) | IntervalNumber(minutes: int)

  /** The interval field's validator: text is converted to minutes, a number passes through. */
  function ConfigInterval(v: IntervalInput): (r: Result<int>)
    ensures v.IntervalNumber? ==> r == Ok(v.minutes)
    ensures v.IntervalText? ==> r == Intervals.IntervalToMinutes(v.text)
  {
    match v
    case IntervalNumber(m) => Ok(m)
    case IntervalText(t) => Intervals.IntervalToMinutes(t)
  }

  /** Building a configuration from an interval input and the other fields. */
  function MakeConfig(interval: IntervalInput, strategyType: StrategyType, window: int,
                      rsiBuy: Option<int>, rsiSell: Option<int>, symbols: seq<string>): (r: Result<SignalConfig>)
    ensures r.Ok? <==> ConfigInterval(interval).Ok?
    ensures r.Ok? ==>
              && r.value.interval == ConfigInterval(interval).value
              && r.value.strategyType == strategyType && r.value.window == window
              && r.value.rsiBuy == rsiBuy && r.value.rsiSell == rsiSell && r.value.symbols == symbols
  {
    match ConfigInterval(interval)
    case Err(e) => Err(e)
    case Ok(m) => Ok(SignalConfig(m, strategyType, window, rsiBuy, rsiSell, symbols))
  }

  /** A textual interval that validates yields a positive number of minutes; "60" yields the default. */
  lemma ConfigIntervalText(t: string)
    requires ConfigInterval(IntervalText(t)).Ok?
    ensures ConfigInterval(IntervalText(t)).value > 0
    ensures t == "60" ==> ConfigInterval(IntervalText(t)).value == DefaultConfig.interval
  {
    Intervals.MinutesRange(t);
    if t == "60" {
      Intervals.SixtyMinutes();
    }
  }

  /** A signal event delivered for aggregation. */
  datatype SignalData = SignalData(
    symbol: string, strategy: StrategyType, signalType: SignalType,
    value: SignalValue, timestamp: int, price: real)

  /** The `clear` command with its validated count. */
  datatype ClearCommand = ClearCommand(count: int)

  /** The count of messages to clear must be at least 1. */
  function MakeClearCommand(count: int): (r: Result<ClearCommand>)
    ensures r.Ok? <==> count >= 1
    ensures r.Ok? ==> r.value.count == count
  {
    if count >= 1 then Ok(ClearCommand(count))
    else Err("Input should be greater than or equal to 1")
  }
}
