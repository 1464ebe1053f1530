/**
 * The strategy registry: a shared, mutable table from strategy kind to strategy class, and the
 * creation of a strategy instance from a kind and a configuration.
 */
module Factory {
  import opened Wrappers
  import opened Models
  import StrategyBase
  import RsiStrategy
  import MacdStrategy
  import BollingerStrategy
  import IchimokuStrategy
  import HarmonicStrategy
  import VolumeProfileStrategy

  /** A strategy class, known by its name and the number of candles it needs before deciding. */
  datatype StrategyClass = StrategyClass(name: string, minCandles: int)

  /** The six built-in classes. */
  const RsiClass := StrategyClass("RSIStrategy", RsiStrategy.MinCandles)
  const MacdClass := StrategyClass("MACDStrategy", MacdStrategy.MinCandles)
  const BollingerClass := StrategyClass("BollingerStrategy", BollingerStrategy.MinCandles)
  const IchimokuClass := StrategyClass("IchimokuStrategy", IchimokuStrategy.MinCandles)
  const HarmonicClass := StrategyClass("HarmonicStrategy", HarmonicStrategy.MinCandles)
  const VolumeProfileClass := StrategyClass("VolumeProfileStrategy", VolumeProfileStrategy.MinCandles)

  /** The kinds in the order the table is written. */
  const BuiltInKinds: seq<StrategyType> := [Rsi, Macd, Bollinger, Ichimoku, Harmonic, VolumeProfile]

  /** The table as written. */
  const BuiltIns: map<StrategyType, StrategyClass> := map[
    Rsi := RsiClass, Macd := MacdClass, Bollinger := BollingerClass,
    Ichimoku := IchimokuClass, Harmonic := HarmonicClass, VolumeProfile := VolumeProfileClass]

  /** Every kind but `All` has a built-in class, and each needs the warm-up its strategy declares. */
  lemma BuiltInsCoverKinds()
    ensures forall k: StrategyType :: k in BuiltIns <==> k != All
    ensures forall k :: k in BuiltIns.Keys <==> k in BuiltInKinds
    ensures BuiltIns[Rsi].minCandles == 50 && BuiltIns[Macd].minCandles == 27
    ensures BuiltIns[Bollinger].minCandles == 21 && BuiltIns[Ichimoku].minCandles == 150
    ensures BuiltIns[Harmonic].minCandles == 30 && BuiltIns[VolumeProfile].minCandles == 50
  {
    forall k: StrategyType ensures k in BuiltIns.Keys <==> k != All {
      match k
      case Rsi =>
      case Macd =>
      case Bollinger =>
      case Ichimoku =>
      case Harmonic =>
      case VolumeProfile =>
      case All =>
    }
  }

  /**
   * Evaluating the table's keys as written: each key is a member lookup, in the order written, and
   * the first member the enumeration does not declare raises AttributeError while the module loads.
   */
  function RegistryAsWritten(kinds: seq<StrategyType>): (r: Result<seq<StrategyType>>)
    ensures r.Ok? <==> forall k :: k in kinds ==> k in DeclaredKinds
    ensures r.Ok? ==> r.value == kinds
    ensures r.Err? ==> r.error == MemberAsWritten(FirstUndeclared(kinds)).error
  {
    if |kinds| == 0 then Ok([])
    else match MemberAsWritten(kinds[0])
      case Err(e) => Err(e)
      case Ok(k) =>
        var rest := RegistryAsWritten(kinds[1..]);
        assert forall x :: x in kinds <==> x == kinds[0] || x in kinds[1..];
        if rest.Err? then rest else Ok([k] + rest.value)
  }

  /** The first kind of `kinds` the enumeration does not declare, if any; `All` otherwise. */
  function FirstUndeclared(kinds: seq<StrategyType>): (k: StrategyType)
    ensures (k in kinds && k !in DeclaredKinds) || ((forall x :: x in kinds ==> x in DeclaredKinds) && k == All)
  {
    if |kinds| == 0 then All
    else if kinds[0] !in DeclaredKinds then kinds[0]
    else FirstUndeclared(kinds[1..])
  }

  /** As written, the table is never built: its third key, `StrategyType.BOLLINGER`, raises. */
  lemma RegistryNeverBuilt()
    ensures RegistryAsWritten(BuiltInKinds) == Err(MemberAsWritten(Bollinger).error)
  {
    var tail := [Bollinger, Ichimoku, Harmonic, VolumeProfile];
    assert tail[0] == Bollinger;
    assert RegistryAsWritten(tail) == Err(MemberAsWritten(Bollinger).error);
    assert BuiltInKinds[1..] == [Macd] + tail && ([Macd] + tail)[1..] == tail;
  }

  /**
   * The abstract methods a built-in class leaves undefined as written: `MACDStrategy` overrides
   * `process` but defines neither `calculate_indicator` nor `analyze_market`, both abstract in
   * the base class; the other five classes define both.
   */
  function AbstractLeftAsWritten(cls: StrategyClass): (names: seq<string>)
  {
    if cls == MacdClass then ["analyze_market", "calculate_indicator"] else []
  }

  /** The TypeError Python raises on instantiating a class with abstract methods left. */
  function AbstractError(cls: StrategyClass, left: seq<string>): string
    requires |left| == 2
  {
    "TypeError: Can't instantiate abstract class " + cls.name + " with abstract methods " + left[0] + ", " + left[1]
  }

  /**
   * `create_strategy` as written: an unregistered kind raises ValueError; instantiating a class
   * with abstract methods left raises TypeError; otherwise the registered class is instantiated.
   */
  function CreateAsWritten(strategies: map<StrategyType, StrategyClass>, kind: StrategyType): (r: Result<StrategyClass>)
    ensures r.Ok? <==> kind in strategies && AbstractLeftAsWritten(strategies[kind]) == []
    ensures r.Ok? ==> r.value == strategies[kind]
    ensures kind !in strategies ==> r == Err("Unknown strategy type: " + StrategyName(kind))
  {
    if kind !in strategies then Err("Unknown strategy type: " + StrategyName(kind))
    else
      var cls := strategies[kind];
      var left := AbstractLeftAsWritten(cls);
      if left == [] then Ok(cls) else Err(AbstractError(cls, left))
  }

  /**
   * As written, the MACD strategy is the one built-in kind that cannot be created: its class is
   * still abstract, missing `analyze_market` and `calculate_indicator`. The corrected
   * `CreateStrategy` builds every registered kind.
   */
  lemma MacdAbstractAsWritten()
    ensures CreateAsWritten(BuiltIns, Macd) == Err(AbstractError(MacdClass, ["analyze_market", "calculate_indicator"]))
    ensures forall k :: k in BuiltIns && k != Macd ==> CreateAsWritten(BuiltIns, k) == Ok(BuiltIns[k])
  {
    assert BuiltIns[Macd] == MacdClass;
    forall k | k in BuiltIns && k != Macd ensures CreateAsWritten(BuiltIns, k) == Ok(BuiltIns[k]) {
      assert BuiltIns[k].name != "MACDStrategy" by {
        match k
        case Rsi =>
        case Bollinger =>
        case Ichimoku =>
        case Harmonic =>
        case VolumeProfile =>
      }
    }
  }

  /** No kind appears twice. */
  predicate Distinct(kinds: seq<StrategyType>)
  {
    forall i, j :: 0 <= i < j < |kinds| ==> kinds[i] != kinds[j]
  }

  /** `StrategyFactory`: the class-level table, with its keys in insertion order. */
  class StrategyFactory {
    var strategies: map<StrategyType, StrategyClass>
    var kinds: seq<StrategyType>

    /** The key order lists every key once. */
    predicate Valid()
      reads this
    {
      Distinct(kinds) && (forall k :: k in strategies <==> k in kinds)
    }

    constructor()
      ensures Valid() && strategies == BuiltIns && kinds == BuiltInKinds
    {
      strategies := BuiltIns;
      kinds := BuiltInKinds;
      new;
      BuiltInsCoverKinds();
    }

    /**
     * `create_strategy`: an error naming the kind when it is not registered; otherwise a new
     * instance of the registered class with the configuration's interval and window.
     */
    method CreateStrategy(kind: StrategyType, config: SignalConfig) returns (r: Result<StrategyBase.SignalStrategy>)
      ensures r.Err? <==> kind !in strategies
      ensures r.Err? ==> r.error == "Unknown strategy type: " + StrategyName(kind)
      ensures r.Ok? ==> fresh(r.value) && r.value.interval == config.interval && r.value.window == config.window
      ensures r.Ok? ==> r.value.minCandles == strategies[kind].minCandles && r.value.dataframes == map[]
    {
      if kind !in strategies {
        return Err("Unknown strategy type: " + StrategyName(kind));
      }
      var s := new StrategyBase.SignalStrategy(config.interval, config.window, strategies[kind].minCandles);
      return Ok(s);
    }

    /** `register_strategy`: add or overwrite one entry; a new kind goes to the end of the key order. */
    method RegisterStrategy(kind: StrategyType, cls: StrategyClass)
      requires Valid()
      modifies this
      ensures Valid()
      ensures strategies == old(strategies)[kind := cls]
      ensures kinds == if kind in old(strategies) then old(kinds) else old(kinds) + [kind]
    {
      if kind !in strategies {
        kinds := kinds + [kind];
      }
      strategies := strategies[kind := cls];
    }

    /** `get_available_strategies`: the registered kinds, each once, in insertion order. */
    method AvailableStrategies() returns (r: seq<StrategyType>)
      requires Valid()
      ensures r == kinds
      ensures Distinct(r) && forall k :: k in r <==> k in strategies
    {
      return kinds;
    }
  }
}
