/**
 * The command handler of the first version of the bot (command_handler.py). Its parser and
 * argument guards are those of the current handler; it has no interval command, subscribes on
 * the default interval only, builds its price handler with the default minutes, and clears a
 * channel with one pass over its history.
 */
module LegacyCommands {
  import opened Wrappers
  import opened Models
  import Factory
  import Intervals
  import C = Commands
  import Tx = Text
  import LPH = LegacyPriceHandler

  /** `DEFAULT_MINUTES`: the minutes of the default interval "60". */
  const DefaultMinutes: int := 60

  /** The default minutes are those the default interval converts to. */
  lemma DefaultMinutesAgree()
    ensures Intervals.IntervalToMinutes(C.DefaultInterval) == Ok(DefaultMinutes)
  {
    Intervals.SixtyMinutes();
  }

  /**
   * One turn of the `add_strategy` loops: `kinds[i]` is added unless it is active already; the
   * factory failing on it is reported with its configuration recorded.
   */
  method AddNext(h: LPH.LegacyPriceHandler, kinds: seq<StrategyType>, i: nat, factory: Factory.StrategyFactory,
                 ghost active: set<StrategyType>, added: seq<StrategyType>)
    returns (r: Result<()>, added': seq<StrategyType>)
    requires h.Valid() && i < |kinds|
    requires h.strategies.Keys == active + C.Elements(kinds[..i]) && added == C.Fresh(kinds[..i], active)
    modifies h`strategies, h`instances
    ensures h.Valid()
    ensures r.Ok? <==> kinds[i] in active || kinds[i] in C.Elements(kinds[..i]) || kinds[i] in factory.strategies
    ensures r.Ok? ==> h.strategies.Keys == active + C.Elements(kinds[..i + 1]) && added' == C.Fresh(kinds[..i + 1], active)
    ensures r.Err? ==> kinds[i] !in active && h.strategies.Keys == old(h.strategies).Keys + {kinds[i]}
  {
    var k := kinds[i];
    C.FreshStep(kinds, i, active);
    added' := added;
    if k !in h.strategies {
      r := h.AddStrategy(k, factory);
      if r.Err? {
        return;
      }
      added' := added + [k];
    } else {
      r := Ok(());
    }
  }

  /**
   * The `add_strategy` loops: every kind not yet active is added, in order, and listed in
   * `added`; the first kind the factory cannot build stops the loop with its configuration
   * recorded.
   */
  method AddAll(h: LPH.LegacyPriceHandler, kinds: seq<StrategyType>, factory: Factory.StrategyFactory)
    returns (r: Result<()>, added: seq<StrategyType>)
    requires h.Valid()
    modifies h`strategies, h`instances
    ensures h.Valid()
    ensures r.Ok? <==> forall k :: k in kinds && k !in old(h.strategies) ==> k in factory.strategies
    ensures r.Ok? ==> h.strategies.Keys == old(h.strategies).Keys + C.Elements(kinds)
    ensures r.Ok? ==> added == C.Fresh(kinds, old(h.strategies).Keys)
    ensures r.Err? ==> old(h.strategies).Keys < h.strategies.Keys <= old(h.strategies).Keys + C.Elements(kinds)
  {
    ghost var active := h.strategies.Keys;
    var i := 0;
    added := [];
    while i < |kinds|
      invariant 0 <= i <= |kinds|
      invariant h.Valid()
      invariant h.strategies.Keys == active + C.Elements(kinds[..i])
      invariant added == C.Fresh(kinds[..i], active)
      invariant forall j :: 0 <= j < i && kinds[j] !in active ==> kinds[j] in factory.strategies
    {
      r, added := AddNext(h, kinds, i, factory, active, added);
      if r.Err? {
        assert kinds[i] in C.Elements(kinds);
        assert C.Elements(kinds[..i]) <= C.Elements(kinds);
        return;
      }
      i := i + 1;
    }
    assert kinds[..i] == kinds;
    return Ok(()), added;
  }

  /**
   * `initialize` on a handler that tracks no symbol yet: without strategies it does nothing;
   * otherwise the instrument request (`None` when it raises) names the symbols, and each is
   * loaded from `klines`.
   */
  method Initialize(h: LPH.LegacyPriceHandler, instruments: Option<seq<string>>, klines: map<string, seq<PriceData>>)
    returns (ok: bool)
    requires h.Valid() && h.symbols == {}
    modifies h`symbols, h`priceData, h`instances
    ensures h.Valid()
    ensures ok <==> h.strategies == map[] || instruments.Some?
    ensures h.strategies == map[] || instruments.None? ==>
      h.symbols == {} && h.priceData == old(h.priceData) && h.instances == old(h.instances)
    ensures h.strategies != map[] && instruments.Some? ==>
      h.symbols == (set s | s in instruments.value) * klines.Keys
  {
    if h.strategies == map[] {
      return true;
    }
    if instruments.None? {
      return false;
    }
    h.InitializeListed((set s | s in instruments.value), klines);
    return true;
  }

  /**
   * A new price handler of the default minutes gets every kind of `kinds` and is initialised;
   * `built` says that every add and the initialisation went through.
   */
  method NewHandler(kinds: seq<StrategyType>, factory: Factory.StrategyFactory,
                    instruments: Option<seq<string>>, klines: map<string, seq<PriceData>>)
    returns (h: LPH.LegacyPriceHandler, built: bool)
    ensures fresh(h) && h.Valid() && h.defaultMinutes == DefaultMinutes
    ensures built <==> (forall k :: k in kinds ==> k in factory.strategies) && (kinds == [] || instruments.Some?)
    ensures built ==> h.strategies.Keys == C.Elements(kinds)
    ensures built && kinds != [] ==> h.symbols == (set s | s in instruments.value) * klines.Keys
    ensures !built ==> h.strategies != map[]
    ensures h.strategies == map[] <==> kinds == []
  {
    h := new LPH.LegacyPriceHandler(DefaultMinutes);
    var r, _ := AddAll(h, kinds, factory);
    if r.Err? {
      // The failed kind's configuration is recorded, so the handler holds a strategy.
      return h, false;
    }
    built := Initialize(h, instruments, klines);
    if kinds != [] {
      assert kinds[0] in C.Elements(kinds);
    }
  }

  /** `CommandHandler` of command_handler.py. */
  class CommandHandler {
    const factory: Factory.StrategyFactory
    /** `bybit_ws_client is not None` */
    const hasWs: bool
    var handler: LPH.LegacyPriceHandler?

    /** A live handler is valid and uses the default minutes. */
    predicate Valid()
      reads this, handler
    {
      handler != null ==> handler.Valid() && handler.defaultMinutes == DefaultMinutes
    }

    /** The two states of the lifecycle: no handler, or a handler with at least one strategy. */
    predicate Listening()
      reads this, handler
    {
      handler != null ==> handler.strategies != map[]
    }

    /** `__init__`: no handler. */
    constructor(factory: Factory.StrategyFactory, hasWs: bool)
      ensures this.factory == factory && this.hasWs == hasWs && handler == null
      ensures Valid() && Listening()
    {
      this.factory := factory;
      this.hasWs := hasWs;
      handler := null;
    }

    /**
     * `_start_signal_listener`. A live handler only gets the kinds not yet active, and nothing
     * is subscribed. Otherwise a new handler gets every kind, is initialised, and the topics of
     * the default interval are subscribed. A failure is answered; the handler is dropped only
     * when it holds no strategy.
     */
    method StartListener(kinds: seq<StrategyType>, instruments: Option<seq<string>>,
                         klines: map<string, seq<PriceData>>) returns (sent: seq<C.Reply>, calls: seq<C.WsCall>)
      requires Valid()
      modifies this`handler, handler
      ensures Valid()
      ensures old(handler) != null ==> handler == old(handler) && calls == []
      ensures old(handler) != null ==>
        var active := old(handler.strategies).Keys;
        if forall k :: k in kinds && k !in active ==> k in factory.strategies then
          && handler.strategies.Keys == active + C.Elements(kinds)
          && sent == [if C.Fresh(kinds, active) == [] then C.AlreadyListening else C.ListeningFor(C.Fresh(kinds, active))]
        else
          active < handler.strategies.Keys && sent == [C.StartFailed]
      ensures old(handler) == null ==>
        var built := forall k :: k in kinds ==> k in factory.strategies;
        var loaded := kinds == [] || instruments.Some?;
        var subscribed := !hasWs || instruments.Some?;
        if built && loaded && subscribed then
          && handler != null && fresh(handler) && handler.strategies.Keys == C.Elements(kinds)
          && (kinds != [] ==> handler.symbols == (set s | s in instruments.value) * klines.Keys)
          && sent == [C.ListeningFor(kinds)]
          && calls == (if hasWs then [C.Subscribe(C.Topics(C.DefaultInterval, instruments.value))] else [])
        else
          && sent == [C.StartFailed] && calls == []
          && (handler == null <==> kinds == [])
          && (handler != null ==> fresh(handler) && handler.strategies != map[])
      ensures old(handler) != null ==>
        old(handler.strategies).Keys <= handler.strategies.Keys <= old(handler.strategies).Keys + C.Elements(kinds)
      ensures |kinds| > 0 && old(Listening()) ==> Listening()
    {
      if handler == null {
        var h, built := NewHandler(kinds, factory, instruments, klines);
        handler := h;
        if !built {
          return [C.StartFailed], [];
        }
        if hasWs {
          if instruments.None? {
            if h.strategies == map[] {
              h.Cleanup();
              handler := null;
            }
            return [C.StartFailed], [];
          }
          calls := [C.Subscribe(C.Topics(C.DefaultInterval, instruments.value))];
        } else {
          calls := [];
        }
        sent := [C.ListeningFor(kinds)];
      } else {
        var h := handler;
        var r, added := AddAll(h, kinds, factory);
        calls := [];
        if r.Err? {
          // A failed add leaves its configuration behind, so the handler is kept.
          return [C.StartFailed], [];
        }
        sent := [if added == [] then C.AlreadyListening else C.ListeningFor(added)];
      }
    }

    /**
     * `_stop_signal_listener`. Without a handler the user is told to listen first. A kind that
     * is not active changes nothing. Removing the last kind, or stopping all, unsubscribes the
     * default interval's topics, cleans the handler up and drops it; when the instrument request
     * fails on the way, the handler stays with what was removed already gone.
     */
    method StopListener(kind: Option<StrategyType>, instruments: Option<seq<string>>)
      returns (sent: seq<C.Reply>, calls: seq<C.WsCall>)
      requires Valid()
      modifies this`handler, handler
      ensures Valid()
      ensures old(handler) == null ==> handler == null && sent == [C.ListenFirst] && calls == []
      ensures old(handler) != null && kind.Some? && kind.value !in old(handler.strategies) ==>
        handler == old(handler) && (old(handler) != null ==> unchanged(old(handler)))
        && sent == [C.ListenForFirst(kind.value)] && calls == []
      ensures old(handler) != null && kind.Some? && kind.value in old(handler.strategies) ==>
        var k := kind.value;
        var rest := old(handler.strategies) - {k};
        && old(handler).strategies == rest
        && if rest != map[] then
             handler == old(handler) && sent == [C.Stopped(k)] && calls == []
           else if hasWs && instruments.None? then
             handler == old(handler) && sent == [C.Stopped(k), C.StopFailed] && calls == []
           else
             && handler == null && !old(handler).running && sent == [C.Stopped(k)]
             && calls == (if hasWs then [C.Unsubscribe(C.Topics(C.DefaultInterval, instruments.value))] else [])
      ensures old(handler) != null && kind.None? ==>
        && old(handler).strategies == map[] && old(handler).signals == map[]
        && if hasWs && instruments.None? then
             handler == old(handler) && sent == [C.StopFailed] && calls == []
           else
             && handler == null && !old(handler).running && sent == [C.StoppedAll]
             && calls == (if hasWs then [C.Unsubscribe(C.Topics(C.DefaultInterval, instruments.value))] else [])
      ensures old(Listening()) && (!hasWs || instruments.Some?) ==> Listening()
    {
      if handler == null {
        return [C.ListenFirst], [];
      }
      var h := handler;
      calls := [];
      match kind
      case Some(k) =>
        if k !in h.strategies {
          return [C.ListenForFirst(k)], [];
        }
        h.RemoveStrategy(Some(k));
        sent := [C.Stopped(k)];
        if h.strategies == map[] {
          if hasWs {
            if instruments.None? {
              return sent + [C.StopFailed], [];
            }
            calls := [C.Unsubscribe(C.Topics(C.DefaultInterval, instruments.value))];
          }
          h.Cleanup();
          handler := null;
        }
      case None =>
        h.RemoveStrategy(None);
        if hasWs {
          if instruments.None? {
            return [C.StopFailed], [];
          }
          calls := [C.Unsubscribe(C.Topics(C.DefaultInterval, instruments.value))];
        }
        h.Cleanup();
        handler := null;
        sent := [C.StoppedAll];
    }

    /** `handle_listen`: a missing or unparsable list is answered; otherwise the listener starts. */
    method HandleListen(args: string, instruments: Option<seq<string>>, klines: map<string, seq<PriceData>>)
      returns (sent: seq<C.Reply>, calls: seq<C.WsCall>)
      requires Valid()
      modifies this`handler, handler
      ensures Valid()
      ensures args == "" ==>
        sent == [C.MissingStrategy] && calls == [] && handler == old(handler) && (old(handler) != null ==> unchanged(old(handler)))
      ensures args != "" && C.ParseStrategies(args).Err? ==>
        sent == [C.ParseFailed(C.ParseStrategies(args).error)] && calls == []
        && handler == old(handler) && (old(handler) != null ==> unchanged(old(handler)))
      ensures args != "" && C.ParseStrategies(args).Ok? && old(handler) != null ==>
        handler == old(handler) && old(handler.strategies).Keys <= handler.strategies.Keys
        && handler.strategies.Keys <= old(handler.strategies).Keys + C.Elements(C.ParseStrategies(args).value)
      ensures args != "" && C.ParseStrategies(args).Ok? && old(handler) != null ==>
        var kinds := C.ParseStrategies(args).value;
        var active := old(handler.strategies).Keys;
        && calls == []
        && if forall k :: k in kinds && k !in active ==> k in factory.strategies then
          && handler.strategies.Keys == active + C.Elements(kinds)
          && sent == [if C.Fresh(kinds, active) == [] then C.AlreadyListening else C.ListeningFor(C.Fresh(kinds, active))]
        else
          active < handler.strategies.Keys && sent == [C.StartFailed]
      ensures args != "" && C.ParseStrategies(args).Ok? && old(handler) == null ==>
        var kinds := C.ParseStrategies(args).value;
        var built := forall k :: k in kinds ==> k in factory.strategies;
        var loaded := kinds == [] || instruments.Some?;
        var subscribed := !hasWs || instruments.Some?;
        if built && loaded && subscribed then
          && handler != null && fresh(handler) && handler.strategies.Keys == C.Elements(kinds)
          && (kinds != [] ==> handler.symbols == (set s | s in instruments.value) * klines.Keys)
          && sent == [C.ListeningFor(kinds)]
          && calls == (if hasWs then [C.Subscribe(C.Topics(C.DefaultInterval, instruments.value))] else [])
        else
          && sent == [C.StartFailed] && calls == []
          && (handler == null <==> kinds == [])
          && (handler != null ==> fresh(handler) && handler.strategies != map[])
      ensures old(Listening()) ==> Listening()
    {
      if args == "" {
        return [C.MissingStrategy], [];
      }
      match C.ParseStrategies(args)
      case Err(e) =>
        return [C.ParseFailed(e)], [];
      case Ok(kinds) =>
        sent, calls := StartListener(kinds, instruments, klines);
    }

    /** `handle_unlisten`: no argument stops everything; otherwise the lower-cased argument must name a kind. */
    method HandleUnlisten(args: string, instruments: Option<seq<string>>)
      returns (sent: seq<C.Reply>, calls: seq<C.WsCall>)
      requires Valid()
      modifies this`handler, handler
      ensures Valid()
      ensures args != "" && StrategyFromName(Tx.Lower(args)).None? ==>
        sent == [C.UnknownStrategy] && calls == [] && handler == old(handler) && (old(handler) != null ==> unchanged(old(handler)))
      ensures old(handler) != null && args != "" && StrategyFromName(Tx.Lower(args)).Some?
              && StrategyFromName(Tx.Lower(args)).value !in old(handler.strategies) ==>
        sent == [C.ListenForFirst(StrategyFromName(Tx.Lower(args)).value)]
        && handler == old(handler) && (old(handler) != null ==> unchanged(old(handler)))
      ensures old(handler) != null && args == "" && (!hasWs || instruments.Some?) ==> handler == null && sent == [C.StoppedAll]
      ensures old(Listening()) && (!hasWs || instruments.Some?) ==> Listening()
    {
      if args == "" {
        sent, calls := StopListener(None, instruments);
        return;
      }
      match StrategyFromName(Tx.Lower(args))
      case None =>
        return [C.UnknownStrategy], [];
      case Some(k) =>
        sent, calls := StopListener(Some(k), instruments);
    }
  }

  /**
   * `_clear_messages`: a count below 1 is refused; otherwise one pass over the newest `count`
   * messages deletes every unpinned one, so the channel is left as the two-pass clear of the
   * current handler leaves a text channel.
   */
  method ClearMessages(channel: C.Channel, count: int) returns (sent: seq<C.Reply>, deleted: nat)
    modifies channel`messages
    ensures count < 1 ==> sent == [C.CountMustBePositive] && deleted == 0 && channel.messages == old(channel.messages)
    ensures count >= 1 ==> sent == [] && channel.messages == C.Swept(old(channel.messages), count)
    ensures count >= 1 ==>
      var w := C.Reach(old(channel.messages), count);
      deleted == w - |C.Survivors(old(channel.messages)[..w], false)|
  {
    if count < 1 {
      return [C.CountMustBePositive], 0;
    }
    deleted := channel.DeleteUnpinned(count);
    sent := [];
  }

  /** `handle_clear`: the argument guards of the current handler, then the one-pass clear. */
  method HandleClear(args: string, channel: C.Channel) returns (sent: seq<C.Reply>)
    modifies channel`messages
    ensures C.PlanClear(args).Refuse? ==> sent == [C.PlanClear(args).reply] && channel.messages == old(channel.messages)
    ensures C.PlanClear(args).Clear? ==>
      sent == [] && channel.messages == C.Swept(old(channel.messages), C.PlanClear(args).count)
  {
    match C.PlanClear(args)
    case Refuse(reply) =>
      return [reply];
    case Clear(count) =>
      var deleted;
      sent, deleted := ClearMessages(channel, count);
  }
}
