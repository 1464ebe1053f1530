/**
 * The chat commands of the current bot (handlers/command_handler.py): the strategy-list parser,
 * the kline topics, the interval change, starting and stopping the signal listener, and the
 * `top` and `clear` commands with the channel history `clear` works on. Replies are the messages
 * the bot posts, named by their meaning; websocket requests are returned as calls.
 */
module Commands {
  import opened Wrappers
  import opened Text
  import opened Models
  import Intervals
  import Factory
  import PH = PriceHandler

  /** `DEFAULT_INTERVAL` with no environment override. */
  const DefaultInterval: string := "60"

  /** `[s for s in StrategyType if s != StrategyType.ALL]`, in declaration order. */
  const EveryKind: seq<StrategyType> := [Rsi, Macd, Bollinger, Ichimoku, Harmonic, VolumeProfile]

  /** No element occurs twice. */
  predicate Distinct<T(==)>(s: seq<T>)
  {
    forall i, j :: 0 <= i < j < |s| ==> s[i] != s[j]
  }

  /** `all` stands for each other kind once. */
  lemma EveryKindShape()
    ensures |EveryKind| > 0 && All !in EveryKind && Distinct(EveryKind)
    ensures forall k :: k in EveryKind <==> k != All
  {
    forall k: StrategyType ensures k in EveryKind <==> k != All {
      match k
      case Rsi =>
      case Macd =>
      case Bollinger =>
      case Ichimoku =>
      case Harmonic =>
      case VolumeProfile =>
      case All =>
    }
  }

  /** A message the bot posts in answer to a command. */
  datatype Reply =
    | CurrentInterval(interval: string)
    | AlreadyUsing
    | Invalid(message: string)
    | IntervalUpdated(interval: string)
    | IntervalSet(interval: string)
    | IntervalFailed
    | MissingStrategy
    | ParseFailed(message: string)
    | ListeningFor(kinds: seq<StrategyType>)
    | AlreadyListening
    | StartFailed
    | ListenFirst
    | ListenForFirst(kind: StrategyType)
    | Stopped(kind: StrategyType)
    | StoppedAll
    | StopFailed
    | UnknownStrategy
    | MissingArgument
    | TopCoins(ascending: bool)
    | UnknownArgument
    | MissingCount
    | InvalidCount
    | CountMustBePositive
    | CannotClear

  /** A request to the websocket client; the handler passed along with a subscription is not recorded. */
  datatype WsCall = Subscribe(topics: seq<string>) | Unsubscribe(topics: seq<string>)

  // The strategy-list parser.

  /** The kind each comma-separated piece names once stripped (`StrategyType(s.strip())`), if any. */
  function Lookups(pieces: seq<string>): (r: seq<Option<StrategyType>>)
    ensures |r| == |pieces| && forall i :: 0 <= i < |pieces| ==> r[i] == StrategyFromName(Strip(pieces[i]))
  {
    seq(|pieces|, i requires 0 <= i < |pieces| => StrategyFromName(Strip(pieces[i])))
  }

  /** The position of the first piece that names no kind, or the number of pieces. */
  function FirstNone(lookups: seq<Option<StrategyType>>): (i: nat)
    ensures i <= |lookups|
    ensures forall j :: 0 <= j < i ==> lookups[j].Some?
    ensures i < |lookups| ==> lookups[i].None?
    ensures i == |lookups| <==> None !in lookups
  {
    if |lookups| == 0 || lookups[0].None? then 0
    else
      var i := FirstNone(lookups[1..]);
      assert forall j :: 1 <= j < |lookups| ==> lookups[j] == lookups[1..][j - 1];
      1 + i
  }

  /** The kinds the pieces name, `all` left out, in order. */
  function Collect(lookups: seq<Option<StrategyType>>): (r: seq<StrategyType>)
    ensures forall k :: k in r <==> k != All && Some(k) in lookups
  {
    if |lookups| == 0 then []
    else
      var rest := Collect(lookups[1..]);
      assert forall x :: x in lookups <==> x == lookups[0] || x in lookups[1..];
      match lookups[0]
      case Some(k) => if k == All then rest else [k] + rest
      case None => rest
  }

  /**
   * `list(set(...))`: every element once. Python's order depends on hashing; the model lists the
   * elements in the order of first occurrence, and its contract states only what holds for every
   * order: the same elements, each once.
   */
  function Dedup<T(==, !new)>(s: seq<T>): (r: seq<T>)
    ensures forall x :: x in r <==> x in s
    ensures Distinct(r)
  {
    if |s| == 0 then []
    else
      var p := Dedup(s[..|s| - 1]);
      var x := s[|s| - 1];
      assert forall y :: y in s <==> y in s[..|s| - 1] || y == x;
      if x in p then p else p + [x]
  }

  /**
   * The comma-separated branch of `_parse_strategies`: the first piece that names no kind is
   * reported; `all` pieces are dropped; an empty outcome is refused; duplicates go.
   */
  function ParsePieces(pieces: seq<string>): (r: Result<seq<StrategyType>>)
    ensures var ls := Lookups(pieces);
      && (FirstNone(ls) < |ls| ==> r == Err("Unknown strategy: " + Strip(pieces[FirstNone(ls)])))
      && (None !in ls && (forall k :: Some(k) in ls ==> k == All) ==> r == Err("No valid strategies provided"))
      && (r.Ok? ==> None !in ls && forall k :: k in r.value <==> k != All && Some(k) in ls)
      && (r.Err? ==> FirstNone(ls) < |ls| || forall k :: Some(k) in ls ==> k == All)
    ensures r.Ok? ==> |r.value| > 0 && All !in r.value && Distinct(r.value)
  {
    var ls := Lookups(pieces);
    var i := FirstNone(ls);
    if i < |ls| then Err("Unknown strategy: " + Strip(pieces[i]))
    else
      var ks := Collect(ls);
      if |ks| == 0 then Err("No valid strategies provided")
      else
        var d := Dedup(ks);
        assert ks[0] in d;
        Ok(d)
  }

  /**
   * `_parse_strategies`: the input is lower-cased and stripped; `all` gives every kind but ALL;
   * otherwise each comma-separated piece, stripped, must name a kind (the first that does not is
   * reported), `all` inside a list is dropped, an empty outcome is refused, and duplicates go.
   */
  function ParseStrategies(input: string): (r: Result<seq<StrategyType>>)
    ensures Strip(Lower(input)) == "all" ==> r == Ok(EveryKind)
    ensures Strip(Lower(input)) != "all" ==> r == ParsePieces(Split(Strip(Lower(input)), ','))
    ensures r.Ok? ==> |r.value| > 0 && All !in r.value && Distinct(r.value)
  {
    var s := Strip(Lower(input));
    if s == "all" then
      EveryKindShape();
      Ok(EveryKind)
    else
      ParsePieces(Split(s, ','))
  }

  /** The values of some kinds, in order. */
  function Names(ks: seq<StrategyType>): (r: seq<string>)
    ensures |r| == |ks| && forall i :: 0 <= i < |ks| ==> r[i] == StrategyName(ks[i])
  {
    seq(|ks|, i requires 0 <= i < |ks| => StrategyName(ks[i]))
  }

  /** A character a kind's value may hold. */
  predicate NameChar(c: char)
  {
    'a' <= c <= 'z' || c == '_'
  }

  /** A kind's value is a non-empty run of lower-case letters and underscores. */
  lemma NameShape(k: StrategyType)
    ensures |StrategyName(k)| > 0 && forall i :: 0 <= i < |StrategyName(k)| ==> NameChar(StrategyName(k)[i])
  {
  }

  /** A kind's value is its own lower-cased, stripped form. */
  lemma NameIsPlain(k: StrategyType)
    ensures Strip(Lower(StrategyName(k))) == StrategyName(k)
    ensures Strip(StrategyName(k)) == StrategyName(k)
  {
    var n := StrategyName(k);
    NameShape(k);
    assert Lower(n) == n;
    StripUnspaced(n);
  }

  /** Text of lower-case letters, underscores and commas is its own lower-cased, stripped form. */
  lemma PlainText(s: string)
    requires |s| > 0 && forall i :: 0 <= i < |s| ==> NameChar(s[i]) || s[i] == ','
    ensures Strip(Lower(s)) == s
  {
    assert Lower(s) == s;
    StripUnspaced(s);
  }

  /** The comma-joined values of some kinds are their own lower-cased, stripped form. */
  lemma JoinedPlain(ks: seq<StrategyType>)
    requires |ks| > 0
    ensures var text := Join(Names(ks), ','); Strip(Lower(text)) == text
  {
    var parts := Names(ks);
    var text := Join(parts, ',');
    forall p, i | p in parts && 0 <= i < |p| ensures NameChar(p[i]) || p[i] == ',' {
      var j :| 0 <= j < |parts| && parts[j] == p;
      NameShape(ks[j]);
    }
    JoinChars(parts, ',', (c: char) => NameChar(c) || c == ',');
    assert |text| > 0 by {
      NameShape(ks[0]);
      if |parts| > 1 {
        assert text == parts[0] + [','] + Join(parts[1..], ',');
      }
    }
    PlainText(text);
  }

  /** The comma-joined values of some kinds other than ALL split back into those values and are not `all`. */
  lemma JoinedSplits(ks: seq<StrategyType>)
    requires |ks| > 0 && All !in ks
    ensures var text := Join(Names(ks), ','); text != "all" && Split(text, ',') == Names(ks)
  {
    var parts := Names(ks);
    var text := Join(parts, ',');
    forall p | p in parts ensures ',' !in p {
      var j :| 0 <= j < |parts| && parts[j] == p;
      NameShape(ks[j]);
    }
    SplitJoin(parts, ',');
    if text == "all" {
      SplitNoSep(text, ',');
      assert parts == ["all"];
      StrategyNameRoundTrip(ks[0]);
    }
  }

  /** Each kind's value looks up that kind. */
  lemma LookupsOfNames(ks: seq<StrategyType>)
    ensures None !in Lookups(Names(ks))
    ensures forall k :: Some(k) in Lookups(Names(ks)) <==> k in ks
  {
    var ls := Lookups(Names(ks));
    assert |ls| == |ks|;
    forall i | 0 <= i < |ks|
      ensures ls[i] == Some(ks[i])
    {
      assert Names(ks)[i] == StrategyName(ks[i]);
      NameIsPlain(ks[i]);
      StrategyNameRoundTrip(ks[i]);
    }
    forall k ensures Some(k) in ls <==> k in ks {
      if k in ks {
        var i :| 0 <= i < |ks| && ks[i] == k;
        assert ls[i] == Some(k);
      }
      if Some(k) in ls {
        var i :| 0 <= i < |ls| && ls[i] == Some(k);
        assert ls[i] == Some(ks[i]);
      }
    }
  }

  /** Parsing the comma-joined values of some kinds other than ALL gives back exactly those kinds. */
  lemma ParseJoinedNames(ks: seq<StrategyType>)
    requires |ks| > 0 && All !in ks
    ensures ParseStrategies(Join(Names(ks), ',')).Ok?
    ensures forall k :: k in ParseStrategies(Join(Names(ks), ',')).value <==> k in ks
  {
    var text := Join(Names(ks), ',');
    JoinedPlain(ks);
    JoinedSplits(ks);
    LookupsOfNames(ks);
    assert ParseStrategies(text) == ParsePieces(Names(ks));
    assert Some(ks[0]) in Lookups(Names(ks)) && ks[0] != All;
  }

  // Topics.

  /** `f'kline.{interval}.{symbol}'` */
  function Topic(interval: string, symbol: string): string
  {
    "kline." + interval + "." + symbol
  }

  /** One topic per symbol, in order. */
  function Topics(interval: string, symbols: seq<string>): (r: seq<string>)
    ensures |r| == |symbols| && forall i :: 0 <= i < |symbols| ==> r[i] == Topic(interval, symbols[i])
  {
    seq(|symbols|, i requires 0 <= i < |symbols| => Topic(interval, symbols[i]))
  }

  /** A topic splits on '.' back into `kline`, its interval and its symbol. */
  lemma TopicParts(interval: string, symbol: string)
    requires '.' !in interval && '.' !in symbol
    ensures Split(Topic(interval, symbol), '.') == ["kline", interval, symbol]
    ensures LastSegment(Topic(interval, symbol), '.') == symbol
  {
    var parts := ["kline", interval, symbol];
    assert Join(parts, '.') == Topic(interval, symbol) by {
      assert parts[1..][1..] == [symbol];
      assert Join(parts[1..], '.') == interval + "." + symbol;
    }
    SplitJoin(parts, '.');
  }

  // The `top` and `clear` guards.

  /** `handle_top`: `winners` lists the best coins, `losers` the worst, anything else is refused. */
  function TopChoice(args: string): (r: Reply)
    ensures args == "" <==> r == MissingArgument
    ensures r.TopCoins? <==> args == "winners" || args == "losers"
    ensures r.TopCoins? ==> (r.ascending <==> args == "losers")
    ensures r == UnknownArgument <==> args != "" && args != "winners" && args != "losers"
  {
    if args == "" then MissingArgument
    else if args == "winners" then TopCoins(false)
    else if args == "losers" then TopCoins(true)
    else UnknownArgument
  }

  /** What `handle_clear` and the guard of `_clear_messages` make of the argument. */
  datatype ClearPlan = Refuse(reply: Reply) | Clear(count: nat)

  /** A missing count, one `int()` refuses, or one below 1 is answered; any other is cleared. */
  function PlanClear(args: string): (r: ClearPlan)
    ensures r.Clear? <==> args != "" && ParseInt(args).Some? && ParseInt(args).value >= 1
    ensures r.Clear? ==> r.count == ParseInt(args).value
    ensures r == Refuse(MissingCount) <==> args == ""
    ensures r == Refuse(InvalidCount) <==> args != "" && ParseInt(args).None?
    ensures r == Refuse(CountMustBePositive) <==> args != "" && ParseInt(args).Some? && ParseInt(args).value < 1
  {
    if args == "" then Refuse(MissingCount)
    else
      match ParseInt(args)
      case None => Refuse(InvalidCount)
      case Some(n) => if n < 1 then Refuse(CountMustBePositive) else Clear(n)
  }

  // The channel history `clear` works on.

  /** A message of the history: pinned or not, and young enough for a bulk delete or not. */
  datatype Msg = Msg(id: nat, pinned: bool, recent: bool)

  /** How many of the newest messages a `limit` reaches. */
  function Reach(history: seq<Msg>, limit: int): (w: nat)
    ensures w <= |history| && (limit >= 0 ==> w <= limit)
  {
    if limit < 0 then 0 else if limit < |history| then limit else |history|
  }

  /**
   * What one deleting pass over `window` leaves: the pinned messages, and with `bulkOnly` also
   * those too old for a bulk delete, in order.
   */
  function Survivors(window: seq<Msg>, bulkOnly: bool): (r: seq<Msg>)
    ensures |r| <= |window|
    ensures forall m :: m in r <==> m in window && (m.pinned || (bulkOnly && !m.recent))
  {
    if |window| == 0 then []
    else
      var p := Survivors(window[..|window| - 1], bulkOnly);
      var m := window[|window| - 1];
      assert forall x :: x in window <==> x in window[..|window| - 1] || x == m;
      if m.pinned || (bulkOnly && !m.recent) then p + [m] else p
  }

  /** The history after `purge(limit=limit, check=not pinned)`. */
  function Purged(history: seq<Msg>, limit: int): seq<Msg>
  {
    var w := Reach(history, limit);
    Survivors(history[..w], true) + history[w..]
  }

  /** The history after deleting every unpinned message among the newest `limit`. */
  function Swept(history: seq<Msg>, limit: int): seq<Msg>
  {
    var w := Reach(history, limit);
    Survivors(history[..w], false) + history[w..]
  }

  /** Deleting the unpinned messages of what a purge left is deleting them from the start. */
  lemma {:induction false} SurvivorsTwice(window: seq<Msg>)
    ensures Survivors(Survivors(window, true), false) == Survivors(window, false)
    decreases |window|
  {
    if |window| > 0 {
      var front := window[..|window| - 1];
      var m := window[|window| - 1];
      SurvivorsTwice(front);
      var p := Survivors(front, true);
      if m.pinned || !m.recent {
        assert Survivors(window, true) == p + [m];
        assert (p + [m])[..|p|] == p;
      }
    }
  }

  /**
   * The two passes of `_clear_messages`: a purge of the newest `count`, then, when it deleted
   * fewer than `count`, a pass over the newest `count - deleted` of what is left. Whatever the
   * purge could reach, the outcome is every unpinned message of the newest `count` gone.
   */
  lemma TwoPassClear(history: seq<Msg>, count: int)
    requires count >= 1
    ensures var w := Reach(history, count);
      var deleted := w - |Survivors(history[..w], true)|;
      var remaining := count - deleted;
      (remaining > 0 ==> Swept(Purged(history, count), remaining) == Swept(history, count))
      && (remaining <= 0 ==> Purged(history, count) == Swept(history, count))
  {
    var w := Reach(history, count);
    var window := history[..w];
    var p := Survivors(window, true);
    var remaining := count - (w - |p|);
    var after := Purged(history, count);
    assert after == p + history[w..];
    SurvivorsTwice(window);
    if remaining > 0 {
      assert Reach(after, remaining) == |p|;
      assert after[..|p|] == p && after[|p|..] == history[w..];
    } else {
      assert |p| == 0;
      assert forall m :: m in Survivors(window, false) ==> m in p;
      assert Survivors(window, false) == [];
    }
  }

  /** A text channel's history, newest first. */
  class Channel {
    /** `isinstance(channel, TextChannel)` */
    const isText: bool
    var messages: seq<Msg>

    constructor(isText: bool, messages: seq<Msg>)
      ensures this.isText == isText && this.messages == messages
    {
      this.isText := isText;
      this.messages := messages;
    }

    /**
     * `purge(limit, check=not pinned, bulk=True)`: the unpinned messages among the newest
     * `limit` that a bulk delete reaches are deleted, and their number returned.
     */
    method Purge(limit: int) returns (deleted: nat)
      modifies this`messages
      ensures messages == Purged(old(messages), limit)
      ensures var w := Reach(old(messages), limit); deleted == w - |Survivors(old(messages)[..w], true)|
    {
      var w := Reach(messages, limit);
      var kept := Survivors(messages[..w], true);
      deleted := w - |kept|;
      messages := kept + messages[w..];
    }

    /**
     * `async for msg in channel.history(limit=limit): if not msg.pinned: await msg.delete()`:
     * every unpinned message among the newest `limit` is deleted, and their number returned.
     */
    method DeleteUnpinned(limit: int) returns (deleted: nat)
      modifies this`messages
      ensures messages == Swept(old(messages), limit)
      ensures var w := Reach(old(messages), limit); deleted == w - |Survivors(old(messages)[..w], false)|
    {
      var w := Reach(messages, limit);
      var window := messages[..w];
      var kept: seq<Msg> := [];
      var i := 0;
      deleted := 0;
      while i < w
        invariant 0 <= i <= w
        invariant kept == Survivors(window[..i], false)
        invariant deleted == i - |kept|
      {
        assert window[..i + 1][..i] == window[..i];
        if window[i].pinned {
          kept := kept + [window[i]];
        } else {
          deleted := deleted + 1;
        }
        i := i + 1;
      }
      assert window[..w] == window;
      messages := kept + messages[w..];
    }
  }

  /**
   * `_clear_messages`: a count below 1 is refused and a channel that is not a text channel is
   * answered; otherwise the purge and, for what it left, the pass over the history leave the
   * newest `count` messages with only their pinned ones.
   */
  method ClearMessages(channel: Channel, count: int) returns (sent: seq<Reply>)
    modifies channel`messages
    ensures count < 1 ==> sent == [CountMustBePositive] && channel.messages == old(channel.messages)
    ensures count >= 1 && !channel.isText ==> sent == [CannotClear] && channel.messages == old(channel.messages)
    ensures count >= 1 && channel.isText ==> sent == [] && channel.messages == Swept(old(channel.messages), count)
  {
    if count < 1 {
      return [CountMustBePositive];
    }
    if !channel.isText {
      return [CannotClear];
    }
    TwoPassClear(channel.messages, count);
    var deleted := channel.Purge(count);
    var remaining := count - deleted;
    if remaining > 0 {
      var more := channel.DeleteUnpinned(remaining);
    }
    return [];
  }

  /** `handle_clear` */
  method HandleClear(args: string, channel: Channel) returns (sent: seq<Reply>)
    modifies channel`messages
    ensures PlanClear(args).Refuse? ==> sent == [PlanClear(args).reply] && channel.messages == old(channel.messages)
    ensures PlanClear(args).Clear? && !channel.isText ==> sent == [CannotClear] && channel.messages == old(channel.messages)
    ensures PlanClear(args).Clear? && channel.isText ==>
      sent == [] && channel.messages == Swept(old(channel.messages), PlanClear(args).count)
  {
    match PlanClear(args)
    case Refuse(reply) =>
      return [reply];
    case Clear(count) =>
      sent := ClearMessages(channel, count);
  }

  // The listener lifecycle.

  /** The kinds of `kinds` not active at their turn, each once, in order. */
  function Fresh(kinds: seq<StrategyType>, active: set<StrategyType>): (r: seq<StrategyType>)
    ensures forall k :: k in r <==> k in kinds && k !in active
    ensures Distinct(r)
  {
    if |kinds| == 0 then []
    else
      var p := Fresh(kinds[..|kinds| - 1], active);
      var k := kinds[|kinds| - 1];
      assert forall x :: x in kinds <==> x in kinds[..|kinds| - 1] || x == k;
      if k in active || k in p then p else p + [k]
  }

  /** The elements of a list. */
  function Elements(kinds: seq<StrategyType>): set<StrategyType>
  {
    set k | k in kinds
  }

  /** One more kind: it joins the elements, and joins the fresh kinds when it is new. */
  lemma FreshStep(kinds: seq<StrategyType>, i: nat, active: set<StrategyType>)
    requires i < |kinds|
    ensures Elements(kinds[..i + 1]) == Elements(kinds[..i]) + {kinds[i]}
    ensures Fresh(kinds[..i + 1], active) ==
      if kinds[i] in active || kinds[i] in Elements(kinds[..i]) then Fresh(kinds[..i], active)
      else Fresh(kinds[..i], active) + [kinds[i]]
  {
    assert kinds[..i + 1] == kinds[..i] + [kinds[i]];
    assert kinds[..i + 1][..i] == kinds[..i];
  }

  /** `active_strategies`: the kinds the handler has a configuration for, in some order. */
  method ActiveStrategies(h: PH.PriceHandler) returns (r: seq<StrategyType>)
    ensures Elements(r) == h.strategies.Keys && Distinct(r)
  {
    r := [];
    var todo := h.strategies.Keys;
    while todo != {}
      invariant todo !! Elements(r) && todo + Elements(r) == h.strategies.Keys && Distinct(r)
      decreases todo
    {
      var k :| k in todo;
      r := r + [k];
      todo := todo - {k};
    }
  }

  /**
   * One turn of the `add_strategy` loops: `kinds[i]` is added unless it is active already; the
   * factory failing on it is reported with its configuration recorded.
   */
  method AddNext(h: PH.PriceHandler, kinds: seq<StrategyType>, i: nat, factory: Factory.StrategyFactory,
                 ghost active: set<StrategyType>, added: seq<StrategyType>)
    returns (r: Result<()>, added': seq<StrategyType>)
    requires h.Valid() && i < |kinds|
    requires h.strategies.Keys == active + Elements(kinds[..i]) && added == Fresh(kinds[..i], active)
    modifies h`strategies, h`instances
    ensures h.Valid()
    ensures r.Ok? <==> kinds[i] in active || kinds[i] in Elements(kinds[..i]) || kinds[i] in factory.strategies
    ensures r.Ok? ==> h.strategies.Keys == active + Elements(kinds[..i + 1]) && added' == Fresh(kinds[..i + 1], active)
    ensures r.Err? ==> kinds[i] !in active && h.strategies.Keys == old(h.strategies).Keys + {kinds[i]}
  {
    var k := kinds[i];
    FreshStep(kinds, i, active);
    added' := added;
    if k !in h.strategies {
      r := h.AddStrategy(k, factory);
      if r.Err? {
        return;
      }
      added' := added + [k];
    } else {
      r := Ok(());
    }
  }

  /**
   * The `add_strategy` loops: every kind not yet active is added, in order, and listed in
   * `added`; the first kind the factory cannot build stops the loop with its configuration
   * recorded.
   */
  method AddAll(h: PH.PriceHandler, kinds: seq<StrategyType>, factory: Factory.StrategyFactory)
    returns (r: Result<()>, added: seq<StrategyType>)
    requires h.Valid()
    modifies h`strategies, h`instances
    ensures h.Valid()
    ensures r.Ok? <==> forall k :: k in kinds && k !in old(h.strategies) ==> k in factory.strategies
    ensures r.Ok? ==> h.strategies.Keys == old(h.strategies).Keys + Elements(kinds)
    ensures r.Ok? ==> added == Fresh(kinds, old(h.strategies).Keys)
    ensures r.Err? ==> old(h.strategies).Keys < h.strategies.Keys <= old(h.strategies).Keys + Elements(kinds)
  {
    ghost var active := h.strategies.Keys;
    var i := 0;
    added := [];
    while i < |kinds|
      invariant 0 <= i <= |kinds|
      invariant h.Valid()
      invariant h.strategies.Keys == active + Elements(kinds[..i])
      invariant added == Fresh(kinds[..i], active)
      invariant forall j :: 0 <= j < i && kinds[j] !in active ==> kinds[j] in factory.strategies
    {
      r, added := AddNext(h, kinds, i, factory, active, added);
      if r.Err? {
        assert kinds[i] in Elements(kinds);
        assert Elements(kinds[..i]) <= Elements(kinds);
        return;
      }
      i := i + 1;
    }
    assert kinds[..i] == kinds;
    return Ok(()), added;
  }

  /**
   * `initialize` on a handler that tracks no symbol yet: without strategies it does nothing;
   * otherwise the instrument request (`None` when it raises) names the symbols, and each is
   * loaded from `klines`.
   */
  method Initialize(h: PH.PriceHandler, instruments: Option<seq<string>>, klines: map<string, seq<PriceData>>)
    returns (ok: bool)
    requires h.Valid() && h.symbols == {}
    modifies h`symbols, h`priceData, h`instances
    ensures h.Valid()
    ensures ok <==> h.strategies == map[] || instruments.Some?
    ensures h.strategies == map[] || instruments.None? ==>
      h.symbols == {} && h.priceData == old(h.priceData) && h.instances == old(h.instances)
    ensures h.strategies != map[] && instruments.Some? ==>
      var listed := set s | s in instruments.value;
      && h.symbols == listed * klines.Keys
      && h.priceData == old(h.priceData) + PH.Histories(klines, listed)
      && h.instances == PH.SeededAll(old(h.instances), PH.Seeds(klines, listed))
  {
    if h.strategies == map[] {
      return true;
    }
    if instruments.None? {
      return false;
    }
    h.InitializeListed((set s | s in instruments.value), klines);
    return true;
  }

  /** A valid interval always makes a handler, of that interval. */
  lemma ValidIntervalCreates(v: string)
    requires v in Intervals.ValidIntervals
    ensures PH.HandlerInterval(Some(v), DefaultInterval).Ok?
    ensures PH.HandlerInterval(Some(v), DefaultInterval).value.0 == v
  {
    Intervals.ValidFirstChar(v);
  }

  /**
   * The start of a handler's life in the command handler: a handler of interval `v` is created,
   * gets every kind of `kinds`, and is initialised. `built` says that every add and the
   * initialisation went through; a failed handler always holds some strategy.
   */
  method NewHandler(v: string, kinds: seq<StrategyType>, factory: Factory.StrategyFactory,
                    instruments: Option<seq<string>>, klines: map<string, seq<PriceData>>)
    returns (h: PH.PriceHandler, built: bool)
    requires v in Intervals.ValidIntervals
    ensures fresh(h) && h.Valid() && h.intervalStr == v
    ensures built <==> (forall k :: k in kinds ==> k in factory.strategies) && (kinds == [] || instruments.Some?)
    ensures built ==> h.strategies.Keys == Elements(kinds)
    ensures built && kinds != [] ==> h.symbols == (set s | s in instruments.value) * klines.Keys
    ensures !built ==> h.strategies != map[]
    ensures h.strategies == map[] <==> kinds == []
  {
    ValidIntervalCreates(v);
    var created := PH.PriceHandler.Create(Some(v), DefaultInterval);
    h := created.value;
    var r, _ := AddAll(h, kinds, factory);
    if r.Err? {
      // The failed kind's configuration is recorded, so the handler holds a strategy.
      return h, false;
    }
    built := Initialize(h, instruments, klines);
    if kinds != [] {
      assert kinds[0] in Elements(kinds);
    }
  }

  /** `CommandHandler` of handlers/command_handler.py. */
  class CommandHandler {
    const factory: Factory.StrategyFactory
    /** `bybit_ws_client is not None` */
    const hasWs: bool
    var currentInterval: string
    var handler: PH.PriceHandler?

    /** The interval is a valid one, and a live handler is valid and uses it. */
    predicate Valid()
      reads this, handler
    {
      && currentInterval in Intervals.ValidIntervals
      && (handler != null ==> handler.Valid() && handler.intervalStr == currentInterval)
    }

    /** The two states of the lifecycle: no handler, or a handler with at least one strategy. */
    predicate Listening()
      reads this, handler
    {
      handler != null ==> handler.strategies != map[]
    }

    /** `__init__`: the default interval and no handler. */
    constructor(factory: Factory.StrategyFactory, hasWs: bool)
      ensures this.factory == factory && this.hasWs == hasWs
      ensures currentInterval == DefaultInterval && handler == null
      ensures Valid() && Listening()
    {
      this.factory := factory;
      this.hasWs := hasWs;
      currentInterval := DefaultInterval;
      handler := null;
    }

    /**
     * `_start_signal_listener`. A live handler only gets the kinds not yet active, and nothing
     * is subscribed; the reply lists those kinds, or says all were active. Otherwise a new
     * handler of the current interval gets every kind, is initialised, and its topics are
     * subscribed. A failure is answered; the handler is dropped only when it holds no strategy.
     */
    method StartListener(kinds: seq<StrategyType>, instruments: Option<seq<string>>,
                         klines: map<string, seq<PriceData>>) returns (sent: seq<Reply>, calls: seq<WsCall>)
      requires Valid()
      modifies this`handler, handler
      ensures Valid()
      ensures currentInterval == old(currentInterval)
      ensures old(handler) != null ==> handler == old(handler) && calls == []
      ensures old(handler) != null ==>
        var active := old(handler.strategies).Keys;
        if forall k :: k in kinds && k !in active ==> k in factory.strategies then
          && handler.strategies.Keys == active + Elements(kinds)
          && sent == [if Fresh(kinds, active) == [] then AlreadyListening else ListeningFor(Fresh(kinds, active))]
        else
          active < handler.strategies.Keys && sent == [StartFailed]
      ensures old(handler) == null ==>
        var built := forall k :: k in kinds ==> k in factory.strategies;
        var loaded := kinds == [] || instruments.Some?;
        var subscribed := !hasWs || instruments.Some?;
        if built && loaded && subscribed then
          && handler != null && fresh(handler) && handler.strategies.Keys == Elements(kinds)
          && (kinds != [] ==> handler.symbols == (set s | s in instruments.value) * klines.Keys)
          && sent == [ListeningFor(kinds)]
          && calls == (if hasWs then [Subscribe(Topics(currentInterval, instruments.value))] else [])
        else
          && sent == [StartFailed] && calls == []
          && (handler == null <==> kinds == [])
          && (handler != null ==> fresh(handler) && handler.strategies != map[])
      ensures old(handler) != null ==>
        old(handler.strategies).Keys <= handler.strategies.Keys <= old(handler.strategies).Keys + Elements(kinds)
      ensures |kinds| > 0 && old(Listening()) ==> Listening()
    {
      if handler == null {
        var h, built := NewHandler(currentInterval, kinds, factory, instruments, klines);
        handler := h;
        if !built {
          return [StartFailed], [];
        }
        if hasWs {
          if instruments.None? {
            if h.strategies == map[] {
              h.Cleanup();
              handler := null;
            }
            return [StartFailed], [];
          }
          calls := [Subscribe(Topics(currentInterval, instruments.value))];
        } else {
          calls := [];
        }
        sent := [ListeningFor(kinds)];
      } else {
        var h := handler;
        var r, added := AddAll(h, kinds, factory);
        calls := [];
        if r.Err? {
          // A failed add leaves its configuration behind, so the handler is kept.
          return [StartFailed], [];
        }
        sent := [if added == [] then AlreadyListening else ListeningFor(added)];
      }
    }

    /**
     * `_stop_signal_listener`. Without a handler the user is told to listen first. A kind that
     * is not active changes nothing. Removing the last kind, or stopping all, unsubscribes the
     * topics, cleans the handler up and drops it; when the instrument request fails on the way,
     * the handler stays with what was removed already gone.
     */
    method StopListener(kind: Option<StrategyType>, instruments: Option<seq<string>>)
      returns (sent: seq<Reply>, calls: seq<WsCall>)
      requires Valid()
      modifies this`handler, handler
      ensures Valid()
      ensures currentInterval == old(currentInterval)
      ensures old(handler) == null ==> handler == null && sent == [ListenFirst] && calls == []
      ensures old(handler) != null && kind.Some? && kind.value !in old(handler.strategies) ==>
        handler == old(handler) && (old(handler) != null ==> unchanged(old(handler))) && sent == [ListenForFirst(kind.value)] && calls == []
      ensures old(handler) != null && kind.Some? && kind.value in old(handler.strategies) ==>
        var k := kind.value;
        var rest := old(handler.strategies) - {k};
        && old(handler).strategies == rest
        && old(handler).signals == PH.WithoutStrategy(old(handler.signals), k)
        && if rest != map[] then
             handler == old(handler) && sent == [Stopped(k)] && calls == []
           else if hasWs && instruments.None? then
             handler == old(handler) && sent == [Stopped(k), StopFailed] && calls == []
           else
             && handler == null && !old(handler).running && sent == [Stopped(k)]
             && calls == (if hasWs then [Unsubscribe(Topics(currentInterval, instruments.value))] else [])
      ensures old(handler) != null && kind.None? ==>
        && old(handler).strategies == map[] && old(handler).signals == map[]
        && if hasWs && instruments.None? then
             handler == old(handler) && sent == [StopFailed] && calls == []
           else
             && handler == null && !old(handler).running && sent == [StoppedAll]
             && calls == (if hasWs then [Unsubscribe(Topics(currentInterval, instruments.value))] else [])
      ensures old(Listening()) && (!hasWs || instruments.Some?) ==> Listening()
    {
      if handler == null {
        return [ListenFirst], [];
      }
      var h := handler;
      calls := [];
      match kind
      case Some(k) =>
        if k !in h.strategies {
          return [ListenForFirst(k)], [];
        }
        h.RemoveStrategy(Some(k));
        sent := [Stopped(k)];
        if h.strategies == map[] {
          if hasWs {
            if instruments.None? {
              return sent + [StopFailed], [];
            }
            calls := [Unsubscribe(Topics(currentInterval, instruments.value))];
          }
          h.Cleanup();
          handler := null;
        }
      case None =>
        h.RemoveStrategy(None);
        if hasWs {
          if instruments.None? {
            return [StopFailed], [];
          }
          calls := [Unsubscribe(Topics(currentInterval, instruments.value))];
        }
        h.Cleanup();
        handler := null;
        sent := [StoppedAll];
    }

    /**
     * The change of interval under a live handler: the old topics are unsubscribed, the handler
     * is cleaned up and replaced by a new one of interval `v` that gets the same strategies, is
     * initialised and has its topics subscribed.
     */
    method Rebuild(v: string, instruments: Option<seq<string>>, klines: map<string, seq<PriceData>>)
      returns (sent: seq<Reply>, calls: seq<WsCall>)
      requires Valid() && handler != null && v in Intervals.ValidIntervals
      requires !hasWs || instruments.Some?
      modifies this`currentInterval, this`handler, handler
      ensures Valid()
      ensures currentInterval == v && !old(handler).running
      ensures handler != null && fresh(handler) && handler.intervalStr == v
      ensures var active := old(handler.strategies).Keys;
        var dropped := if hasWs then [Unsubscribe(Topics(old(currentInterval), instruments.value))] else [];
        if (forall k :: k in active ==> k in factory.strategies) && (active == {} || instruments.Some?) then
          && handler.strategies.Keys == active
          && sent == [IntervalUpdated(v)]
          && calls == dropped + (if hasWs then [Subscribe(Topics(v, instruments.value))] else [])
        else
          sent == [IntervalFailed] && calls == dropped
    {
      var retired := handler;
      var current := ActiveStrategies(retired);
      calls := if hasWs then [Unsubscribe(Topics(currentInterval, instruments.value))] else [];
      retired.Cleanup();
      currentInterval := v;
      var h, built := NewHandler(v, current, factory, instruments, klines);
      handler := h;
      assert (forall k :: k in current ==> k in factory.strategies)
         <==> (forall k :: k in old(handler.strategies).Keys ==> k in factory.strategies);
      assert current == [] <==> old(handler.strategies).Keys == {} by {
        if current != [] {
          assert current[0] in Elements(current);
        }
      }
      if !built {
        return [IntervalFailed], calls;
      }
      if hasWs {
        calls := calls + [Subscribe(Topics(v, instruments.value))];
      }
      sent := [IntervalUpdated(v)];
    }

    /**
     * `handle_interval`. No argument shows the interval; an invalid one or the current one is
     * answered with nothing changed; without a handler only the interval changes. With one, the
     * old topics are unsubscribed, the handler cleaned up, and a new one of the new interval
     * gets the same strategies, is initialised, and its topics are subscribed.
     */
    method HandleInterval(args: string, instruments: Option<seq<string>>, klines: map<string, seq<PriceData>>)
      returns (sent: seq<Reply>, calls: seq<WsCall>)
      requires Valid()
      modifies this`currentInterval, this`handler, handler
      ensures Valid()
      ensures args == "" ==>
        sent == [CurrentInterval(old(currentInterval))] && calls == []
        && currentInterval == old(currentInterval) && handler == old(handler) && (old(handler) != null ==> unchanged(old(handler)))
      ensures args != "" && Intervals.ValidateInterval(args).Err? ==>
        sent == [Invalid(Intervals.ValidateInterval(args).error)] && calls == []
        && currentInterval == old(currentInterval) && handler == old(handler) && (old(handler) != null ==> unchanged(old(handler)))
      ensures args != "" && Intervals.ValidateInterval(args) == Ok(old(currentInterval)) ==>
        sent == [AlreadyUsing] && calls == []
        && currentInterval == old(currentInterval) && handler == old(handler) && (old(handler) != null ==> unchanged(old(handler)))
      ensures args != "" && old(handler) == null && Intervals.ValidateInterval(args).Ok?
              && Intervals.ValidateInterval(args).value != old(currentInterval) ==>
        sent == [IntervalSet(currentInterval)] && calls == [] && handler == null
        && currentInterval == Intervals.ValidateInterval(args).value
      ensures args != "" && old(handler) != null && Intervals.ValidateInterval(args).Ok?
              && Intervals.ValidateInterval(args).value != old(currentInterval) ==>
        var v := Intervals.ValidateInterval(args).value;
        var active := old(handler.strategies).Keys;
        if hasWs && instruments.None? then
          sent == [IntervalFailed] && calls == []
          && currentInterval == old(currentInterval) && handler == old(handler) && (old(handler) != null ==> unchanged(old(handler)))
        else
          var dropped := if hasWs then [Unsubscribe(Topics(old(currentInterval), instruments.value))] else [];
          && currentInterval == v && !old(handler).running
          && handler != null && fresh(handler) && handler.intervalStr == v
          && if (forall k :: k in active ==> k in factory.strategies) && (active == {} || instruments.Some?) then
               && handler.strategies.Keys == active
               && sent == [IntervalUpdated(v)]
               && calls == dropped + (if hasWs then [Subscribe(Topics(v, instruments.value))] else [])
             else
               sent == [IntervalFailed] && calls == dropped
    {
      if args == "" {
        return [CurrentInterval(currentInterval)], [];
      }
      match Intervals.ValidateInterval(args)
      case Err(e) =>
        return [Invalid(e)], [];
      case Ok(v) =>
        if v == currentInterval {
          return [AlreadyUsing], [];
        }
        if handler == null {
          currentInterval := v;
          return [IntervalSet(v)], [];
        }
        if hasWs && instruments.None? {
          return [IntervalFailed], [];
        }
        sent, calls := Rebuild(v, instruments, klines);
    }

    /** `handle_listen`: a missing or unparsable list is answered; otherwise the listener starts. */
    method HandleListen(args: string, instruments: Option<seq<string>>, klines: map<string, seq<PriceData>>)
      returns (sent: seq<Reply>, calls: seq<WsCall>)
      requires Valid()
      modifies this`handler, handler
      ensures Valid()
      ensures args == "" ==> sent == [MissingStrategy] && calls == [] && handler == old(handler) && (old(handler) != null ==> unchanged(old(handler)))
      ensures args != "" && ParseStrategies(args).Err? ==>
        sent == [ParseFailed(ParseStrategies(args).error)] && calls == [] && handler == old(handler) && (old(handler) != null ==> unchanged(old(handler)))
      ensures args != "" && ParseStrategies(args).Ok? && old(handler) != null ==>
        handler == old(handler) && old(handler.strategies).Keys <= handler.strategies.Keys
        && handler.strategies.Keys <= old(handler.strategies).Keys + Elements(ParseStrategies(args).value)
      ensures args != "" && ParseStrategies(args).Ok? && old(handler) != null ==>
        var kinds := ParseStrategies(args).value;
        var active := old(handler.strategies).Keys;
        && calls == []
        && if forall k :: k in kinds && k !in active ==> k in factory.strategies then
          && handler.strategies.Keys == active + Elements(kinds)
          && sent == [if Fresh(kinds, active) == [] then AlreadyListening else ListeningFor(Fresh(kinds, active))]
        else
          active < handler.strategies.Keys && sent == [StartFailed]
      ensures args != "" && ParseStrategies(args).Ok? && old(handler) == null ==>
        var kinds := ParseStrategies(args).value;
        var built := forall k :: k in kinds ==> k in factory.strategies;
        var loaded := kinds == [] || instruments.Some?;
        var subscribed := !hasWs || instruments.Some?;
        if built && loaded && subscribed then
          && handler != null && fresh(handler) && handler.strategies.Keys == Elements(kinds)
          && (kinds != [] ==> handler.symbols == (set s | s in instruments.value) * klines.Keys)
          && sent == [ListeningFor(kinds)]
          && calls == (if hasWs then [Subscribe(Topics(currentInterval, instruments.value))] else [])
        else
          && sent == [StartFailed] && calls == []
          && (handler == null <==> kinds == [])
          && (handler != null ==> fresh(handler) && handler.strategies != map[])
      ensures old(Listening()) ==> Listening()
    {
      if args == "" {
        return [MissingStrategy], [];
      }
      match ParseStrategies(args)
      case Err(e) =>
        return [ParseFailed(e)], [];
      case Ok(kinds) =>
        sent, calls := StartListener(kinds, instruments, klines);
    }

    /** `handle_unlisten`: no argument stops everything; otherwise the lower-cased argument must name a kind. */
    method HandleUnlisten(args: string, instruments: Option<seq<string>>)
      returns (sent: seq<Reply>, calls: seq<WsCall>)
      requires Valid()
      modifies this`handler, handler
      ensures Valid()
      ensures args != "" && StrategyFromName(Lower(args)).None? ==>
        sent == [UnknownStrategy] && calls == [] && handler == old(handler) && (old(handler) != null ==> unchanged(old(handler)))
      ensures old(handler) != null && args != "" && StrategyFromName(Lower(args)).Some?
              && StrategyFromName(Lower(args)).value !in old(handler.strategies) ==>
        sent == [ListenForFirst(StrategyFromName(Lower(args)).value)] && handler == old(handler) && (old(handler) != null ==> unchanged(old(handler)))
      ensures old(handler) != null && args == "" && (!hasWs || instruments.Some?) ==> handler == null && sent == [StoppedAll]
      ensures old(Listening()) && (!hasWs || instruments.Some?) ==> Listening()
    {
      if args == "" {
        sent, calls := StopListener(None, instruments);
        return;
      }
      match StrategyFromName(Lower(args))
      case None =>
        return [UnknownStrategy], [];
      case Some(k) =>
        sent, calls := StopListener(Some(k), instruments);
    }
  }
}
