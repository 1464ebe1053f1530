/**
 * The older price handler. It tracks the same symbols, histories and strategy frames as the
 * current one, but it keeps every strategy's latest signal across candles, reports a signal only
 * when its direction changes, and batches those changes per strategy and direction until every
 * tracked symbol has reported its candle.
 */
module LegacyPriceHandler {
  import opened Wrappers
  import opened Models
  import StrategyBase
  import Factory
  import SignalHandler
  import Text
  import PH = PriceHandler

  /** The batched signals of one strategy: its BUY list and its SELL list. */
  datatype Lists = Lists(buys: seq<SignalData>, sells: seq<SignalData>)

  /** The list of one direction. */
  function ListOf(l: Lists, t: SignalType): (r: seq<SignalData>)
  {
    if t == Buy then l.buys else l.sells
  }

  /** The signal batch, per strategy. */
  type Batch = map<StrategyType, Lists>

  /** The lists of a strategy, or two empty lists for a strategy not yet in the batch. */
  function ListsOf(batch: Batch, k: StrategyType): (l: Lists)
  {
    if k in batch then batch[k] else Lists([], [])
  }

  /** The strategy's lists with one more signal of the given direction at the end. */
  function Pushed(l: Lists, s: SignalData): (r: Lists)
    ensures ListOf(r, s.signalType) == ListOf(l, s.signalType) + [s]
    ensures s.signalType == Buy ==> r.sells == l.sells
    ensures s.signalType == Sell ==> r.buys == l.buys
  {
    if s.signalType == Buy then l.(buys := l.buys + [s]) else l.(sells := l.sells + [s])
  }

  /**
   * `_add_to_batch`: the signal's strategy gets two empty lists on its first use, and the signal
   * joins the end of its direction's list; every other strategy is left alone.
   */
  function AddToBatch(batch: Batch, s: SignalData): (r: Batch)
    ensures r.Keys == batch.Keys + {s.strategy}
    ensures forall k :: k in batch && k != s.strategy ==> r[k] == batch[k]
    ensures ListOf(r[s.strategy], s.signalType) == ListOf(ListsOf(batch, s.strategy), s.signalType) + [s]
    ensures s.strategy !in batch ==> |r[s.strategy].buys| + |r[s.strategy].sells| == 1
  {
    batch[s.strategy := Pushed(ListsOf(batch, s.strategy), s)]
  }

  /** The key order of the batch lists every key once. */
  predicate Listed(batch: Batch, order: seq<StrategyType>)
  {
    Factory.Distinct(order) && forall k :: k in batch <==> k in order
  }

  /** The order after a signal's strategy is used: a new strategy goes to the end. */
  function OrderAfter(batch: Batch, order: seq<StrategyType>, s: SignalData): (r: seq<StrategyType>)
  {
    if s.strategy in batch then order else order + [s.strategy]
  }

  lemma ListedAfter(batch: Batch, order: seq<StrategyType>, s: SignalData)
    requires Listed(batch, order)
    ensures Listed(AddToBatch(batch, s), OrderAfter(batch, order, s))
    ensures order <= OrderAfter(batch, order, s)
  {
  }

  /** The signals stored for a symbol, or none. */
  function InnerOf(signals: PH.SignalTable, symbol: string): (r: map<StrategyType, SignalData>)
  {
    if symbol in signals then signals[symbol] else map[]
  }

  /** A signal is news when nothing is stored for its strategy or the stored one points the other way. */
  predicate IsNews(inner: map<StrategyType, SignalData>, k: StrategyType, e: SignalData)
  {
    k !in inner || inner[k].signalType != e.signalType
  }

  /**
   * The symbol's stored signals once the strategies among `done` were judged, starting from
   * `inner`: a strategy that did not fire loses its entry, one whose signal is news stores it,
   * and one that repeats its stored direction keeps the stored signal.
   */
  function Noted(inner: map<StrategyType, SignalData>, fired: map<StrategyType, SignalData>, done: set<StrategyType>)
    : (r: map<StrategyType, SignalData>)
  {
    map k | k in (inner.Keys - (done - fired.Keys)) + (fired.Keys * done) ::
      if k in done && k in fired && IsNews(inner, k, fired[k]) then fired[k] else inner[k]
  }

  /** The strategies among `done` whose signal is news. */
  function Announced(inner: map<StrategyType, SignalData>, fired: map<StrategyType, SignalData>, done: set<StrategyType>)
    : (r: set<StrategyType>)
  {
    set k | k in done && k in fired && IsNews(inner, k, fired[k])
  }

  /** The table once the strategies among `done` were judged; the symbol gets an entry when one fired. */
  function NotedTable(signals: PH.SignalTable, symbol: string, fired: map<StrategyType, SignalData>, done: set<StrategyType>)
    : (r: PH.SignalTable)
  {
    if symbol in signals || fired.Keys * done != {} then
      signals[symbol := Noted(InnerOf(signals, symbol), fired, done)]
    else signals
  }

  /** The batch once the news among `done` was added. */
  function Batched(batch: Batch, inner: map<StrategyType, SignalData>, fired: map<StrategyType, SignalData>,
                   done: set<StrategyType>): (r: Batch)
  {
    map k | k in batch.Keys + Announced(inner, fired, done) ::
      if k in Announced(inner, fired, done) then Pushed(ListsOf(batch, k), fired[k]) else batch[k]
  }

  /** Every fired event belongs to the strategy it is stored under. */
  predicate OwnEvents(fired: map<StrategyType, SignalData>)
  {
    forall k :: k in fired ==> fired[k].strategy == k
  }

  lemma FiredOwn(instances: map<StrategyType, PH.Instance>, symbol: string, p: PriceData,
                 process: StrategyType -> StrategyBase.Frame -> Option<Signal>)
    ensures OwnEvents(PH.Fired(instances, symbol, p, process, instances.Keys))
  {
  }

  /** One strategy's turn in `_check_signals`, on the table. */
  function NoteOne(signals: PH.SignalTable, symbol: string, k: StrategyType, event: Option<SignalData>): (r: PH.SignalTable)
  {
    match event
    case None =>
      if symbol in signals && k in signals[symbol] then signals[symbol := signals[symbol] - {k}] else signals
    case Some(e) =>
      var inner := InnerOf(signals, symbol);
      if IsNews(inner, k, e) then signals[symbol := inner[k := e]] else signals[symbol := inner]
  }

  /** The symbol's stored signals before and after one more strategy is judged. */
  lemma NotedInner(inner: map<StrategyType, SignalData>, fired: map<StrategyType, SignalData>,
                   done: set<StrategyType>, k: StrategyType)
    requires k !in done
    ensures var n := Noted(inner, fired, done);
      && (k in n <==> k in inner) && (k in n ==> n[k] == inner[k])
      && Noted(inner, fired, done + {k})
         == if k !in fired then n - {k} else if IsNews(inner, k, fired[k]) then n[k := fired[k]] else n
  {
    var n := Noted(inner, fired, done);
    var m := Noted(inner, fired, done + {k});
    var want := if k !in fired then n - {k} else if IsNews(inner, k, fired[k]) then n[k := fired[k]] else n;
    assert m.Keys == want.Keys;
    forall j | j in m.Keys ensures m[j] == want[j] {
      if j != k {
        assert m[j] == n[j];
      }
    }
  }

  /** One more strategy judged is one more turn of the loop. */
  lemma NotedStep(signals: PH.SignalTable, symbol: string, fired: map<StrategyType, SignalData>,
                  done: set<StrategyType>, k: StrategyType)
    requires k !in done
    ensures NotedTable(signals, symbol, fired, done + {k})
            == NoteOne(NotedTable(signals, symbol, fired, done), symbol, k, if k in fired then Some(fired[k]) else None)
  {
    if k in fired {
      FiredStep(signals, symbol, fired, done, k);
    } else {
      QuietStep(signals, symbol, fired, done, k);
    }
  }

  /** The turn of a strategy that fired: its signal is stored when it is news. */
  lemma FiredStep(signals: PH.SignalTable, symbol: string, fired: map<StrategyType, SignalData>,
                  done: set<StrategyType>, k: StrategyType)
    requires k !in done && k in fired
    ensures NotedTable(signals, symbol, fired, done + {k}) == NoteOne(NotedTable(signals, symbol, fired, done), symbol, k, Some(fired[k]))
  {
    var inner := InnerOf(signals, symbol);
    var n := Noted(inner, fired, done);
    var t := NotedTable(signals, symbol, fired, done);
    NotedInner(inner, fired, done, k);
    assert InnerOf(t, symbol) == n by {
      InnerOfNoted(signals, symbol, fired, done);
    }
    assert k in fired.Keys * (done + {k});
    assert IsNews(n, k, fired[k]) == IsNews(inner, k, fired[k]);
    if symbol in signals || fired.Keys * done != {} {
      assert t == signals[symbol := n];
    } else {
      assert t == signals;
    }
  }

  /** The turn of a strategy that did not fire: its stored signal, if any, is dropped. */
  lemma QuietStep(signals: PH.SignalTable, symbol: string, fired: map<StrategyType, SignalData>,
                  done: set<StrategyType>, k: StrategyType)
    requires k !in done && k !in fired
    ensures NotedTable(signals, symbol, fired, done + {k}) == NoteOne(NotedTable(signals, symbol, fired, done), symbol, k, None)
  {
    var n := Noted(InnerOf(signals, symbol), fired, done);
    var t := NotedTable(signals, symbol, fired, done);
    var after := NotedTable(signals, symbol, fired, done + {k});
    assert fired.Keys * (done + {k}) == fired.Keys * done;
    if symbol in signals || fired.Keys * done != {} {
      assert after == signals[symbol := n - {k}] by {
        NotedInner(InnerOf(signals, symbol), fired, done, k);
      }
      assert t == signals[symbol := n];
      assert NoteOne(t, symbol, k, None) == signals[symbol := n - {k}] by {
        if k !in n {
          assert n - {k} == n;
        }
      }
    } else {
      assert after == signals && t == signals;
    }
  }

  /** One more strategy judged adds its signal to the batch exactly when it is news. */
  lemma BatchedStep(batch: Batch, inner: map<StrategyType, SignalData>, fired: map<StrategyType, SignalData>,
                    done: set<StrategyType>, k: StrategyType)
    requires k !in done && OwnEvents(fired)
    ensures k in fired && IsNews(inner, k, fired[k]) ==>
      Batched(batch, inner, fired, done + {k}) == AddToBatch(Batched(batch, inner, fired, done), fired[k])
    ensures !(k in fired && IsNews(inner, k, fired[k])) ==>
      Batched(batch, inner, fired, done + {k}) == Batched(batch, inner, fired, done)
  {
    var a := Announced(inner, fired, done);
    var b := Batched(batch, inner, fired, done);
    var b' := Batched(batch, inner, fired, done + {k});
    if k in fired && IsNews(inner, k, fired[k]) {
      var c := AddToBatch(b, fired[k]);
      assert b' == c by {
        assert Announced(inner, fired, done + {k}) == a + {k};
        assert k !in a;
        assert ListsOf(b, k) == ListsOf(batch, k);
        assert b'.Keys == c.Keys;
        forall j | j in b'.Keys ensures b'[j] == c[j] {
          if j != k {
            assert b'[j] == b[j];
          }
        }
      }
    } else {
      assert Announced(inner, fired, done + {k}) == a;
    }
  }

  /** The symbol's entry of the table so far is the inner map so far. */
  lemma InnerOfNoted(signals: PH.SignalTable, symbol: string, fired: map<StrategyType, SignalData>, done: set<StrategyType>)
    ensures InnerOf(NotedTable(signals, symbol, fired, done), symbol) == Noted(InnerOf(signals, symbol), fired, done)
  {
    if !(symbol in signals || fired.Keys * done != {}) {
      assert Noted(InnerOf(signals, symbol), fired, done) == map[];
    }
  }

  /** Before any strategy is judged, the table and the batch are as given. */
  lemma NothingJudged(signals: PH.SignalTable, batch: Batch, symbol: string, fired: map<StrategyType, SignalData>)
    ensures NotedTable(signals, symbol, fired, {}) == signals
    ensures Batched(batch, InnerOf(signals, symbol), fired, {}) == batch
  {
    assert Noted(InnerOf(signals, symbol), fired, {}) == InnerOf(signals, symbol);
  }

  /** The table and the batch after one more turn, in terms of those before it. */
  lemma AfterTurn(signals: PH.SignalTable, batch: Batch, symbol: string, fired: map<StrategyType, SignalData>,
                  done: set<StrategyType>, k: StrategyType)
    requires k !in done && OwnEvents(fired)
    ensures var t := NotedTable(signals, symbol, fired, done);
      var b := Batched(batch, InnerOf(signals, symbol), fired, done);
      var event := if k in fired then Some(fired[k]) else None;
      var news := event.Some? && IsNews(InnerOf(t, symbol), k, event.value);
      && NotedTable(signals, symbol, fired, done + {k}) == NoteOne(t, symbol, k, event)
      && (news ==> Batched(batch, InnerOf(signals, symbol), fired, done + {k}) == AddToBatch(b, event.value))
      && (!news ==> Batched(batch, InnerOf(signals, symbol), fired, done + {k}) == b)
  {
    var inner := InnerOf(signals, symbol);
    NotedStep(signals, symbol, fired, done, k);
    NotedInner(inner, fired, done, k);
    InnerOfNoted(signals, symbol, fired, done);
    BatchedStep(batch, inner, fired, done, k);
  }

  /** One strategy's turn of `_check_signals`: its frame, the symbol's stored signal and the batch. */
  method JudgeOne(inst: PH.Instance, table: PH.SignalTable, batch: Batch, order: seq<StrategyType>,
                  symbol: string, k: StrategyType, p: PriceData, process: StrategyBase.Frame -> Option<Signal>)
    returns (inst': PH.Instance, table': PH.SignalTable, batch': Batch, order': seq<StrategyType>)
    requires Listed(batch, order)
    ensures inst' == PH.Checked(inst, symbol, p)
    ensures var v := PH.Verdict(inst, symbol, p, process);
      var event := if v.Some? then Some(PH.EventOf(symbol, k, v.value, p)) else None;
      var news := event.Some? && IsNews(InnerOf(table, symbol), k, event.value);
      && table' == NoteOne(table, symbol, k, event)
      && (news ==> batch' == AddToBatch(batch, event.value) && order' == OrderAfter(batch, order, event.value))
      && (!news ==> batch' == batch && order' == order)
    ensures Listed(batch', order') && order <= order'
  {
    var verdict := PH.Verdict(inst, symbol, p, process);
    inst', table', batch', order' := PH.Checked(inst, symbol, p), table, batch, order;
    if verdict.None? {
      if symbol in table && k in table[symbol] {
        table' := table[symbol := table[symbol] - {k}];
      }
    } else {
      var event := PH.EventOf(symbol, k, verdict.value, p);
      var stored := if symbol in table then table[symbol] else map[];
      if k !in stored || stored[k].signalType != event.signalType {
        table' := table[symbol := stored[k := event]];
        ListedAfter(batch, order, event);
        order' := OrderAfter(batch, order, event);
        batch' := AddToBatch(batch, event);
      } else {
        table' := table[symbol := stored];
      }
    }
  }

  /** One candle's effect on the strategies: append its row everywhere, then judge it when `check`. */
  method Advance(instances: map<StrategyType, PH.Instance>, signals: PH.SignalTable, batch: Batch,
                 order: seq<StrategyType>, symbol: string, p: PriceData, check: bool,
                 process: StrategyType -> StrategyBase.Frame -> Option<Signal>)
    returns (insts: map<StrategyType, PH.Instance>, table: PH.SignalTable, batch': Batch, order': seq<StrategyType>)
    requires Listed(batch, order) && PH.Windowed(instances)
    ensures var appended := PH.AppendedAll(instances, symbol, StrategyBase.RowOf(p));
      var fired := PH.Fired(appended, symbol, p, process, appended.Keys);
      && insts == (if check then PH.CheckedAll(appended, symbol, p) else appended)
      && table == (if check then NotedTable(signals, symbol, fired, appended.Keys) else signals)
      && batch' == (if check then Batched(batch, InnerOf(signals, symbol), fired, appended.Keys) else batch)
    ensures Listed(batch', order') && order <= order'
    ensures insts.Keys == instances.Keys && PH.Windowed(insts)
  {
    PH.AppendedKept(instances, symbol, StrategyBase.RowOf(p));
    insts := PH.AppendFrames(instances, symbol, StrategyBase.RowOf(p));
    table, batch', order' := signals, batch, order;
    if check {
      PH.CheckedKept(insts, symbol, p);
      insts, table, batch', order' := NoteSignals(insts, table, batch', order', symbol, p, process);
    }
  }

  /** The loop of `_check_signals` on the values it updates: frames, the table and the batch. */
  method NoteSignals(instances: map<StrategyType, PH.Instance>, signals: PH.SignalTable, batch: Batch,
                     order: seq<StrategyType>, symbol: string, p: PriceData,
                     process: StrategyType -> StrategyBase.Frame -> Option<Signal>)
    returns (insts: map<StrategyType, PH.Instance>, table: PH.SignalTable, batch': Batch, order': seq<StrategyType>)
    requires Listed(batch, order)
    ensures var fired := PH.Fired(instances, symbol, p, process, instances.Keys);
      && insts == PH.CheckedAll(instances, symbol, p)
      && table == NotedTable(signals, symbol, fired, instances.Keys)
      && batch' == Batched(batch, InnerOf(signals, symbol), fired, instances.Keys)
    ensures Listed(batch', order') && order <= order'
  {
    ghost var fired := PH.Fired(instances, symbol, p, process, instances.Keys);
    ghost var inner := InnerOf(signals, symbol);
    FiredOwn(instances, symbol, p, process);
    insts, table, batch', order' := instances, signals, batch, order;
    var todo := instances.Keys;
    ghost var done: set<StrategyType> := {};
    NothingJudged(signals, batch, symbol, fired);
    while todo != {}
      invariant todo + done == instances.Keys && todo !! done
      invariant insts == PH.PartlyChecked(instances, symbol, p, done)
      invariant table == NotedTable(signals, symbol, fired, done)
      invariant batch' == Batched(batch, inner, fired, done)
      invariant Listed(batch', order') && order <= order'
      decreases todo
    {
      var k :| k in todo;
      PH.PartlyCheckedStep(instances, symbol, p, done, k);
      PH.FiredStep(instances, symbol, p, process, {}, k);
      AfterTurn(signals, batch, symbol, fired, done, k);
      var inst;
      inst, table, batch', order' := JudgeOne(insts[k], table, batch', order', symbol, k, p, process(k));
      insts := insts[k := inst];
      todo := todo - {k};
      done := done + {k};
    }
    assert done == instances.Keys;
  }

  /** A strategy that did not signal leaves no stored signal for the symbol. */
  lemma SilenceClears(signals: PH.SignalTable, symbol: string, fired: map<StrategyType, SignalData>,
                      judged: set<StrategyType>, k: StrategyType)
    requires k in judged && k !in fired
    ensures var t := NotedTable(signals, symbol, fired, judged); symbol in t ==> k !in t[symbol]
  {
  }

  /**
   * A strategy that signalled stores its signal and batches it exactly when nothing was stored
   * or the stored signal points the other way; a repeated direction keeps the earlier signal.
   */
  lemma NewsStoredAndBatched(signals: PH.SignalTable, batch: Batch, symbol: string,
                             fired: map<StrategyType, SignalData>, judged: set<StrategyType>, k: StrategyType)
    requires k in judged && k in fired && OwnEvents(fired)
    ensures var inner := InnerOf(signals, symbol);
      var t := NotedTable(signals, symbol, fired, judged);
      var b := Batched(batch, inner, fired, judged);
      && symbol in t && k in t[symbol]
      && (IsNews(inner, k, fired[k]) ==>
            t[symbol][k] == fired[k]
            && ListOf(b[k], fired[k].signalType) == ListOf(ListsOf(batch, k), fired[k].signalType) + [fired[k]])
      && (!IsNews(inner, k, fired[k]) ==> t[symbol][k] == inner[k] && ListsOf(b, k) == ListsOf(batch, k))
  {
    var inner := InnerOf(signals, symbol);
    assert k in fired.Keys * judged;
    assert k in Announced(inner, fired, judged) <==> IsNews(inner, k, fired[k]);
  }

  /** The other symbols' signals are not touched. */
  lemma OtherSymbolsKept(signals: PH.SignalTable, symbol: string, fired: map<StrategyType, SignalData>,
                         judged: set<StrategyType>, other: string)
    requires other != symbol
    ensures var t := NotedTable(signals, symbol, fired, judged);
      (other in t <==> other in signals) && (other in t ==> t[other] == signals[other])
  {
  }

  // The batch report.

  /** The sort key of a numeric value; text has none. */
  function Key(s: SignalData): (x: real)
  {
    if s.value.Number? then s.value.x else 0.0
  }

  /** `a` may stand before `b`: ascending for BUY, descending for SELL. */
  predicate InOrder(a: SignalData, b: SignalData, descending: bool)
  {
    if descending then Key(a) >= Key(b) else Key(a) <= Key(b)
  }

  predicate SortedBy(s: seq<SignalData>, descending: bool)
  {
    forall i, j :: 0 <= i < j < |s| ==> InOrder(s[i], s[j], descending)
  }

  /** A head that goes before `x` in front of an insertion into the tail keeps the order. */
  lemma InsertValueStep(x: SignalData, s: seq<SignalData>, t: seq<SignalData>, descending: bool)
    requires SortedBy(s, descending) && |s| > 0 && InOrder(s[0], x, descending)
    requires SortedBy(t, descending) && multiset(t) == multiset(s[1..]) + multiset{x}
    ensures SortedBy([s[0]] + t, descending) && multiset([s[0]] + t) == multiset(s) + multiset{x}
  {
    assert s == [s[0]] + s[1..];
    forall k | 0 <= k < |t| ensures InOrder(s[0], t[k], descending) {
      assert t[k] in multiset(t);
      if t[k] != x {
        assert t[k] in multiset(s[1..]);
        var m :| 0 <= m < |s[1..]| && s[1..][m] == t[k];
        assert s[m + 1] == t[k];
      }
    }
    var u := [s[0]] + t;
    forall a, b | 0 <= a < b < |u| ensures InOrder(u[a], u[b], descending) {
      assert u[b] == t[b - 1];
      if a > 0 {
        assert u[a] == t[a - 1];
      }
    }
  }

  /** Put `x`, which came first, before the first element it may precede. */
  function InsertByValue(x: SignalData, s: seq<SignalData>, descending: bool): (r: seq<SignalData>)
    requires SortedBy(s, descending)
    ensures SortedBy(r, descending) && multiset(r) == multiset(s) + multiset{x}
  {
    if |s| == 0 || InOrder(x, s[0], descending) then
      [x] + s
    else
      var t := InsertByValue(x, s[1..], descending);
      InsertValueStep(x, s, t, descending);
      [s[0]] + t
  }

  /** `sorted(signals, key=value[, reverse=True])`: equal values stay in their order. */
  function SortByValue(s: seq<SignalData>, descending: bool): (r: seq<SignalData>)
    ensures SortedBy(r, descending) && multiset(r) == multiset(s) && |r| == |s|
  {
    if |s| == 0 then []
    else
      assert s == [s[0]] + s[1..];
      InsertByValue(s[0], SortByValue(s[1..], descending), descending)
  }

  predicate AllNumbers(s: seq<SignalData>)
  {
    forall i :: 0 <= i < |s| ==> s[i].value.Number?
  }

  /**
   * The listing order of one direction: sorted by value when the first value is a number, as
   * given otherwise. Sorting a list that mixes numbers and text raises `TypeError` (`None`).
   */
  function Ordered(s: seq<SignalData>, descending: bool): (r: Option<seq<SignalData>>)
    requires |s| > 0
    ensures r.None? <==> s[0].value.Number? && !AllNumbers(s)
    ensures r.Some? && s[0].value.Number? ==>
      multiset(r.value) == multiset(s)
      && AllNumbers(r.value) && SortedBy(r.value, descending)
    ensures r.Some? && !s[0].value.Number? ==> r.value == s
  {
    if !s[0].value.Number? then Some(s)
    else if !AllNumbers(s) then None
    else
      var sorted := SortByValue(s, descending);
      forall i | 0 <= i < |sorted| ensures sorted[i].value.Number? {
        assert sorted[i] in multiset(s);
      }
      Some(sorted)
  }

  /** One signal's line: symbol, price to eight decimals, and its value (numbers to two decimals). */
  function Line(s: SignalData, k: StrategyType, rd: SignalHandler.Render): (line: string)
  {
    s.symbol + " Price: " + rd.fixed(s.price, 8) + " " + UpperName(k) + ": "
    + (if s.value.Number? then rd.fixed(s.value.x, 2) else rd.show(s.value))
  }

  function Lines(signals: seq<SignalData>, k: StrategyType, rd: SignalHandler.Render): (r: seq<string>)
    ensures |r| == |signals|
  {
    if |signals| == 0 then [] else [Line(signals[0], k, rd)] + Lines(signals[1..], k, rd)
  }

  const BuyCaption: string := "\U{1F4C8} **BUY Signals**"
  const SellCaption: string := "\U{1F4C9} **SELL Signals**"

  function Header(k: StrategyType): (s: string)
  {
    "\U{1F514} **" + UpperName(k) + " Signals**\n"
  }

  /**
   * One strategy's message lines: the header, the BUY section (ascending values, then a blank
   * line) if it has signals, then the SELL section (descending values) if it has signals.
   * `None` when a section raised while sorting.
   */
  function Section(k: StrategyType, l: Lists, rd: SignalHandler.Render): (r: Option<seq<string>>)
    ensures r.Some? ==> |r.value| > 0 && r.value[0] == Header(k)
    ensures r.Some? ==> |r.value| == 1 + (if |l.buys| > 0 then |l.buys| + 2 else 0) + (if |l.sells| > 0 then |l.sells| + 1 else 0)
  {
    var buys := if |l.buys| > 0 then Ordered(l.buys, false) else Some([]);
    var sells := if |l.sells| > 0 then Ordered(l.sells, true) else Some([]);
    if buys.None? || sells.None? then None
    else
      Some([Header(k)]
           + (if |l.buys| > 0 then [BuyCaption] + Lines(buys.value, k, rd) + [""] else [])
           + (if |l.sells| > 0 then [SellCaption] + Lines(sells.value, k, rd) else []))
  }

  /** The messages a batch sends: one per strategy with signals, in key order, until a section raises. */
  function Messages(batch: Batch, order: seq<StrategyType>, rd: SignalHandler.Render): (r: seq<string>)
    ensures |r| <= |order|
  {
    if |order| == 0 then []
    else
      var l := ListsOf(batch, order[0]);
      if |l.buys| == 0 && |l.sells| == 0 then Messages(batch, order[1..], rd)
      else match Section(order[0], l, rd)
        case None => []
        case Some(lines) => [Text.Join(lines, '\n')] + Messages(batch, order[1..], rd)
  }

  /** `Messages` on a suffix of the key order, unfolded once. */
  lemma MessagesFrom(batch: Batch, order: seq<StrategyType>, i: nat, rd: SignalHandler.Render)
    requires i < |order|
    ensures var l := ListsOf(batch, order[i]);
      |l.buys| == 0 && |l.sells| == 0 ==> Messages(batch, order[i..], rd) == Messages(batch, order[i + 1..], rd)
    ensures var l := ListsOf(batch, order[i]);
      !(|l.buys| == 0 && |l.sells| == 0) && Section(order[i], l, rd).None? ==> Messages(batch, order[i..], rd) == []
    ensures var l := ListsOf(batch, order[i]);
      !(|l.buys| == 0 && |l.sells| == 0) && Section(order[i], l, rd).Some? ==>
        Messages(batch, order[i..], rd) == [Text.Join(Section(order[i], l, rd).value, '\n')] + Messages(batch, order[i + 1..], rd)
  {
    assert order[i..][1..] == order[i + 1..];
  }

  /** The sending loop of `_send_signal_batch`, over a copy of the batch and its key order. */
  method SendAll(batch: Batch, order: seq<StrategyType>, rd: SignalHandler.Render) returns (sent: seq<string>)
    ensures sent == Messages(batch, order, rd)
  {
    sent := [];
    var i := 0;
    while i < |order|
      invariant 0 <= i <= |order|
      invariant sent + Messages(batch, order[i..], rd) == Messages(batch, order, rd)
    {
      MessagesFrom(batch, order, i, rd);
      ghost var rest := Messages(batch, order[i + 1..], rd);
      var l := ListsOf(batch, order[i]);
      if |l.buys| == 0 && |l.sells| == 0 {
        i := i + 1;
        continue;
      }
      var section := Section(order[i], l, rd);
      if section.None? {
        return;
      }
      var message := Text.Join(section.value, '\n');
      assert sent + ([message] + rest) == (sent + [message]) + rest;
      sent := sent + [message];
      i := i + 1;
    }
    assert order[|order|..] == [];
  }

  /** A batch in which no strategy has a signal sends nothing. */
  lemma {:induction false} QuietBatchSendsNothing(batch: Batch, order: seq<StrategyType>, rd: SignalHandler.Render)
    requires forall k :: k in batch ==> |batch[k].buys| == 0 && |batch[k].sells| == 0
    ensures Messages(batch, order, rd) == []
  {
    if |order| > 0 {
      QuietBatchSendsNothing(batch, order[1..], rd);
    }
  }

  /** A batch of numeric signals lists its BUY signals by ascending value and its SELL signals by descending value. */
  lemma NumericSectionOrder(k: StrategyType, l: Lists, rd: SignalHandler.Render)
    requires |l.buys| > 0 && |l.sells| > 0 && AllNumbers(l.buys) && AllNumbers(l.sells)
    ensures Section(k, l, rd).Some?
    ensures var buys := Ordered(l.buys, false).value; var sells := Ordered(l.sells, true).value;
      && Section(k, l, rd).value == [Header(k), BuyCaption] + Lines(buys, k, rd) + ["", SellCaption] + Lines(sells, k, rd)
      && multiset(buys) == multiset(l.buys) && multiset(sells) == multiset(l.sells)
      && AllNumbers(buys) && SortedBy(buys, false) && AllNumbers(sells) && SortedBy(sells, true)
  {
    assert l.buys[0].value.Number? && l.sells[0].value.Number?;
    SectionShape(k, l, rd);
  }

  /** A section with both directions, once both sorted: header, buy block, blank line, sell block. */
  lemma SectionShape(k: StrategyType, l: Lists, rd: SignalHandler.Render)
    requires |l.buys| > 0 && |l.sells| > 0
    ensures var buys := Ordered(l.buys, false); var sells := Ordered(l.sells, true);
      buys.Some? && sells.Some? ==>
        Section(k, l, rd) == Some([Header(k), BuyCaption] + Lines(buys.value, k, rd) + ["", SellCaption] + Lines(sells.value, k, rd))
  {
    var buys := Ordered(l.buys, false);
    var sells := Ordered(l.sells, true);
    if buys.Some? && sells.Some? {
      var b := Lines(buys.value, k, rd);
      var t := Lines(sells.value, k, rd);
      assert Section(k, l, rd) == Some([Header(k)] + ([BuyCaption] + b + [""]) + ([SellCaption] + t));
      assert [Header(k)] + ([BuyCaption] + b + [""]) + ([SellCaption] + t)
          == [Header(k), BuyCaption] + b + ["", SellCaption] + t;
    }
  }

  /** `PriceHandler` of the older bot. */
  class LegacyPriceHandler {
    /** The default interval's length in minutes, which every configuration gets. */
    const defaultMinutes: int
    var symbols: set<string>
    var priceData: map<string, seq<PriceData>>
    var signals: PH.SignalTable
    var strategies: map<StrategyType, SignalConfig>
    var instances: map<StrategyType, PH.Instance>
    var batch: Batch
    /** The batch's keys in insertion order. */
    var batchOrder: seq<StrategyType>
    var updated: set<string>
    var candleTime: Option<int>
    var running: bool

    predicate Valid()
      reads this
    {
      && symbols == priceData.Keys
      && PH.Bounded(priceData)
      && instances.Keys <= strategies.Keys
      && PH.Windowed(instances)
      && Listed(batch, batchOrder)
    }

    constructor(defaultMinutes: int)
      ensures this.defaultMinutes == defaultMinutes
      ensures symbols == {} && priceData == map[] && signals == map[] && strategies == map[] && instances == map[]
      ensures batch == map[] && batchOrder == [] && updated == {} && candleTime == None && running
      ensures Valid()
    {
      this.defaultMinutes := defaultMinutes;
      symbols := {};
      priceData := map[];
      signals := map[];
      strategies := map[];
      instances := map[];
      batch := map[];
      batchOrder := [];
      updated := {};
      candleTime := None;
      running := true;
    }

    /**
     * `add_strategy`: nothing for an active strategy; otherwise its configuration (the default
     * minutes, window 150) is recorded and an instance created. A kind the factory does not hold
     * raises after its configuration has been recorded.
     */
    method AddStrategy(kind: StrategyType, factory: Factory.StrategyFactory) returns (r: Result<()>)
      requires Valid()
      modifies this`strategies, this`instances
      ensures Valid()
      ensures kind in old(strategies) ==> r == Ok(()) && strategies == old(strategies) && instances == old(instances)
      ensures kind !in old(strategies) ==>
        strategies == old(strategies)[kind := SignalConfig(defaultMinutes, kind, PH.FixedWindowSize, Some(30), Some(70), [])]
      ensures kind !in old(strategies) && kind in factory.strategies ==>
        && r == Ok(())
        && instances == old(instances)[kind := PH.Instance(defaultMinutes, PH.FixedWindowSize, factory.strategies[kind].minCandles, map[])]
      ensures kind !in old(strategies) && kind !in factory.strategies ==>
        r == Err("Unknown strategy type: " + StrategyName(kind)) && instances == old(instances)
    {
      if kind in strategies {
        return Ok(());
      }
      var config := SignalConfig(defaultMinutes, kind, PH.FixedWindowSize, Some(30), Some(70), []);
      strategies := strategies[kind := config];
      var created := factory.CreateStrategy(kind, config);
      match created
      case Err(e) =>
        return Err(e);
      case Ok(s) =>
        instances := instances[kind := PH.Instance(s.interval, s.window, s.minCandles, s.dataframes)];
        return Ok(());
    }

    /** `remove_strategy`: one strategy leaves configurations, instances and signals; none given empties all three. */
    method RemoveStrategy(kind: Option<StrategyType>)
      requires Valid()
      modifies this`strategies, this`instances, this`signals
      ensures Valid()
      ensures kind.Some? ==> strategies == old(strategies) - {kind.value} && instances == old(instances) - {kind.value}
      ensures kind.Some? ==> signals == PH.WithoutStrategy(old(signals), kind.value)
      ensures kind.None? ==> strategies == map[] && instances == map[] && signals == map[]
    {
      if kind.None? {
        strategies := map[];
        instances := map[];
        signals := map[];
        return;
      }
      var k := kind.value;
      var table := signals;
      var todo := table.Keys;
      ghost var done: set<string> := {};
      while todo != {}
        modifies {}
        invariant todo + done == old(signals).Keys && todo !! done
        invariant table == PH.PartlyWithout(old(signals), k, done)
        decreases todo
      {
        var s :| s in todo;
        PH.PartlyWithoutStep(old(signals), k, done, s);
        table := table[s := table[s] - {k}];
        todo := todo - {s};
        done := done + {s};
      }
      assert done == old(signals).Keys;
      strategies := strategies - {k};
      instances := instances - {k};
      signals := table;
    }

    /** `_add_to_batch` on the handler's batch. */
    method AddToBatchField(s: SignalData)
      requires Valid()
      modifies this`batch, this`batchOrder
      ensures Valid()
      ensures batch == AddToBatch(old(batch), s) && batchOrder == OrderAfter(old(batch), old(batchOrder), s)
    {
      ListedAfter(batch, batchOrder, s);
      batchOrder := OrderAfter(batch, batchOrder, s);
      batch := AddToBatch(batch, s);
    }

    /**
     * `_send_signal_batch`: the batch is emptied first, then every strategy with signals sends
     * one message, in the batch's key order; a section that raises ends the sending.
     */
    method SendSignalBatch(rd: SignalHandler.Render) returns (sent: seq<string>)
      requires Valid()
      modifies this`batch, this`batchOrder
      ensures Valid()
      ensures batch == map[] && batchOrder == []
      ensures sent == Messages(old(batch), old(batchOrder), rd)
    {
      var copy, order := batch, batchOrder;
      batch, batchOrder := map[], [];
      sent := SendAll(copy, order, rd);
    }

    /**
     * `handle_price_update`: an update for an untracked symbol, an empty or non-list payload or an
     * unconfirmed kline changes nothing, and so does one without a start time. A new candle time
     * clears the round and the batch, but not the stored signals. The candle joins the history and
     * the frames; with two candles of history the strategies are judged. When as many symbols have
     * reported as are tracked, the batch is sent (returned here) and the round is cleared.
     */
    method HandlePriceUpdate(data: PH.Payload, symbol: string,
                             process: StrategyType -> StrategyBase.Frame -> Option<Signal>, rd: SignalHandler.Render)
      returns (sent: seq<string>, ghost order: seq<StrategyType>)
      requires Valid()
      modifies this`priceData, this`instances, this`signals, this`batch, this`batchOrder, this`updated, this`candleTime
      ensures Valid()
      ensures symbol !in old(symbols) || data.NotAList? || |data.items| == 0
              || !data.items[0].confirm || data.items[0].start.None? ==>
        && sent == [] && priceData == old(priceData) && instances == old(instances) && signals == old(signals)
        && batch == old(batch) && batchOrder == old(batchOrder) && updated == old(updated) && candleTime == old(candleTime)
      ensures symbol in old(symbols) && data.Candles? && |data.items| > 0
              && data.items[0].confirm && data.items[0].start.Some? ==>
        var c := data.items[0];
        var t := c.start.value;
        var newCandle := old(candleTime) != Some(t);
        var batch0 := if newCandle then map[] else old(batch);
        var order0 := if newCandle then [] else old(batchOrder);
        var round := (if newCandle then {} else old(updated)) + {symbol};
        && candleTime == Some(t)
        && (c.values.None? ==>
              sent == [] && priceData == old(priceData) && instances == old(instances) && signals == old(signals)
              && batch == batch0 && batchOrder == order0 && updated == (if newCandle then {} else old(updated)))
        && (c.values.Some? ==>
              var p := PH.PriceOf(symbol, t, c.values.value);
              var history := PH.TakeLast(old(priceData)[symbol] + [p], PH.FixedWindowSize);
              var appended := PH.AppendedAll(old(instances), symbol, StrategyBase.RowOf(p));
              var fired := PH.Fired(appended, symbol, p, process, appended.Keys);
              var check := |history| >= 2;
              var batch1 := if check then Batched(batch0, InnerOf(old(signals), symbol), fired, appended.Keys) else batch0;
              && priceData == old(priceData)[symbol := history]
              && instances == (if check then PH.CheckedAll(appended, symbol, p) else appended)
              && signals == (if check then NotedTable(old(signals), symbol, fired, appended.Keys) else old(signals))
              && Listed(batch1, order) && order0 <= order
              && (|round| == |symbols| ==> updated == {} && batch == map[] && batchOrder == [] && sent == Messages(batch1, order, rd))
              && (|round| != |symbols| ==> updated == round && batch == batch1 && batchOrder == order && sent == []))
    {
      sent, order := [], batchOrder;
      if symbol !in symbols || data.NotAList? || |data.items| == 0 {
        return;
      }
      var candle := data.items[0];
      if !candle.confirm || candle.start.None? {
        return;
      }
      var candleStart := candle.start.value;
      if candleTime != Some(candleStart) {
        candleTime := Some(candleStart);
        updated := {};
        batch, batchOrder := map[], [];
      }
      order := batchOrder;
      if candle.values.None? {
        return;
      }
      sent, order := RecordCandle(symbol, PH.PriceOf(symbol, candleStart, candle.values.value), process, rd);
    }

    /** The rest of `handle_price_update` once the candle time is settled. */
    method RecordCandle(symbol: string, p: PriceData, process: StrategyType -> StrategyBase.Frame -> Option<Signal>,
                        rd: SignalHandler.Render)
      returns (sent: seq<string>, ghost order: seq<StrategyType>)
      requires Valid() && symbol in symbols
      modifies this`priceData, this`instances, this`signals, this`batch, this`batchOrder, this`updated
      ensures Valid()
      ensures
        var history := PH.TakeLast(old(priceData)[symbol] + [p], PH.FixedWindowSize);
        var appended := PH.AppendedAll(old(instances), symbol, StrategyBase.RowOf(p));
        var fired := PH.Fired(appended, symbol, p, process, appended.Keys);
        var check := |history| >= 2;
        var batch1 := if check then Batched(old(batch), InnerOf(old(signals), symbol), fired, appended.Keys) else old(batch);
        var round := old(updated) + {symbol};
        && priceData == old(priceData)[symbol := history]
        && instances == (if check then PH.CheckedAll(appended, symbol, p) else appended)
        && signals == (if check then NotedTable(old(signals), symbol, fired, appended.Keys) else old(signals))
        && Listed(batch1, order) && old(batchOrder) <= order
        && (|round| == |symbols| ==> updated == {} && batch == map[] && batchOrder == [] && sent == Messages(batch1, order, rd))
        && (|round| != |symbols| ==> updated == round && batch == batch1 && batchOrder == order && sent == [])
    {
      order := StoreCandle(symbol, p, process);
      sent := CloseRound(symbol, rd);
    }

    /** The candle joins the history and the frames; with two candles of history the strategies are judged. */
    method StoreCandle(symbol: string, p: PriceData, process: StrategyType -> StrategyBase.Frame -> Option<Signal>)
      returns (ghost order: seq<StrategyType>)
      requires Valid() && symbol in symbols
      modifies this`priceData, this`instances, this`signals, this`batch, this`batchOrder
      ensures Valid() && batchOrder == order
      ensures
        var history := PH.TakeLast(old(priceData)[symbol] + [p], PH.FixedWindowSize);
        var appended := PH.AppendedAll(old(instances), symbol, StrategyBase.RowOf(p));
        var fired := PH.Fired(appended, symbol, p, process, appended.Keys);
        var check := |history| >= 2;
        && priceData == old(priceData)[symbol := history]
        && instances == (if check then PH.CheckedAll(appended, symbol, p) else appended)
        && signals == (if check then NotedTable(old(signals), symbol, fired, appended.Keys) else old(signals))
        && batch == (if check then Batched(old(batch), InnerOf(old(signals), symbol), fired, appended.Keys) else old(batch))
        && Listed(batch, order) && old(batchOrder) <= order
    {
      var history := PH.TakeLast(priceData[symbol] + [p], PH.FixedWindowSize);
      PH.BoundedAppend(priceData, symbol, history);
      var insts, table, b, o := Advance(instances, signals, batch, batchOrder, symbol, p, |history| >= 2, process);
      priceData := priceData[symbol := history];
      instances := insts;
      signals := table;
      batch, batchOrder := b, o;
      order := o;
    }

    /** The end of `handle_price_update`: a complete round sends the batch and starts over. */
    method CloseRound(symbol: string, rd: SignalHandler.Render) returns (sent: seq<string>)
      requires Valid()
      modifies this`updated, this`batch, this`batchOrder
      ensures Valid()
      ensures var round := old(updated) + {symbol};
        && (|round| == |symbols| ==>
              updated == {} && batch == map[] && batchOrder == [] && sent == Messages(old(batch), old(batchOrder), rd))
        && (|round| != |symbols| ==> updated == round && batch == old(batch) && batchOrder == old(batchOrder) && sent == [])
    {
      sent := [];
      updated := updated + {symbol};
      if |updated| == |symbols| {
        sent := SendSignalBatch(rd);
        updated := {};
      }
    }

    /**
     * `_initialize_symbol_data`: the history is fetched on the first strategy's interval, so with
     * no strategy (or a failed fetch) nothing changes; otherwise the symbol is tracked with its last
     * 150 candles and every instance without a frame for it gets one.
     */
    method InitializeSymbolData(symbol: string, klines: Option<seq<PriceData>>)
      requires Valid()
      modifies this`symbols, this`priceData, this`instances
      ensures Valid()
      ensures klines.None? || old(strategies) == map[] ==>
        symbols == old(symbols) && priceData == old(priceData) && instances == old(instances)
      ensures klines.Some? && old(strategies) != map[] ==>
        var history := PH.TakeLast(klines.value, PH.FixedWindowSize);
        && symbols == old(symbols) + {symbol}
        && priceData == old(priceData)[symbol := history]
        && instances == PH.SeededAll(old(instances), map[symbol := PH.Rows(history)])
    {
      if klines.None? || strategies == map[] {
        return;
      }
      var history := PH.TakeLast(klines.value, PH.FixedWindowSize);
      var insts := PH.SeedFrames(instances, symbol, PH.Rows(history));
      PH.BoundedAppend(priceData, symbol, history);
      PH.SeededKept(instances, map[symbol := PH.Rows(history)]);
      symbols := symbols + {symbol};
      priceData := priceData[symbol := history];
      instances := insts;
    }

    /**
     * One pass of `_check_symbols`: newly listed symbols are initialised (the extra `symbols.add`
     * behind `if await self._initialize_symbol_data(...)` never runs, since that returns `None`),
     * then delisted symbols leave the tracked set, the histories, the signals and every frame.
     */
    method CheckSymbols(listed: set<string>, klines: map<string, seq<PriceData>>)
      returns (added: set<string>, delisted: set<string>)
      requires Valid()
      modifies this`symbols, this`priceData, this`instances, this`signals
      ensures Valid()
      ensures added == listed - old(symbols) && delisted == old(symbols) - listed
      ensures var fetched := if old(strategies) == map[] then map[] else klines;
        && symbols == (old(symbols) + added * fetched.Keys) - delisted
        && priceData == (old(priceData) + PH.Histories(fetched, added)) - delisted
        && instances == PH.Dropped(PH.SeededAll(old(instances), PH.Seeds(fetched, added)), delisted)
      ensures signals == old(signals) - delisted
    {
      added := listed - symbols;
      delisted := symbols - listed;
      InitializeListed(added, klines);
      DropDelisted(delisted);
    }

    /** The first loop of `_check_symbols`. */
    method InitializeListed(added: set<string>, klines: map<string, seq<PriceData>>)
      requires Valid() && added !! symbols
      modifies this`symbols, this`priceData, this`instances
      ensures Valid()
      ensures var fetched := if strategies == map[] then map[] else klines;
        && symbols == old(symbols) + added * fetched.Keys
        && priceData == old(priceData) + PH.Histories(fetched, added)
        && instances == PH.SeededAll(old(instances), PH.Seeds(fetched, added))
    {
      var fetched := if strategies == map[] then map[] else klines;
      var todo := added;
      ghost var done: set<string> := {};
      assert PH.Seeds(fetched, done) == map[] && PH.Histories(fetched, done) == map[];
      assert PH.SeededAll(instances, map[]) == instances by {
        forall k | k in instances
          ensures PH.SeededAll(instances, map[])[k] == instances[k]
        {
          assert PH.Seeded(instances[k].frames, map[]) == instances[k].frames;
        }
      }
      while todo != {}
        invariant Valid()
        invariant todo + done == added && todo !! done
        invariant symbols == old(symbols) + done * fetched.Keys
        invariant priceData == old(priceData) + PH.Histories(fetched, done)
        invariant instances == PH.SeededAll(old(instances), PH.Seeds(fetched, done))
        decreases todo
      {
        var s :| s in todo;
        PH.ListedStep(old(symbols), old(priceData), old(instances), fetched, done, s);
        InitializeSymbolData(s, if s in klines then Some(klines[s]) else None);
        todo := todo - {s};
        done := done + {s};
      }
    }

    /** The second loop of `_check_symbols`. */
    method DropDelisted(delisted: set<string>)
      requires Valid()
      modifies this`symbols, this`priceData, this`instances, this`signals
      ensures Valid()
      ensures symbols == old(symbols) - delisted && priceData == old(priceData) - delisted
      ensures signals == old(signals) - delisted && instances == PH.Dropped(old(instances), delisted)
    {
      var syms, histories, table, insts := PH.Forget(symbols, priceData, signals, instances, delisted);
      PH.BoundedDrop(priceData, delisted);
      PH.DroppedKept(instances, delisted);
      symbols, priceData, signals, instances := syms, histories, table, insts;
    }

    /** `cleanup`: the symbol check stops. */
    method Cleanup()
      modifies this`running
      ensures !running
    {
      running := false;
    }
  }
}
