/**
 * The handlers of the first bot (handlers.py): the position tracker, which keeps the account's
 * open positions and their symbols in two parallel lists, and the old price handler, which
 * accumulates a running candle per symbol and announces new RSI signals at each interval
 * boundary. Discord messages, the REST calls and the numpy log returns are not part of this model.
 */
module Handlers {
  import opened Wrappers
  import opened Text
  import LS = LegacyStrategies
  import BybitClient
  import Floats
  import Models

  // ---------------------------------------------------------------------------------------------
  // Position records
  // ---------------------------------------------------------------------------------------------

  /** A value of a position record as the exchange sends it; `Null` is what `dict.get` gives for an absent field. */
  datatype Field = Str(s: string) | Num(x: real) | Null

  /** A position record: field name to value. */
  type Record = map<string, Field>

  /** `key_list`: the nine fields a position keeps. */
  const KeyList: seq<string> :=
    ["symbol", "size", "side", "position_value", "entry_price", "liq_price", "stop_loss", "take_profit", "mode"]

  /** The message of a KeyError on a missing field. */
  function KeyError(k: string): string
  {
    "KeyError: '" + k + "'"
  }

  const IndexError: string := "IndexError: list index out of range"

  /** `{key: value for (key, value) in m.items() if key in key_list}`. */
  function Filtered(m: Record): (r: Record)
    ensures forall k :: k in r <==> k in m && k in KeyList
    ensures forall k :: k in r ==> r[k] == m[k]
  {
    map k | k in m && k in KeyList :: m[k]
  }

  /** Every record of a payload, filtered. */
  function FilterAll(payload: seq<Record>): (r: seq<Record>)
    ensures |r| == |payload| && forall i :: 0 <= i < |r| ==> r[i] == Filtered(payload[i])
  {
    seq(|payload|, i requires 0 <= i < |payload| => Filtered(payload[i]))
  }

  /** `m.get(k)`. */
  function Get(m: Record, k: string): Field
  {
    if k in m then m[k] else Null
  }

  /** The comprehension of `get_positions`, record by record. */
  function Positions(raw: seq<Record>): Result<seq<Record>>
  {
    if |raw| == 0 then Ok([])
    else if "size" !in raw[0] then Err(KeyError("size"))
    else
      var rest := Positions(raw[1..]);
      if rest.Err? then rest
      else if raw[0]["size"] != Num(0.0) then Ok([Filtered(raw[0])] + rest.value)
      else rest
  }

  /**
   * `get_positions`: the records of non-zero size, each filtered; the comprehension raises a
   * KeyError on the first record without a size.
   */
  function OpenPositions(raw: seq<Record>): (r: Result<seq<Record>>)
    ensures r.Err? <==> exists i :: 0 <= i < |raw| && "size" !in raw[i]
    ensures r.Ok? ==> forall i :: 0 <= i < |raw| && raw[i]["size"] != Num(0.0) ==> Filtered(raw[i]) in r.value
    ensures r.Ok? ==> forall p :: p in r.value ==> "size" in p && p["size"] != Num(0.0)
    ensures r.Ok? ==> forall p :: p in r.value ==>
      exists i :: 0 <= i < |raw| && "size" in raw[i] && raw[i]["size"] != Num(0.0) && p == Filtered(raw[i])
  {
    PositionsKept(raw);
    Positions(raw)
  }

  /** What the comprehension keeps and when it raises, by induction over the payload. */
  lemma {:induction false} PositionsKept(raw: seq<Record>)
    ensures Positions(raw).Err? <==> exists i :: 0 <= i < |raw| && "size" !in raw[i]
    ensures Positions(raw).Ok? ==>
      forall i :: 0 <= i < |raw| && raw[i]["size"] != Num(0.0) ==> Filtered(raw[i]) in Positions(raw).value
    ensures Positions(raw).Ok? ==> forall p :: p in Positions(raw).value ==> "size" in p && p["size"] != Num(0.0)
    ensures Positions(raw).Ok? ==> forall p :: p in Positions(raw).value ==>
      exists i :: 0 <= i < |raw| && "size" in raw[i] && raw[i]["size"] != Num(0.0) && p == Filtered(raw[i])
  {
    if |raw| > 0 && "size" in raw[0] {
      PositionsKept(raw[1..]);
      assert forall i :: 1 <= i < |raw| ==> raw[i] == raw[1..][i - 1];
      if Positions(raw[1..]).Err? {
        assert exists i :: 0 <= i < |raw[1..]| && "size" !in raw[1..][i];
      }
    }
  }

  /**
   * The comprehension keeps the payload's order: positions of a concatenated payload are the
   * positions of its first part followed by those of its second, and either part's KeyError wins.
   */
  lemma OpenPositionsAppend(a: seq<Record>, b: seq<Record>)
    ensures OpenPositions(a + b).Ok? <==> OpenPositions(a).Ok? && OpenPositions(b).Ok?
    ensures OpenPositions(a + b).Ok? ==> OpenPositions(a + b).value == OpenPositions(a).value + OpenPositions(b).value
  {
    PositionsAppend(a, b);
  }

  /** `OpenPositionsAppend` for the comprehension itself, by induction over `a`. */
  lemma {:induction false} PositionsAppend(a: seq<Record>, b: seq<Record>)
    ensures Positions(a + b).Ok? <==> Positions(a).Ok? && Positions(b).Ok?
    ensures Positions(a + b).Ok? ==> Positions(a + b).value == Positions(a).value + Positions(b).value
  {
    if |a| == 0 {
      assert a + b == b;
    } else {
      assert (a + b)[1..] == a[1..] + b;
      assert (a + b)[0] == a[0];
      PositionsAppend(a[1..], b);
      if "size" in a[0] && Positions(a[1..] + b).Ok? && a[0]["size"] != Num(0.0) {
        var x, pa, pb := Filtered(a[0]), Positions(a[1..]).value, Positions(b).value;
        assert [x] + (pa + pb) == ([x] + pa) + pb;
      }
    }
  }

  /** `all(p.get(k) == v for k, v in stored.items())`: no field of the stored record changed. */
  predicate Unchanged(stored: Record, p: Record)
  {
    forall k :: k in stored ==> Get(p, k) == stored[k]
  }

  /** `list.pop(i)`: the list without its element at `i`. */
  function RemoveAt<T>(s: seq<T>, i: nat): (r: seq<T>)
    requires i < |s|
    ensures |r| == |s| - 1
    ensures forall j :: 0 <= j < i ==> r[j] == s[j]
    ensures forall j :: i <= j < |r| ==> r[j] == s[j + 1]
  {
    s[..i] + s[i + 1..]
  }

  /**
   * `positions` and `symbols` are parallel: equally long, and each symbol is the symbol field of
   * the position at the same index.
   */
  predicate Tracked(ps: seq<Record>, syms: seq<Field>)
  {
    |ps| == |syms| && forall i :: 0 <= i < |ps| ==> "symbol" in ps[i] && ps[i]["symbol"] == syms[i]
  }

  /** `next(i for (i, p) in enumerate(positions) if p['symbol'] == sym)`: the first index holding `sym`. */
  function IndexOf(ps: seq<Record>, sym: Field): (r: Option<nat>)
    requires forall i :: 0 <= i < |ps| ==> "symbol" in ps[i]
    ensures r.Some? ==> r.value < |ps| && ps[r.value]["symbol"] == sym
    ensures r.Some? ==> forall j :: 0 <= j < r.value ==> ps[j]["symbol"] != sym
    ensures r.None? ==> forall j :: 0 <= j < |ps| ==> ps[j]["symbol"] != sym
  {
    if |ps| == 0 then None
    else if ps[0]["symbol"] == sym then Some(0)
    else
      assert forall i :: 1 <= i < |ps| ==> ps[i] == ps[1..][i - 1];
      match IndexOf(ps[1..], sym)
      case None => None
      case Some(j) => Some(j + 1)
  }

  /** The first index holding a symbol is the one `IndexOf` finds. */
  lemma {:induction false} IndexOfFirst(ps: seq<Record>, sym: Field, i: nat)
    requires forall j :: 0 <= j < |ps| ==> "symbol" in ps[j]
    requires i < |ps| && ps[i]["symbol"] == sym && forall j :: 0 <= j < i ==> ps[j]["symbol"] != sym
    ensures IndexOf(ps, sym) == Some(i)
    decreases i
  {
    if i > 0 {
      assert forall j :: 0 <= j < |ps| - 1 ==> ps[1..][j] == ps[j + 1];
      IndexOfFirst(ps[1..], sym, i - 1);
    }
  }

  /** With parallel lists, a symbol is listed exactly when some position carries it. */
  lemma ListedIffIndexed(ps: seq<Record>, syms: seq<Field>, sym: Field)
    requires Tracked(ps, syms)
    ensures sym in syms <==> IndexOf(ps, sym).Some?
  {
    if sym in syms {
      var i :| 0 <= i < |syms| && syms[i] == sym;
      assert ps[i]["symbol"] == sym;
    }
  }

  /** The three announcements of `build_response`. */
  datatype Action = NewPosition | PositionUpdated | PositionClosed

  /** One message for the channel: the announcement and the position it shows. */
  datatype Notice = Notice(action: Action, position: Record)

  /** The tracker after one payload: both lists, the messages sent, and the exception raised, if any. */
  datatype Outcome = Outcome(positions: seq<Record>, symbols: seq<Field>, notices: seq<Notice>, error: Option<string>)

  /** The `MergedSingle` branch of `handle`, for the first record of the payload. */
  function MergedSingle(ps: seq<Record>, syms: seq<Field>, p: Record): (o: Outcome)
    requires Tracked(ps, syms)
  {
    if "symbol" !in p then Outcome(ps, syms, [], Some(KeyError("symbol")))
    else
      var sym := p["symbol"];
      if sym !in syms && "side" !in p then Outcome(ps, syms, [], Some(KeyError("side")))
      else if sym !in syms && p["side"] != Str("None") then
        Outcome(ps + [p], syms + [sym], [Notice(NewPosition, p)], None)
      else
        match IndexOf(ps, sym)
        case None => Outcome(ps, syms, [], None)
        case Some(i) =>
          if "side" !in p then Outcome(ps, syms, [], Some(KeyError("side")))
          else if p["side"] == Str("None") then
            Outcome(RemoveAt(ps, i), RemoveAt(syms, i), [Notice(PositionClosed, ps[i])], None)
          else if Unchanged(ps[i], p) then Outcome(ps, syms, [], None)
          else Outcome(ps[i := p], syms, [Notice(PositionUpdated, p)], None)
  }

  /**
   * The leg a `BothSide` payload opens for an untracked symbol: the first leg when its size is not
   * zero, else the second one when its size is not zero, else none.
   */
  function Adopted(syms: seq<Field>, legs: seq<Record>, sym: Field): (r: Result<Option<Record>>)
    requires |legs| > 0
    ensures r.Err? <==> sym !in syms && Get(legs[0], "size") == Num(0.0) && |legs| < 2
    ensures r.Ok? && r.value.Some? ==> sym !in syms && Get(r.value.value, "size") != Num(0.0)
    ensures r.Ok? && r.value.Some? ==>
      r.value.value == legs[0] || (|legs| > 1 && r.value.value == legs[1] && Get(legs[0], "size") == Num(0.0))
    ensures r.Ok? && r.value.None? && sym !in syms ==>
      Get(legs[0], "size") == Num(0.0) && Get(legs[1], "size") == Num(0.0)
  {
    if sym in syms then Ok(None)
    else if Get(legs[0], "size") != Num(0.0) then Ok(Some(legs[0]))
    else if |legs| < 2 then Err(IndexError)
    else if Get(legs[1], "size") != Num(0.0) then Ok(Some(legs[1]))
    else Ok(None)
  }

  /** `list(filter(lambda p: p.get('side') == side, legs))[0]`: the first leg on the given side. */
  function OnSide(legs: seq<Record>, side: Field): (r: Option<Record>)
    ensures r.Some? ==> r.value in legs && Get(r.value, "side") == side
    ensures r.None? ==> forall j :: 0 <= j < |legs| ==> Get(legs[j], "side") != side
  {
    if |legs| == 0 then None
    else if Get(legs[0], "side") == side then Some(legs[0])
    else
      assert forall i :: 1 <= i < |legs| ==> legs[i] == legs[1..][i - 1];
      OnSide(legs[1..], side)
  }

  /**
   * The second half of the `BothSide` branch: the tracked position of the symbol is compared
   * with the leg on its side; a leg of size zero closes it.
   */
  function Settled(ps: seq<Record>, syms: seq<Field>, legs: seq<Record>, sym: Field, sent: seq<Notice>): (o: Outcome)
    requires Tracked(ps, syms)
  {
    match IndexOf(ps, sym)
    case None => Outcome(ps, syms, sent, None)
    case Some(i) =>
      match OnSide(legs, Get(ps[i], "side"))
      case None => Outcome(ps, syms, sent, Some(IndexError))
      case Some(leg) =>
        if "size" !in leg then Outcome(ps, syms, sent, Some(KeyError("size")))
        else if leg["size"] == Num(0.0) then
          Outcome(RemoveAt(ps, i), RemoveAt(syms, i), sent + [Notice(PositionClosed, ps[i])], None)
        else if Unchanged(ps[i], leg) then Outcome(ps, syms, sent, None)
        else Outcome(ps[i := leg], syms, sent + [Notice(PositionUpdated, leg)], None)
  }

  /** The `BothSide` branch of `handle`: adoption of a new symbol, then the settlement of the tracked one. */
  function BothSide(ps: seq<Record>, syms: seq<Field>, legs: seq<Record>): (o: Outcome)
    requires Tracked(ps, syms) && |legs| > 0
  {
    if "symbol" !in legs[0] then Outcome(ps, syms, [], Some(KeyError("symbol")))
    else
      var sym := legs[0]["symbol"];
      match Adopted(syms, legs, sym)
      case Err(e) => Outcome(ps, syms, [], Some(e))
      case Ok(q) =>
        if q.Some? && q.value != map[] then
          if "symbol" !in q.value then Outcome(ps + [q.value], syms, [], Some(KeyError("symbol")))
          else Settled(ps + [q.value], syms + [q.value["symbol"]], legs, sym, [Notice(NewPosition, q.value)])
        else Settled(ps, syms, legs, sym, [])
  }

  /** `handle`: the payload filtered to `key_list`, then the branch its first record's mode names. */
  function Handled(ps: seq<Record>, syms: seq<Field>, payload: seq<Record>): (o: Outcome)
    requires Tracked(ps, syms)
  {
    var legs := FilterAll(payload);
    if |legs| == 0 then Outcome(ps, syms, [], Some(IndexError))
    else if Get(legs[0], "mode") == Str("MergedSingle") then MergedSingle(ps, syms, legs[0])
    else if Get(legs[0], "mode") == Str("BothSide") then BothSide(ps, syms, legs)
    else Outcome(ps, syms, [], None)
  }

  /** All legs of a payload name one symbol. */
  predicate Agree(legs: seq<Record>)
  {
    |legs| > 0 ==> "symbol" in legs[0] && forall i :: 0 <= i < |legs| ==> "symbol" in legs[i] && legs[i]["symbol"] == legs[0]["symbol"]
  }

  /** Removing the same index from both lists keeps them parallel. */
  lemma RemoveAtTracked(ps: seq<Record>, syms: seq<Field>, i: nat)
    requires Tracked(ps, syms) && i < |ps|
    ensures Tracked(RemoveAt(ps, i), RemoveAt(syms, i))
  {
  }

  /** The settlement keeps the lists parallel when the legs name the tracked symbol. */
  lemma SettledTracked(ps: seq<Record>, syms: seq<Field>, legs: seq<Record>, sym: Field, sent: seq<Notice>)
    requires Tracked(ps, syms) && Agree(legs) && |legs| > 0 && legs[0]["symbol"] == sym
    ensures var o := Settled(ps, syms, legs, sym, sent); o.error.None? ==> Tracked(o.positions, o.symbols)
  {
    match IndexOf(ps, sym)
    case None =>
    case Some(i) =>
      match OnSide(legs, Get(ps[i], "side"))
      case None =>
      case Some(leg) =>
        if "size" in leg && leg["size"] == Num(0.0) {
          RemoveAtTracked(ps, syms, i);
        } else {
          var j :| 0 <= j < |legs| && legs[j] == leg;
          assert leg["symbol"] == sym;
        }
  }

  /**
   * Every append, pop or replacement happens at the same index in both lists: a payload handled
   * without an exception leaves them parallel, provided its legs name one symbol.
   */
  lemma HandledKeepsTracked(ps: seq<Record>, syms: seq<Field>, payload: seq<Record>)
    requires Tracked(ps, syms) && Agree(FilterAll(payload))
    ensures var o := Handled(ps, syms, payload); o.error.None? ==> Tracked(o.positions, o.symbols)
  {
    var legs := FilterAll(payload);
    if |legs| > 0 && "symbol" in legs[0] {
      var sym := legs[0]["symbol"];
      if Get(legs[0], "mode") == Str("MergedSingle") {
        match IndexOf(ps, sym)
        case None =>
        case Some(i) =>
          if "side" in legs[0] && legs[0]["side"] == Str("None") {
            RemoveAtTracked(ps, syms, i);
          }
      } else if Get(legs[0], "mode") == Str("BothSide") {
        match Adopted(syms, legs, sym)
        case Err(_) =>
        case Ok(q) =>
          if q.Some? && q.value != map[] {
            if "symbol" in q.value {
              assert q.value["symbol"] == sym;
              SettledTracked(ps + [q.value], syms + [sym], legs, sym, [Notice(NewPosition, q.value)]);
            }
          } else {
            SettledTracked(ps, syms, legs, sym, []);
          }
      }
    }
  }

  /** MergedSingle: an untracked symbol whose side is not 'None' is appended to both lists and announced. */
  lemma MergedOpens(ps: seq<Record>, syms: seq<Field>, p: Record)
    requires Tracked(ps, syms) && "symbol" in p && p["symbol"] !in syms && "side" in p && p["side"] != Str("None")
    ensures MergedSingle(ps, syms, p) == Outcome(ps + [p], syms + [p["symbol"]], [Notice(NewPosition, p)], None)
  {
  }

  /** MergedSingle: a tracked symbol whose side is 'None' leaves both lists and its stored position is announced closed. */
  lemma MergedCloses(ps: seq<Record>, syms: seq<Field>, p: Record, i: nat)
    requires Tracked(ps, syms) && "symbol" in p && "side" in p && p["side"] == Str("None")
    requires i < |ps| && ps[i]["symbol"] == p["symbol"] && forall j :: 0 <= j < i ==> ps[j]["symbol"] != p["symbol"]
    ensures var o := MergedSingle(ps, syms, p);
      o.positions == RemoveAt(ps, i) && o.symbols == RemoveAt(syms, i)
      && o.notices == [Notice(PositionClosed, ps[i])] && o.error.None?
  {
    IndexOfFirst(ps, p["symbol"], i);
  }

  /**
   * MergedSingle: for a tracked symbol that stays open, a record repeating every stored field
   * changes nothing, and any other record replaces the stored one in place.
   */
  lemma MergedUpdates(ps: seq<Record>, syms: seq<Field>, p: Record, i: nat)
    requires Tracked(ps, syms) && "symbol" in p && "side" in p && p["side"] != Str("None")
    requires i < |ps| && ps[i]["symbol"] == p["symbol"] && forall j :: 0 <= j < i ==> ps[j]["symbol"] != p["symbol"]
    ensures var o := MergedSingle(ps, syms, p);
      && o.error.None? && o.symbols == syms
      && (Unchanged(ps[i], p) ==> o.positions == ps && o.notices == [])
      && (!Unchanged(ps[i], p) ==> o.positions == ps[i := p] && o.notices == [Notice(PositionUpdated, p)])
  {
    ListedIffIndexed(ps, syms, p["symbol"]);
    IndexOfFirst(ps, p["symbol"], i);
  }

  /** BothSide: a new symbol adopts the first leg of non-zero size and announces it. */
  lemma BothSideAdopts(ps: seq<Record>, syms: seq<Field>, legs: seq<Record>)
    requires Tracked(ps, syms) && |legs| > 0 && "symbol" in legs[0] && legs[0]["symbol"] !in syms
    requires Get(legs[0], "size") != Num(0.0)
    ensures var o := BothSide(ps, syms, legs);
      |o.positions| > |ps| && o.positions[..|ps| + 1] == ps + [legs[0]]
      && |o.notices| > 0 && o.notices[0] == Notice(NewPosition, legs[0])
  {
    var ps1 := ps + [legs[0]];
    var syms1 := syms + [legs[0]["symbol"]];
    var o := Settled(ps1, syms1, legs, legs[0]["symbol"], [Notice(NewPosition, legs[0])]);
    assert o.notices[0] == Notice(NewPosition, legs[0]);
    ListedIffIndexed(ps1, syms1, legs[0]["symbol"]);
  }

  /** BothSide: when the leg on the tracked side has size zero, the position is popped from both lists and announced closed. */
  lemma BothSideCloses(ps: seq<Record>, syms: seq<Field>, legs: seq<Record>, i: nat)
    requires Tracked(ps, syms) && |legs| > 0 && "symbol" in legs[0]
    requires i < |ps| && ps[i]["symbol"] == legs[0]["symbol"]
    requires forall j :: 0 <= j < i ==> ps[j]["symbol"] != legs[0]["symbol"]
    requires var leg := OnSide(legs, Get(ps[i], "side")); leg.Some? && "size" in leg.value && leg.value["size"] == Num(0.0)
    ensures var o := BothSide(ps, syms, legs);
      o.positions == RemoveAt(ps, i) && o.symbols == RemoveAt(syms, i)
      && o.notices == [Notice(PositionClosed, ps[i])] && o.error.None?
  {
    ListedIffIndexed(ps, syms, legs[0]["symbol"]);
    IndexOfFirst(ps, legs[0]["symbol"], i);
  }

  // ---------------------------------------------------------------------------------------------
  // The message of a position
  // ---------------------------------------------------------------------------------------------

  /** `pnl` of `build_response`: entry value minus current value, negated for a long position. */
  function Pnl(entry: real, price: real, size: real, side: Field): real
  {
    var pnl := entry * size - price * size;
    if side == Str("Buy") then -pnl else pnl
  }

  /** A long position gains when the price rises, a short one when it falls. */
  lemma PnlRule(entry: real, price: real, size: real, side: Field)
    ensures side == Str("Buy") ==> Pnl(entry, price, size, side) == (price - entry) * size
    ensures side != Str("Buy") ==> Pnl(entry, price, size, side) == (entry - price) * size
  {
    assert entry * size - price * size == (entry - price) * size;
  }

  /** For a positive size the PnL mark is a tick exactly when the price moved the position's way. */
  lemma PnlSign(entry: real, price: real, size: real, side: Field)
    requires size > 0.0
    ensures Pnl(entry, price, size, side) >= 0.0 <==> if side == Str("Buy") then price >= entry else price <= entry
  {
    PnlRule(entry, price, size, side);
    if side == Str("Buy") {
      if price >= entry {
        assert (price - entry) * size >= 0.0;
      } else {
        assert (entry - price) * size > 0.0;
      }
    } else {
      if price <= entry {
        assert (entry - price) * size >= 0.0;
      } else {
        assert (price - entry) * size > 0.0;
      }
    }
  }

  /** The lines of a position message. */
  datatype Part = Banner(action: Action) | Direction(long: bool) | Size | Entry | Close | TakeProfit | StopLoss | LiqPrice | PnlLine

  /** Python truthiness of a field. */
  predicate Truthy(f: Field)
  {
    match f
    case Str(s) => s != ""
    case Num(x) => x != 0.0
    case Null => false
  }

  /**
   * The layout of `build_response`: a banner for an announcement, the direction, then size,
   * entry, the optional targets and the liquidation price; a closed position shows entry, close
   * price and PnL; a plain summary shows everything and the PnL.
   */
  function Layout(p: Record, action: Option<Action>): (parts: seq<Part>)
    ensures Entry in parts
    ensures Close in parts <==> action == Some(PositionClosed)
    ensures PnlLine in parts <==> action.None? || action == Some(PositionClosed)
    ensures Size in parts <==> action != Some(PositionClosed)
    ensures TakeProfit in parts <==> action != Some(PositionClosed) && Truthy(Get(p, "take_profit"))
    ensures parts[if action.Some? then 1 else 0] == Direction(Get(p, "side") == Str("Buy"))
  {
    var head := Heading(p, action);
    var body := Details(p, action);
    assert head[|head| - 1] == Direction(Get(p, "side") == Str("Buy"));
    head + body
  }

  /** The banner of an announcement, then the direction. */
  function Heading(p: Record, action: Option<Action>): (r: seq<Part>)
    ensures |r| == if action.Some? then 2 else 1
    ensures r[|r| - 1] == Direction(Get(p, "side") == Str("Buy"))
    ensures forall x :: x in r ==> x.Banner? || x.Direction?
  {
    (if action.Some? then [Banner(action.value)] else []) + [Direction(Get(p, "side") == Str("Buy"))]
  }

  /** The optional take-profit and stop-loss lines. */
  function Targets(p: Record): (r: seq<Part>)
    ensures TakeProfit in r <==> Truthy(Get(p, "take_profit"))
    ensures forall x :: x in r ==> x == TakeProfit || x == StopLoss
  {
    (if Truthy(Get(p, "take_profit")) then [TakeProfit] else [])
    + (if Truthy(Get(p, "stop_loss")) then [StopLoss] else [])
  }

  /** The lines after the heading. */
  function Details(p: Record, action: Option<Action>): (r: seq<Part>)
    ensures Entry in r
    ensures Close in r <==> action == Some(PositionClosed)
    ensures PnlLine in r <==> action.None? || action == Some(PositionClosed)
    ensures Size in r <==> action != Some(PositionClosed)
    ensures TakeProfit in r <==> action != Some(PositionClosed) && Truthy(Get(p, "take_profit"))
  {
    match action
    case Some(PositionClosed) => [Entry, Close, PnlLine]
    case Some(_) => [Size, Entry] + Targets(p) + [LiqPrice]
    case None => [Size, Entry] + Targets(p) + [LiqPrice, PnlLine]
  }

  /** `PositionHandler`: the open positions and, in parallel, their symbols. */
  class PositionHandler {
    var positions: seq<Record>
    var symbols: seq<Field>

    predicate Valid()
      reads this
    {
      Tracked(positions, symbols)
    }

    /** `__init__`: the open positions `get_positions` returned, and the symbol of each. */
    constructor(open: seq<Record>)
      requires forall i :: 0 <= i < |open| ==> "symbol" in open[i]
      ensures positions == open && |symbols| == |open|
      ensures forall i :: 0 <= i < |open| ==> symbols[i] == open[i]["symbol"]
      ensures Valid()
    {
      positions := open;
      symbols := seq(|open|, i requires 0 <= i < |open| => open[i]["symbol"]);
    }

    /**
     * `handle`: the payload is filtered to `key_list`; its first record's mode picks the branch.
     * An exception leaves the lists as far as they had been changed.
     */
    method Handle(payload: seq<Record>) returns (notices: seq<Notice>, r: Result<()>)
      requires Valid()
      modifies this`positions, this`symbols
      ensures var o := Handled(old(positions), old(symbols), payload);
        positions == o.positions && symbols == o.symbols && notices == o.notices
        && (r.Err? <==> o.error.Some?) && (r.Err? ==> r.error == o.error.value)
      ensures r.Ok? && Agree(FilterAll(payload)) ==> Valid()
    {
      if Agree(FilterAll(payload)) {
        HandledKeepsTracked(positions, symbols, payload);
      }
      var legs := FilterAll(payload);
      if |legs| == 0 {
        return [], Err(IndexError);
      }
      var mode := Get(legs[0], "mode");
      if mode == Str("MergedSingle") {
        notices, r := HandleMerged(legs[0]);
      } else if mode == Str("BothSide") {
        notices, r := HandleBothSide(legs);
      } else {
        notices, r := [], Ok(());
      }
    }

    /** The `MergedSingle` branch. */
    method HandleMerged(p: Record) returns (notices: seq<Notice>, r: Result<()>)
      requires Valid()
      modifies this`positions, this`symbols
      ensures var o := MergedSingle(old(positions), old(symbols), p);
        positions == o.positions && symbols == o.symbols && notices == o.notices
        && (r.Err? <==> o.error.Some?) && (r.Err? ==> r.error == o.error.value)
    {
      notices := [];
      if "symbol" !in p {
        return [], Err(KeyError("symbol"));
      }
      var sym := p["symbol"];
      if sym !in symbols {
        if "side" !in p {
          return [], Err(KeyError("side"));
        }
        if p["side"] != Str("None") {
          positions := positions + [p];
          symbols := symbols + [sym];
          return [Notice(NewPosition, p)], Ok(());
        }
      }
      var index := IndexOf(positions, sym);
      if index.Some? {
        var i := index.value;
        if "side" !in p {
          return [], Err(KeyError("side"));
        }
        if p["side"] == Str("None") {
          var closed := positions[i];
          symbols := RemoveAt(symbols, i);
          positions := RemoveAt(positions, i);
          return [Notice(PositionClosed, closed)], Ok(());
        }
        if Unchanged(positions[i], p) {
          return [], Ok(());
        }
        positions := positions[i := p];
        notices := [Notice(PositionUpdated, p)];
      }
      r := Ok(());
    }

    /** The `BothSide` branch. */
    method HandleBothSide(legs: seq<Record>) returns (notices: seq<Notice>, r: Result<()>)
      requires Valid() && |legs| > 0
      modifies this`positions, this`symbols
      ensures var o := BothSide(old(positions), old(symbols), legs);
        positions == o.positions && symbols == o.symbols && notices == o.notices
        && (r.Err? <==> o.error.Some?) && (r.Err? ==> r.error == o.error.value)
    {
      notices := [];
      if "symbol" !in legs[0] {
        return [], Err(KeyError("symbol"));
      }
      var sym := legs[0]["symbol"];
      var adopted := Adopted(symbols, legs, sym);
      if adopted.Err? {
        return [], Err(adopted.error);
      }
      if adopted.value.Some? && adopted.value.value != map[] {
        var q := adopted.value.value;
        positions := positions + [q];
        if "symbol" !in q {
          return [], Err(KeyError("symbol"));
        }
        symbols := symbols + [q["symbol"]];
        notices := [Notice(NewPosition, q)];
      }
      notices, r := Settle(legs, sym, notices);
    }

    /** The settlement of the tracked symbol in the `BothSide` branch. */
    method Settle(legs: seq<Record>, sym: Field, sent: seq<Notice>) returns (notices: seq<Notice>, r: Result<()>)
      requires Valid()
      modifies this`positions, this`symbols
      ensures var o := Settled(old(positions), old(symbols), legs, sym, sent);
        positions == o.positions && symbols == o.symbols && notices == o.notices
        && (r.Err? <==> o.error.Some?) && (r.Err? ==> r.error == o.error.value)
    {
      notices := sent;
      var index := IndexOf(positions, sym);
      if index.None? {
        return notices, Ok(());
      }
      var i := index.value;
      var leg := OnSide(legs, Get(positions[i], "side"));
      if leg.None? {
        return notices, Err(IndexError);
      }
      var position := leg.value;
      if "size" !in position {
        return notices, Err(KeyError("size"));
      }
      if position["size"] == Num(0.0) {
        var closed := positions[i];
        symbols := RemoveAt(symbols, i);
        positions := RemoveAt(positions, i);
        return notices + [Notice(PositionClosed, closed)], Ok(());
      }
      if Unchanged(positions[i], position) {
        return notices, Ok(());
      }
      positions := positions[i := position];
      notices := notices + [Notice(PositionUpdated, position)];
      r := Ok(());
    }
  }

  // ---------------------------------------------------------------------------------------------
  // The old price handler
  // ---------------------------------------------------------------------------------------------

  /** The fields of a kline payload the handler reads. */
  datatype Tick = Tick(open: real, close: real, timestamp: int)

  /** Bybit timestamp units per minute: `current_interval` is this many times the interval. */
  const UnitsPerMinute: int := 60 * 1000000

  /** `get_symbols`: the listed names ending in USDT, none when the listing is absent or empty. */
  function UsdtSymbols(listed: Option<seq<string>>): (r: seq<string>)
    ensures forall s :: s in r <==> listed.Some? && s in listed.value && EndsWith(s, "USDT")
  {
    if listed.None? || listed.value == [] then [] else BybitClient.UsdtInstruments(listed.value)
  }

  /** A running candle keeps its open and close between its low and its high. */
  predicate Consistent(q: LS.Quote)
  {
    q.low <= q.open <= q.high && q.low <= q.close <= q.high
  }

  /** The first tick of a symbol opens a candle whose four prices are its close. */
  function Opened(close: real, timestamp: int): (q: LS.Quote)
    ensures Consistent(q) && q.open == close && q.high == close && q.low == close && q.close == close
    ensures q.timestamp == timestamp
  {
    LS.Quote(close, close, close, close, timestamp)
  }

  /** A later tick within the interval: the close moves, the high only rises, the low only falls. */
  function Ticked(q: LS.Quote, close: real): (r: LS.Quote)
    ensures r.open == q.open && r.close == close && r.timestamp == q.timestamp
    ensures r.high >= q.high && r.high >= close && (r.high == q.high || r.high == close)
    ensures r.low <= q.low && r.low <= close && (r.low == q.low || r.low == close)
    ensures Consistent(q) ==> Consistent(r)
  {
    q.(close := close, high := if close > q.high then close else q.high, low := if close < q.low then close else q.low)
  }

  /** The candle after the first tick at `first` and then every close of `closes`, in order. */
  function Candle(first: real, timestamp: int, closes: seq<real>): (q: LS.Quote)
    decreases |closes|
  {
    if |closes| == 0 then Opened(first, timestamp)
    else Ticked(Candle(first, timestamp, closes[..|closes| - 1]), closes[|closes| - 1])
  }

  /**
   * A candle opens at its first price and closes at its last, and its high and low are the
   * largest and the smallest price seen.
   */
  lemma {:induction false} CandleExtremes(first: real, timestamp: int, closes: seq<real>)
    ensures var q := Candle(first, timestamp, closes); var prices := [first] + closes;
      && q.open == first && q.close == prices[|prices| - 1] && Consistent(q)
      && (forall c :: c in prices ==> q.low <= c <= q.high)
      && q.high in prices && q.low in prices
    decreases |closes|
  {
    if |closes| > 0 {
      var init := closes[..|closes| - 1];
      CandleExtremes(first, timestamp, init);
      var prices := [first] + closes;
      assert prices == ([first] + init) + [closes[|closes| - 1]];
    }
  }

  /**
   * One symbol of the boundary loop: the stored signal is cleared when the strategy has none for
   * it, and taken from the strategy when none was stored; otherwise it stays.
   */
  function Step(stored: map<string, LS.Call>, s: string, latest: map<string, LS.Call>): map<string, LS.Call>
  {
    if s !in latest && s in stored then stored - {s}
    else if s in latest && s !in stored then stored[s := latest[s]]
    else stored
  }

  /** The stored signals after the boundary loop has visited `symbols` in order. */
  function Swept(stored: map<string, LS.Call>, symbols: seq<string>, latest: map<string, LS.Call>): map<string, LS.Call>
    decreases |symbols|
  {
    if |symbols| == 0 then stored
    else Step(Swept(stored, symbols[..|symbols| - 1], latest), symbols[|symbols| - 1], latest)
  }

  /** The signals the boundary loop announces: a symbol whose signal is new, with that signal. */
  function Alerts(stored: map<string, LS.Call>, symbols: seq<string>, latest: map<string, LS.Call>): seq<(string, LS.Call)>
    decreases |symbols|
  {
    if |symbols| == 0 then []
    else
      var before := Swept(stored, symbols[..|symbols| - 1], latest);
      var s := symbols[|symbols| - 1];
      Alerts(stored, symbols[..|symbols| - 1], latest) + (if s in latest && s !in before then [(s, latest[s])] else [])
  }

  /**
   * After the loop, a visited symbol holds a signal exactly when the strategy gave one, and it is
   * the one stored before if there was one (an existing signal is not refreshed); a symbol the
   * loop did not visit keeps its stored signal.
   */
  lemma {:induction false} SweptMeaning(stored: map<string, LS.Call>, symbols: seq<string>, latest: map<string, LS.Call>, s: string)
    ensures var r := Swept(stored, symbols, latest);
      && (s in symbols ==> (s in r <==> s in latest) && (s in r ==> r[s] == if s in stored then stored[s] else latest[s]))
      && (s !in symbols ==> (s in r <==> s in stored) && (s in r ==> r[s] == stored[s]))
    decreases |symbols|
  {
    if |symbols| > 0 {
      var init := symbols[..|symbols| - 1];
      SweptMeaning(stored, init, latest, s);
      assert symbols == init + [symbols[|symbols| - 1]];
    }
  }

  /**
   * A signal is announced exactly for a visited symbol the strategy signals and that held no
   * signal before, and it is announced with the strategy's signal.
   */
  lemma {:induction false} AlertsMeaning(stored: map<string, LS.Call>, symbols: seq<string>, latest: map<string, LS.Call>, s: string, c: LS.Call)
    ensures (s, c) in Alerts(stored, symbols, latest) <==> s in symbols && s in latest && s !in stored && c == latest[s]
    decreases |symbols|
  {
    if |symbols| > 0 {
      var init := symbols[..|symbols| - 1];
      var last := symbols[|symbols| - 1];
      AlertsMeaning(stored, init, latest, s, c);
      SweptMeaning(stored, init, latest, last);
      assert symbols == init + [last];
    }
  }

  /** The loop stops at the first visited symbol whose signal is new; this is its index, or the length when there is none. */
  function FirstAlert(stored: map<string, LS.Call>, symbols: seq<string>, latest: map<string, LS.Call>): (k: nat)
    ensures k <= |symbols|
    ensures forall j :: 0 <= j < k ==> !(symbols[j] in latest && symbols[j] !in stored)
    ensures k < |symbols| ==> symbols[k] in latest && symbols[k] !in stored
  {
    if |symbols| == 0 then 0
    else if symbols[0] in latest && symbols[0] !in stored then 0
    else
      assert forall j :: 1 <= j < |symbols| ==> symbols[j] == symbols[1..][j - 1];
      1 + FirstAlert(stored, symbols[1..], latest)
  }

  /** The loop announces nothing exactly when no visited symbol has a new signal. */
  lemma NoAlertsIffNoFirst(stored: map<string, LS.Call>, symbols: seq<string>, latest: map<string, LS.Call>)
    ensures Alerts(stored, symbols, latest) == [] <==> FirstAlert(stored, symbols, latest) == |symbols|
  {
    var k := FirstAlert(stored, symbols, latest);
    var alerts := Alerts(stored, symbols, latest);
    if k < |symbols| {
      AlertsMeaning(stored, symbols, latest, symbols[k], latest[symbols[k]]);
    } else if alerts != [] {
      var a := alerts[0];
      AlertsMeaning(stored, symbols, latest, a.0, a.1);
    }
  }

  /** The loop visiting one more symbol. */
  lemma SweepStep(stored: map<string, LS.Call>, symbols: seq<string>, latest: map<string, LS.Call>, i: int)
    requires 0 <= i < |symbols|
    ensures Swept(stored, symbols[..i + 1], latest) == Step(Swept(stored, symbols[..i], latest), symbols[i], latest)
    ensures var before := Swept(stored, symbols[..i], latest);
      Alerts(stored, symbols[..i + 1], latest) ==
        Alerts(stored, symbols[..i], latest) + (if symbols[i] in latest && symbols[i] !in before then [(symbols[i], latest[symbols[i]])] else [])
  {
    assert symbols[..i + 1][..i] == symbols[..i];
  }

  /**
   * The boundary loop of `handle` as evidently intended: every symbol is visited, each new signal
   * is stored and announced, and each vanished one is cleared.
   */
  method Sweep(stored: map<string, LS.Call>, symbols: seq<string>, latest: map<string, LS.Call>)
    returns (signals: map<string, LS.Call>, alerts: seq<(string, LS.Call)>)
    ensures signals == Swept(stored, symbols, latest) && alerts == Alerts(stored, symbols, latest)
  {
    signals, alerts := stored, [];
    var i := 0;
    while i < |symbols|
      invariant 0 <= i <= |symbols|
      invariant signals == Swept(stored, symbols[..i], latest) && alerts == Alerts(stored, symbols[..i], latest)
    {
      SweepStep(stored, symbols, latest, i);
      var s := symbols[i];
      if s !in latest && s in signals {
        signals := signals - {s};
      }
      if s in latest && s !in signals {
        signals := signals[s := latest[s]];
        alerts := alerts + [(s, latest[s])];
      }
      i := i + 1;
    }
    assert symbols[..|symbols|] == symbols;
  }

  /** The message of the exception `build_response` raises when it subscripts a signal record. */
  const NotSubscriptable: string := "TypeError: 'Signal' object is not subscriptable"

  /**
   * The boundary loop as written: `build_response` reads `signal['type']` from a signal record,
   * which raises at the first new signal, after it was stored and before anything is sent. The
   * loop ends there.
   */
  method SweepAsWritten(stored: map<string, LS.Call>, symbols: seq<string>, latest: map<string, LS.Call>)
    returns (signals: map<string, LS.Call>, r: Result<()>)
    ensures var k := FirstAlert(stored, symbols, latest);
      && (r.Err? <==> k < |symbols|)
      && (r.Err? ==> r.error == NotSubscriptable && signals == Swept(stored, symbols[..k + 1], latest))
      && (r.Ok? ==> signals == Swept(stored, symbols, latest))
  {
    signals := stored;
    var i := 0;
    while i < |symbols|
      invariant 0 <= i <= |symbols| && i <= FirstAlert(stored, symbols, latest)
      invariant signals == Swept(stored, symbols[..i], latest)
    {
      SweepStep(stored, symbols, latest, i);
      SweptMeaning(stored, symbols[..i], latest, symbols[i]);
      var s := symbols[i];
      if s !in latest && s in signals {
        signals := signals - {s};
      }
      if s in latest && s !in signals {
        signals := signals[s := latest[s]];
        return signals, Err(NotSubscriptable);
      }
      i := i + 1;
    }
    assert symbols[..|symbols|] == symbols;
    r := Ok(());
  }

  /**
   * As written, whenever the corrected loop would announce a signal the loop raises instead: no
   * new signal ever reaches the channel.
   */
  lemma AsWrittenNeverAnnounces(stored: map<string, LS.Call>, symbols: seq<string>, latest: map<string, LS.Call>)
    ensures Alerts(stored, symbols, latest) != [] <==> FirstAlert(stored, symbols, latest) < |symbols|
  {
    NoAlertsIffNoFirst(stored, symbols, latest);
  }

  /** The headline of an announcement: a sell signal reads as pumping, a buy signal as dumping. */
  datatype Headline = Pumping(symbol: string, rsi: Floats.Float) | Dumping(symbol: string, rsi: Floats.Float)

  /** `build_response` reading the signal's fields. */
  function HeadlineOf(alert: (string, LS.Call)): (h: Headline)
    ensures h.symbol == alert.0 && h.rsi == alert.1.value
    ensures h.Pumping? <==> alert.1.kind == Models.Sell
  {
    match alert.1.kind
    case Sell => Pumping(alert.0, alert.1.value)
    case Buy => Dumping(alert.0, alert.1.value)
  }

  /** `PriceHandler` of handlers.py: running candles per symbol and the signals announced so far. */
  class PriceHandler {
    const symbols: seq<string>
    /** `current_interval`. */
    const interval: int
    /** `running_intervals`. */
    var running: map<string, LS.Quote>
    var signals: map<string, LS.Call>
    /** `current_timestamp`. */
    var timestamp: int

    predicate Valid()
      reads this
    {
      forall s :: s in running ==> Consistent(running[s])
    }

    /** `__init__`: the USDT symbols, the interval converted to timestamp units, nothing running. */
    constructor(listed: Option<seq<string>>, minutes: int)
      ensures symbols == UsdtSymbols(listed) && interval == UnitsPerMinute * minutes
      ensures running == map[] && signals == map[] && timestamp == 0
      ensures Valid()
    {
      symbols := UsdtSymbols(listed);
      interval := UnitsPerMinute * minutes;
      running := map[];
      signals := map[];
      timestamp := 0;
    }

    /**
     * `handle` for one tick of the symbol named after the topic's last '.'. The first tick ever
     * fixes the timestamp. A symbol without a running candle opens one; a tick within the
     * interval updates it; a tick past the interval is dropped and closes the interval: `latest`
     * is the outcome of the strategy's `watch` over the running candles. When `watch` raises (its
     * KeyError), the exception leaves `handle` with the signals and candles as they were and the
     * timestamp as fixed on entry. Otherwise its signals are compared with the stored ones, the
     * new ones announced, the timestamp advanced by one interval and every running candle discarded.
     */
    method Handle(topic: string, tick: Tick, latest: Result<map<string, LS.Call>>) returns (r: Result<seq<Headline>>)
      requires Valid()
      modifies this`running, this`signals, this`timestamp
      ensures Valid()
      ensures var symbol := LastSegment(topic, '.');
        var start := if old(timestamp) == 0 then tick.timestamp else old(timestamp);
        if symbol !in old(running) then
          running == old(running)[symbol := Opened(tick.close, start)] && signals == old(signals)
          && timestamp == start && r == Ok([])
        else if tick.timestamp - start < interval then
          running == old(running)[symbol := Ticked(old(running)[symbol], tick.close)] && signals == old(signals)
          && timestamp == start && r == Ok([])
        else if latest.Err? then
          r == Err(latest.error) && running == old(running) && signals == old(signals) && timestamp == start
        else
          var alerts := Alerts(old(signals), symbols, latest.value);
          && signals == Swept(old(signals), symbols, latest.value)
          && r.Ok? && |r.value| == |alerts| && (forall i :: 0 <= i < |r.value| ==> r.value[i] == HeadlineOf(alerts[i]))
          && timestamp == start + interval && running == map[]
    {
      var symbol := LastSegment(topic, '.');
      if timestamp == 0 {
        timestamp := tick.timestamp;
      }
      if symbol !in running {
        running := running[symbol := Opened(tick.close, timestamp)];
        return Ok([]);
      }
      if tick.timestamp - timestamp < interval {
        running := running[symbol := Ticked(running[symbol], tick.close)];
        return Ok([]);
      }
      if latest.Err? {
        return Err(latest.error);
      }
      var alerts;
      signals, alerts := Sweep(signals, symbols, latest.value);
      r := Ok(seq(|alerts|, i requires 0 <= i < |alerts| => HeadlineOf(alerts[i])));
      timestamp := timestamp + interval;
      running := map[];
    }
  }
}
