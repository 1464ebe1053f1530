/**
 * Signal aggregation: per symbol, the strategies' signals are split by direction, each direction
 * becomes one aggregated signal with a combined confidence, and the result is sorted and
 * formatted into Discord-sized messages.
 */
module SignalHandler {
  import opened Wrappers
  import opened Models
  import Text

  /** The Discord message limit, in characters. */
  const CharLimit: int := 2000
  /** How many aggregated signals one report shows. */
  const MaxSignals: nat := 10
  /** The combined confidence an aggregated signal needs. */
  const MinConfidence: real := 0.8

  const NoSignalsMessage: string := "No significant trading signals at this time."
  const BuyHeader: string := "\U{1F3AF}" + " **High-Confidence Trading Signals**\n\n\U{1F4C8} **BUY Signals**"
  const SellHeader: string := "\U{1F4C9}" + " **SELL Signals**"

  /** A strategy's weight; kinds without one weigh 0.5. */
  function Weight(k: StrategyType): (w: real)
    ensures 0.5 <= w <= 0.85
  {
    match k
    case Rsi => 0.8
    case Macd => 0.7
    case Bollinger => 0.75
    case Ichimoku => 0.85
    case _ => 0.5
  }

  /** One direction's signals for one symbol, merged. */
  datatype AggregatedSignal = AggregatedSignal(
    symbol: string, signalType: SignalType, confidence: real,
    price: real, timestamp: int, supporting: seq<SignalData>)

  /** The total weight of a group of signals. */
  function TotalWeight(signals: seq<SignalData>): (w: real)
    ensures |signals| > 0 ==> w > 0.0
    ensures |signals| == 0 ==> w == 0.0
  {
    if |signals| == 0 then 0.0 else TotalWeight(signals[..|signals| - 1]) + Weight(signals[|signals| - 1].strategy)
  }

  /** The weighted confidence as accumulated: each signal adds its weight, not weight times anything. */
  function WeightedConfidence(signals: seq<SignalData>): (w: real)
  {
    if |signals| == 0 then 0.0 else WeightedConfidence(signals[..|signals| - 1]) + Weight(signals[|signals| - 1].strategy)
  }

  /** The first signal with the greatest timestamp (`max` keeps the first of equals). */
  function Latest(signals: seq<SignalData>): (i: nat)
    requires |signals| > 0
    ensures i < |signals|
    ensures forall j :: 0 <= j < |signals| ==> signals[j].timestamp <= signals[i].timestamp
    ensures forall j :: 0 <= j < i ==> signals[j].timestamp < signals[i].timestamp
  {
    if |signals| == 1 then 0
    else
      var i := Latest(signals[..|signals| - 1]);
      if signals[|signals| - 1].timestamp > signals[i].timestamp then |signals| - 1 else i
  }

  /**
   * `_create_aggregated_signal`: nothing for an empty group or one whose confidence is below the
   * threshold; otherwise the confidence, the latest signal's symbol, price and time, and the group.
   */
  function Aggregated(signals: seq<SignalData>, t: SignalType): (r: Option<AggregatedSignal>)
  {
    if |signals| == 0 then None
    else
      var total := TotalWeight(signals);
      var confidence := WeightedConfidence(signals) / total;
      if confidence < MinConfidence then None
      else
        var latest := signals[Latest(signals)];
        Some(AggregatedSignal(latest.symbol, t, confidence, latest.price, latest.timestamp, signals))
  }

  lemma {:induction false} WeightedIsTotal(signals: seq<SignalData>)
    ensures WeightedConfidence(signals) == TotalWeight(signals)
  {
    if |signals| > 0 {
      WeightedIsTotal(signals[..|signals| - 1]);
    }
  }

  /**
   * Every non-empty group aggregates, with confidence exactly 1: the weights cancel out, so the
   * threshold never rejects anything.
   */
  lemma AggregatedAlwaysOne(signals: seq<SignalData>, t: SignalType)
    requires |signals| > 0
    ensures Aggregated(signals, t).Some?
    ensures var a := Aggregated(signals, t).value;
      && a.confidence == 1.0 && a.signalType == t && a.supporting == signals
      && a.symbol == signals[Latest(signals)].symbol && a.price == signals[Latest(signals)].price
      && a.timestamp == signals[Latest(signals)].timestamp
  {
    WeightedIsTotal(signals);
    DivSelf(TotalWeight(signals));
  }

  lemma DivSelf(w: real)
    requires w > 0.0
    ensures w / w == 1.0
  {
  }

  /** The loop of `_create_aggregated_signal`, accumulating both running totals. */
  method CreateAggregatedSignal(signals: seq<SignalData>, t: SignalType) returns (r: Option<AggregatedSignal>)
    ensures r == Aggregated(signals, t)
  {
    if |signals| == 0 {
      return None;
    }
    var totalWeight := 0.0;
    var weightedConfidence := 0.0;
    for i := 0 to |signals|
      invariant totalWeight == TotalWeight(signals[..i])
      invariant weightedConfidence == WeightedConfidence(signals[..i])
    {
      assert signals[..i + 1][..i] == signals[..i];
      var weight := Weight(signals[i].strategy);
      totalWeight := totalWeight + weight;
      weightedConfidence := weightedConfidence + weight;
    }
    assert signals[..|signals|] == signals;
    var confidence := weightedConfidence / totalWeight;
    if confidence < MinConfidence {
      return None;
    }
    var latest := signals[Latest(signals)];
    return Some(AggregatedSignal(latest.symbol, t, confidence, latest.price, latest.timestamp, signals));
  }

  /** The signals of one direction, in order. */
  function OfType(signals: seq<SignalData>, t: SignalType): (r: seq<SignalData>)
    ensures |r| <= |signals|
  {
    if |signals| == 0 then []
    else OfType(signals[..|signals| - 1], t) + (if signals[|signals| - 1].signalType == t then [signals[|signals| - 1]] else [])
  }

  /** A signal is in its direction's list exactly when it is in the group. */
  lemma {:induction false} OfTypeMember(signals: seq<SignalData>, t: SignalType, x: SignalData)
    ensures x in OfType(signals, t) <==> x in signals && x.signalType == t
  {
    if |signals| > 0 {
      var n := |signals|;
      OfTypeMember(signals[..n - 1], t, x);
      assert signals == signals[..n - 1] + [signals[n - 1]];
    }
  }

  lemma OfTypeSnoc(pre: seq<SignalData>, last: SignalData, t: SignalType)
    ensures OfType(pre + [last], t) == OfType(pre, t) + (if last.signalType == t then [last] else [])
  {
    assert (pre + [last])[..|pre|] == pre;
  }

  /** Splitting by direction loses nothing and adds nothing. */
  lemma {:induction false} OfTypeSplits(signals: seq<SignalData>)
    ensures multiset(OfType(signals, Buy)) + multiset(OfType(signals, Sell)) == multiset(signals)
  {
    if |signals| > 0 {
      var n := |signals|;
      var pre, last := signals[..n - 1], signals[n - 1];
      assert signals == pre + [last];
      OfTypeSplits(pre);
      OfTypeSnoc(pre, last, Buy);
      OfTypeSnoc(pre, last, Sell);
      SnocSplit(OfType(pre, Buy), OfType(pre, Sell), pre, last);
    }
  }

  lemma SnocSplit<T>(b: seq<T>, s: seq<T>, pre: seq<T>, x: T)
    requires multiset(b) + multiset(s) == multiset(pre)
    ensures multiset(b + [x]) + multiset(s) == multiset(pre + [x])
    ensures multiset(b) + multiset(s + [x]) == multiset(pre + [x])
  {
  }

  /** The loop that splits one symbol's signals into buys and sells. */
  method Partition(signals: seq<SignalData>) returns (buys: seq<SignalData>, sells: seq<SignalData>)
    ensures buys == OfType(signals, Buy) && sells == OfType(signals, Sell)
  {
    buys, sells := [], [];
    for i := 0 to |signals|
      invariant buys == OfType(signals[..i], Buy) && sells == OfType(signals[..i], Sell)
    {
      assert signals[..i + 1][..i] == signals[..i];
      if signals[i].signalType == Buy {
        buys := buys + [signals[i]];
      } else {
        sells := sells + [signals[i]];
      }
    }
    assert signals[..|signals|] == signals;
  }

  /** One direction's aggregate, where the direction has signals and they aggregate. */
  function Part(signals: seq<SignalData>, t: SignalType): (r: seq<AggregatedSignal>)
  {
    var g := OfType(signals, t);
    if |g| > 0 && Aggregated(g, t).Some? then [Aggregated(g, t).value] else []
  }

  /** What one symbol contributes: its buy aggregate, then its sell aggregate, where they exist. */
  function SymbolAggregates(signals: seq<SignalData>): (r: seq<AggregatedSignal>)
  {
    Part(signals, Buy) + Part(signals, Sell)
  }

  /** A direction's aggregate has confidence 1, that direction, and at least one supporting signal. */
  lemma PartOne(signals: seq<SignalData>, t: SignalType)
    ensures forall a :: a in Part(signals, t) ==> a.confidence == 1.0 && a.signalType == t && |a.supporting| > 0
  {
    var g := OfType(signals, t);
    if |g| > 0 {
      AggregatedAlwaysOne(g, t);
    }
  }

  /** A symbol with signals in both directions yields both a buy and a sell aggregate. */
  lemma BothDirections(signals: seq<SignalData>, b: SignalData, s: SignalData)
    requires b in signals && b.signalType == Buy && s in signals && s.signalType == Sell
    ensures |SymbolAggregates(signals)| == 2
    ensures SymbolAggregates(signals)[0].signalType == Buy && SymbolAggregates(signals)[1].signalType == Sell
  {
    OfTypeMember(signals, Buy, b);
    OfTypeMember(signals, Sell, s);
    AggregatedAlwaysOne(OfType(signals, Buy), Buy);
    AggregatedAlwaysOne(OfType(signals, Sell), Sell);
    assert |Part(signals, Buy)| == 1 && |Part(signals, Sell)| == 1;
  }

  /** Each of a symbol's aggregates has confidence 1 and at least one supporting signal. */
  lemma SymbolAggregatesOne(signals: seq<SignalData>)
    ensures forall a :: a in SymbolAggregates(signals) ==> a.confidence == 1.0 && |a.supporting| > 0
  {
    PartOne(signals, Buy);
    PartOne(signals, Sell);
  }

  /** The aggregates of every symbol, in the order of the symbols. */
  function Collect(signals: seq<(string, seq<SignalData>)>): (r: seq<AggregatedSignal>)
  {
    if |signals| == 0 then []
    else Collect(signals[..|signals| - 1]) + SymbolAggregates(signals[|signals| - 1].1)
  }

  /** Every collected aggregate has confidence 1 and at least one supporting signal. */
  lemma {:induction false} CollectAllOne(signals: seq<(string, seq<SignalData>)>)
    ensures forall a :: a in Collect(signals) ==> a.confidence == 1.0 && |a.supporting| > 0
  {
    if |signals| > 0 {
      var n := |signals|;
      CollectAllOne(signals[..n - 1]);
      SymbolAggregatesOne(signals[n - 1].1);
      forall a | a in Collect(signals) ensures a.confidence == 1.0 && |a.supporting| > 0 {
        if a !in Collect(signals[..n - 1]) {
          assert a in SymbolAggregates(signals[n - 1].1);
        }
      }
    }
  }

  /** A symbol whose map is empty contributes nothing. */
  lemma EmptySymbolSkipped(signals: seq<(string, seq<SignalData>)>, symbol: string)
    ensures Collect(signals + [(symbol, [])]) == Collect(signals)
  {
    assert (signals + [(symbol, [])])[..|signals|] == signals;
  }

  /** Non-increasing in confidence. */
  predicate ByConfidence(s: seq<AggregatedSignal>)
  {
    forall i, j :: 0 <= i < j < |s| ==> s[i].confidence >= s[j].confidence
  }

  /** A more confident head in front of an insertion into the tail keeps the order. */
  lemma InsertStep(x: AggregatedSignal, s: seq<AggregatedSignal>, t: seq<AggregatedSignal>)
    requires ByConfidence(s) && |s| > 0 && s[0].confidence > x.confidence
    requires ByConfidence(t) && multiset(t) == multiset(s[1..]) + multiset{x}
    ensures ByConfidence([s[0]] + t) && multiset([s[0]] + t) == multiset(s) + multiset{x}
  {
    assert s == [s[0]] + s[1..];
    forall k | 0 <= k < |t| ensures s[0].confidence >= t[k].confidence {
      assert t[k] in multiset(t);
      if t[k] != x {
        assert t[k] in multiset(s[1..]);
        var m :| 0 <= m < |s[1..]| && s[1..][m] == t[k];
        assert s[m + 1] == t[k];
      }
    }
    var u := [s[0]] + t;
    forall a, b | 0 <= a < b < |u| ensures u[a].confidence >= u[b].confidence {
      assert u[b] == t[b - 1];
      if a > 0 {
        assert u[a] == t[a - 1];
      }
    }
  }

  /** Put `x`, which came first, before the first element not more confident than it. */
  function InsertByConfidence(x: AggregatedSignal, s: seq<AggregatedSignal>): (r: seq<AggregatedSignal>)
    requires ByConfidence(s)
    ensures ByConfidence(r) && multiset(r) == multiset(s) + multiset{x}
  {
    if |s| == 0 || s[0].confidence <= x.confidence then
      [x] + s
    else
      var t := InsertByConfidence(x, s[1..]);
      InsertStep(x, s, t);
      [s[0]] + t
  }

  /** `sorted(..., key=confidence, reverse=True)`: most confident first, equals in input order. */
  function SortByConfidence(s: seq<AggregatedSignal>): (r: seq<AggregatedSignal>)
    ensures ByConfidence(r) && multiset(r) == multiset(s) && |r| == |s|
  {
    if |s| == 0 then []
    else
      assert s == [s[0]] + s[1..];
      InsertByConfidence(s[0], SortByConfidence(s[1..]))
  }

  /** Signals of one confidence are left in their order. */
  lemma {:induction false} SortSameConfidence(s: seq<AggregatedSignal>, c: real)
    requires forall a :: a in s ==> a.confidence == c
    ensures SortByConfidence(s) == s
  {
    if |s| > 0 {
      SortSameConfidence(s[1..], c);
      assert s == [s[0]] + s[1..];
    }
  }

  /** `aggregate_signals`: every symbol's aggregates, most confident first. */
  function Aggregate(signals: seq<(string, seq<SignalData>)>): (r: seq<AggregatedSignal>)
  {
    SortByConfidence(Collect(signals))
  }

  /** Since every confidence is 1, the sort leaves the aggregates in symbol order. */
  lemma AggregateInSymbolOrder(signals: seq<(string, seq<SignalData>)>)
    ensures Aggregate(signals) == Collect(signals)
  {
    CollectAllOne(signals);
    SortSameConfidence(Collect(signals), 1.0);
  }

  /** The loop of `aggregate_signals`. */
  method AggregateSignals(signals: seq<(string, seq<SignalData>)>) returns (r: seq<AggregatedSignal>)
    ensures r == Aggregate(signals)
    ensures ByConfidence(r) && forall a :: a in r ==> a.confidence == 1.0
  {
    var collected: seq<AggregatedSignal> := [];
    for i := 0 to |signals|
      invariant collected == Collect(signals[..i])
    {
      assert signals[..i + 1][..i] == signals[..i];
      var group := signals[i].1;
      var parts: seq<AggregatedSignal> := [];
      if |group| > 0 {
        var buys, sells := Partition(group);
        if |buys| > 0 {
          var a := CreateAggregatedSignal(buys, Buy);
          if a.Some? {
            parts := parts + [a.value];
          }
        }
        if |sells| > 0 {
          var a := CreateAggregatedSignal(sells, Sell);
          if a.Some? {
            parts := parts + [a.value];
          }
        }
      }
      assert parts == SymbolAggregates(group);
      collected := collected + parts;
    }
    assert signals[..|signals|] == signals;
    r := SortByConfidence(collected);
    AggregateInSymbolOrder(signals);
    CollectAllOne(signals);
  }

  /**
   * Number and value rendering the formatter relies on: `fixed(x, n)` is `f"{x:.nf}"`, `repr` is
   * `str(x)` of a float, `show` is `str(value)`, and `asFloat` is `float(value)`.
   */
  datatype Render = Render(
    fixed: (real, nat) -> string, repr: real -> string,
    show: SignalValue -> string, asFloat: SignalValue -> real)

  /** `sub` occurs in `s`. */
  predicate Contains(s: string, sub: string)
    decreases |s|
  {
    |sub| <= |s| && (s[..|sub|] == sub || (|s| > 0 && Contains(s[1..], sub)))
  }

  /** `_describe_signal_value`: a short description of one supporting signal. */
  function Describe(s: SignalData, rd: Render): (d: string)
    ensures s.strategy == Macd ==> d == (if s.signalType == Buy then "MACD Bullish Cross" else "MACD Bearish Cross")
    ensures s.strategy == Bollinger ==> d == (if s.signalType == Buy then "BB Lower Band Test" else "BB Upper Band Test")
    ensures s.strategy == Ichimoku && !Contains(rd.show(s.value), "TK:") ==>
      d == (if s.signalType == Buy then "Price Above Cloud" else "Price Below Cloud")
    ensures s.strategy !in {Rsi, Macd, Bollinger, Ichimoku} ==> d == rd.show(s.value)
  {
    match s.strategy
    case Rsi =>
      "RSI " + rd.fixed(rd.asFloat(s.value), 0) + (if s.signalType == Buy then " (Oversold)" else " (Overbought)")
    case Macd => if s.signalType == Buy then "MACD Bullish Cross" else "MACD Bearish Cross"
    case Bollinger => if s.signalType == Buy then "BB Lower Band Test" else "BB Upper Band Test"
    case Ichimoku =>
      if Contains(rd.show(s.value), "TK:") then "Ichimoku TK Cross"
      else if s.signalType == Buy then "Price Above Cloud" else "Price Below Cloud"
    case _ => rd.show(s.value)
  }

  /** `sep.join(parts)` for a separator of any length. */
  function JoinWith(parts: seq<string>, sep: string): string
  {
    if |parts| == 0 then "" else if |parts| == 1 then parts[0] else parts[0] + sep + JoinWith(parts[1..], sep)
  }

  /** The descriptions of a group of supporting signals, in order. */
  function Descriptions(signals: seq<SignalData>, rd: Render): (r: seq<string>)
    ensures |r| == |signals|
  {
    if |signals| == 0 then [] else [Describe(signals[0], rd)] + Descriptions(signals[1..], rd)
  }

  /** Every supporting signal is described once, in its place. */
  lemma {:induction false} DescriptionsAt(signals: seq<SignalData>, rd: Render, i: nat)
    requires i < |signals|
    ensures Descriptions(signals, rd)[i] == Describe(signals[i], rd)
  {
    if i > 0 {
      DescriptionsAt(signals[1..], rd, i - 1);
    }
  }

  /** The lines of one signal: symbol and confidence, price, its indicators if any, and a blank line. */
  function Block(a: AggregatedSignal, rd: Render): (lines: seq<string>)
    ensures 3 <= |lines| <= 4 && lines[|lines| - 1] == ""
  {
    ["**" + a.symbol + "** (" + rd.fixed(a.confidence, 2) + ")", "Price: " + rd.repr(a.price)]
    + (if |a.supporting| > 0 then [JoinWith(Descriptions(a.supporting, rd), " | ")] else [])
    + [""]
  }

  /** The lines a chunk starts with. */
  function Start(header: string): (lines: seq<string>)
  {
    if header == "" then [] else [header]
  }

  /** The length of the message a list of lines makes. */
  function Length(lines: seq<string>): nat
  {
    |Text.Join(lines, '\n')|
  }

  /** The finished chunks and the chunk being built, as lines. */
  datatype Chunking = Chunking(done: seq<seq<string>>, current: seq<string>)

  /** One signal's lines added: the current chunk is closed first if they would overflow it. */
  function AddBlock(c: Chunking, block: seq<string>, header: string): (r: Chunking)
  {
    if Length(c.current + block) > CharLimit && |c.current| > 0 then
      Chunking(c.done + [c.current], Start(header) + block)
    else
      Chunking(c.done, c.current + block)
  }

  /** The state after the first `n` blocks. */
  function ChunkAll(blocks: seq<seq<string>>, header: string): (r: Chunking)
  {
    if |blocks| == 0 then Chunking([], Start(header))
    else AddBlock(ChunkAll(blocks[..|blocks| - 1], header), blocks[|blocks| - 1], header)
  }

  /** The chunks as lines: the finished ones and the last one if it holds anything. */
  function Chunks(blocks: seq<seq<string>>, header: string): (r: seq<seq<string>>)
  {
    var c := ChunkAll(blocks, header);
    c.done + (if |c.current| > 0 then [c.current] else [])
  }

  /** The lines of blocks, one after another. */
  function Concat(blocks: seq<seq<string>>): (r: seq<string>)
  {
    if |blocks| == 0 then [] else Concat(blocks[..|blocks| - 1]) + blocks[|blocks| - 1]
  }

  /** A chunk that opens with the header. */
  predicate Headed(chunk: seq<string>, header: string)
  {
    Start(header) <= chunk
  }

  /** What a chunk holds after its header. */
  function Body(chunk: seq<string>, header: string): (r: seq<string>)
  {
    if Headed(chunk, header) then chunk[|Start(header)|..] else chunk
  }

  /** The bodies of a list of chunks, one after another. */
  function Bodies(chunks: seq<seq<string>>, header: string): (r: seq<string>)
  {
    if |chunks| == 0 then [] else Bodies(chunks[..|chunks| - 1], header) + Body(chunks[|chunks| - 1], header)
  }

  /** Every chunk so far opens with the header, and their bodies are the blocks in order. */
  predicate Laid(c: Chunking, blocks: seq<seq<string>>, header: string)
  {
    && (forall k :: 0 <= k < |c.done| ==> Headed(c.done[k], header))
    && Headed(c.current, header)
    && Bodies(c.done, header) + Body(c.current, header) == Concat(blocks)
  }

  lemma ConcatSnoc(blocks: seq<seq<string>>, block: seq<string>)
    ensures Concat(blocks + [block]) == Concat(blocks) + block
  {
    assert (blocks + [block])[..|blocks|] == blocks;
  }

  lemma BodiesSnoc(chunks: seq<seq<string>>, chunk: seq<string>, header: string)
    ensures Bodies(chunks + [chunk], header) == Bodies(chunks, header) + Body(chunk, header)
  {
    assert (chunks + [chunk])[..|chunks|] == chunks;
  }

  /** Closing the current chunk and opening a new one with the block keeps the layout. */
  lemma CloseLaid(c: Chunking, blocks: seq<seq<string>>, block: seq<string>, header: string)
    requires Laid(c, blocks, header)
    ensures Laid(Chunking(c.done + [c.current], Start(header) + block), blocks + [block], header)
  {
    var h := Start(header);
    ConcatSnoc(blocks, block);
    BodiesSnoc(c.done, c.current, header);
    assert (h + block)[..|h|] == h;
    assert (h + block)[|h|..] == block;
    var done := c.done + [c.current];
    forall k | 0 <= k < |done| ensures Headed(done[k], header) {
      if k < |c.done| {
        assert done[k] == c.done[k];
      }
    }
  }

  /** Appending the block to the current chunk keeps the layout. */
  lemma ExtendLaid(c: Chunking, blocks: seq<seq<string>>, block: seq<string>, header: string)
    requires Laid(c, blocks, header)
    ensures Laid(Chunking(c.done, c.current + block), blocks + [block], header)
  {
    ConcatSnoc(blocks, block);
    PrefixExtend(Start(header), c.current, block);
  }

  lemma PrefixExtend(h: seq<string>, x: seq<string>, y: seq<string>)
    requires h <= x
    ensures h <= x + y && (x + y)[|h|..] == x[|h|..] + y
  {
    assert (x + y)[..|h|] == x[..|h|];
  }

  lemma AddBlockLaid(c: Chunking, blocks: seq<seq<string>>, block: seq<string>, header: string)
    requires Laid(c, blocks, header)
    ensures Laid(AddBlock(c, block, header), blocks + [block], header)
  {
    if Length(c.current + block) > CharLimit && |c.current| > 0 {
      CloseLaid(c, blocks, block, header);
    } else {
      ExtendLaid(c, blocks, block, header);
    }
  }

  lemma InitLast(blocks: seq<seq<string>>)
    requires |blocks| > 0
    ensures blocks[..|blocks| - 1] + [blocks[|blocks| - 1]] == blocks
  {
  }

  /** Chunking keeps every block, in order, after a header in every chunk. */
  lemma {:induction false} ChunkAllLaid(blocks: seq<seq<string>>, header: string)
    ensures Laid(ChunkAll(blocks, header), blocks, header)
  {
    var n := |blocks|;
    if n == 0 {
      assert Start(header)[|Start(header)|..] == [];
    } else {
      var init, last := blocks[..n - 1], blocks[n - 1];
      var c := ChunkAll(init, header);
      assert Laid(AddBlock(c, last, header), blocks, header) by {
        ChunkAllLaid(init, header);
        AddBlockLaid(c, init, last, header);
        InitLast(blocks);
      }
      assert ChunkAll(blocks, header) == AddBlock(c, last, header);
    }
  }

  /**
   * `_format_signal_batch` keeps every signal once and in order: each message opens with the
   * header, and the messages' lines after their headers are the signals' lines one after another.
   */
  lemma ChunksKeepSignals(blocks: seq<seq<string>>, header: string)
    ensures forall k :: 0 <= k < |Chunks(blocks, header)| ==> Headed(Chunks(blocks, header)[k], header)
    ensures Bodies(Chunks(blocks, header), header) == Concat(blocks)
  {
    ChunkAllLaid(blocks, header);
    var c := ChunkAll(blocks, header);
    var chunks := Chunks(blocks, header);
    if |c.current| > 0 {
      assert chunks == c.done + [c.current];
      BodiesSnoc(c.done, c.current, header);
      forall k | 0 <= k < |chunks| ensures Headed(chunks[k], header) {
        if k < |c.done| {
          assert chunks[k] == c.done[k];
        }
      }
    } else {
      assert chunks == c.done;
      assert Body(c.current, header) == [];
    }
  }

  /** With a header, a signal too long for any message still leaves behind a chunk holding only the header. */
  lemma HeaderOnlyChunk(block: seq<string>, header: string)
    requires header != "" && Length([header] + block) > CharLimit
    ensures |Chunks([block], header)| == 2 && Chunks([block], header)[0] == [header]
  {
    assert [block][..0] == [];
    assert ChunkAll([block], header) == Chunking([[header]], [header] + block);
  }

  /** The blocks of a list of signals. */
  function Blocks(signals: seq<AggregatedSignal>, rd: Render): (r: seq<seq<string>>)
    ensures |r| == |signals|
  {
    if |signals| == 0 then [] else [Block(signals[0], rd)] + Blocks(signals[1..], rd)
  }

  lemma {:induction false} BlocksAt(signals: seq<AggregatedSignal>, rd: Render, i: nat)
    requires i < |signals|
    ensures Blocks(signals, rd)[i] == Block(signals[i], rd)
  {
    if i > 0 {
      BlocksAt(signals[1..], rd, i - 1);
    }
  }

  /** The messages of one direction's signals. */
  function Batch(signals: seq<AggregatedSignal>, header: string, rd: Render): (r: seq<string>)
  {
    JoinAll(Chunks(Blocks(signals, rd), header))
  }

  /** Each chunk's lines joined by newlines. */
  function JoinAll(chunks: seq<seq<string>>): (r: seq<string>)
  {
    if |chunks| == 0 then [] else JoinAll(chunks[..|chunks| - 1]) + [Text.Join(chunks[|chunks| - 1], '\n')]
  }

  lemma JoinAllSnoc(chunks: seq<seq<string>>, chunk: seq<string>)
    ensures JoinAll(chunks + [chunk]) == JoinAll(chunks) + [Text.Join(chunk, '\n')]
  {
    assert (chunks + [chunk])[..|chunks|] == chunks;
  }

  lemma {:induction false} JoinAllAt(chunks: seq<seq<string>>, k: nat)
    requires k < |chunks|
    ensures |JoinAll(chunks)| == |chunks| && JoinAll(chunks)[k] == Text.Join(chunks[k], '\n')
  {
    var n := |chunks|;
    if k < n - 1 {
      JoinAllAt(chunks[..n - 1], k);
    } else if n > 1 {
      JoinAllAt(chunks[..n - 1], 0);
    }
  }

  /** `_format_signal_batch`: the loop that packs signals into chunks of lines joined by newlines. */
  method FormatSignalBatch(signals: seq<AggregatedSignal>, header: string, rd: Render) returns (messages: seq<string>)
    ensures messages == Batch(signals, header, rd)
  {
    var done, doneLines, current := ChunkLoop(signals, header, rd);
    ghost var chunks := Chunks(Blocks(signals, rd), header);
    if |current| > 0 {
      JoinAllSnoc(doneLines, current);
      done := done + [Text.Join(current, '\n')];
      assert chunks == doneLines + [current];
    } else {
      assert chunks == doneLines;
    }
    messages := done;
  }

  /** The loop of `_format_signal_batch`: the finished messages and the lines of the one being built. */
  method ChunkLoop(signals: seq<AggregatedSignal>, header: string, rd: Render)
    returns (done: seq<string>, ghost doneLines: seq<seq<string>>, current: seq<string>)
    ensures ChunkAll(Blocks(signals, rd), header) == Chunking(doneLines, current)
    ensures done == JoinAll(doneLines)
  {
    ghost var blocks := Blocks(signals, rd);
    done, doneLines := [], [];
    current := Start(header);
    for i := 0 to |signals|
      invariant ChunkAll(blocks[..i], header) == Chunking(doneLines, current)
      invariant done == JoinAll(doneLines)
    {
      var block := Block(signals[i], rd);
      BlocksAt(signals, rd, i);
      assert blocks[..i + 1][..i] == blocks[..i];
      assert ChunkAll(blocks[..i + 1], header) == AddBlock(Chunking(doneLines, current), block, header);
      if Length(current + block) > CharLimit && |current| > 0 {
        JoinAllSnoc(doneLines, current);
        done := done + [Text.Join(current, '\n')];
        doneLines := doneLines + [current];
        current := Start(header);
      }
      current := current + block;
    }
    assert blocks[..|signals|] == blocks;
  }

  /** `[s for s in signals if s.signal_type == t]`: the signals of one direction, in order. */
  function Direction(signals: seq<AggregatedSignal>, t: SignalType): (r: seq<AggregatedSignal>)
    ensures |r| <= |signals|
  {
    if |signals| == 0 then []
    else (if signals[0].signalType == t then [signals[0]] else []) + Direction(signals[1..], t)
  }

  /** A signal is in its direction's selection exactly when it is in the list and has that direction. */
  lemma {:induction false} DirectionMember(signals: seq<AggregatedSignal>, t: SignalType, x: AggregatedSignal)
    ensures x in Direction(signals, t) <==> x in signals && x.signalType == t
  {
    if |signals| > 0 {
      DirectionMember(signals[1..], t, x);
      assert signals == [signals[0]] + signals[1..];
    }
  }

  /** The selection keeps the order: selecting from a joined list is joining the selections. */
  lemma {:induction false} DirectionAppend(a: seq<AggregatedSignal>, b: seq<AggregatedSignal>, t: SignalType)
    ensures Direction(a + b, t) == Direction(a, t) + Direction(b, t)
  {
    if |a| > 0 {
      assert (a + b)[1..] == a[1..] + b;
      assert (a + b)[0] == a[0];
      DirectionAppend(a[1..], b, t);
    } else {
      assert a + b == b;
    }
  }

  /** The buy and sell selections together are the whole list: nothing lost, nothing repeated. */
  lemma {:induction false} DirectionSplits(signals: seq<AggregatedSignal>)
    ensures multiset(Direction(signals, Buy)) + multiset(Direction(signals, Sell)) == multiset(signals)
  {
    if |signals| > 0 {
      var h, rest := signals[0], signals[1..];
      DirectionSplits(rest);
      assert multiset(signals) == multiset{h} + multiset(rest) by {
        assert signals == [h] + rest;
      }
      if h.signalType == Buy {
        assert Direction(signals, Buy) == [h] + Direction(rest, Buy);
        assert Direction(signals, Sell) == Direction(rest, Sell);
      } else {
        assert Direction(signals, Buy) == Direction(rest, Buy);
        assert Direction(signals, Sell) == [h] + Direction(rest, Sell);
      }
    }
  }

  /**
   * The ten most confident signals, or all of them when there are at most ten; no signal left
   * out is more confident than one kept.
   */
  function Top(signals: seq<AggregatedSignal>): (r: seq<AggregatedSignal>)
    ensures |r| <= MaxSignals && ByConfidence(r)
    ensures multiset(r) <= multiset(signals)
    ensures |signals| <= MaxSignals ==> multiset(r) == multiset(signals)
    ensures |signals| > MaxSignals ==> |r| == MaxSignals
    ensures forall x, y :: x in multiset(signals) - multiset(r) && y in r ==> x.confidence <= y.confidence
  {
    var sorted := SortByConfidence(signals);
    if |sorted| <= MaxSignals then sorted
    else
      assert sorted == sorted[..MaxSignals] + sorted[MaxSignals..];
      TopDominates(sorted);
      sorted[..MaxSignals]
  }

  /** In a list ordered by confidence, what follows the first ten is no more confident than they are. */
  lemma TopDominates(sorted: seq<AggregatedSignal>)
    requires ByConfidence(sorted) && |sorted| > MaxSignals
    ensures forall x, y :: x in multiset(sorted) - multiset(sorted[..MaxSignals]) && y in sorted[..MaxSignals] ==>
      x.confidence <= y.confidence
  {
    var head, tail := sorted[..MaxSignals], sorted[MaxSignals..];
    assert sorted == head + tail;
    assert multiset(sorted) - multiset(head) == multiset(tail);
    forall x: AggregatedSignal, y: AggregatedSignal | x in multiset(tail) && y in head
      ensures x.confidence <= y.confidence
    {
      var j :| 0 <= j < |tail| && tail[j] == x;
      var i :| 0 <= i < |head| && head[i] == y;
      assert sorted[i] == y && sorted[MaxSignals + j] == x;
    }
  }

  /** The report: the buy section, then the sell section, each only if it has signals. */
  function Report(top: seq<AggregatedSignal>, rd: Render): (r: seq<string>)
  {
    var buys, sells := Direction(top, Buy), Direction(top, Sell);
    (if |buys| > 0 then Batch(buys, BuyHeader, rd) else [])
    + (if |sells| > 0 then Batch(sells, SellHeader, rd) else [])
  }

  /**
   * `format_discord_message`: a fixed message when there is nothing to report; otherwise the
   * buy chunks, under the report header, before the sell chunks.
   */
  method FormatDiscordMessage(signals: seq<AggregatedSignal>, rd: Render) returns (messages: seq<string>)
    ensures |signals| == 0 ==> messages == [NoSignalsMessage]
    ensures |signals| > 0 ==> messages == Report(Top(signals), rd)
  {
    if |signals| == 0 {
      return [NoSignalsMessage];
    }
    var top := Top(signals);
    var buys := Direction(top, Buy);
    var sells := Direction(top, Sell);
    var buyMessages: seq<string> := [];
    if |buys| > 0 {
      buyMessages := FormatSignalBatch(buys, BuyHeader, rd);
    }
    var sellMessages: seq<string> := [];
    if |sells| > 0 {
      sellMessages := FormatSignalBatch(sells, SellHeader, rd);
    }
    messages := buyMessages + sellMessages;
  }

  /** Joined lines open with the first line. */
  lemma JoinOpens(parts: seq<string>, sep: char)
    requires |parts| > 0
    ensures parts[0] <= Text.Join(parts, sep)
  {
  }

  /** A batch of at least one signal opens with its header. */
  lemma BatchOpens(signals: seq<AggregatedSignal>, header: string, rd: Render)
    requires |signals| > 0 && header != ""
    ensures |Batch(signals, header, rd)| > 0 && header <= Batch(signals, header, rd)[0]
  {
    var blocks := Blocks(signals, rd);
    ChunksKeepSignals(blocks, header);
    var chunks := Chunks(blocks, header);
    var n := |blocks|;
    assert ChunkAll(blocks, header) == AddBlock(ChunkAll(blocks[..n - 1], header), blocks[n - 1], header);
    BlocksAt(signals, rd, n - 1);
    assert |ChunkAll(blocks, header).current| > 0;
    assert Headed(chunks[0], header);
    assert chunks[0][0] == header;
    JoinAllAt(chunks, 0);
    JoinOpens(chunks[0], '\n');
  }

  /** The report opens with the buy section when there is a buy signal, else with the sell section. */
  lemma ReportOpens(top: seq<AggregatedSignal>, rd: Render)
    requires |Direction(top, Buy)| > 0 || |Direction(top, Sell)| > 0
    ensures |Report(top, rd)| > 0
    ensures |Direction(top, Buy)| > 0 ==> BuyHeader <= Report(top, rd)[0]
    ensures |Direction(top, Buy)| == 0 ==> SellHeader <= Report(top, rd)[0]
  {
    if |Direction(top, Buy)| > 0 {
      BatchOpens(Direction(top, Buy), BuyHeader, rd);
    } else {
      BatchOpens(Direction(top, Sell), SellHeader, rd);
    }
  }

  // ---- `_process_aggregated_signals` ----

  /** A symbol contributes an aggregate exactly when it has a signal. */
  lemma SymbolAggregatesNonEmpty(signals: seq<SignalData>)
    ensures |SymbolAggregates(signals)| > 0 <==> |signals| > 0
  {
    if |signals| > 0 {
      var x := signals[0];
      OfTypeMember(signals, x.signalType, x);
      AggregatedAlwaysOne(OfType(signals, x.signalType), x.signalType);
    }
  }

  /** Something is collected exactly when some symbol has a signal. */
  lemma {:induction false} CollectNonEmpty(signals: seq<(string, seq<SignalData>)>)
    ensures |Collect(signals)| > 0 <==> exists i :: 0 <= i < |signals| && |signals[i].1| > 0
  {
    if |signals| > 0 {
      var n := |signals|;
      var init := signals[..n - 1];
      CollectNonEmpty(init);
      SymbolAggregatesNonEmpty(signals[n - 1].1);
      if |Collect(signals)| > 0 {
        if |Collect(init)| > 0 {
          var i :| 0 <= i < |init| && |init[i].1| > 0;
          assert signals[i] == init[i];
        } else {
          assert |signals[n - 1].1| > 0;
        }
      }
      if exists i :: 0 <= i < |signals| && |signals[i].1| > 0 {
        var i :| 0 <= i < |signals| && |signals[i].1| > 0;
        if i < n - 1 {
          assert init[i] == signals[i];
        }
      }
    }
  }

  /**
   * `_process_aggregated_signals`: the signal table's entries, in the dictionary's order, are
   * aggregated, and a report is produced only when something aggregated.
   */
  method ProcessAggregatedSignals(signals: seq<(string, seq<SignalData>)>, rd: Render) returns (report: Option<seq<string>>)
    ensures report.None? <==> forall i :: 0 <= i < |signals| ==> |signals[i].1| == 0
    ensures report.Some? ==> report.value == Report(Top(Collect(signals)), rd)
  {
    var aggregated := AggregateSignals(signals);
    AggregateInSymbolOrder(signals);
    CollectNonEmpty(signals);
    if |aggregated| == 0 {
      return None;
    }
    var messages := FormatDiscordMessage(aggregated, rd);
    return Some(messages);
  }

  /**
   * `_process_aggregated_signals` as written: the list of messages is handed to `send` whole,
   * so Discord receives the one text `str(messages)`.
   */
  method ProcessAggregatedSignalsAsWritten(signals: seq<(string, seq<SignalData>)>, rd: Render) returns (sent: Option<string>)
    ensures sent.None? <==> forall i :: 0 <= i < |signals| ==> |signals[i].1| == 0
    ensures sent.Some? ==> sent.value == Text.ListRepr(Report(Top(Collect(signals)), rd))
  {
    var report := ProcessAggregatedSignals(signals, rd);
    if report.None? {
      return None;
    }
    return Some(Text.ListRepr(report.value));
  }

  /** Whenever there is a signal, the report has a message, and it opens with a section header. */
  lemma ReportOfSignals(signals: seq<(string, seq<SignalData>)>, rd: Render)
    requires exists i :: 0 <= i < |signals| && |signals[i].1| > 0
    ensures |Report(Top(Collect(signals)), rd)| > 0
    ensures var m := Report(Top(Collect(signals)), rd)[0];
      BuyHeader <= m || SellHeader <= m
  {
    CollectNonEmpty(signals);
    var top := Top(Collect(signals));
    assert |top| > 0;
    DirectionSplits(top);
    assert |Direction(top, Buy)| > 0 || |Direction(top, Sell)| > 0;
    ReportOpens(top, rd);
  }

  /** Both section headers open with an emoji, not a bracket. */
  lemma HeadersOpenWithEmoji()
    ensures |BuyHeader| > 0 && BuyHeader[0] == '\U{1F3AF}'
    ensures |SellHeader| > 0 && SellHeader[0] == '\U{1F4C9}'
  {
  }

  /**
   * A list of messages whose first opens with a section header, written as one text by `str`:
   * that text opens with a bracket instead of the header, and it is longer than all the
   * messages together, so once they exceed the Discord limit the single text does too.
   */
  lemma ListTextOfReport(ms: seq<string>)
    requires |ms| > 0 && (BuyHeader <= ms[0] || SellHeader <= ms[0])
    ensures var text := Text.ListRepr(ms);
      text[0] == '[' && text[0] != ms[0][0]
      && |text| >= Text.TotalLength(ms) + 2 * |ms| + 2
      && (Text.TotalLength(ms) > CharLimit ==> |text| > CharLimit)
  {
    Text.ListReprLength(ms);
    HeadersOpenWithEmoji();
    if BuyHeader <= ms[0] {
      assert ms[0][0] == BuyHeader[0];
    } else {
      assert ms[0][0] == SellHeader[0];
    }
  }

  /**
   * Whenever some symbol has a signal, the as-written handler sends one text that is not the
   * first formatted message and holds all of them, quoted.
   */
  lemma AsWrittenSendsListText(signals: seq<(string, seq<SignalData>)>, rd: Render)
    requires exists i :: 0 <= i < |signals| && |signals[i].1| > 0
    ensures var ms := Report(Top(Collect(signals)), rd);
      |ms| > 0 && (BuyHeader <= ms[0] || SellHeader <= ms[0])
      && Text.ListRepr(ms)[0] == '[' && |Text.ListRepr(ms)| >= Text.TotalLength(ms) + 2 * |ms| + 2
  {
    ReportOfSignals(signals, rd);
    ListTextOfReport(Report(Top(Collect(signals)), rd));
  }
}
