# grindhousebot core, modelled in Dafny

grindhousebot is a Discord bot that watches Bybit's USDT perpetual markets and posts trading signals.
It subscribes to kline (candle) topics over Bybit's websocket. For every symbol it keeps a bounded
rolling window of candles and runs a set of technical-analysis strategies over that window: RSI,
MACD, Bollinger bands, Ichimoku, harmonic patterns and volume profile. The signals are aggregated per
symbol and direction and posted to a channel once every tracked symbol has reported for the candle.
The repository also keeps an older generation of the same bot beside the new one: the root-level
`price_handler.py`, `command_handler.py`, `strategies.py`, `handlers.py` and `bybit_ws.py`.

This project models the sequential logic of both generations and proves what the code promises:

- **Intervals and records** (`intervals.dfy`, `models.dfy`, `text.dfy`): `validate_interval` and
  `interval_to_minutes`, with Python's `int()`, `str()` and `strip()` written out over strings.
  The candle, signal and configuration records, and the strategy and direction vocabularies.
- **Strategy pipeline** (`strategy_base.dfy`, `rsi.dfy`, `macd.dfy`, `bollinger.dfy`, `ichimoku.dfy`,
  `harmonic.dfy`, `volume_profile.dfy`, `patterns.dfy`, `floats.dfy`, `factory.dfy`): the per-symbol
  window update (evict-oldest, duplicate-timestamp replacement, re-sort), the `min_candles` gate,
  every strategy's decision rule and confidence arithmetic, swing-point detection and Fibonacci
  scoring, the volume-bucket distribution with its value area, and the strategy registry. IEEE
  values appear only where the code meets them (NaN readings, a 0/0 ratio), as `Floats.F`.
- **Signal aggregation** (`signal_handler.dfy`): grouping by direction, the
  weighted confidence, the reference signal, the confidence sort, the top-10 cut and the
  2000-character chunking of the report.
- **Price handlers** (`price_handler.dfy`, `legacy_price_handler.dfy`, `legacy_strategies.dfy`,
  `handlers.dfy`): classes whose fields are the handlers' maps and sets. They model strategy
  add and remove, candle filtering, round tracking, signal change detection and batching, symbol
  reconciliation, the old position tracker with its parallel lists, and the running-candle
  accumulation.
- **Websocket clients** (`ws_client.dfy`, `legacy_ws.dfy`): the subscription tables, frame routing,
  request rejection, the bounded retry counter and the resubscription grouping.
- **REST client** (`bybit_client.dfy`): the token-bucket limiter, response classification, the USDT
  filters and the query parameters.
- **Commands** (`commands.dfy`, `legacy_commands.dfy`): `_parse_strategies`, the listener
  lifecycle (no handler, or a handler with strategies), interval changes, and the message-clearing
  guards.

Clocks, the network, Discord and indicator libraries are parameters: a method that would read the
clock takes the readings, and a strategy's RSI, MACD histogram, bands or market trend arrives as a
value. Several behaviours of the code, proved as lemmas, show that some parts never fire:

- the combined confidence is always exactly 1 (`SignalHandler.AggregatedAlwaysOne`);
- the Ichimoku chikou patterns never fire (`IchimokuStrategy.ChikouNeverCrosses`);
- through the new price handler an Ichimoku frame never reaches its 150-row gate
  (`PriceHandler.FullWarmUpNeverFires`).

The eight defects listed under "## Findings" are each modelled twice: once as written and once as
evidently intended. The rest of the model uses the corrected version. Three of them stop the new
bot before it can signal at all: the strategy enumeration lacks five of the kinds the rest of the
code names, the price handler passes an argument to a signal handler that takes none, and the MACD
strategy class is still abstract. The model states the new bot's behaviour once these are put right.

## Model

| member | source | states |
|---|---|---|
| Text.TrimLeft | handlers/command_handler.py:117 | `lstrip()` removes exactly the leading white space, Unicode separators included: the result is a suffix of the input, starts with no blank, and everything cut off was white space |
| Text.TrimRight | handlers/command_handler.py:117 | `rstrip()` removes exactly the trailing white space, Unicode separators included: the result is a prefix of the input, ends with no blank, and everything cut off was white space |
| Text.StripInfix | handlers/command_handler.py:117 | `strip()` keeps a contiguous middle of the text and removes only white space around it |
| Text.StripEnds | handlers/command_handler.py:127 | the stripped text is empty or starts and ends with a non-blank character |
| Text.StripIdempotent | handlers/command_handler.py:117-127 | stripping a second time, as the piece loop does after the whole input was stripped, changes nothing |
| Text.Lower | handlers/command_handler.py:117 | `lower()` keeps the length and maps every character through the ASCII lower-case mapping |
| Text.Split | handlers/command_handler.py:125 | `split(',')` yields at least one piece and no piece holds the separator |
| Text.JoinSplit | handlers/command_handler.py:125 | joining the pieces of a split with the separator gives back the text |
| Text.SplitJoin | handlers/command_handler.py:125 | splitting text joined from separator-free pieces gives back those pieces |
| Text.LastSegment | clients/bybit_ws.py:72 | `topic.split('.')[-1]` holds no separator |
| Text.LastSegmentAfter | clients/bybit_ws.py:71-72 | the last piece of `prefix.tail` is `tail` whenever `tail` holds no dot |
| Text.NatToString | utils/constants.py:34-35 | `str()` of a natural number is a non-empty run of digits without a leading zero |
| Text.NatToStringRoundTrip | utils/constants.py:33-35 | the digits `str(n)` writes have the value `n` |
| Text.NatToStringInjective | utils/constants.py:34 | two numbers with the same decimal form are equal |
| Text.IntToString | utils/constants.py:34 | `str()` of an integer is non-empty and starts with a minus sign exactly when the integer is negative |
| Text.ParsePlainDigits | utils/constants.py:33 | `int()` reads a run of digits as the number they spell |
| Text.ParseRejectsLeading | utils/constants.py:33 | `int()` rejects text whose stripped form starts with neither a sign nor an ASCII digit |
| Text.ParseIgnoresSpace | utils/constants.py:33 | `int()` gives the same result on the text and on its stripped form |
| Text.ParseNatToString | utils/constants.py:33-35 | `int(str(n)) == n` for every natural number |
| Text.ParsePaddedNat | utils/constants.py:33 | a leading zero does not change what `int()` reads |
| Text.ParseSpacedNat | utils/constants.py:33 | one blank on each side does not change what `int()` reads |
| Text.ReprQuote | handlers/price_handler.py:284 | `repr` quotes with a double quote exactly when the text has a single quote and no double quote |
| Text.EscapeChar | handlers/price_handler.py:284 | a character is written as itself exactly when it is not the quote, not a backslash and not a control; otherwise an escape starting with a backslash |
| Text.EscapeAllPlain | handlers/price_handler.py:284 | a text with no quote, backslash or control is written as itself |
| Text.EscapeAllGrows | handlers/price_handler.py:284 | a text with a character needing an escape comes out longer |
| Text.StrRepr | handlers/price_handler.py:284 | `repr(s)` is at least two characters longer than `s`, between two copies of its quote |
| Text.StrReprPlain | handlers/price_handler.py:284 | `repr` of a plain text is that text between single quotes |
| Text.ReprItemsLength | handlers/price_handler.py:284 | the items of `str(list)` are at least as long as the texts plus two quotes each |
| Text.ListRepr | handlers/price_handler.py:284 | `str(list)` opens with `[`, ends with `]`, and for a non-empty list its second character is the first item's quote |
| Text.ListReprLength | handlers/price_handler.py:284 | `str(list)` is longer than all its texts together, by two quotes per text and the two brackets |
| Floats.Div | strategies/harmonic_strategy.py:92-94 | division of finite numbers as NumPy does it: an ordinary quotient for a non-zero divisor; for a zero divisor, NaN exactly when the dividend is zero, an infinity otherwise |
| Intervals.ValidateInterval | utils/constants.py:14-38 | an accepted interval is always in the vocabulary; a string already in it is returned unchanged; a rejection carries `Invalid interval: ` followed by the input |
| Intervals.MinuteStrings | utils/constants.py:33-36 | the decimal form of an integer is in the vocabulary exactly when the integer is one of the ten minute counts |
| Intervals.ValidateNonCanonical | utils/constants.py:31-38 | a string outside the vocabulary is accepted exactly when `int()` reads it as one of the minute counts, and the result is then the canonical decimal form of that count |
| Intervals.ValidateIdempotent | utils/constants.py:14-38 | validating an accepted interval again gives the same result |
| Intervals.ValidFirstChar | utils/constants.py:5 | every string in the vocabulary is non-empty and starts with neither `0` nor white space |
| Intervals.ValidatePadded | utils/constants.py:31-35 | a minute count written with a leading zero is accepted and normalised to its canonical form |
| Intervals.ValidateSpaced | utils/constants.py:31-35 | a minute count surrounded by spaces is accepted and normalised, since `int()` ignores surrounding white space |
| Intervals.ValidateRejectsNumber | utils/constants.py:33-38 | `"2"` reads as a number but not as a minute interval, so it is rejected with `Invalid interval: 2` |
| Intervals.ValidateRejectsLetter | utils/constants.py:31-38 | `"H"` is neither in the vocabulary nor a number, so it is rejected with `Invalid interval: H` |
| Intervals.IntervalToMinutes | utils/constants.py:41-62 | conversion fails exactly when validation fails, and then with the same message |
| Intervals.MinuteIntervalParses | utils/constants.py:61-62 | every minute interval in the vocabulary reads back through `int()` as its own count |
| Intervals.MinuteValueRenders | utils/constants.py:5 | every minute interval in the vocabulary is the decimal form of its count |
| Intervals.SixtyMinutes | utils/constants.py:66-68 | the default interval `"60"` converts to 60 minutes |
| Intervals.NamedMinutes | utils/constants.py:8-12 | `D`, `W` and `M` convert to 1440, 10080 and 43200 minutes |
| Intervals.MinutesRange | utils/constants.py:41-62 | every successful conversion is positive and is a minute count or one of the three named lengths; a minute interval converts to the number it writes |
| Models.StrategyFromName | utils/models.py:8-11 | a kind looked up by its value has that value |
| Models.StrategyNameRoundTrip | utils/models.py:8-11 | looking up a kind's value gives that kind back |
| Models.MemberAsWritten | utils/models.py:8-11 | as written, naming a member of the enumeration succeeds exactly for RSI and MACD, and otherwise raises AttributeError with the member name |
| Models.StrategyFromNameAsWritten | utils/models.py:8-11 | as written, exactly the values `rsi` and `macd` look up a kind, and the kind has that value |
| Models.UndeclaredKinds | utils/models.py:8-11 | each of the five kinds the enumeration does not declare raises as a member and is not found by its value as written, while the corrected lookup finds it |
| Models.SignalTypeNames | utils/models.py:14-17 | exactly `buy` and `sell` name a direction, and each direction's value looks it up again |
| Models.ToDict | utils/models.py:40-48 | a candle's row has exactly the keys open, high, low, close and volume, holding the candle's own values |
| Models.ConfigInterval | utils/models.py:60-66 | a numeric interval passes through unchanged; a textual one is converted to minutes, with the conversion's error |
| Models.MakeConfig | utils/models.py:51-66 | a configuration is built exactly when its interval converts, and then holds the converted interval and the given fields |
| Models.ConfigIntervalText | utils/models.py:53-66 | a textual interval that converts gives a positive number of minutes, and `"60"` gives the default interval of 60 |
| Models.MakeClearCommand | utils/models.py:103-106 | a clear command is built exactly when the count is at least 1, and keeps that count |
| StrategyBase.RowIsDict | strategies/base.py:38-43 | the row a candle adds to a frame is indexed by the candle's timestamp and holds exactly the columns of its `to_dict()` |
| StrategyBase.SliceFrom | strategies/base.py:58 | `s[start:]` for any integer: a suffix of `s`, of length `-start` (capped at `len(s)`) for a negative start and `len(s) - start` (floored at 0) otherwise |
| StrategyBase.MaxHigh | strategies/ichimoku_strategy.py:51-52 | `high.max()` bounds every row's high and is attained by one of them |
| StrategyBase.MinLow | strategies/ichimoku_strategy.py:51-52 | `low.min()` is below every row's low and is attained by one of them |
| StrategyBase.FirstMaxIndex | strategies/volume_profile_strategy.py:90 | `idxmax()` is an index holding the largest value, and no earlier index holds that value |
| StrategyBase.Timestamps | strategies/base.py:64 | the set of timestamps is exactly those carried by some row |
| StrategyBase.KeepLast | strategies/base.py:65 | keeping each timestamp's last row loses no timestamp, never grows the frame, and leaves no duplicate |
| StrategyBase.KeepLastKeepsLast | strategies/base.py:65 | every kept row is the last row of its timestamp (`keep='last'`) |
| StrategyBase.KeepLastShrinks | strategies/base.py:64-65 | a frame with a repeated timestamp loses at least one row |
| StrategyBase.KeepLastHasFinal | strategies/base.py:65 | the final row, the new candle, is always kept |
| StrategyBase.InsertByTime | strategies/base.py:65 | inserting a row into a time-sorted frame whose timestamps differ from it gives a time-sorted permutation of the frame plus the row |
| StrategyBase.SortByTime | strategies/base.py:65 | `sort_index()` on distinct timestamps gives a time-sorted permutation of the frame |
| StrategyBase.UpdateBelowWindow | strategies/base.py:59-61 | below the window the candle is appended and the frame grows by exactly one row |
| StrategyBase.UpdateAtWindow | strategies/base.py:56-58 | at or above the window the frame becomes its last `window - 1` rows plus the candle: exactly `window` rows |
| StrategyBase.UpdateWindowOne | strategies/base.py:58 | with a window of 1, `iloc[-0:]` is the whole frame, so a full frame keeps all its rows and still grows |
| StrategyBase.UpdateDeduplicates | strategies/base.py:63-65 | on a repeated timestamp the result is time-sorted, holds exactly the last row of each timestamp, is shorter than the appended frame and keeps the new candle |
| StrategyBase.DeduplicatedRowsAreLast | strategies/base.py:65 | every row left after de-duplication is the last row of its timestamp in the appended frame |
| StrategyBase.UpdateBounded | strategies/base.py:56-65 | with a window of at least two, a frame within the window stays non-empty and within it |
| StrategyBase.NextFrameNewSymbol | strategies/base.py:45-46 | a symbol's first candle gives a one-row frame holding just that candle |
| StrategyBase.Gate | strategies/base.py:69-74 | a frame shorter than `min_candles` yields no signal; otherwise the strategy's `process` decides |
| StrategyBase.NextFrameBounded | strategies/base.py:36-67 | with a window of at least two, every frame `generate_signals` stores stays within the window |
| StrategyBase.SignalStrategy.constructor | strategies/base.py:11-21 | interval and window are stored and no frame exists yet |
| StrategyBase.SignalStrategy.GenerateSignals | strategies/base.py:24-80 | every priced symbol's frame becomes its next frame, other frames are untouched, and each priced symbol gets the gated signal of its new frame |
| StrategyBase.SignalStrategy.Cleanup | strategies/base.py:82-86 | every frame is dropped |
| StrategyBase.Process | strategies/base.py:120-144 | corrected `process`: no indicator gives no signal, otherwise the analysis of the frame and the indicator decides |
| StrategyBase.ProcessAsWrittenLosesSignals | strategies/base.py:139 | wherever the analysis would signal, `process` as written (one-argument call, `TypeError` caught) returns nothing, so it differs from the corrected one |
| IchimokuStrategy.Midpoint | strategies/ichimoku_strategy.py:51-56 | a rolling midpoint is NaN exactly while fewer than `w` rows are available |
| IchimokuStrategy.MidpointInRange | strategies/ichimoku_strategy.py:51-56 | where every candle's low is at most its high, the midpoint lies between the window's lowest low and highest high |
| IchimokuStrategy.CalculateIndicator | strategies/ichimoku_strategy.py:40-96 | values exist exactly when the frame has more than 30 rows (otherwise `iat[-31]` raises and `None` is returned), and then carry the latest close |
| IchimokuStrategy.ChikouIsCurrentClose | strategies/ichimoku_strategy.py:66-83 | the chikou value is present exactly from 61 rows on, and is then the current close itself, since `close.shift(-30)` read 31 rows back is the last close |
| IchimokuStrategy.PyMax | strategies/ichimoku_strategy.py:133 | Python's `max` of two values is one of them |
| IchimokuStrategy.PyMin | strategies/ichimoku_strategy.py:135 | Python's `min` of two values is one of them |
| IchimokuStrategy.FromTestsSpec | strategies/ichimoku_strategy.py:122-153 | in every family the bullish key is recorded exactly when its test holds, the bearish key exactly when only its own test holds |
| IchimokuStrategy.PatternsExclusive | strategies/ichimoku_strategy.py:109-153 | a frame under two rows records no pattern, and each family records at most one direction |
| IchimokuStrategy.CloudBreakoutRule | strategies/ichimoku_strategy.py:133-136 | with a finite cloud, a bullish breakout is a close above both spans, a bearish one a close below both |
| IchimokuStrategy.TkCrossRule | strategies/ichimoku_strategy.py:116-124 | a bullish TK cross is recorded exactly when tenkan was below kijun on the previous row and is above it now |
| IchimokuStrategy.ChikouAtCloseNoCross | strategies/ichimoku_strategy.py:148-153 | a chikou value that is absent or equal to the close records no chikou pattern |
| IchimokuStrategy.ChikouNeverCrosses | strategies/ichimoku_strategy.py:66-153 | from the indicator's own values no chikou pattern is ever recorded |
| IchimokuStrategy.AnalyzeMarket | strategies/ichimoku_strategy.py:160-253 | a signal is named `ichimoku` and shows tenkan and kijun; it is BUY exactly when the close is above kijun, the trend is up and the confidence exceeds 0.7, and SELL exactly when the close is below kijun, the trend is down and the bearish confidence exceeds 0.7 |
| IchimokuStrategy.NaNKijunNeverSignals | strategies/ichimoku_strategy.py:188-221 | a kijun still in warm-up (NaN) compares false both ways, so no signal is produced |
| RsiStrategy.CalculateIndicator | strategies/rsi_strategy.py:35-46 | no value without an `RSI_14` column; otherwise the value is the column's last entry, and an empty column gives none |
| RsiStrategy.EffectiveTrend | strategies/rsi_strategy.py:63-67 | the trend is neutral below 50 candles and the measured one from 50 on |
| RsiStrategy.BuyConfidence | strategies/rsi_strategy.py:81-91 | with non-negative pattern strengths the buy confidence is at least the base plus the trend strength |
| RsiStrategy.SellConfidence | strategies/rsi_strategy.py:104-112 | with non-negative pattern strengths the sell confidence is at least the base plus the trend strength |
| RsiStrategy.AnalyzeMarket | strategies/rsi_strategy.py:48-126 | a signal is named `rsi` and carries the finite RSI value |
| RsiStrategy.BuyRule | strategies/rsi_strategy.py:78-99 | a BUY exactly when the RSI is below the lower threshold, the trend is not falling and the confidence exceeds 0.7 |
| RsiStrategy.SellRule | strategies/rsi_strategy.py:101-120 | a SELL exactly when the RSI is not below the lower threshold, is above the upper one, the trend is not rising and the confidence exceeds 0.7 |
| RsiStrategy.ShortFrameNeedsSupport | strategies/rsi_strategy.py:64-93 | under 50 candles, with no patterns and no volume confirmation, the confidence stays at 0.5 and nothing is signalled |
| RsiStrategy.NaNNeverSignals | strategies/rsi_strategy.py:78-101 | a NaN RSI fails both comparisons and never signals |
| MacdStrategy.LastTwo | strategies/macd_strategy.py:36 | `iloc[-2:]` keeps the last two entries, or all of them when there are fewer |
| MacdStrategy.Process | strategies/macd_strategy.py:27-50 | a signal is named `macd`, reads `bullish crossover` or `bearish crossover`, and is a BUY exactly when it reads `bullish crossover` |
| MacdStrategy.ProcessCrossovers | strategies/macd_strategy.py:40-48 | a BUY exactly when the histogram goes from negative to positive, a SELL exactly when it goes from positive to negative |
| MacdStrategy.ProcessNeedsSignChange | strategies/macd_strategy.py:43-50 | equal signs or a zero on either side give no signal |
| MacdStrategy.ProcessRejectsIncomplete | strategies/macd_strategy.py:32-38 | a missing column, fewer than two values, or a NaN among the last two give no signal |
| Factory.BuiltInsCoverKinds | strategies/factory.py:16-23 | every strategy kind except `all` has a built-in class, and each class keeps the warm-up length its strategy declares |
| Factory.RegistryAsWritten | strategies/factory.py:16-23 | evaluating the table's keys as written succeeds exactly when every key is a declared member, and otherwise raises the AttributeError of an undeclared key |
| Factory.RegistryNeverBuilt | strategies/factory.py:16-23 | as written, the table is never built: its third key `StrategyType.BOLLINGER` raises |
| Factory.CreateAsWritten | strategies/factory.py:40-47 | as written, creation succeeds exactly for a registered class with no abstract method left, returning that class; an unregistered kind fails with `Unknown strategy type: <kind>` |
| Factory.MacdAbstractAsWritten | strategies/macd_strategy.py:9-50 | as written, creating the MACD strategy raises the abstract-class TypeError naming `analyze_market` and `calculate_indicator`, while every other built-in kind is created |
| Factory.StrategyFactory.constructor | strategies/factory.py:16-23 | a factory starts with the built-in registry, in declaration order |
| Factory.StrategyFactory.CreateStrategy | strategies/factory.py:26-47 | an unregistered kind fails with `Unknown strategy type: <kind>`; otherwise a fresh instance of the registered class, with the configuration's interval and window and no data yet |
| Factory.StrategyFactory.RegisterStrategy | strategies/factory.py:50-59 | the registry maps the kind to the new class and nothing else changes; a new kind is appended to the key order, a known one keeps its place |
| Factory.StrategyFactory.AvailableStrategies | strategies/factory.py:62-64 | the registered kinds, each exactly once, in insertion order |
| BollingerStrategy.CalculateIndicator | strategies/bollinger_strategy.py:36-67 | values exist exactly when bands were computed, the middle band is non-zero and the bands differ (a zero divisor raises and is caught); they then carry the latest close and bands |
| BollingerStrategy.PercentBScale | strategies/bollinger_strategy.py:54 | %B is 0 on the lower band and 1 on the upper band, and below 0.1 exactly in the lowest tenth of the band |
| BollingerStrategy.MeanSkipNaN | strategies/bollinger_strategy.py:87 | NaN entries are skipped; the mean is NaN exactly when nothing else is present or both infinities occur, an infinity exactly when only that sign occurs, and otherwise the finite sum over the number of entries present |
| BollingerStrategy.WarmUpMeanWidth | strategies/bollinger_strategy.py:83-87 | over a warm-up history ending in the current band, the average width is the current width |
| BollingerStrategy.RecentWidths | strategies/bollinger_strategy.py:86 | one width per history row, each the row's band width |
| BollingerStrategy.CountTouches | strategies/bollinger_strategy.py:99-100 | the count of touches never exceeds either zipped sequence's length |
| BollingerStrategy.AssembleSpec | strategies/bollinger_strategy.py:88-105 | the pattern map holds the squeeze, the touches and the walking keys exactly as their tests decide |
| BollingerStrategy.WalkingKeys | strategies/bollinger_strategy.py:97-105 | the walking step leaves every other key as it was |
| BollingerStrategy.Walking | strategies/bollinger_strategy.py:97-105 | the walking step keeps the existing entries, adds at most one walking key, records walking upper exactly on three upper touches among the last five closes, and walking lower exactly on three lower touches with fewer than three upper ones (the `elif`) |
| BollingerStrategy.DetectPatternsSpec | strategies/bollinger_strategy.py:69-110 | the squeeze is recorded exactly on a squeeze; at most one band touch and at most one walking pattern are recorded; when the touch tests do not raise, walking upper is recorded exactly on three upper touches among the last five closes, and walking lower exactly on three lower touches with fewer than three upper ones |
| BollingerStrategy.WarmUpNeverWalks | strategies/bollinger_strategy.py:83-100 | `zip` pairs the last five closes with the first five history rows, which are NaN warm-up rows of a 20-close band frame, so no touch is counted |
| BollingerStrategy.WalkingNeverDetected | strategies/bollinger_strategy.py:83-105 | with such a warm-up history neither walking pattern is ever recorded |
| BollingerStrategy.SqueezeNeverDetected | strategies/bollinger_strategy.py:83-89 | the history's only complete row is the current band, so the average width is the current width, and a non-negative width is never 20% below itself |
| BollingerStrategy.AnalyzeMarket | strategies/bollinger_strategy.py:112-193 | a signal is named `bollinger` and carries %B; it is a BUY exactly when %B is below 0.1, the trend is up and the buy confidence exceeds 0.7, and a SELL exactly when %B is not below 0.1 but above 0.9, the trend is down and the sell confidence exceeds 0.7 |
| BollingerStrategy.BareSignalRejected | strategies/bollinger_strategy.py:142-156 | without trend strength of at least 0.6, patterns or volume, the 0.5 base never clears the threshold |
| HarmonicStrategy.SwingsBelow | strategies/harmonic_strategy.py:79-88 | the indices below `n` that strictly beat each of the `w` values on either side, each once and in ascending order; none when the frame has no room for a window on both sides |
| HarmonicStrategy.SwingsStopEarly | strategies/harmonic_strategy.py:79 | no index in the last `w` positions is a swing point, so the scan may stop at `len - w` |
| HarmonicStrategy.FindSwingPoints | strategies/harmonic_strategy.py:65-90 | the loop returns exactly the swing highs of the high column and the swing lows of the low column, in index order |
| HarmonicStrategy.Merge | strategies/harmonic_strategy.py:152 | `sorted(highs + lows)`: a sorted permutation of the two lists together |
| HarmonicStrategy.MergeStep | strategies/harmonic_strategy.py:152 | putting the smaller head before the merge of the rest keeps it sorted and a permutation |
| HarmonicStrategy.Ratio | strategies/harmonic_strategy.py:92-94 | a ratio is never negative and never minus infinity (NaN for a zero-length leg) |
| HarmonicStrategy.RatioNegated | strategies/harmonic_strategy.py:92-94 | a ratio does not change when all three points are negated |
| HarmonicStrategy.Expected | strategies/harmonic_strategy.py:20-45 | every shape has four expected ratios, XA being 1.0 and all positive |
| HarmonicStrategy.CheckScore | strategies/harmonic_strategy.py:124-128 | one check is worth between 0 and 0.25, is positive only for a finite ratio within 15% of the expected one, and is worth the full 0.25 exactly on an exact match |
| HarmonicStrategy.ScoreSum | strategies/harmonic_strategy.py:124-128 | the summed checks lie between 0 and 0.25 per check |
| HarmonicStrategy.ScoreSumFour | strategies/harmonic_strategy.py:117-128 | the score of the four checks is the sum of the four |
| HarmonicStrategy.LegRatios | strategies/harmonic_strategy.py:110-114 | four ratios, XA and each later leg as the retracement or extension of the leg before it |
| HarmonicStrategy.AsWrittenRatios | strategies/harmonic_strategy.py:111-114 | the four ratios as the source computes them |
| HarmonicStrategy.ValidatePattern | strategies/harmonic_strategy.py:96-130 | the loop's confidence is the score of the leg ratios against the shape, between 0 and 1 |
| HarmonicStrategy.AsWrittenRatiosConstant | strategies/harmonic_strategy.py:111-114 | as written, XA is 0 and every other ratio is 1, or NaN for a zero-length leg |
| HarmonicStrategy.RatioToEnd | strategies/harmonic_strategy.py:92-94 | a leg measured against its own end is 0, or NaN for a zero-length leg |
| HarmonicStrategy.RatioToStart | strategies/harmonic_strategy.py:92-94 | a leg measured against its own start is 1, or NaN for a zero-length leg |
| HarmonicStrategy.AsWrittenScore | strategies/harmonic_strategy.py:107-130 | the as-written ratios score below 0.04 for every shape |
| HarmonicStrategy.AsWrittenNeverQualifies | strategies/harmonic_strategy.py:107-169 | as written, no shape ever scores above 0.7 in either direction, so nothing is ever recorded |
| HarmonicStrategy.ExactRatiosScoreOne | strategies/harmonic_strategy.py:117-128 | legs in exactly a shape's proportions score the full 1.0 |
| HarmonicStrategy.GartleyRecognised | strategies/harmonic_strategy.py:21-26 | X=0, A=1, B=0.382, C=0.620548, D=0.317114944 is a perfect Gartley |
| HarmonicStrategy.Negated | strategies/harmonic_strategy.py:166 | the inverse values are the values negated, one for one |
| HarmonicStrategy.NegatedScoresEqual | strategies/harmonic_strategy.py:160-169 | the inverse points score exactly as the points themselves, for every shape |
| HarmonicStrategy.PatternPoints | strategies/harmonic_strategy.py:147-154 | five points are picked only from five swing points on, and each is an index into the frame |
| HarmonicStrategy.ScoreShape | strategies/harmonic_strategy.py:160-169 | one pass records the bullish entry then the bearish entry, each only above 0.7 |
| HarmonicStrategy.ScoreShapes | strategies/harmonic_strategy.py:160-169 | the loop records the entries of the four shapes, in the ratio table's order |
| HarmonicStrategy.FindPatterns | strategies/harmonic_strategy.py:132-174 | the method builds the pattern dictionary its defining function gives, empty under five swing points |
| HarmonicStrategy.PairedAppend | strategies/harmonic_strategy.py:160-169 | appending a pair of entries keeps the entries paired |
| HarmonicStrategy.ShapeEntriesPaired | strategies/harmonic_strategy.py:160-169 | each shape contributes nothing or a bullish entry followed by its bearish twin at equal confidence |
| HarmonicStrategy.ShapesEntriesPaired | strategies/harmonic_strategy.py:160-169 | the entries of any list of shapes are paired |
| HarmonicStrategy.PatternEntriesPaired | strategies/harmonic_strategy.py:132-174 | every recorded pattern is harmonic and above 0.7, and is paired with its inverse at equal confidence |
| HarmonicStrategy.FewSwingsNoPatterns | strategies/harmonic_strategy.py:147-149 | fewer than five swing points record nothing |
| HarmonicStrategy.Confidences | strategies/harmonic_strategy.py:184 | one confidence per entry, in order |
| HarmonicStrategy.CalculateIndicator | strategies/harmonic_strategy.py:176-194 | none exactly when nothing was recorded; otherwise a recorded entry of the highest confidence |
| HarmonicStrategy.StrongestIsBullish | strategies/harmonic_strategy.py:184 | on paired entries `max` keeps the first maximum, which is always the bullish twin |
| HarmonicStrategy.AnalyzeMarket | strategies/harmonic_strategy.py:196-272 | a signal is named `harmonic` and shows the pattern key; it is a BUY exactly for a bullish pattern in an uptrend whose confidence exceeds 0.8, and a SELL exactly for a bearish one in a downtrend whose confidence exceeds 0.8 |
| HarmonicStrategy.NeverSells | strategies/harmonic_strategy.py:160-266 | because the inverse scores like the points, the strongest pattern is bullish and the strategy never emits a SELL |
| HarmonicStrategy.BuyNeedsUptrend | strategies/harmonic_strategy.py:176-243 | a BUY needs an uptrend and a recorded pattern above 0.7 |
| VolumeProfileStrategy.EdgeClosedForm | strategies/volume_profile_strategy.py:69 | edge `j` is `price_min + j * price_delta` |
| VolumeProfileStrategy.EdgeMonotone | strategies/volume_profile_strategy.py:69 | edges rise with the bucket index |
| VolumeProfileStrategy.Clamp | strategies/volume_profile_strategy.py:86 | a clamped value lies in the clamping range |
| VolumeProfileStrategy.OverlapNonNegative | strategies/volume_profile_strategy.py:85-86 | a candle that meets a bucket overlaps it by a non-negative length |
| VolumeProfileStrategy.OverlapClamped | strategies/volume_profile_strategy.py:85-86 | the overlap with a bucket is the growth of the candle's clamped range across the bucket |
| VolumeProfileStrategy.SumToScaled | strategies/volume_profile_strategy.py:87 | a sum of terms scaled by one factor is the scaled sum |
| VolumeProfileStrategy.OverlapsTelescope | strategies/volume_profile_strategy.py:82-87 | the overlaps of buckets `0` to `n - 1` add up to the part of the candle's range below edge `n` |
| VolumeProfileStrategy.PortionNonNegative | strategies/volume_profile_strategy.py:87 | a portion of a non-negative volume is non-negative |
| VolumeProfileStrategy.ShareAtRate | strategies/volume_profile_strategy.py:87 | a candle with a range gives a bucket its volume per unit of price times the overlap |
| VolumeProfileStrategy.SharesAtRate | strategies/volume_profile_strategy.py:82-87 | every bucket gets the candle's rate times its overlap |
| VolumeProfileStrategy.WholeAtRate | strategies/volume_profile_strategy.py:87 | shares at rate `v / d` over lengths adding up to `d` add up to `v` |
| VolumeProfileStrategy.RowSharesFlat | strategies/volume_profile_strategy.py:79-80 | a candle without range gives nothing to any bucket |
| VolumeProfileStrategy.OverlapsWhole | strategies/volume_profile_strategy.py:61-86 | a candle inside the bucketed range is covered by the buckets exactly once |
| VolumeProfileStrategy.RowSharesCovering | strategies/volume_profile_strategy.py:82-87 | buckets that cover a candle's range exactly once receive exactly its volume |
| VolumeProfileStrategy.RowSharesWhole | strategies/volume_profile_strategy.py:61-87 | a candle inside the bucketed range gives exactly its volume to the buckets |
| VolumeProfileStrategy.ProfileSumAppend | strategies/volume_profile_strategy.py:73-87 | adding a candle adds its shares to the buckets |
| VolumeProfileStrategy.ProfileSumEmpty | strategies/volume_profile_strategy.py:70 | an empty frame leaves every bucket empty |
| VolumeProfileStrategy.ProfileConserves | strategies/volume_profile_strategy.py:61-87 | no volume is lost or created: the buckets hold exactly the volume of the candles that have a range |
| VolumeProfileStrategy.BucketNonNegative | strategies/volume_profile_strategy.py:73-87 | with no negative volume no bucket is negative |
| VolumeProfileStrategy.AddShares | strategies/volume_profile_strategy.py:82-87 | the inner loop adds to each bucket the candle's share of it and nothing else |
| VolumeProfileStrategy.Distribute | strategies/volume_profile_strategy.py:70-87 | the outer loop leaves each bucket holding the defining function's bucket volume |
| VolumeProfileStrategy.SumIsProfileSum | strategies/volume_profile_strategy.py:94 | `profile.sum()` is the summed volume of the buckets |
| VolumeProfileStrategy.SumOverCons | strategies/volume_profile_strategy.py:102-104 | the volume of a list of buckets is its first bucket's plus the rest's |
| VolumeProfileStrategy.Indices | strategies/volume_profile_strategy.py:70 | the profile's index `0` to `n - 1`, in order |
| VolumeProfileStrategy.SumOverIndices | strategies/volume_profile_strategy.py:94 | the volume of the first `n` indices is the sum of the first `n` buckets |
| VolumeProfileStrategy.InsertDescending | strategies/volume_profile_strategy.py:98 | inserting a bucket keeps the order descending by volume, adds exactly that bucket, and adds its volume |
| VolumeProfileStrategy.HeadAboveInserted | strategies/volume_profile_strategy.py:98 | the head of a descending order holds at least as much as anything inserted behind it |
| VolumeProfileStrategy.InsertDescendingStep | strategies/volume_profile_strategy.py:98 | putting the fuller head before the insertion into the tail keeps the order descending, a permutation, and the same volume |
| VolumeProfileStrategy.InsertedSum | strategies/volume_profile_strategy.py:98 | the head before the insertion adds its volume to the insertion's total |
| VolumeProfileStrategy.InsertedDescends | strategies/volume_profile_strategy.py:98 | the head before the insertion keeps the whole descending |
| VolumeProfileStrategy.SortDescending | strategies/volume_profile_strategy.py:98 | the sorted indices are ordered by falling volume, a permutation of the input, with the same total volume |
| VolumeProfileStrategy.DescendingOrder | strategies/volume_profile_strategy.py:98 | the buckets from fullest to emptiest: every bucket, and the whole volume |
| VolumeProfileStrategy.MaxOf | strategies/volume_profile_strategy.py:108 | `max` is an element that no element exceeds |
| VolumeProfileStrategy.Reach | strategies/volume_profile_strategy.py:99-106 | the number of buckets taken: the prefix it names reaches the target or is the whole order, and every shorter prefix from the start length falls short |
| VolumeProfileStrategy.ReachUnique | strategies/volume_profile_strategy.py:99-106 | a prefix that reaches the target while every shorter one falls short has exactly that length |
| VolumeProfileStrategy.ValueAreaBuckets | strategies/volume_profile_strategy.py:96-106 | the value-area buckets are a non-empty prefix of the descending order (the prefix `Reach` picks) |
| VolumeProfileStrategy.SelectValueArea | strategies/volume_profile_strategy.py:99-106 | the loop takes the shortest prefix of the order whose volume reaches the target, or the whole order when none does |
| VolumeProfileStrategy.ValueAreaAbovePoc | strategies/volume_profile_strategy.py:90-108 | the highest bucket of a greedy prefix of the descending order is at or above the point of control |
| VolumeProfileStrategy.ValueAreaTop | strategies/volume_profile_strategy.py:106 | the value area's top bucket is a bucket of the value area, no value-area bucket lies above it, and it is at or above the point of control |
| VolumeProfileStrategy.ValueArea | strategies/volume_profile_strategy.py:97-106 | the value area is the middle of the top bucket of the fullest buckets that together hold the target, and never below the point of control |
| VolumeProfileStrategy.PocAndValueArea | strategies/volume_profile_strategy.py:89-108 | the point of control is the middle of the first fullest bucket; the value area equals it when the profile holds no volume, otherwise it is the middle of the top bucket of the value area for 70% of the volume, never below the point of control |
| VolumeProfileStrategy.Buckets | strategies/volume_profile_strategy.py:70-87 | the distributed profile has one bucket per price level, each holding its share, and together they hold the whole ranged volume |
| VolumeProfileStrategy.CalculateVolumeProfile | strategies/volume_profile_strategy.py:44-114 | an empty profile with no price range; otherwise one bucket per price level holding its share, the whole ranged volume conserved, the point of control at the first fullest bucket, and the value area equal to it when there is no volume, otherwise the middle of the highest bucket among the fullest buckets holding 70% of the volume, never below it |
| VolumeProfileStrategy.DetectVolumePatterns | strategies/volume_profile_strategy.py:116-187 | only the four volume keys occur, each exactly when its search finds a node passing its test, all with non-negative strengths |
| VolumeProfileStrategy.AcceptanceImpliesAtHvn | strategies/volume_profile_strategy.py:154-172 | acceptance at a high-volume node implies the at-node pattern when the last close is among the recent ones |
| VolumeProfileStrategy.CalculateIndicator | strategies/volume_profile_strategy.py:189-208 | none exactly when the frame has no price range; otherwise the latest close, a value area at or above the point of control, and a full, volume-conserving profile |
| VolumeProfileStrategy.AnalyzeMarket | strategies/volume_profile_strategy.py:210-292 | a signal is named `volume_profile`; a BUY exactly below the point of control in an uptrend above the threshold, showing `POC: x.xx`; a SELL exactly at or above it and above the value area in a downtrend above the threshold, showing `VA: x.xx` |
| VolumeProfileStrategy.SignalSides | strategies/volume_profile_strategy.py:245-267 | with the value area at or above the point of control, a BUY is below both and a SELL above both |
| VolumeProfileStrategy.BareBuyNeedsStrongTrend | strategies/volume_profile_strategy.py:245-280 | without patterns or volume a signal needs a trend stronger than 2/3 |
| SignalHandler.Weight | handlers/signal_handler.py:26-31 | a strategy's weight lies between 0.5 (the default for kinds without one) and 0.85 |
| SignalHandler.TotalWeight | handlers/signal_handler.py:116-121 | the total weight is positive exactly for a non-empty group, 0 for an empty one |
| SignalHandler.Latest | handlers/signal_handler.py:133 | `max` by timestamp picks the first signal whose timestamp no other signal exceeds |
| SignalHandler.WeightedIsTotal | handlers/signal_handler.py:119-122 | the loop adds the weight itself, not weight times confidence, so the weighted total is the total weight |
| SignalHandler.AggregatedAlwaysOne | handlers/signal_handler.py:110-142 | every non-empty group aggregates with confidence exactly 1, its direction and all its signals, so the 0.8 threshold never rejects anything |
| SignalHandler.CreateAggregatedSignal | handlers/signal_handler.py:110-142 | the loop's result is the defining function's aggregate of the group |
| SignalHandler.OfType | handlers/signal_handler.py:90-94 | a direction's list is no longer than the group |
| SignalHandler.OfTypeMember | handlers/signal_handler.py:90-94 | a signal is in its direction's list exactly when it is in the group with that direction |
| SignalHandler.OfTypeSplits | handlers/signal_handler.py:90-94 | splitting by direction loses nothing and adds nothing |
| SignalHandler.Partition | handlers/signal_handler.py:87-94 | the loop yields the group's buys and sells, each in order |
| SignalHandler.PartOne | handlers/signal_handler.py:96-106 | a direction's aggregate has confidence 1, that direction, and at least one supporting signal |
| SignalHandler.BothDirections | handlers/signal_handler.py:96-106 | a symbol with signals in both directions yields a BUY aggregate followed by a SELL aggregate |
| SignalHandler.SymbolAggregatesOne | handlers/signal_handler.py:82-106 | each of a symbol's aggregates has confidence 1 and at least one supporting signal |
| SignalHandler.CollectAllOne | handlers/signal_handler.py:82-106 | every collected aggregate has confidence 1 and at least one supporting signal |
| SignalHandler.EmptySymbolSkipped | handlers/signal_handler.py:83-84 | a symbol with no signals contributes nothing |
| SignalHandler.InsertStep | handlers/signal_handler.py:108 | a more confident head before an insertion into the tail keeps the order and the multiset |
| SignalHandler.InsertByConfidence | handlers/signal_handler.py:108 | inserting keeps the order by falling confidence and adds exactly that signal |
| SignalHandler.SortByConfidence | handlers/signal_handler.py:108 | the sorted list is ordered by falling confidence and is a permutation of the input |
| SignalHandler.SortSameConfidence | handlers/signal_handler.py:108 | the stable sort leaves signals of one confidence in their order |
| SignalHandler.AggregateInSymbolOrder | handlers/signal_handler.py:70-108 | since every confidence is 1, the sort leaves the aggregates in symbol order |
| SignalHandler.AggregateSignals | handlers/signal_handler.py:70-108 | the loop's result is the defining function's aggregate list, ordered by falling confidence, every confidence 1 |
| SignalHandler.Describe | handlers/signal_handler.py:35-68 | the fixed MACD, Bollinger and Ichimoku descriptions by direction (`Ichimoku TK Cross` when the value shows `TK:`), and the value's own text for other kinds |
| SignalHandler.Descriptions | handlers/signal_handler.py:157-160 | one description per supporting signal |
| SignalHandler.DescriptionsAt | handlers/signal_handler.py:157-160 | every supporting signal is described in its place |
| SignalHandler.Block | handlers/signal_handler.py:151-164 | a signal's block has three or four lines, the last one blank |
| SignalHandler.CloseLaid | handlers/signal_handler.py:168-172 | closing the current message and starting a new one with the block keeps every block in order after a header |
| SignalHandler.ExtendLaid | handlers/signal_handler.py:172 | adding the block to the current message keeps the layout |
| SignalHandler.AddBlockLaid | handlers/signal_handler.py:166-172 | one step of the loop keeps the layout |
| SignalHandler.ChunkAllLaid | handlers/signal_handler.py:149-172 | the loop keeps every block, in order, after a header in every message |
| SignalHandler.ChunksKeepSignals | handlers/signal_handler.py:144-177 | every message opens with the header, and the lines after the headers are the signals' lines one after another |
| SignalHandler.HeaderOnlyChunk | handlers/signal_handler.py:147-175 | with a header, a signal too long for any message leaves behind a message holding only the header |
| SignalHandler.Blocks | handlers/signal_handler.py:149-164 | one block per signal |
| SignalHandler.BlocksAt | handlers/signal_handler.py:149-164 | every signal's block is in its place |
| SignalHandler.JoinAllAt | handlers/signal_handler.py:169-175 | every message is its lines joined by newlines |
| SignalHandler.ChunkLoop | handlers/signal_handler.py:146-172 | the loop's finished messages and current lines are the defining function's chunking of the signals' blocks |
| SignalHandler.FormatSignalBatch | handlers/signal_handler.py:144-177 | the messages are the defining function's batch of the signals under the header |
| SignalHandler.Direction | handlers/signal_handler.py:191-192 | a direction's list is no longer than the input |
| SignalHandler.DirectionMember | handlers/signal_handler.py:191-192 | a signal is in a direction's list exactly when it is in the input and has that direction |
| SignalHandler.DirectionAppend | handlers/signal_handler.py:191-192 | selecting from two joined lists is joining the two selections, so the input order is kept |
| SignalHandler.DirectionSplits | handlers/signal_handler.py:191-192 | the buy and the sell lists together are the input, as a multiset: nothing lost, nothing repeated |
| SignalHandler.Top | handlers/signal_handler.py:185-188 | the most confident first, drawn from the input; all of them when there are at most ten, else exactly ten, and no signal left out is more confident than one kept |
| SignalHandler.TopDominates | handlers/signal_handler.py:185-188 | in a list sorted by falling confidence, nothing after the first ten is more confident than any of them |
| SignalHandler.FormatDiscordMessage | handlers/signal_handler.py:179-204 | the fixed no-signals message for no signals; otherwise the report of the ten most confident: buy messages before sell messages |
| SignalHandler.JoinOpens | handlers/signal_handler.py:169-175 | joined lines open with the first line |
| SignalHandler.BatchOpens | handlers/signal_handler.py:144-177 | a batch of at least one signal opens with its header |
| SignalHandler.ReportOpens | handlers/signal_handler.py:194-204 | the report opens with the buy header when there is a buy among the top signals, else with the sell header |
| SignalHandler.SymbolAggregatesNonEmpty | handlers/signal_handler.py:82-106 | a symbol contributes an aggregate exactly when it has a signal |
| SignalHandler.CollectNonEmpty | handlers/signal_handler.py:70-108 | something is aggregated exactly when some symbol has a signal |
| SignalHandler.ProcessAggregatedSignals | handlers/price_handler.py:273-287 | no report exactly when no symbol has a signal; otherwise the report of the ten most confident aggregates, which come in symbol order, each message sent on its own |
| SignalHandler.ReportOfSignals | handlers/signal_handler.py:179-204 | when some symbol has a signal the report has a message, and it opens with the buy or the sell header |
| SignalHandler.ProcessAggregatedSignalsAsWritten | handlers/price_handler.py:273-287 | as written: nothing is sent exactly when no symbol has a signal; otherwise one text is sent, `str()` of the whole list of report messages |
| SignalHandler.ListTextOfReport | handlers/price_handler.py:281-284 | `str()` of a report opens with a bracket where the report opens with a header, and is longer than all its messages together, so it exceeds the Discord limit once they do |
| SignalHandler.AsWrittenSendsListText | handlers/price_handler.py:281-284 | whenever some symbol has a signal, the as-written handler sends a text opening with a bracket, not the header-led first message, and longer than all the messages together |
| PriceHandler.TakeLast | handlers/price_handler.py:140-149 | a deque of maximum length `n` keeps the last `n` entries, or all of them when there are fewer |
| PriceHandler.Rows | handlers/price_handler.py:158-161 | one frame row per candle of the history |
| PriceHandler.PartlyAppendedStep | handlers/price_handler.py:215-225 | one more instance given the candle's row, in terms of those before it |
| PriceHandler.PartlyCheckedStep | handlers/price_handler.py:248-251 | one more instance checked, in terms of those before it |
| PriceHandler.PartlyWithoutStep | handlers/price_handler.py:98-99 | one more symbol's signals without the strategy, in terms of those before it |
| PriceHandler.PartlySeededStep | handlers/price_handler.py:156-162 | one more instance seeded, in terms of those before it |
| PriceHandler.SeededOne | handlers/price_handler.py:156-162 | seeding one symbol gives a frame to an instance only when it has none for it |
| PriceHandler.SeededTwice | handlers/price_handler.py:156-162 | seeding one more symbol after others is seeding them all at once |
| PriceHandler.Histories | handlers/price_handler.py:133-153 | the histories fetched for the given names, each cut to its last 150 candles, and only for names whose fetch succeeded |
| PriceHandler.RowsOfUpdate | handlers/price_handler.py:158-162 | the rows of an updated history table are the rows of the old table with that symbol's rows replaced |
| PriceHandler.SeededAllTwice | handlers/price_handler.py:156-162 | seeding every instance with one more symbol after others is seeding them all at once |
| PriceHandler.FetchedStep | handlers/price_handler.py:129-165 | one more name adds its history and its frame when its fetch succeeded, and nothing when it failed |
| PriceHandler.HistoriesStep | handlers/price_handler.py:133-153 | the histories of one more name, in terms of those before it |
| PriceHandler.SeedsStep | handlers/price_handler.py:140-162 | the frames of one more name, in terms of those before it |
| PriceHandler.ListedStep | handlers/price_handler.py:304-305 | one more listed symbol initialised, in terms of the state built for those before it |
| PriceHandler.ListedHistory | handlers/price_handler.py:151-153 | the price data with one more fetched symbol is its history added to the rest |
| PriceHandler.ListedSeeds | handlers/price_handler.py:156-162 | the instances seeded with one more fetched symbol are seeded with all of them at once |
| PriceHandler.DroppedTwice | handlers/price_handler.py:309-314 | dropping one more symbol after others is dropping them all at once |
| PriceHandler.HandlerIntervalGiven | handlers/price_handler.py:54-55 | a given interval is accepted exactly when it validates, and is then used in its validated form with its length in minutes |
| PriceHandler.SignalHandlerInit | handlers/signal_handler.py:24-32 | the signal handler's initialiser succeeds exactly when called with no argument, and otherwise raises the arity TypeError |
| PriceHandler.ConstructionFailsAsWritten | handlers/price_handler.py:47-55 | as written every construction raises the arity TypeError before the interval is checked, even for the interval `60` that the corrected constructor accepts |
| PriceHandler.AddAsWritten | handlers/price_handler.py:67-85 | as written, an active kind changes nothing; otherwise the configuration is recorded, an instance is added exactly when the factory as written creates the class, and on an error the instances are unchanged |
| PriceHandler.MacdAddLeavesConfigAsWritten | handlers/price_handler.py:67-85 | as written, adding MACD raises after its configuration was recorded, so MACD is listed as active with no instance |
| PriceHandler.CheckedBelowWindow | handlers/price_handler.py:214-251 | a frame that already ends with the candle's row reaches `generate_signals` one row short of the window: the strategy appends the same timestamp again, the two merge, and a full frame loses its oldest row |
| PriceHandler.FullWarmUpNeverFires | handlers/price_handler.py:214-268 | through the handler no strategy whose warm-up is the whole window (Ichimoku's 150 candles) ever signals |
| PriceHandler.BoundedAppend | handlers/price_handler.py:209-211 | storing a history of at most 150 candles keeps every history bounded |
| PriceHandler.BoundedDrop | handlers/price_handler.py:311 | forgetting histories keeps the rest bounded |
| PriceHandler.AppendedKept | handlers/price_handler.py:215-225 | appending a row to the frames keeps every instance and its window |
| PriceHandler.CheckedKept | handlers/price_handler.py:248-251 | checking a candle keeps every instance and its window |
| PriceHandler.SeededKept | handlers/price_handler.py:156-162 | seeding frames keeps every instance and its window |
| PriceHandler.DroppedKept | handlers/price_handler.py:313-314 | dropping symbols keeps every instance and its window |
| PriceHandler.Forget | handlers/price_handler.py:309-314 | the loop removes every delisted symbol from the tracked set, the histories, the signals and every frame |
| PriceHandler.AppendFrames | handlers/price_handler.py:215-225 | the loop gives every instance holding the symbol the candle's row, keeping at most 150 rows |
| PriceHandler.CheckFrames | handlers/price_handler.py:242-271 | the loop checks every instance and stores each signal it fires under the symbol and the strategy |
| PriceHandler.SeedFrames | handlers/price_handler.py:156-162 | the loop gives every instance without a frame for the symbol one built from the history |
| PriceHandler.PriceHandler.constructor | handlers/price_handler.py:35-55 | a new handler tracks nothing, has no strategies or signals, and is running |
| PriceHandler.PriceHandler.Create | handlers/price_handler.py:21-55 | with the signal handler created without arguments, construction fails exactly when the given interval does not validate; otherwise a new empty handler with the validated interval, or the default one |
| PriceHandler.PriceHandler.AddStrategy | handlers/price_handler.py:67-85 | nothing for an active strategy; otherwise its configuration (the handler's interval, window 150) is recorded and an instance is created, or `Unknown strategy type` raised after the configuration was recorded |
| PriceHandler.PriceHandler.RemoveStrategy | handlers/price_handler.py:87-105 | one strategy leaves the configurations, the instances and every symbol's signals; with none given all three are emptied |
| PriceHandler.PriceHandler.HandlePriceUpdate | handlers/price_handler.py:167-240 | an untracked symbol, a bad payload or an unconfirmed candle changes nothing; a new candle time clears the round and the signals; the candle joins the history and every frame; from two candles the strategies are checked; a complete round emits the signals and starts over |
| PriceHandler.PriceHandler.RecordCandle | handlers/price_handler.py:197-237 | the candle is stored, checked from two candles of history on, and the round is closed |
| PriceHandler.PriceHandler.StoreCandle | handlers/price_handler.py:209-229 | the history keeps its last 150 candles, every frame gets the row, and from two candles the frames are checked and the signals stored |
| PriceHandler.PriceHandler.CloseRound | handlers/price_handler.py:231-237 | the symbol has reported; when every tracked symbol has, the signals are emitted and the round starts over |
| PriceHandler.PriceHandler.InitializeSymbolData | handlers/price_handler.py:129-165 | a failed fetch changes nothing; otherwise the symbol is tracked with its last 150 candles and every instance without a frame for it gets one |
| PriceHandler.PriceHandler.CheckSymbols | handlers/price_handler.py:289-318 | newly listed symbols whose fetch succeeded are tracked and seeded, and delisted ones leave the tracked set, the histories, the signals and every frame |
| PriceHandler.PriceHandler.InitializeListed | handlers/price_handler.py:303-306 | every new symbol is initialised in turn |
| PriceHandler.PriceHandler.DropDelisted | handlers/price_handler.py:308-315 | every delisted symbol is forgotten |
| PriceHandler.PriceHandler.Cleanup | handlers/price_handler.py:320-329 | the symbol check stops |
| PriceHandler.StoredStep | handlers/price_handler.py:265-268 | storing one more event is storing it into the table already built |
| PriceHandler.FiredStep | handlers/price_handler.py:248-263 | one more strategy judged: its event joins the fired ones when it signals |
| Commands.EveryKindShape | handlers/command_handler.py:120-121 | `all` stands for every other kind, each once |
| Commands.Lookups | handlers/command_handler.py:125-127 | one lookup per comma-separated piece: the kind the stripped piece names, if any |
| Commands.FirstNone | handlers/command_handler.py:125-131 | the position of the first piece that names no kind, or the number of pieces when all do |
| Commands.Collect | handlers/command_handler.py:124-129 | the kinds the pieces name, `all` left out |
| Commands.Dedup | handlers/command_handler.py:136 | `list(set(...))` keeps every element, each once |
| Commands.ParsePieces | handlers/command_handler.py:124-136 | the first piece that names no kind is reported by its stripped text; otherwise a non-empty list of distinct kinds without `all` |
| Commands.ParseStrategies | handlers/command_handler.py:104-136 | input that is `all` once lower-cased and stripped gives every kind but `all`; anything else is parsed piece by piece; a success is non-empty, distinct and without `all` |
| Commands.Names | handlers/command_handler.py:127 | the values of some kinds, in order |
| Commands.NameShape | handlers/command_handler.py:127 | a kind's value is a non-empty run of lower-case letters and underscores |
| Commands.NameIsPlain | handlers/command_handler.py:117-127 | a kind's value is its own lower-cased, stripped form |
| Commands.PlainText | handlers/command_handler.py:117 | text of lower-case letters, underscores and commas is its own lower-cased, stripped form |
| Commands.JoinedPlain | handlers/command_handler.py:117 | the comma-joined values of some kinds are their own lower-cased, stripped form |
| Commands.JoinedSplits | handlers/command_handler.py:120-125 | the comma-joined values of kinds other than `all` are not `all` and split back into those values |
| Commands.LookupsOfNames | handlers/command_handler.py:127 | each kind's value looks up that kind, and no value fails |
| Commands.ParseJoinedNames | handlers/command_handler.py:104-136 | parsing the comma-joined values of some kinds other than `all` gives back exactly those kinds |
| Commands.Topics | handlers/command_handler.py:271 | one `kline.<interval>.<symbol>` topic per symbol, in order |
| Commands.TopicParts | handlers/command_handler.py:271 | a topic splits on `.` back into `kline`, its interval and its symbol, so the last segment is the symbol |
| Commands.TopChoice | handlers/command_handler.py:205-222 | no argument is answered as missing; `winners` shows the best coins, `losers` the worst; anything else is refused |
| Commands.PlanClear | handlers/command_handler.py:224-240 | a missing count, one `int()` refuses and one below 1 are answered, each exactly in its case; any other count is cleared |
| Commands.Reach | handlers/command_handler.py:393-403 | a `limit` reaches at most `limit` of the newest messages, and no more than there are |
| Commands.Survivors | handlers/command_handler.py:393-405 | one deleting pass keeps exactly the pinned messages, and in a bulk pass also those too old for a bulk delete |
| Commands.SurvivorsTwice | handlers/command_handler.py:393-405 | deleting the unpinned messages of what a purge left is deleting them from the start |
| Commands.TwoPassClear | handlers/command_handler.py:388-406 | a purge of the newest `count` and, when it deleted fewer, a pass over the newest `count - deleted` of what is left, leave the newest `count` messages with only their pinned ones |
| Commands.Channel.constructor | handlers/command_handler.py:390-391 | a channel with the given kind and messages |
| Commands.Channel.Purge | handlers/command_handler.py:393-397 | the unpinned messages among the newest `limit` that a bulk delete reaches are deleted, and their number returned |
| Commands.Channel.DeleteUnpinned | handlers/command_handler.py:403-405 | every unpinned message among the newest `limit` is deleted, and their number returned |
| Commands.ClearMessages | handlers/command_handler.py:382-412 | a count below 1 is refused and a non-text channel is answered, both changing nothing; otherwise the newest `count` messages keep only their pinned ones |
| Commands.HandleClear | handlers/command_handler.py:224-240 | a refused argument is answered with nothing deleted; otherwise the clear runs with the parsed count |
| Commands.Fresh | handlers/command_handler.py:280-284 | the kinds not active at their turn, each once, in order |
| Commands.FreshStep | handlers/command_handler.py:281-284 | one more kind joins the fresh kinds exactly when it is new |
| Commands.ActiveStrategies | handlers/price_handler.py:63-65 | exactly the kinds the handler has a configuration for, each once |
| Commands.AddNext | handlers/command_handler.py:281-284 | one turn adds the kind unless it is already active; an unknown kind fails with its configuration recorded |
| Commands.AddAll | handlers/command_handler.py:279-284 | every kind not yet active is added, in order, and listed; the first kind the factory cannot build stops the loop |
| Commands.Initialize | handlers/price_handler.py:107-127 | without strategies nothing happens; a failed instrument request stops it; otherwise every listed symbol whose history was fetched is tracked |
| Commands.ValidIntervalCreates | handlers/price_handler.py:54-55 | a valid interval always makes a handler of that interval |
| Commands.NewHandler | handlers/command_handler.py:251-264 | a handler of the interval gets every kind and is initialised; it is complete exactly when every kind is known and the instruments were listed, and a failed one always holds a strategy |
| Commands.CommandHandler.constructor | handlers/command_handler.py:14-26 | the default interval and no handler |
| Commands.CommandHandler.StartListener | handlers/command_handler.py:242-297 | a live handler only gets the kinds not yet active and nothing is subscribed; otherwise a new handler gets every kind, is initialised and its topics subscribed; a failed handler with no strategy is dropped |
| Commands.CommandHandler.StopListener | handlers/command_handler.py:299-348 | without a handler the user is told to listen first; an inactive kind changes nothing; removing the last kind, or all, unsubscribes the topics, cleans the handler up and drops it |
| Commands.CommandHandler.Rebuild | handlers/command_handler.py:54-91 | the old topics are unsubscribed, the handler cleaned up, and a new one of the new interval gets the same strategies, is initialised and has its topics subscribed |
| Commands.CommandHandler.HandleInterval | handlers/command_handler.py:28-102 | no argument shows the interval; an invalid or current one is answered with nothing changed; without a handler only the interval changes; with one the handler is rebuilt |
| Commands.CommandHandler.HandleListen | handlers/command_handler.py:169-185 | a missing or unparsable list is answered with nothing changed; otherwise the listener starts with the parsed kinds, with the replies, subscriptions and new handler exactly as `StartListener` states for a live handler and for none, never losing an active strategy |
| Commands.CommandHandler.HandleUnlisten | handlers/command_handler.py:187-203 | no argument stops everything; otherwise the lower-cased argument must name a kind, or it is answered with nothing changed |
| LegacyCommands.DefaultMinutesAgree | utils/constants.py:66-68 | the default minutes are what the default interval converts to |
| LegacyCommands.AddNext | command_handler.py:205-208 | one turn adds the kind unless it is already active; an unknown kind fails with its configuration recorded |
| LegacyCommands.AddAll | command_handler.py:203-208 | every kind not yet active is added, in order, and listed; the first kind the factory cannot build stops the loop |
| LegacyCommands.Initialize | price_handler.py:96-116 | without strategies nothing happens; a failed instrument request stops it; otherwise every listed symbol whose history was fetched is tracked |
| LegacyCommands.NewHandler | command_handler.py:180-188 | a handler of the default interval gets every kind and is initialised; it is complete exactly when every kind is known and the instruments were listed, and a failed one always holds a strategy |
| LegacyCommands.CommandHandler.constructor | command_handler.py:20-31 | no handler |
| LegacyCommands.CommandHandler.StartListener | command_handler.py:171-221 | a live handler only gets the kinds not yet active and nothing is subscribed; otherwise a new handler gets every kind, is initialised and the default interval's topics subscribed; a failed handler with no strategy is dropped |
| LegacyCommands.CommandHandler.StopListener | command_handler.py:223-272 | without a handler the user is told to listen first; an inactive kind changes nothing; removing the last kind, or all, unsubscribes the default interval's topics, cleans the handler up and drops it |
| LegacyCommands.CommandHandler.HandleListen | command_handler.py:98-114 | a missing or unparsable list is answered with nothing changed; otherwise the listener starts with the parsed kinds, with the replies, subscriptions and new handler exactly as `StartListener` states for a live handler and for none, never losing an active strategy |
| LegacyCommands.CommandHandler.HandleUnlisten | command_handler.py:116-132 | no argument stops everything; otherwise the lower-cased argument must name a kind, or it is answered with nothing changed |
| LegacyCommands.ClearMessages | command_handler.py:306-322 | a count below 1 is refused with nothing deleted; otherwise one pass deletes every unpinned message among the newest `count`, leaving the channel as the two-pass clear leaves a text channel |
| LegacyCommands.HandleClear | command_handler.py:153-169 | a refused argument is answered with nothing deleted; otherwise the one-pass clear runs with the parsed count |
| LegacyPriceHandler.Pushed | price_handler.py:244 | the signal joins the end of its own direction's list; the other direction's list is unchanged |
| LegacyPriceHandler.AddToBatch | price_handler.py:237-244 | the batch gains the signal's strategy (with two empty lists on first use), the signal is appended to its direction's list, every other strategy is unchanged |
| LegacyPriceHandler.ListedAfter | price_handler.py:237-244 | adding a signal keeps the batch's key order listing exactly its strategies, and only extends that order |
| LegacyPriceHandler.JudgeOne | price_handler.py:352-384 | one strategy's turn: its frame is judged, and the symbol's stored signal and the batch become what one more turn of the loop gives |
| LegacyPriceHandler.Advance | price_handler.py:208-223 | the candle's row is appended to every frame, then, when judged, the table and the batch are those of every strategy's verdict on the appended frames |
| LegacyPriceHandler.NoteSignals | price_handler.py:342-384 | the loop over all strategies leaves every frame judged, the table and the batch as the verdicts give, and the batch's key order consistent |
| LegacyPriceHandler.SilenceClears | price_handler.py:357-362 | a strategy that did not signal leaves no stored signal for the symbol |
| LegacyPriceHandler.NewsStoredAndBatched | price_handler.py:377-384 | a signal that is news (nothing stored, or the stored signal points the other way) is stored and appended to the batch; a repeated direction keeps the earlier signal and leaves the batch alone |
| LegacyPriceHandler.OtherSymbolsKept | price_handler.py:342-384 | the other symbols' stored signals are not touched |
| LegacyPriceHandler.InsertByValue | price_handler.py:272 | inserting into a sorted list keeps it sorted and adds exactly the one element |
| LegacyPriceHandler.SortByValue | price_handler.py:272 | the result is sorted by value (descending when asked) and a permutation of the input |
| LegacyPriceHandler.Ordered | price_handler.py:270-274 | sorting fails exactly when the first value is a number and some other is not; a numeric list is reordered as a permutation, a text list kept as given |
| LegacyPriceHandler.Lines | price_handler.py:276-283 | one line per signal |
| LegacyPriceHandler.Section | price_handler.py:265-300 | a section starts with the strategy's header and has one line per signal plus the BUY caption and blank line and the SELL caption of the non-empty directions |
| LegacyPriceHandler.Messages | price_handler.py:261-303 | at most one message per strategy in the batch |
| LegacyPriceHandler.SendAll | price_handler.py:261-303 | the loop sends exactly the messages the batch's sections give, in key order, stopping at a section that raises |
| LegacyPriceHandler.QuietBatchSendsNothing | price_handler.py:262-263 | a batch in which no strategy has a signal sends nothing |
| LegacyPriceHandler.NumericSectionOrder | price_handler.py:268-300 | a strategy with numeric BUY and SELL signals gets its header, BUY lines by ascending value, a blank line, then SELL lines by descending value |
| LegacyPriceHandler.SectionShape | price_handler.py:265-300 | once both directions sort, a section is header, BUY caption and lines, blank line, SELL caption and lines |
| LegacyPriceHandler.LegacyPriceHandler.constructor | price_handler.py:20-46 | a new handler tracks nothing, has no strategies, signals or batch, and is running |
| LegacyPriceHandler.LegacyPriceHandler.AddStrategy | price_handler.py:56-74 | an active kind changes nothing; otherwise its configuration (default minutes, window 150, RSI bounds 30/70) is recorded, and an instance is created when the factory knows the kind, else an error follows |
| LegacyPriceHandler.LegacyPriceHandler.RemoveStrategy | price_handler.py:76-94 | one kind leaves the configurations, the instances and every symbol's signals; no kind empties all three |
| LegacyPriceHandler.LegacyPriceHandler.AddToBatchField | price_handler.py:237-244 | the handler's batch becomes the batch with the signal added |
| LegacyPriceHandler.LegacyPriceHandler.SendSignalBatch | price_handler.py:246-307 | the batch is emptied and the messages sent are those of the batch as it was |
| LegacyPriceHandler.LegacyPriceHandler.HandlePriceUpdate | price_handler.py:161-235 | an untracked symbol, a bad payload, an unconfirmed kline or a missing start time changes nothing; otherwise a new candle time resets the round and the batch, and the candle is recorded |
| LegacyPriceHandler.LegacyPriceHandler.RecordCandle | price_handler.py:191-232 | the history keeps the last 150 candles, the frames are judged, and a complete round sends the batch and starts over |
| LegacyPriceHandler.LegacyPriceHandler.StoreCandle | price_handler.py:191-223 | the history keeps its last 150 candles, and with two candles the strategies are judged |
| LegacyPriceHandler.LegacyPriceHandler.CloseRound | price_handler.py:225-232 | the symbol joins the round; when every tracked symbol has reported the batch is sent and the round is cleared |
| LegacyPriceHandler.LegacyPriceHandler.InitializeSymbolData | price_handler.py:118-159 | with no strategy or a failed fetch nothing changes; otherwise the symbol is tracked with its last 150 candles and every instance gets its frame |
| LegacyPriceHandler.LegacyPriceHandler.CheckSymbols | price_handler.py:309-340 | new symbols are those listed but not tracked and are tracked once their history is fetched; delisted symbols leave the tracked set, the histories, the signals and every frame |
| LegacyPriceHandler.LegacyPriceHandler.InitializeListed | price_handler.py:324-328 | every new symbol whose history was fetched is tracked |
| LegacyPriceHandler.LegacyPriceHandler.DropDelisted | price_handler.py:330-337 | delisted symbols leave the tracked set, the histories, the signals and every frame |
| LegacyPriceHandler.LegacyPriceHandler.Cleanup | price_handler.py:386-395 | the symbol check stops running |
| LegacyStrategies.BarOf | strategies.py:88 | a frame row carries the candle's time label and its open, high, low and close |
| LegacyStrategies.DropLabel | strategies.py:92 | dropping a label removes exactly the rows that carry it, never lengthening the frame |
| LegacyStrategies.DropLabelLength | strategies.py:92 | the frame shrinks by the number of rows carrying the label |
| LegacyStrategies.Rolled | strategies.py:92-93 | a rolled frame is non-empty, no longer than before, and ends with the new candle |
| LegacyStrategies.RolledKeepsLength | strategies.py:92-93 | with a unique oldest label, rolling keeps the frame's length |
| LegacyStrategies.Symbols | strategies.py:91 | the batch's symbols, one per candle, in order |
| LegacyStrategies.FirstUnknown | strategies.py:91-92 | the first candle whose symbol has no frame: every earlier symbol has one, it has none |
| LegacyStrategies.RollAll | strategies.py:91-93 | rolling every candle in keeps the table's symbols and leaves no frame empty |
| LegacyStrategies.RollFrames | strategies.py:91-93 | the loop fails exactly when some symbol has no frame, after rolling every symbol before it |
| LegacyStrategies.AppendAll | strategies.py:95-100 | appending keeps every frame and gives every symbol of the batch one |
| LegacyStrategies.AppendAllEffect | strategies.py:95-100 | each symbol of the batch gets its candle appended to its frame, or a new frame holding it alone |
| LegacyStrategies.AppendAllUntouched | strategies.py:95-100 | symbols outside the batch keep their frames |
| LegacyStrategies.AppendAllBounded | strategies.py:90-100 | appending to frames shorter than the window keeps every frame within it |
| LegacyStrategies.RollAllBounded | strategies.py:90-93 | rolling never takes a frame past the window |
| LegacyStrategies.Filled | strategies.py:177 | a missing reading becomes 50, any other is kept |
| LegacyStrategies.Decide | strategies.py:176-184 | no RSI column gives no signal, and a signal carries the filled reading |
| LegacyStrategies.DecideRule | strategies.py:180-184 | with ordered thresholds: a buy exactly below the buy threshold and not 0, a sell exactly above the sell threshold, not 100 and not a buy, nothing otherwise |
| LegacyStrategies.MissingReadsFifty | strategies.py:177-184 | a missing reading signals only when 50 lies outside the thresholds |
| LegacyStrategies.LegacyRsiStrategy.constructor | strategies.py:140-158 | the thresholds are stored in order, whichever way round they were given, with the interval and window |
| LegacyStrategies.LegacyRsiStrategy.MaxLength | strategies.py:105-112 | the result is the length of the longest frame, 0 for an empty table |
| LegacyStrategies.LegacyRsiStrategy.Watch | strategies.py:71-102 | an empty table gets one-row frames; a full table rolls every symbol, failing at the first without a frame; otherwise every candle is appended |
| LegacyStrategies.LegacyRsiStrategy.AppendLoop | strategies.py:94-100 | the table becomes the frames with every candle appended |
| LegacyStrategies.LegacyRsiStrategy.Process | strategies.py:161-186 | exactly the symbols whose last reading decides a signal get one, and it is that decision |
| LegacyStrategies.WatchBounded | strategies.py:71-102 | from frames within the window, every branch of `watch` keeps them within it |
| LegacyStrategies.WatchEmpty | strategies.py:86-88 | on an empty table each symbol's frame holds its candle alone |
| Handlers.Filtered | handlers.py:164 | a record keeps exactly its fields named in the key list, with their values |
| Handlers.FilterAll | handlers.py:164 | every record of the payload filtered, in order |
| Handlers.OpenPositions | handlers.py:82-95 | a record without a size raises; otherwise every record of non-zero size is kept, filtered, and every kept position is the filtered form of some record of non-zero size |
| Handlers.OpenPositionsAppend | handlers.py:82-95 | the positions of a joined payload are those of its first part followed by those of its second, so the payload order is kept; the join raises exactly when a part does |
| Handlers.PositionsKept | handlers.py:82-95 | the comprehension raises exactly when some record lacks a size, keeps every record of non-zero size in filtered form, and keeps nothing else |
| Handlers.PositionsAppend | handlers.py:82-95 | the comprehension over a joined payload is the comprehension over each part, concatenated, and raises exactly when a part does |
| Handlers.RemoveAt | handlers.py:181-182 | popping an index removes exactly that element and shifts the rest down |
| Handlers.IndexOf | handlers.py:177 | the first index whose position holds the symbol, or none when no position does |
| Handlers.IndexOfFirst | handlers.py:177 | any index that is the first holding the symbol is the one found |
| Handlers.ListedIffIndexed | handlers.py:170-179 | with parallel lists, a symbol is tracked exactly when some position carries it |
| Handlers.Adopted | handlers.py:193-194 | an untracked symbol adopts the first leg of non-zero size, else the second; a single zero-size leg raises |
| Handlers.OnSide | handlers.py:205 | the first leg on the stored position's side, or none when no leg is on it |
| Handlers.RemoveAtTracked | handlers.py:181-182 | popping the same index from both lists keeps them parallel |
| Handlers.SettledTracked | handlers.py:202-217 | settling the tracked symbol keeps the lists parallel |
| Handlers.HandledKeepsTracked | handlers.py:149-217 | a payload handled without an exception leaves the positions and the symbols parallel |
| Handlers.MergedOpens | handlers.py:170-175 | an untracked symbol that is not closed is appended to both lists and announced as a new position |
| Handlers.MergedCloses | handlers.py:177-184 | a tracked symbol whose side is 'None' is popped from both lists and its stored position announced closed |
| Handlers.MergedUpdates | handlers.py:186-190 | a tracked open symbol whose record repeats every stored field changes nothing; any other record replaces the stored one in place and is announced |
| Handlers.BothSideAdopts | handlers.py:193-199 | a new symbol with a non-zero first leg appends that leg and announces it |
| Handlers.BothSideCloses | handlers.py:202-211 | a zero size on the tracked side pops the position from both lists and announces it closed |
| Handlers.PnlRule | handlers.py:120-121 | a long position gains as the price rises, a short one as it falls |
| Handlers.PnlSign | handlers.py:120-129 | for a positive size the PnL is non-negative exactly when the price moved the position's way |
| Handlers.Layout | handlers.py:131-142 | the direction follows the optional banner; a closed position shows entry, close and PnL only; an update or a new position shows size, entry, targets and liquidation price; a plain summary adds the PnL |
| Handlers.Heading | handlers.py:131-132 | a banner exactly for an announcement, then the direction |
| Handlers.Targets | handlers.py:126-127 | the take-profit line exactly when a take-profit is set, and nothing but target lines |
| Handlers.Details | handlers.py:134-142 | after the heading: always the entry; close price only for a closed position; PnL for a summary or a closed position; size and targets unless closed |
| Handlers.PositionHandler.constructor | handlers.py:62-79 | the handler holds the open positions and, in parallel, the symbol of each |
| Handlers.PositionHandler.Handle | handlers.py:149-217 | the lists and the announcements are those of handling the filtered payload by its first record's mode; without an exception they stay parallel |
| Handlers.PositionHandler.HandleMerged | handlers.py:167-190 | the lists and announcements become those of the `MergedSingle` branch |
| Handlers.PositionHandler.HandleBothSide | handlers.py:192-217 | the lists and announcements become those of the `BothSide` branch |
| Handlers.PositionHandler.Settle | handlers.py:202-217 | the lists and announcements become those of settling the tracked symbol |
| Handlers.UsdtSymbols | handlers.py:252-271 | exactly the listed names ending in USDT; none when the listing is absent |
| Handlers.Opened | handlers.py:325-327 | a first tick opens a candle whose four prices are its close, at the current timestamp |
| Handlers.Ticked | handlers.py:329-333 | a tick within the interval moves the close, only raises the high and only lowers the low |
| Handlers.CandleExtremes | handlers.py:325-333 | a candle opens at its first price, closes at its last, and its high and low are the largest and smallest prices seen |
| Handlers.SweptMeaning | handlers.py:337-342 | a visited symbol holds a signal exactly when the strategy gives one, keeping an earlier signal; an unvisited one keeps its own |
| Handlers.AlertsMeaning | handlers.py:341-344 | a signal is announced exactly for a visited symbol the strategy signals that held none before |
| Handlers.FirstAlert | handlers.py:337-344 | the first visited symbol with a new signal, or the length when there is none |
| Handlers.NoAlertsIffNoFirst | handlers.py:337-344 | nothing is announced exactly when no visited symbol has a new signal |
| Handlers.SweepStep | handlers.py:337-344 | visiting one more symbol is one more step of the table and the announcements |
| Handlers.Sweep | handlers.py:337-344 | the loop leaves the swept table and announces exactly the alerts |
| Handlers.SweepAsWritten | handlers.py:292-344 | the loop raises exactly when some symbol has a new signal, after storing it, and announces nothing |
| Handlers.AsWrittenNeverAnnounces | handlers.py:292-344 | as written, the loop raises whenever the corrected loop would announce anything |
| Handlers.HeadlineOf | handlers.py:292-296 | the headline names the symbol and the RSI value, and says pumping exactly for a sell signal |
| Handlers.PriceHandler.constructor | handlers.py:226-249 | the USDT symbols, the interval in timestamp units, no running candles, no signals and timestamp 0 |
| Handlers.PriceHandler.Handle | handlers.py:301-347 | the first tick fixes the timestamp; an unseen symbol opens a candle; a tick within the interval updates it; at a later tick a raising `watch` ends the call with its error, nothing sent and the candles, signals and entry timestamp kept; otherwise the tick sweeps the signals, announces the new ones, advances the timestamp one interval and drops every candle |
| LegacyWs.DomainOf | bybit_ws.py:67-68 | the private domain exactly when both keys are given and non-empty |
| LegacyWs.UrlOf | bybit_ws.py:72 | the server address ends in the domain's name |
| LegacyWs.Rejection | bybit_ws.py:154-155 | only an explicit `success: false` raises, naming the capitalised action and the server's message |
| LegacyWs.Inserted | bybit_ws.py:176-177 | the key order holds the old keys first, in place, and exactly the old keys and the topics |
| LegacyWs.InsertedDistinct | bybit_ws.py:176-177 | inserting keys keeps the key order free of repeats |
| LegacyWs.Assigned | bybit_ws.py:176-177 | every topic maps to the handler, and every other key keeps its handler |
| LegacyWs.AssignedStep | bybit_ws.py:176-177 | assigning one more topic updates the table at that topic |
| LegacyWs.InsertedStep | bybit_ws.py:176-177 | one more topic joins the key order at its end unless already present |
| LegacyWs.AssignAll | bybit_ws.py:176-177 | the loop leaves the key order and the table those of assigning every topic |
| LegacyWs.Removed | bybit_ws.py:200-202 | the keys left are exactly the old keys that are not among the topics |
| LegacyWs.RemovedDistinct | bybit_ws.py:200-202 | deleting keeps the key order free of repeats |
| LegacyWs.Route | bybit_ws.py:248-254 | a payload reaches a handler exactly when its topic is registered, and then the topic's handler |
| LegacyWs.RouteAfterSubscribe | bybit_ws.py:176-177 | after subscribing, its topics route to the new handler and no other route changes |
| LegacyWs.RouteAfterUnsubscribe | bybit_ws.py:200-202 | after unsubscribing, its topics route nowhere and no other route changes |
| LegacyWs.Extend | bybit_ws.py:229-241 | a step of the grouping leaves at least one group |
| LegacyWs.Runs | bybit_ws.py:211-242 | the runs are empty exactly when there are no keys |
| LegacyWs.FlattenExtend | bybit_ws.py:229-241 | a step of the grouping adds its key at the end of the grouped topics |
| LegacyWs.ShapedExtend | bybit_ws.py:229-241 | a step keeps every run single-handler with neighbours different, and ends on the key's handler |
| LegacyWs.RunsStep | bybit_ws.py:221-241 | the runs of one more key are one more step of the grouping |
| LegacyWs.RunsFlatten | bybit_ws.py:211-242 | the runs cover every key once, in key order |
| LegacyWs.RunsShape | bybit_ws.py:211-242 | each run is non-empty and single-handler, neighbouring runs differ in handler, and the last run has the last key's handler |
| LegacyWs.ResubscribeGroupsAsWritten | bybit_ws.py:211-245 | as written the list holds every run but the last |
| LegacyWs.ResubscribeGroups | bybit_ws.py:211-245 | corrected, the list holds every run |
| LegacyWs.AsWrittenLosesLastRun | bybit_ws.py:211-245 | as written the resubscribed topics are the keys without their last run, so at least one key is lost |
| LegacyWs.AsWrittenSingleHandler | bybit_ws.py:211-245 | two topics on one handler: as written nothing is resubscribed |
| LegacyWs.Client.constructor | bybit_ws.py:50-75 | the domain follows the credentials, the address the domain, with no subscriptions and no retries |
| LegacyWs.Client.Subscribe | bybit_ws.py:158-182 | the request names the topics; a rejection raises with the table unchanged; otherwise the topics map to the handler |
| LegacyWs.Client.Unsubscribe | bybit_ws.py:185-208 | the request names the topics; a rejection raises with the table unchanged; otherwise exactly the given topics are deleted, the rest keep handler and place |
| LegacyWs.Client.Disconnect | bybit_ws.py:126-135 | the socket is closed |
| LegacyWs.Client.Connect | bybit_ws.py:78-123 | timeouts are retried until fewer than 11 attempts in all; a connection resets the retries and clears the table; an invalid address stops; after 10 retries the client gives up closed |
| LegacyWs.Client.Reopen | bybit_ws.py:84-105 | the retry counter is reset, the table cleared, and the runs of the old table handed back for subscribing again |
| WsClient.Without | clients/bybit_ws.py:135-138 | exactly the entries whose topic set differs from the given one are kept, and no more entries than there were (the order is stated by `WithoutAppend`) |
| WsClient.WithoutAppend | clients/bybit_ws.py:135-138 | dropping entries from a joined list is dropping them from each part, so the kept entries stay in their order |
| WsClient.UnsubscribeUndoesSubscribe | clients/bybit_ws.py:94-138 | unsubscribing a list undoes subscribing it: the new entry leaves with every older one of the same topic set, and the rest keep their order |
| WsClient.Matching | clients/bybit_ws.py:74-76 | the handlers are exactly those of the subscriptions listing the topic |
| WsClient.Route | clients/bybit_ws.py:58-83 | invalid JSON, status frames and frames without topic or data go nowhere; any other frame goes only to handlers subscribed to its topic, with the symbol after the last '.' |
| WsClient.RouteReachesEverySubscriber | clients/bybit_ws.py:70-76 | every subscription listing the topic gets the frame |
| WsClient.RouteAllAppend | clients/bybit_ws.py:58-83 | routing a run of messages is routing its parts |
| WsClient.InvalidJsonSkipped | clients/bybit_ws.py:78-80 | invalid JSON is skipped and the messages after it are routed as if it had not come |
| WsClient.Client.constructor | clients/bybit_ws.py:17-25 | no subscriptions, no socket, running |
| WsClient.Client.Connect | clients/bybit_ws.py:27-35 | the client is running |
| WsClient.Client.Opened | clients/bybit_ws.py:53-54 | the client holds an open socket |
| WsClient.Client.Subscribe | clients/bybit_ws.py:94-121 | the topic list is appended with its handler even when already present; the request is sent only over an open socket |
| WsClient.Client.Unsubscribe | clients/bybit_ws.py:124-149 | exactly the entries with the same topic set are dropped; the request is sent only over an open socket |
| WsClient.Client.Disconnect | clients/bybit_ws.py:151-169 | the client stops running and forgets its socket |
| BybitClient.Refilled | clients/bybit_client.py:31-37 | a refill never takes the bucket past its capacity |
| BybitClient.Waiting | clients/bybit_client.py:30-40 | the loop stops at once when a token is there, and only runs out of clock readings while none is |
| BybitClient.WaitingCapped | clients/bybit_client.py:30-40 | a bucket within its capacity stays within it however long the wait |
| BybitClient.RefillGains | clients/bybit_client.py:31-37 | a refill never loses tokens when the clock has not gone backwards |
| BybitClient.RefillAfterWait | clients/bybit_client.py:30-40 | once enough time has passed since the last update, a single refill leaves a token to take |
| BybitClient.RateLimiter.constructor | clients/bybit_client.py:13-25 | the bucket starts full at the given rate and period, updated at creation |
| BybitClient.RateLimiter.Acquire | clients/bybit_client.py:27-42 | the bucket is refilled until a token is there, then exactly one token is taken; never more than one token is owed |
| BybitClient.DefaultLimiter | clients/bybit_client.py:13 | the default limiter allows 600 requests per 5 seconds and starts full |
| BybitClient.Classify | clients/bybit_client.py:80-120 | success exactly for status 200 with `retCode` 0, returning `result` or the empty default; a transport failure, another status or another code raise with the matching message prefix |
| BybitClient.StatusFirst | clients/bybit_client.py:105-108 | a status other than 200 is an HTTP error whatever the `retCode` |
| BybitClient.UsdtOnly | clients/bybit_client.py:140-144 | exactly the items whose symbol ends in USDT, and no more items than there were (the order is stated by `UsdtOnlyAppend`) |
| BybitClient.UsdtOnlyAppend | clients/bybit_client.py:140-144 | filtering a joined list is joining the filtered parts, so the kept items stay in their order |
| BybitClient.UsdtOnlyIdempotent | clients/bybit_client.py:140-144 | filtering twice is filtering once |
| BybitClient.UsdtInstruments | clients/bybit_client.py:123-146 | exactly the listed symbols that end in USDT |
| BybitClient.UsdtTickers | clients/bybit_client.py:223-235 | exactly the tickers whose symbol ends in USDT |
| BybitClient.TickerParams | clients/bybit_client.py:216-220 | the linear category always, and the symbol exactly when a non-empty one is given |
| BybitClient.ClampLimit | clients/bybit_client.py:180 | the limit clamped into 1..1000, unchanged when already inside |
| BybitClient.QueryParams | clients/bybit_client.py:172-184 | the query holds category, symbol and interval, the limit clamped to 1..1000, and the start and end times exactly when given, and no other key |
| BybitClient.KlineParams | clients/bybit_client.py:172-184 | an invalid interval raises its own error; otherwise the query of the validated interval (QueryParams) |

## Left out

- Network and Discord I/O is not modelled: websocket connects, receive loops, ping and close timeouts, HTTP sessions, `channel.send`, `purge`, `history` and message deletion. Methods return what would be sent, or take what would be received as a parameter (an acknowledgement, a clock reading, an instrument list, a kline history). Where the code hands `send` something other than a string, the text Discord receives is its `str()`: `SignalHandler.ProcessAggregatedSignalsAsWritten` models the one text that `_process_aggregated_signals` sends (see Findings).
- The `asyncio.sleep` backoffs, `create_task` dispatch, task cancellation and the hourly loop of `_check_symbols` are not modelled. One pass of the loop is modelled, and `Cleanup` stops it by clearing `running`.
- Concurrency is not modelled. `asyncio.Lock` is not modelled, and each operation runs to completion. `_check_symbols` holds `symbols_lock` (handlers/price_handler.py:302, price_handler.py:323) and then calls `_initialize_symbol_data`, which takes the same non-reentrant lock again (handlers/price_handler.py:151, price_handler.py:145). That sequence would deadlock; the model takes the lock once.
- Indicator libraries are not modelled: pandas_ta RSI, MACD and bbands, rolling means, quantiles and numpy log returns. Their outputs are inputs.
- RsiStrategy.AnalyzeMarket, BollingerStrategy.AnalyzeMarket, IchimokuStrategy.AnalyzeMarket, HarmonicStrategy.AnalyzeMarket, VolumeProfileStrategy.AnalyzeMarket: assume that `calculate_market_trend`, `detect_patterns` and `calculate_dynamic_thresholds` exist, and take their results as inputs. No file of the repository defines them. As written, each `analyze_market` raises AttributeError at its first call of one of them (strategies/rsi_strategy.py:61, strategies/bollinger_strategy.py:125, strategies/ichimoku_strategy.py:173, strategies/harmonic_strategy.py:209, strategies/volume_profile_strategy.py:223). Its own `except Exception` then returns None (rsi_strategy.py:124, bollinger_strategy.py:191, ichimoku_strategy.py:251, harmonic_strategy.py:270, volume_profile_strategy.py:290). So, as written, these five strategies never signal, independently of the argument defect of strategies/base.py:139 listed under Findings.
- Float rounding is not modelled. Prices and confidences are exact `real`s, and NaN appears only where the code visibly produces or tests it.
- String formatting of numbers (`:.2f`, `:.8f`, `str(float)`) is a parameter (`SignalHandler.Render`). The report's structure and line order are modelled; the digits are not.
- String-to-float conversion of kline and ticker fields is not modelled. A kline arrives with its values already converted, or marked as not convertible. The kline and ticker rows built by `get_klines` and `get_tickers` are not modelled beyond their USDT filter and query parameters.
- `handle_chat` and `clients/openrouter_client.py` (LLM calls), `_display_top_coins` in both command handlers, `main.py` (command dispatch, bot start-up, position listeners), `utils/logger.py`, `util.py` and environment loading are not part of this model. `handle_top` is modelled only as the choice of sort order (`Commands.TopChoice`).
- The daily log-return bookkeeping of the old price handler (`daily_pct_changes`, handlers.py:318-320) is not modelled. It is written and never read.
- The recursive retries on `ConnectionError` (handlers.py:94-95, 145-146, 270-271) are not modelled. A request is taken to succeed once.
- Iteration order is not pinned where Python does not fix it, because it depends on hashing: `list(set(...))` in `_parse_strategies`, and the iteration order of sets of symbols. Where a dict is iterated, the model takes the order as a parameter: the insertion order of the signal table, the batch and `active_strategies`. The model states what holds for every such order.
- Commands.Dedup: `list(set(...))` is modelled by the order of first occurrence, one of the orders Python may produce. Its contract and `ParsePieces` state only membership and distinctness, which hold for every order; the kinds listed in a `ListeningFor` reply follow the model's order, where Python's may differ.
- Class-level shared state is not modelled. In `strategies.py` the `dataframes` dict, and in `bybit_ws.py` the `subscriptions` dict, are class attributes shared by every instance; each modelled instance owns its own table.
- The old command handler and price handler always use the default interval "60" and its 60 minutes (utils/constants.py:66-68). `LegacyCommands.DefaultMinutesAgree` states that the two constants agree. Changing the interval is possible only in the new handler.
- An exception other than the ones modelled is not modelled: a `KeyError` from a malformed record, or a failure while deleting a message. The modelled ones are `ValueError` from parsing and validation, the `TypeError` of the findings, the failed instrument request, and the `KeyError` of `watch` and `get_positions`.
- Commands.Channel.Purge: Discord's bulk delete skips messages older than fourteen days. This is modelled by a `recent` flag on each message rather than by timestamps.
- Commands.Initialize: requires a handler that tracks no symbols yet, as every caller creates a new one. LegacyCommands.Initialize has the same requirement.
- LegacyCommands.Initialize: states the tracked symbols after initialisation, but not the histories or frames. Those are stated by `LegacyPriceHandler.LegacyPriceHandler.InitializeSymbolData`, which it calls.
- LegacyPriceHandler.Messages: states only that at most one message goes out per strategy. Its content is stated by `SendAll`, `NumericSectionOrder` and `SectionShape`.
- Text.Lower: maps only `A`-`Z`. Python's `str.lower()` also maps non-ASCII letters, and can change the length (`"\u0130".lower()` has two characters), so `"ICHIMO\u212AU"` (with the Kelvin sign) names the Ichimoku kind in Python but not in the model.
- Text.ParseRejectsLeading: `int()` also reads non-ASCII decimal digits (`int("\u0666\u0660") == 60`); the model's `ParseInt` reads ASCII digits only, so such an interval is rejected by the model and accepted by `validate_interval`.
- Text.StrRepr: escapes only the ASCII controls and DEL. Python's `repr` also writes non-printable non-ASCII characters as `\x`, `\u` or `\U` escapes; the report's emoji are printable and are kept as they are.
- Models.StrategyFromName: models the corrected seven-value enumeration. As written, `utils/models.py:8-11` declares only `rsi` and `macd`, and every other value raises ValueError (`StrategyFromNameAsWritten`; see Findings).
- Factory.BuiltInsCoverKinds: states the corrected table. As written the table never exists, because its keys name enumeration members that are not declared (`RegistryNeverBuilt`; see Findings).
- Commands.EveryKindShape: uses the corrected enumeration. As written, `StrategyType.ALL` (handlers/command_handler.py:121, 128) is not declared, so `all` and every comma list raise AttributeError.
- Factory.StrategyFactory.CreateStrategy: builds the corrected MACD class, which defines the two abstract methods. As written, MACD raises TypeError (`MacdAbstractAsWritten`; see Findings).
- PriceHandler.PriceHandler.AddStrategy: uses the corrected factory, so MACD gets an instance. As written it raises after the configuration is recorded (`MacdAddLeavesConfigAsWritten`).
- LegacyPriceHandler.LegacyPriceHandler.AddStrategy: uses the corrected factory, so MACD gets an instance. As written it raises after the configuration is recorded, as in the new handler.
- Commands.AddNext: uses the corrected factory, so MACD counts as added. As written, its instantiation raises TypeError with the configuration recorded.
- Commands.AddAll: uses the corrected factory, so the loop does not stop at MACD. As written it stops there with the TypeError.
- LegacyCommands.AddNext: uses the corrected factory, so MACD counts as added. As written, its instantiation raises TypeError with the configuration recorded.
- LegacyCommands.AddAll: uses the corrected factory, so the loop does not stop at MACD. As written it stops there with the TypeError.
- LegacyCommands.NewHandler: uses the corrected factory, so a list holding MACD can complete. As written, MACD fails the start.
- LegacyCommands.CommandHandler.StartListener: uses the corrected factory, so MACD builds. As written, a list holding MACD fails at MACD.
- LegacyCommands.CommandHandler.HandleListen: its outcome is that of `StartListener`, with the corrected factory and enumeration.
- PriceHandler.PriceHandler.Create: models the corrected constructor. As written, `SignalHandler(openrouter_client)` (handlers/price_handler.py:47) raises TypeError before the interval is checked (`ConstructionFailsAsWritten`; see Findings).
- PriceHandler.HandlerIntervalGiven: states what the corrected constructor accepts. As written no interval is ever accepted, because construction raises first.
- Commands.ValidIntervalCreates: holds for the corrected constructor. As written, no handler is ever made.
- Commands.NewHandler: assumes the corrected constructor and the corrected factory. As written, construction raises TypeError first.
- Commands.CommandHandler.StartListener: assumes the corrected constructor and the corrected factory. As written, a start without a live handler raises TypeError.
- Commands.CommandHandler.Rebuild: assumes the corrected constructor. As written, the TypeError is raised after the old handler was cleaned up and its topics unsubscribed.
- Commands.CommandHandler.HandleInterval: its rebuild path assumes the corrected constructor, as `Rebuild` does.
- Commands.CommandHandler.HandleListen: its outcome is that of `StartListener`, with the corrected constructor, factory and enumeration.
- VolumeProfileStrategy.ValueArea: buckets of equal volume are taken in the order of the model's insertion sort. pandas' `sort_values` does not fix the order of ties, so with a tie at the 70% cut the value area can be another bucket's middle. `CalculateVolumeProfile` inherits this.
- Handlers.PriceHandler.Handle: the outcome of `watch` is a parameter rather than a call into the strategy object. Handle uses the corrected `Handlers.Sweep`. As written, the sweep reaches `build_response` (handlers.py:343, which reads `signal['type']` at handlers.py:292), so the first new signal raises TypeError before the timestamp advances, as `Handlers.SweepAsWritten` states.
- WsClient.Without: its own contract states which entries are kept and a length bound. The order of the kept entries is stated by `WithoutAppend`, which with the one-entry case fixes the result.
- BybitClient.UsdtOnly: its own contract states which items are kept and a length bound. The order of the kept items is stated by `UsdtOnlyAppend`, which with the one-item case fixes the result.

## Findings

| source | as written | input that shows it | evidently intended | confidence | as-written member | corrected member |
|---|---|---|---|---|---|---|
| strategies/base.py:139 | `process` calls `self.analyze_market(indicator_value)` with one argument, but every strategy's `analyze_market` takes the frame and the value, so the call raises `TypeError`, which is caught and turned into `None` | any RSI, Bollinger, Ichimoku, harmonic or volume-profile frame whose analysis would signal, e.g. RSI 20 with a rising trend and confirming patterns | `self.analyze_market(df, indicator_value)`, so each strategy's rule decides | not executed | StrategyBase.ProcessAsWrittenLosesSignals | StrategyBase.Process |
| bybit_ws.py:235-245 | `_resubscribe` appends a run only when the next key's handler differs, and never appends the run in progress when the loop ends | subscriptions `{t1: h, t2: h}`: nothing is resubscribed after a reconnection | the last run is appended after the loop, so every topic is resubscribed with its handler | not executed | LegacyWs.ResubscribeGroupsAsWritten | LegacyWs.ResubscribeGroups |
| handlers.py:292 | `build_response` reads `signal['type']`, but the strategies return a `Signal` dataclass with slots, which cannot be subscripted, so the first new signal raises `TypeError` after it was stored and before anything is sent | any symbol whose strategy signals for the first time | read `signal.type` and `signal.value` | not executed | Handlers.SweepAsWritten | Handlers.Sweep |
| strategies/harmonic_strategy.py:111-114 | each ratio is computed with the leg's own start or end as target: XA is `|(a-a)/(a-x)|` = 0, and AB, BC and CD are 1, or NaN for a zero-length leg | any five swing points: no shape ever scores above 0.7, so no harmonic pattern is ever recorded | XA is 1 and each later leg is measured against the leg before it | not executed | HarmonicStrategy.AsWrittenNeverQualifies | HarmonicStrategy.ValidatePattern |
| utils/models.py:8-11 | `StrategyType` declares only RSI and MACD, while the factory table, the signal handler's weights and the command handler name BOLLINGER, ICHIMOKU, HARMONIC, VOLUME_PROFILE and ALL, so importing strategies/factory.py raises AttributeError | loading the factory: its third key `StrategyType.BOLLINGER` raises; `StrategyType("bollinger")` raises ValueError | the enumeration declares all seven values | not executed | Factory.RegistryNeverBuilt | Factory.BuiltInsCoverKinds |
| handlers/price_handler.py:47 | `SignalHandler(openrouter_client)` passes an argument to an initialiser that takes none (handlers/signal_handler.py:24), so every construction raises TypeError before the interval is validated | any construction, e.g. with interval `60` | `SignalHandler()`, so that the interval decides whether a handler is built | not executed | PriceHandler.ConstructionFailsAsWritten | PriceHandler.PriceHandler.Create |
| strategies/macd_strategy.py:9-50 | `MACDStrategy` overrides `process` but defines neither `calculate_indicator` nor `analyze_market`, both abstract in strategies/base.py:94-119, so creating it raises TypeError after `add_strategy` has recorded its configuration | `/listen macd` | the MACD class defines the two methods, its crossover rule being the analysis | not executed | PriceHandler.MacdAddLeavesConfigAsWritten | Factory.StrategyFactory.CreateStrategy |
| handlers/price_handler.py:281-284 | `format_discord_message` returns a list of messages, each cut to fit Discord's 2000-character limit, but the whole list is passed to one `channel.send`, which sends its `str()`: one text with brackets, quotes and `\n` escapes. Once the messages together pass 2000 characters, Discord refuses it and the `except Exception` at :286 swallows the error | any symbol with a signal: the channel shows `['🎯 **High-Confidence Trading Signals**\n\n📈 **BUY Signals**\n…']`, brackets, quotes and literal `\n` included; a report the formatter had to cut into two messages becomes one text over 2000 characters, which is refused | send each message in turn: `for message in messages: await self.message.channel.send(message)` | not executed | SignalHandler.AsWrittenSendsListText | SignalHandler.ProcessAggregatedSignals |
