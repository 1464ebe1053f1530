/**
 * The REST client for Bybit's market data (clients/bybit_client.py): the token bucket that paces
 * requests, the classification of an HTTP answer, the kline and ticker request parameters and the
 * USDT filters applied to instrument and ticker lists.
 */
module BybitClient {
  import opened Wrappers
  import opened Text
  import Intervals

  /** One refill of the bucket: the elapsed time buys `elapsed * rate / per` tokens, capped at `rate`. */
  function Refilled(tokens: real, last: real, now: real, rate: int, per: int): (t: real)
    requires per > 0
    ensures t <= rate as real
  {
    var refilled := tokens + (now - last) * (rate as real) / (per as real);
    if rate as real <= refilled then rate as real else refilled
  }

  /**
   * The refill loop of `acquire` run over successive clock readings: it stops as soon as a token
   * is available or the readings run out, and yields the tokens, the last update time and the
   * number of readings taken.
   */
  function Waiting(tokens: real, last: real, clock: seq<real>, rate: int, per: int): (r: (real, real, nat))
    requires per > 0
    ensures r.2 <= |clock|
    ensures r.0 <= 0.0 ==> r.2 == |clock|
    ensures tokens > 0.0 ==> r == (tokens, last, 0)
    decreases |clock|
  {
    if tokens > 0.0 || |clock| == 0 then (tokens, last, 0)
    else
      var w := Waiting(Refilled(tokens, last, clock[0], rate, per), clock[0], clock[1..], rate, per);
      (w.0, w.1, w.2 + 1)
  }

  /** A bucket at or below its capacity stays there however long the wait. */
  lemma {:induction false} WaitingCapped(tokens: real, last: real, clock: seq<real>, rate: int, per: int)
    requires per > 0 && tokens <= rate as real
    ensures Waiting(tokens, last, clock, rate, per).0 <= rate as real
    decreases |clock|
  {
    if tokens > 0.0 || |clock| == 0 {
    } else {
      WaitingCapped(Refilled(tokens, last, clock[0], rate, per), clock[0], clock[1..], rate, per);
    }
  }

  /** A refill never loses tokens when the clock has not gone backwards. */
  lemma RefillGains(tokens: real, last: real, now: real, rate: int, per: int)
    requires rate > 0 && per > 0 && last <= now && tokens <= rate as real
    ensures tokens <= Refilled(tokens, last, now, rate, per)
  {
    var gain := (now - last) * (rate as real) / (per as real);
    assert (now - last) * (rate as real) >= 0.0;
    assert gain >= 0.0;
  }

  /**
   * Waiting long enough ends the loop: once `per * (-tokens) / rate` seconds have passed since the
   * last update, a single refill leaves a token to take.
   */
  lemma RefillAfterWait(tokens: real, last: real, now: real, rate: int, per: int)
    requires rate > 0 && per > 0 && tokens <= 0.0
    requires now - last > (-tokens) * (per as real) / (rate as real)
    ensures Refilled(tokens, last, now, rate, per) > 0.0
  {
    var e := now - last;
    var r, p := rate as real, per as real;
    assert e * r > (-tokens) * p by {
      assert e > (-tokens) * p / r;
      assert e * r > ((-tokens) * p / r) * r;
    }
    assert e * r / p > -tokens by {
      assert (e * r / p) * p == e * r;
    }
    assert r >= 1.0;
  }

  /** `RateLimiter`: a token bucket of `rate` requests per `per` seconds. */
  class RateLimiter {
    const rate: int
    const per: int
    var tokens: real
    var lastUpdate: real

    /** The bucket never holds more than its capacity. */
    predicate Valid()
      reads this
    {
      rate > 0 && per > 0 && tokens <= rate as real
    }

    /** `__init__`: the bucket starts full; `now` is the monotonic clock at creation. */
    constructor(rate: int, per: int, now: real)
      requires rate > 0 && per > 0
      ensures this.rate == rate && this.per == per
      ensures tokens == rate as real && lastUpdate == now
      ensures Valid()
    {
      this.rate := rate;
      this.per := per;
      tokens := rate as real;
      lastUpdate := now;
    }

    /**
     * `acquire`: while no token is left, the bucket is refilled from the clock (the readings in
     * `clock`, one per pass; the sleep between passes is not modelled). It then takes exactly one
     * token. When the readings run out first, nothing is taken (`granted` is false).
     */
    method Acquire(clock: seq<real>) returns (granted: bool, readings: nat)
      requires Valid()
      modifies this`tokens, this`lastUpdate
      ensures Valid()
      ensures var w := Waiting(old(tokens), old(lastUpdate), clock, rate, per);
        && granted == (w.0 > 0.0)
        && tokens == (if granted then w.0 - 1.0 else w.0)
        && lastUpdate == w.1 && readings == w.2
      ensures granted ==> tokens > -1.0
    {
      ghost var w := Waiting(tokens, lastUpdate, clock, rate, per);
      readings := 0;
      while tokens <= 0.0 && readings < |clock|
        invariant readings <= |clock| && tokens <= rate as real
        invariant var v := Waiting(tokens, lastUpdate, clock[readings..], rate, per);
          v.0 == w.0 && v.1 == w.1 && v.2 + readings == w.2
        decreases |clock| - readings
      {
        assert clock[readings..][1..] == clock[readings + 1..];
        var now := clock[readings];
        tokens := Refilled(tokens, lastUpdate, now, rate, per);
        lastUpdate := now;
        readings := readings + 1;
      }
      if tokens > 0.0 {
        tokens := tokens - 1.0;
        granted := true;
      } else {
        granted := false;
      }
    }
  }

  /** The limiter every client gets: 600 requests per 5 seconds. */
  method DefaultLimiter(now: real) returns (r: RateLimiter)
    ensures fresh(r) && r.Valid()
    ensures r.rate == 600 && r.per == 5 && r.tokens == 600.0
  {
    r := new RateLimiter(600, 5, now);
  }

  /** The JSON body of an answer: `retCode`, `retMsg` and `result`, each possibly absent. */
  datatype Reply<T> = Reply(retCode: Option<int>, retMsg: Option<string>, result: Option<T>)

  /** What a request produced: a transport failure, or an HTTP status with a body. */
  datatype Response<T> = Failed(reason: string) | Answered(status: int, body: Reply<T>)

  /** `data.get('retMsg', 'Unknown error')`. */
  function MessageOf<T>(body: Reply<T>): string
  {
    if body.retMsg.Some? then body.retMsg.value else "Unknown error"
  }

  /** `data.get('retCode')` as Python prints it. */
  function CodeText(code: Option<int>): string
  {
    if code.Some? then IntToString(code.value) else "None"
  }

  /**
   * `_request` after the answer arrives: a failed transport, a status other than 200 or a
   * `retCode` other than 0 raise `BybitAPIError`; otherwise `result` is returned, or `empty`
   * (the `{}` default) when the body has none.
   */
  function Classify<T>(r: Response<T>, empty: T): (out: Result<T>)
    ensures out.Ok? <==> r.Answered? && r.status == 200 && r.body.retCode == Some(0)
    ensures out.Ok? ==> out.value == (if r.body.result.Some? then r.body.result.value else empty)
    ensures out.Err? && r.Failed? ==> "Request failed: " <= out.error
    ensures out.Err? && r.Answered? && r.status != 200 ==> "HTTP " <= out.error
    ensures out.Err? && r.Answered? && r.status == 200 ==> "API Error " <= out.error
  {
    match r
    case Failed(reason) => Err("Request failed: " + reason)
    case Answered(status, body) =>
      if status != 200 then Err("HTTP " + IntToString(status) + ": " + MessageOf(body))
      else if body.retCode != Some(0) then Err("API Error " + CodeText(body.retCode) + ": " + MessageOf(body))
      else Ok(if body.result.Some? then body.result.value else empty)
  }

  /** The HTTP status decides first: a non-200 answer is an HTTP error whatever its `retCode`. */
  lemma StatusFirst<T>(status: int, body: Reply<T>, empty: T)
    requires status != 200
    ensures Classify(Answered(status, body), empty) == Err("HTTP " + IntToString(status) + ": " + MessageOf(body))
  {
  }

  /** The items whose symbol ends in "USDT", in their original order. */
  function UsdtOnly<T(!new)>(items: seq<T>, symbolOf: T -> string): (r: seq<T>)
    ensures |r| <= |items|
    ensures forall x :: x in r <==> x in items && EndsWith(symbolOf(x), "USDT")
  {
    if |items| == 0 then []
    else
      var rest := UsdtOnly(items[1..], symbolOf);
      assert forall x :: x in items <==> x == items[0] || x in items[1..];
      if EndsWith(symbolOf(items[0]), "USDT") then [items[0]] + rest else rest
  }

  /** Filtering twice is filtering once. */
  lemma {:induction false} UsdtOnlyIdempotent<T(!new)>(items: seq<T>, symbolOf: T -> string)
    ensures UsdtOnly(UsdtOnly(items, symbolOf), symbolOf) == UsdtOnly(items, symbolOf)
    decreases |items|
  {
    if |items| > 0 {
      UsdtOnlyIdempotent(items[1..], symbolOf);
      var rest := UsdtOnly(items[1..], symbolOf);
      if EndsWith(symbolOf(items[0]), "USDT") {
        assert ([items[0]] + rest)[1..] == rest;
      }
    }
  }

  /** The filter keeps the order of its input: filtering a joined list is joining the filtered parts. */
  lemma {:induction false} UsdtOnlyAppend<T(!new)>(a: seq<T>, b: seq<T>, symbolOf: T -> string)
    ensures UsdtOnly(a + b, symbolOf) == UsdtOnly(a, symbolOf) + UsdtOnly(b, symbolOf)
    decreases |a|
  {
    if |a| > 0 {
      assert (a + b)[0] == a[0] && (a + b)[1..] == a[1..] + b;
      UsdtOnlyAppend(a[1..], b, symbolOf);
    } else {
      assert a + b == b;
    }
  }

  /** `get_usdt_instruments`: the listed instrument symbols that end in "USDT". */
  function UsdtInstruments(listed: seq<string>): (r: seq<string>)
    ensures forall s :: s in r <==> s in listed && EndsWith(s, "USDT")
  {
    UsdtOnly(listed, (s: string) => s)
  }

  /** One ticker of `get_tickers`, its numeric fields already converted. */
  datatype Ticker = Ticker(symbol: string, lastPrice: real, high24h: real, low24h: real,
                           volume24h: real, turnover24h: real, pct24h: real)

  /** `get_tickers`: the tickers of symbols ending in "USDT". */
  function UsdtTickers(listed: seq<Ticker>): (r: seq<Ticker>)
    ensures forall t :: t in r <==> t in listed && EndsWith(t.symbol, "USDT")
  {
    UsdtOnly(listed, (t: Ticker) => t.symbol)
  }

  /** The query of `get_tickers`: always the linear category, and the symbol when one is given. */
  function TickerParams(symbol: Option<string>): (p: map<string, string>)
    ensures "category" in p && p["category"] == "linear"
    ensures "symbol" in p <==> symbol.Some? && symbol.value != ""
    ensures "symbol" in p ==> p["symbol"] == symbol.value
    ensures p.Keys <= {"category", "symbol"}
  {
    var base := map["category" := "linear"];
    if symbol.Some? && symbol.value != "" then base["symbol" := symbol.value] else base
  }

  /** `min(max(1, limit), 1000)`. */
  function ClampLimit(limit: int): (n: nat)
    ensures 1 <= n <= 1000
    ensures 1 <= limit <= 1000 ==> n == limit
    ensures limit < 1 ==> n == 1
    ensures limit > 1000 ==> n == 1000
  {
    if limit < 1 then 1 else if limit > 1000 then 1000 else limit
  }

  /** The six query parameter names differ from one another. */
  lemma ParamNamesDistinct()
    ensures "symbol" != "category" && "interval" !in {"category", "symbol"}
    ensures "limit" !in {"category", "symbol", "interval"}
    ensures "start" !in {"category", "symbol", "interval", "limit"}
    ensures "end" !in {"category", "symbol", "interval", "limit", "start"}
  {
    assert "limit"[0] == 'l' && "start"[0] == 's' && "end"[0] == 'e';
    assert "start"[1] == 't' && "symbol"[1] == 'y';
    assert "category"[0] == 'c' && "interval"[0] == 'i';
  }

  /**
   * The query of `get_klines`: the interval must pass `validate_interval` (its error is raised
   * unchanged); the limit, clamped into [1, 1000], and the start and end times appear only when
   * given.
   */
  function KlineParams(symbol: string, interval: string, limit: Option<int>,
                       start: Option<int>, end: Option<int>): (r: Result<map<string, string>>)
    ensures r.Err? <==> Intervals.ValidateInterval(interval).Err?
    ensures r.Err? ==> r.error == Intervals.ValidateInterval(interval).error
    ensures r.Ok? ==> r.value == QueryParams(symbol, Intervals.ValidateInterval(interval).value, limit, start, end)
  {
    match Intervals.ValidateInterval(interval)
    case Err(e) => Err(e)
    case Ok(v) => Ok(QueryParams(symbol, v, limit, start, end))
  }

  /**
   * The query of a kline request with a validated interval: category, symbol and interval always;
   * the clamped limit and the start and end times exactly when given.
   */
  function QueryParams(symbol: string, v: string, limit: Option<int>, start: Option<int>, end: Option<int>)
    : (q: map<string, string>)
    ensures && "category" in q && "symbol" in q && "interval" in q
            && q["category"] == "linear" && q["symbol"] == symbol && q["interval"] == v
            && ("limit" in q <==> limit.Some?)
            && (limit.Some? ==> q["limit"] == NatToString(ClampLimit(limit.value)))
            && ("start" in q <==> start.Some?)
            && (start.Some? ==> q["start"] == IntToString(start.value))
            && ("end" in q <==> end.Some?)
            && (end.Some? ==> q["end"] == IntToString(end.value))
    ensures q.Keys <= {"category", "symbol", "interval", "limit", "start", "end"}
  {
    ParamNamesDistinct();
    var p := map["category" := "linear", "symbol" := symbol, "interval" := v];
    var p1 := if limit.Some? then p["limit" := NatToString(ClampLimit(limit.value))] else p;
    var p2 := if start.Some? then p1["start" := IntToString(start.value)] else p1;
    if end.Some? then p2["end" := IntToString(end.value)] else p2
  }
}
