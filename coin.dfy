/** The market-data client (src/services/coin.py): a rate limiter that keeps
    requests at least 1.5 s apart, the retry on HTTP 429 after the
    Retry-After delay, the error paths, and the two endpoint wrappers.
    Time is in integer milliseconds. Each answer the upstream gives (or the
    transport error in its place) is an input, one per request sent. */
module Coin {
  import opened Wrappers
  import opened Text

  /** The minimum gap between the previous answer and the next request (1.5 s). */
  const MinRequestInterval: int := 1500

  /** The Retry-After delay used when a 429 answer has no such header (60 s). */
  const DefaultRetryDelay: int := 60000

  datatype Param = PStr(s: string) | PInt(i: int)

  /** A request as sent: endpoint, query parameters, the demo-key header
      when a key is configured, and the time it left. */
  datatype Request = Request(endpoint: string, params: map<string, Param>,
                             keyHeader: Option<string>, at: int)

  /** One exchange with the upstream: an answer after `latency` ms with its
      status, its Retry-After header and its decoded JSON body (`None` when
      the body is not JSON), or a transport error before any answer. */
  datatype Attempt<B> =
    | Answered(latency: nat, status: int, retryAfter: Option<string>, body: Option<B>)
    | TransportFailed

  /** `StillRateLimited`: every answer supplied was a 429, so the request
      has not finished within the exchanges given. */
  datatype RequestError =
    | Transport
    | HttpStatus(status: int)
    | BadRetryAfter(header: string)
    | BadBody
    | StillRateLimited

  /** The pause before a request sent at `now` when the previous answer came at `last`. */
  function Wait(now: int, last: int): (w: int)
    ensures w >= 0
    ensures now + w >= last + MinRequestInterval
    ensures w > 0 ==> now + w == last + MinRequestInterval
    ensures now - last >= MinRequestInterval ==> w == 0
  {
    if now - last < MinRequestInterval then MinRequestInterval - (now - last) else 0
  }

  /** The delay asked for by a 429 answer: the header read as whole seconds
      (`int()`), 60 s without a header; a header that is not an integer raises. */
  function RetryDelay(header: Option<string>): (d: Result<int, RequestError>)
    ensures header.None? ==> d == Ok(DefaultRetryDelay)
    ensures header.Some? ==> (d.Err? <==> ParseInt(header.value).None?)
    ensures d.Err? ==> d.error == BadRetryAfter(header.value)
    ensures header.Some? && d.Ok? ==> d.value == ParseInt(header.value).value * 1000
  {
    match header
    case None => Ok(DefaultRetryDelay)
    case Some(h) =>
      match ParseInt(h)
      case None => Err(BadRetryAfter(h))
      case Some(secs) => Ok(secs * 1000)
  }

  /** A sleep of a negative duration returns at once. */
  function Sleep(d: int): (s: nat)
    ensures s >= d
  {
    if d < 0 then 0 else d
  }

  function IsRateLimit<B>(a: Attempt<B>): bool {
    a.Answered? && a.status == 429
  }

  /** What one request leads to: a retry (the answer was a 429 with a usable
      delay), with the answer time and the time the retry is made; or the
      end of the call, with its outcome and the last answer time left. */
  datatype Step<B> =
    | Retry(send: int, arrive: int, resume: int)
    | Stop(send: int, result: Result<B, RequestError>, last: int)

  /** One request made at `clock` after the last answer at `last`. */
  function StepOf<B>(last: int, clock: int, a: Attempt<B>): (st: Step<B>)
    ensures st.send == clock + Wait(clock, last)
    ensures st.Retry? <==> IsRateLimit(a) && RetryDelay(a.retryAfter).Ok?
    ensures st.Retry? ==> st.arrive == st.send + a.latency
                          && st.resume == st.arrive + Sleep(RetryDelay(a.retryAfter).value)
    ensures st.Stop? ==> (st.last == last <==> a.TransportFailed?)
    ensures st.Stop? && a.Answered? ==> st.last == st.send + a.latency
    ensures st.Stop? && a.TransportFailed? ==> st.result == Err(Transport)
    ensures st.Stop? && IsRateLimit(a) ==>
              RetryDelay(a.retryAfter).Err? && st.result == Err(RetryDelay(a.retryAfter).error)
    ensures st.Stop? && a.Answered? && a.status != 429 && a.status >= 400 ==>
              st.result == Err(HttpStatus(a.status))
    ensures st.Stop? && a.Answered? && a.status < 400 ==>
              st.result == if a.body.None? then Err(BadBody) else Ok(a.body.value)
  {
    var send := clock + Wait(clock, last);
    match a
    case TransportFailed => Stop(send, Err(Transport), last)
    case Answered(latency, status, retryAfter, body) =>
      var arrive := send + latency;
      if status == 429 then
        match RetryDelay(retryAfter)
        case Err(e) => Stop(send, Err(e), arrive)
        case Ok(d) => Retry(send, arrive, arrive + Sleep(d))
      else if status >= 400 then Stop(send, Err(HttpStatus(status)), arrive)
      else if body.None? then Stop(send, Err(BadBody), arrive)
      else Stop(send, Ok(body.value), arrive)
  }

  /** What one call of the limiter does: its outcome, the times its requests
      went out, and the last answer time it leaves behind. */
  datatype Run<B> = Run(result: Result<B, RequestError>, sendTimes: seq<int>, last: int)

  /** Reference definition of `_make_request` called at `clock` with last
      answer time `last`, the recursion on 429 included. */
  function Exchange<B>(last: int, clock: int, attempts: seq<Attempt<B>>): Run<B>
    decreases |attempts|
  {
    if attempts == [] then Run(Err(StillRateLimited), [], last)
    else
      match StepOf(last, clock, attempts[0])
      case Stop(send, result, last') => Run(result, [send], last')
      case Retry(send, arrive, resume) =>
        var rest := Exchange(arrive, resume, attempts[1..]);
        Run(rest.result, [send] + rest.sendTimes, rest.last)
  }

  /** `Exchange` on the attempts from position `i` on, indexed instead of sliced. */
  function ExchangeFrom<B>(last: int, clock: int, attempts: seq<Attempt<B>>, i: nat): Run<B>
    requires i <= |attempts|
    decreases |attempts| - i
  {
    if i == |attempts| then Run(Err(StillRateLimited), [], last)
    else
      match StepOf(last, clock, attempts[i])
      case Stop(send, result, last') => Run(result, [send], last')
      case Retry(send, arrive, resume) =>
        var rest := ExchangeFrom(arrive, resume, attempts, i + 1);
        Run(rest.result, [send] + rest.sendTimes, rest.last)
  }

  lemma {:induction false} ExchangeFromSlice<B>(last: int, clock: int, attempts: seq<Attempt<B>>, i: nat)
    requires i <= |attempts|
    ensures ExchangeFrom(last, clock, attempts, i) == Exchange(last, clock, attempts[i..])
    decreases |attempts| - i
  {
    if i < |attempts| {
      var rest := attempts[i..];
      assert rest[0] == attempts[i] && rest[1..] == attempts[i + 1..];
      var st := StepOf(last, clock, attempts[i]);
      if st.Retry? {
        ExchangeFromSlice(st.arrive, st.resume, attempts, i + 1);
      }
    }
  }

  /** Requests go out no earlier than the call and at least the interval
      after the previous answer, so consecutive requests are at least the
      interval apart. */
  lemma {:induction false} ExchangeSpacing<B>(last: int, clock: int, attempts: seq<Attempt<B>>)
    ensures var s := Exchange(last, clock, attempts).sendTimes;
      && |s| <= |attempts|
      && (attempts != [] ==> |s| >= 1)
      && (|s| > 0 ==> s[0] >= clock && s[0] >= last + MinRequestInterval)
      && (forall k :: 0 < k < |s| ==> s[k] - s[k - 1] >= MinRequestInterval)
    decreases |attempts|
  {
    if attempts != [] {
      var st := StepOf(last, clock, attempts[0]);
      if st.Retry? {
        ExchangeSpacing(st.arrive, st.resume, attempts[1..]);
        var s := Exchange(last, clock, attempts).sendTimes;
        var r := Exchange(st.arrive, st.resume, attempts[1..]).sendTimes;
        assert s == [st.send] + r;
        forall k | 1 < k < |s| ensures s[k] - s[k - 1] >= MinRequestInterval {
          assert s[k] == r[k - 1] && s[k - 1] == r[k - 2];
        }
      }
    }
  }

  /** Only rate-limit answers lead to another request, and each retry waits
      out the delay the answer asked for. */
  lemma {:induction false} ExchangeRetries<B>(last: int, clock: int, attempts: seq<Attempt<B>>)
    ensures var s := Exchange(last, clock, attempts).sendTimes;
      && |s| <= |attempts|
      && (forall k :: 0 <= k < |s| - 1 ==>
            && IsRateLimit(attempts[k])
            && RetryDelay(attempts[k].retryAfter).Ok?
            && s[k + 1] >= s[k] + attempts[k].latency + RetryDelay(attempts[k].retryAfter).value)
    decreases |attempts|
  {
    ExchangeSpacing(last, clock, attempts);
    if attempts != [] {
      var st := StepOf(last, clock, attempts[0]);
      if st.Retry? {
        var tail := attempts[1..];
        ExchangeRetries(st.arrive, st.resume, tail);
        ExchangeSpacing(st.arrive, st.resume, tail);
        var s := Exchange(last, clock, attempts).sendTimes;
        var r := Exchange(st.arrive, st.resume, tail).sendTimes;
        assert s == [st.send] + r;
        forall k | 1 <= k < |s| - 1
          ensures IsRateLimit(attempts[k]) && RetryDelay(attempts[k].retryAfter).Ok?
          ensures s[k + 1] >= s[k] + attempts[k].latency + RetryDelay(attempts[k].retryAfter).value
        {
          assert attempts[k] == tail[k - 1];
          assert s[k] == r[k - 1] && s[k + 1] == r[k];
        }
      }
    }
  }

  /** The answer that ended a call. */
  ghost predicate Ends<B>(run: Run<B>, attempts: seq<Attempt<B>>)
  {
    var n := |run.sendTimes|;
    && n <= |attempts|
    && (run.result == Err(StillRateLimited) <==>
          (n == |attempts|
           && forall k :: 0 <= k < n ==> IsRateLimit(attempts[k]) && RetryDelay(attempts[k].retryAfter).Ok?))
    && (run.result == Err(Transport) ==> n >= 1 && attempts[n - 1].TransportFailed?)
    && (run.result.Ok? ==>
          (&& n >= 1 && attempts[n - 1].Answered? && attempts[n - 1].status < 400
           && attempts[n - 1].body == Some(run.result.value)))
    && (run.result.Err? && run.result.error.HttpStatus? ==>
          (&& n >= 1 && attempts[n - 1].Answered?
           && attempts[n - 1].status == run.result.error.status
           && run.result.error.status >= 400 && run.result.error.status != 429))
  }

  /** The outcome names the answer that ended the call: a call runs out of
      answers only if all of them were rate limits; otherwise the last
      request's answer (or its transport error) decides the outcome. */
  lemma {:induction false} ExchangeOutcome<B>(last: int, clock: int, attempts: seq<Attempt<B>>)
    ensures Ends(Exchange(last, clock, attempts), attempts)
    decreases |attempts|
  {
    ExchangeSpacing(last, clock, attempts);
    if attempts != [] {
      var st := StepOf(last, clock, attempts[0]);
      if st.Retry? {
        var tail := attempts[1..];
        ExchangeOutcome(st.arrive, st.resume, tail);
        var run := Exchange(last, clock, attempts);
        var rest := Exchange(st.arrive, st.resume, tail);
        assert run.sendTimes == [st.send] + rest.sendTimes;
        assert forall k :: 1 <= k <= |tail| ==> attempts[k] == tail[k - 1];
      }
    }
  }

  /** `last_request_time` only moves forward, and it stays put exactly when
      the first request got no answer (or none was sent). */
  lemma {:induction false} ExchangeLast<B>(last: int, clock: int, attempts: seq<Attempt<B>>)
    ensures var run := Exchange(last, clock, attempts);
      && run.last >= last
      && (run.last == last <==> attempts == [] || attempts[0].TransportFailed?)
    decreases |attempts|
  {
    if attempts != [] {
      var st := StepOf(last, clock, attempts[0]);
      if st.Retry? {
        ExchangeLast(st.arrive, st.resume, attempts[1..]);
      }
    }
  }

  function KeyHeader(apiKey: string): Option<string> {
    if apiKey != "" then Some(apiKey) else None
  }

  // ---------------------------------------------------------------------------
  // Endpoint wrappers

  /** A row of the markets endpoint, with the fields the wrapper reads;
      `None` stands for a JSON null. */
  datatype MarketRow = MarketRow(id: string, name: string, symbol: string,
                                 marketCapRank: Option<int>, currentPrice: Option<real>,
                                 priceChangePercentage24h: Option<real>, marketCap: Option<real>,
                                 totalVolume: Option<real>, image: string, lastUpdated: string)

  datatype TrendingCoin = TrendingCoin(id: string, name: string, symbol: string,
                                       marketCapRank: Option<int>, currentPrice: Option<real>,
                                       priceChange24h: Option<real>, marketCap: Option<real>,
                                       volume24h: Option<real>, image: string, lastUpdated: string)

  const MarketsEndpoint: string := "/coins/markets"
  const CategoryEndpoint: string := "/coins/categories/gaming"

  function MarketsParams(limit: int): map<string, Param> {
    map["vs_currency" := PStr("usd"), "category" := PStr("gaming"), "order" := PStr("volume_desc"),
        "per_page" := PInt(limit), "page" := PInt(1), "sparkline" := PStr("false"),
        "price_change_percentage" := PStr("24h")]
  }

  function CategoryParams(): map<string, Param> {
    map["vs_currency" := PStr("usd")]
  }

  function FormatCoin(row: MarketRow): TrendingCoin {
    TrendingCoin(row.id, row.name, Upper(row.symbol), row.marketCapRank, row.currentPrice,
                 row.priceChangePercentage24h, row.marketCap, row.totalVolume, row.image,
                 row.lastUpdated)
  }

  /** The formatted list, one coin per row in upstream order. */
  function FormatCoins(rows: seq<MarketRow>): (coins: seq<TrendingCoin>)
    ensures |coins| == |rows|
    ensures forall i :: 0 <= i < |rows| ==> coins[i] == FormatCoin(rows[i])
  {
    if rows == [] then [] else [FormatCoin(rows[0])] + FormatCoins(rows[1..])
  }

  /** Formatting keeps every field but two renames and upper-cases the symbol. */
  lemma FormatCoinFields(row: MarketRow)
    ensures var c := FormatCoin(row);
      && c.id == row.id && c.name == row.name && c.marketCapRank == row.marketCapRank
      && c.currentPrice == row.currentPrice && c.marketCap == row.marketCap
      && c.image == row.image && c.lastUpdated == row.lastUpdated
      && c.priceChange24h == row.priceChangePercentage24h && c.volume24h == row.totalVolume
      && c.symbol == Upper(row.symbol) && |c.symbol| == |row.symbol|
      && c.symbol == Upper(c.symbol)
  {
    UpperIdempotent(row.symbol);
  }

  /** The category summary; `None` keeps a JSON null that was present. */
  datatype GamingSummary = GamingSummary(marketCap: Option<real>, totalVolume: Option<real>,
                                         marketCapChange24h: Option<real>,
                                         volumeChange24h: Option<real>)

  /** `data.get(key, 0)`. */
  function FieldOr0(data: map<string, Option<real>>, key: string): (v: Option<real>)
    ensures key in data ==> v == data[key]
    ensures key !in data ==> v == Some(0.0)
  {
    if key in data then data[key] else Some(0.0)
  }

  function Summarize(data: map<string, Option<real>>): GamingSummary {
    GamingSummary(FieldOr0(data, "market_cap"), FieldOr0(data, "volume_24h"),
                  FieldOr0(data, "market_cap_change_24h"), FieldOr0(data, "volume_change_24h"))
  }

  /** A missing figure reads as zero, a present one (null included) is kept,
      and the total volume comes from the upstream's `volume_24h`. */
  lemma SummaryFields(data: map<string, Option<real>>)
    ensures var s := Summarize(data);
      && s.marketCap == (if "market_cap" in data then data["market_cap"] else Some(0.0))
      && s.totalVolume == (if "volume_24h" in data then data["volume_24h"] else Some(0.0))
      && s.marketCapChange24h == (if "market_cap_change_24h" in data then data["market_cap_change_24h"] else Some(0.0))
      && s.volumeChange24h == (if "volume_change_24h" in data then data["volume_change_24h"] else Some(0.0))
  {
  }

  /** The requests of one call: one endpoint, parameters and key header, sent at `times`. */
  function RequestsAt(endpoint: string, params: map<string, Param>, key: Option<string>,
                      times: seq<int>): (rs: seq<Request>)
    ensures |rs| == |times|
    ensures forall k :: 0 <= k < |rs| ==> rs[k] == Request(endpoint, params, key, times[k])
  {
    seq(|times|, k requires 0 <= k < |times| => Request(endpoint, params, key, times[k]))
  }

  lemma RequestsAtSnoc(endpoint: string, params: map<string, Param>, key: Option<string>,
                       times: seq<int>, t: int)
    ensures RequestsAt(endpoint, params, key, times + [t])
         == RequestsAt(endpoint, params, key, times) + [Request(endpoint, params, key, t)]
  {
  }

  class CoinService {
    /** When the last answer arrived (ms); 0 before any request. */
    var lastRequestTime: int
    /** The configured demo key; empty when none is set. */
    const apiKey: string

    constructor (apiKey: string)
      ensures lastRequestTime == 0 && this.apiKey == apiKey
    {
      this.apiKey := apiKey;
      lastRequestTime := 0;
    }

    /** One pass through `_make_request` before it returns or recurses: the
        pause, the request, the answer time recorded, and how the answer is
        taken. */
    method RequestOnce<B>(clock: int, a: Attempt<B>) returns (st: Step<B>)
      modifies this`lastRequestTime
      ensures st == StepOf(old(lastRequestTime), clock, a)
      ensures lastRequestTime == if st.Retry? then st.arrive else st.last
    {
      var send := clock + Wait(clock, lastRequestTime);
      match a {
        case TransportFailed =>
          st := Stop(send, Err(Transport), lastRequestTime);
        case Answered(latency, status, retryAfter, body) =>
          lastRequestTime := send + latency;
          if status == 429 {
            var delay := RetryDelay(retryAfter);
            if delay.Err? {
              st := Stop(send, Err(delay.error), lastRequestTime);
            } else {
              st := Retry(send, lastRequestTime, lastRequestTime + Sleep(delay.value));
            }
          } else if status >= 400 {
            st := Stop(send, Err(HttpStatus(status)), lastRequestTime);
          } else if body.None? {
            st := Stop(send, Err(BadBody), lastRequestTime);
          } else {
            st := Stop(send, Ok(body.value), lastRequestTime);
          }
      }
    }

    /** `_make_request` called at `now`: one request per attempt consumed,
        each with the same endpoint and parameters; a 429 answer makes it
        start over once the delay has passed. */
    method MakeRequest<B>(endpoint: string, params: map<string, Param>, now: int,
                          attempts: seq<Attempt<B>>)
      returns (r: Result<B, RequestError>, sent: seq<Request>)
      modifies this`lastRequestTime
      ensures var run := Exchange(old(lastRequestTime), now, attempts);
        && r == run.result
        && lastRequestTime == run.last
        && |sent| == |run.sendTimes|
        && (forall k :: 0 <= k < |sent| ==>
              sent[k] == Request(endpoint, params, KeyHeader(apiKey), run.sendTimes[k]))
    {
      ghost var run := Exchange(lastRequestTime, now, attempts);
      ExchangeFromSlice(lastRequestTime, now, attempts, 0);
      assert attempts[0..] == attempts;
      ghost var times: seq<int> := [];
      ghost var key := KeyHeader(apiKey);
      var clock := now;
      var i := 0;
      sent := [];
      while i < |attempts|
        invariant 0 <= i <= |attempts|
        invariant var cur := ExchangeFrom(lastRequestTime, clock, attempts, i);
          && run.result == cur.result && run.last == cur.last
          && run.sendTimes == times + cur.sendTimes
        invariant sent == RequestsAt(endpoint, params, key, times)
      {
        ghost var before := times;
        var st := RequestOnce(clock, attempts[i]);
        RequestsAtSnoc(endpoint, params, key, times, st.send);
        sent := sent + [Request(endpoint, params, KeyHeader(apiKey), st.send)];
        times := times + [st.send];
        if st.Stop? {
          return st.result, sent;
        }
        clock := st.resume;
        ghost var next := ExchangeFrom(lastRequestTime, clock, attempts, i + 1);
        assert run.sendTimes == times + next.sendTimes by {
          assert run.sendTimes == before + ([st.send] + next.sendTimes);
        }
        i := i + 1;
      }
      r := Err(StillRateLimited);
    }

    /** `get_trending_gaming_coins`: one page of `limit` coins of the gaming
        category by 24 h volume, formatted. */
    method GetTrendingGamingCoins(limit: int, now: int, attempts: seq<Attempt<seq<MarketRow>>>)
      returns (r: Result<seq<TrendingCoin>, RequestError>, sent: seq<Request>)
      modifies this`lastRequestTime
      ensures var run := Exchange(old(lastRequestTime), now, attempts);
        && (r.Ok? <==> run.result.Ok?)
        && (r.Ok? ==> r.value == FormatCoins(run.result.value))
        && (r.Err? ==> r.error == run.result.error)
        && lastRequestTime == run.last
      ensures forall k :: 0 <= k < |sent| ==>
        sent[k].endpoint == MarketsEndpoint && sent[k].params == MarketsParams(limit)
        && sent[k].params["per_page"] == PInt(limit)
    {
      var raw;
      raw, sent := MakeRequest(MarketsEndpoint, MarketsParams(limit), now, attempts);
      match raw {
        case Ok(rows) => r := Ok(FormatCoins(rows));
        case Err(e) => r := Err(e);
      }
    }

    /** `get_gaming_coins_summary`. */
    method GetGamingCoinsSummary(now: int, attempts: seq<Attempt<map<string, Option<real>>>>)
      returns (r: Result<GamingSummary, RequestError>, sent: seq<Request>)
      modifies this`lastRequestTime
      ensures var run := Exchange(old(lastRequestTime), now, attempts);
        && (r.Ok? <==> run.result.Ok?)
        && (r.Ok? ==> r.value == Summarize(run.result.value))
        && (r.Err? ==> r.error == run.result.error)
        && lastRequestTime == run.last
      ensures forall k :: 0 <= k < |sent| ==>
        sent[k].endpoint == CategoryEndpoint && sent[k].params == CategoryParams()
    {
      var raw;
      raw, sent := MakeRequest(CategoryEndpoint, CategoryParams(), now, attempts);
      match raw {
        case Ok(data) => r := Ok(Summarize(data));
        case Err(e) => r := Err(e);
      }
    }
  }
}
