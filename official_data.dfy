/** The SDK data manager (DataManager in official/data.py): which data
    clients exist, when it is ready, and the request each bar getter sends,
    in particular the default start of the bar window. The SDK clients and
    the clock are oracles; times are whole seconds since datetime.min, and
    a default start outside datetime's range makes the getter return None. */
module OfficialData {
  import opened Base
  import OfficialAccount

  /** The last second datetime can hold, 9999-12-31T23:59:59, counted in
      seconds from datetime.min, 0001-01-01T00:00:00. */
  const MAX_INSTANT: int := 315537897599

  /** A datetime, as whole seconds since datetime.min. */
  type Instant = t: int | 0 <= t <= MAX_INSTANT

  /** t is a second datetime can hold. */
  predicate InDatetimeRange(t: int) {
    0 <= t <= MAX_INSTANT
  }

  /** The units of the SDK's TimeFrame. */
  datatype TimeUnit = MinuteUnit | HourUnit | DayUnit | WeekUnit | MonthUnit

  /** An SDK TimeFrame: `amount` units per bar. TimeFrame.Day, .Hour and
      .Minute are those with amount 1; two timeframes are equal when both
      parts are. */
  datatype TimeFrame = TimeFrame(amount: nat, unit: TimeUnit)

  const DAY: TimeFrame := TimeFrame(1, DayUnit)
  const HOUR: TimeFrame := TimeFrame(1, HourUnit)
  const MINUTE: TimeFrame := TimeFrame(1, MinuteUnit)

  const SECONDS_PER_MINUTE: int := 60
  const SECONDS_PER_HOUR: int := 3600
  const SECONDS_PER_DAY: int := 86400

  /** The length of the step the default window counts `limit` of: an hour
      for TimeFrame.Hour, a minute for TimeFrame.Minute, a day otherwise. */
  function DefaultStep(timeframe: TimeFrame): (step: int)
    ensures step > 0
  {
    if timeframe == DAY then SECONDS_PER_DAY
    else if timeframe == HOUR then SECONDS_PER_HOUR
    else if timeframe == MINUTE then SECONDS_PER_MINUTE
    else SECONDS_PER_DAY
  }

  /** The start used when none is given: `limit` steps before `end`. */
  function DefaultStart(timeframe: TimeFrame, end: int, limit: int): (start: int)
    ensures limit >= 0 ==> start <= end
    ensures limit > 0 ==> start < end
  {
    end - limit * DefaultStep(timeframe)
  }

  /** An explicit start is kept; otherwise the default window, which is None
      when `end - timedelta(...)` raises OverflowError because the result
      would lie outside datetime's range. timedelta's own bound of
      999999999 days is wider than that range, so every window it refuses
      is refused by the subtraction as well. */
  function ResolveStart(timeframe: TimeFrame, start: Option<Instant>, end: Instant, limit: int): (r: Option<Instant>)
    ensures start.Some? ==> r == start
    ensures start.None? ==> (r.Some? <==> InDatetimeRange(DefaultStart(timeframe, end, limit)))
    ensures start.None? && r.Some? ==> r.value == DefaultStart(timeframe, end, limit)
  {
    if start.Some? then start
    else
      var d := DefaultStart(timeframe, end, limit);
      if InDatetimeRange(d) then Some(d) else None
  }

  /** An explicit end is kept; otherwise the current time. */
  function ResolveEnd(end: Option<Instant>, now: Instant): (r: Instant)
    ensures end.Some? ==> r == end.value
    ensures end.None? ==> r == now
  {
    if end.Some? then end.value else now
  }

  // ---------------------------------------------------------------------
  // Properties of the default window

  /** The default window of a day timeframe is 24 times that of an hour, and
      an hour's is 60 times a minute's. */
  lemma DefaultWindowUnits(end: int, n: int)
    ensures DefaultStart(HOUR, end, 24 * n) == DefaultStart(DAY, end, n)
    ensures DefaultStart(MINUTE, end, 60 * n) == DefaultStart(HOUR, end, n)
  {
  }

  /** For the same limit, the minute window lies inside the hour window,
      which lies inside the day window. */
  lemma DefaultWindowsNest(end: int, limit: nat)
    ensures DefaultStart(DAY, end, limit) <= DefaultStart(HOUR, end, limit)
    ensures DefaultStart(HOUR, end, limit) <= DefaultStart(MINUTE, end, limit) <= end
  {
  }

  /** Every timeframe other than the three named ones counts days, whatever
      its unit: five-minute bars get a window of `limit` days. */
  lemma OtherTimeframesCountDays(timeframe: TimeFrame, end: int, limit: int)
    requires timeframe.amount != 1 || timeframe.unit in {WeekUnit, MonthUnit}
    ensures DefaultStart(timeframe, end, limit) == DefaultStart(DAY, end, limit)
  {
  }

  /** Going back a and then b steps is going back a + b steps. */
  lemma DefaultStartAdds(timeframe: TimeFrame, end: int, a: int, b: int)
    ensures DefaultStart(timeframe, DefaultStart(timeframe, end, a), b) == DefaultStart(timeframe, end, a + b)
  {
    calc {
      DefaultStart(timeframe, DefaultStart(timeframe, end, a), b);
      end - a * DefaultStep(timeframe) - b * DefaultStep(timeframe);
      { assert (a + b) * DefaultStep(timeframe) == a * DefaultStep(timeframe) + b * DefaultStep(timeframe); }
      DefaultStart(timeframe, end, a + b);
    }
  }

  /** A non-negative default window fits exactly when its `limit` steps
      reach no further back than datetime.min. */
  lemma {:induction false} DefaultWindowFits(timeframe: TimeFrame, end: Instant, limit: nat)
    ensures ResolveStart(timeframe, None, end, limit).Some? <==> limit * DefaultStep(timeframe) <= end
  {
    var d := DefaultStart(timeframe, end, limit);
    assert d <= end <= MAX_INSTANT;
    assert InDatetimeRange(d) <==> 0 <= d;
  }

  /** No end leaves room for a window of as many days as datetime holds. */
  lemma {:induction false} WholeRangeWindowOverflows(end: Instant)
    ensures ResolveStart(DAY, None, end, MAX_INSTANT / SECONDS_PER_DAY + 1) == None
  {
    var limit := MAX_INSTANT / SECONDS_PER_DAY + 1;
    assert limit * SECONDS_PER_DAY > MAX_INSTANT;
    assert DefaultStart(DAY, end, limit) < 0;
  }

  // ---------------------------------------------------------------------
  // Requests

  /** CryptoBarsRequest / StockBarsRequest; `end` is None when the request
      does not carry one. */
  datatype BarsRequest = BarsRequest(symbol: string, timeframe: TimeFrame, start: Instant,
                                     end: Option<Instant>, limit: int)

  /** The bar data a client returns, as a dictionary. */
  type BarData = map<string, string>

  /** A historical data client: its answer to a bars request, None when the
      request raises. */
  datatype DataClient = DataClient(getBars: BarsRequest -> Option<BarData>)

  /** The crypto request: the resolved window, end included; None when the
      default start overflows and no request is made. */
  function CryptoRequest(symbol: string, timeframe: TimeFrame, start: Option<Instant>, end: Option<Instant>,
                         limit: int, now: Instant): (r: Option<BarsRequest>)
    ensures r.None? <==> ResolveStart(timeframe, start, ResolveEnd(end, now), limit).None?
    ensures r.Some? ==> r.value.symbol == symbol && r.value.timeframe == timeframe && r.value.limit == limit
    ensures r.Some? ==> r.value.end == Some(ResolveEnd(end, now))
    ensures r.Some? ==> Some(r.value.start) == ResolveStart(timeframe, start, ResolveEnd(end, now), limit)
  {
    var e := ResolveEnd(end, now);
    match ResolveStart(timeframe, start, e, limit)
    case None => None
    case Some(s) => Some(BarsRequest(symbol, timeframe, s, Some(e), limit))
  }

  /** The stock request: the same start, but the end is not passed on. */
  function StockRequest(symbol: string, timeframe: TimeFrame, start: Option<Instant>, end: Option<Instant>,
                        limit: int, now: Instant): (r: Option<BarsRequest>)
    ensures r.None? <==> CryptoRequest(symbol, timeframe, start, end, limit, now).None?
    ensures r.Some? ==> r.value.end.None?
    ensures r.Some? ==> r.value == CryptoRequest(symbol, timeframe, start, end, limit, now).value.(end := None)
  {
    var e := ResolveEnd(end, now);
    match ResolveStart(timeframe, start, e, limit)
    case None => None
    case Some(s) => Some(BarsRequest(symbol, timeframe, s, None, limit))
  }

  /** With an explicit start, the stock request does not depend on the end
      or the clock at all: the end only ever moves the default start. */
  lemma StockRequestIgnoresEnd(symbol: string, timeframe: TimeFrame, start: Instant,
                               end1: Option<Instant>, now1: Instant, end2: Option<Instant>, now2: Instant, limit: int)
    ensures StockRequest(symbol, timeframe, Some(start), end1, limit, now1)
         == StockRequest(symbol, timeframe, Some(start), end2, limit, now2)
  {
  }

  // ---------------------------------------------------------------------
  // The manager

  class DataManager {
    var apiKey: Option<string>
    var apiSecret: Option<string>
    var cryptoClient: Option<DataClient>
    var stockClient: Option<DataClient>

    /** is_ready: both clients are present. */
    predicate IsReady()
      reads this
    {
      cryptoClient.Some? && stockClient.Some?
    }

    /** __init__: the account manager's credentials; the clients are built
        only when the key and the secret are both non-empty. The client
        constructors are oracles, None when they raise. */
    constructor(account: OfficialAccount.OfficialAccountManager,
                makeCrypto: (Option<string>, Option<string>) -> Option<DataClient>,
                makeStock: (Option<string>, Option<string>) -> Option<DataClient>)
      ensures apiKey == account.apiKey && apiSecret == account.apiSecret
      ensures !(Truthy(apiKey) && Truthy(apiSecret)) ==> cryptoClient.None? && stockClient.None?
      ensures Truthy(apiKey) && Truthy(apiSecret) ==> cryptoClient == makeCrypto(apiKey, apiSecret)
      ensures Truthy(apiKey) && Truthy(apiSecret) && cryptoClient.Some? ==> stockClient == makeStock(apiKey, apiSecret)
      ensures cryptoClient.None? ==> stockClient.None?
    {
      apiKey := account.apiKey;
      apiSecret := account.apiSecret;
      cryptoClient := None;
      stockClient := None;
      new;
      if Truthy(apiKey) && Truthy(apiSecret) {
        var _ := InitializeClients(makeCrypto, makeStock);
      }
    }

    /** _initialize_clients: the crypto client, then the stock client; when
        a constructor raises, that field and the ones after it keep their
        values. Answers whether both were built. */
    method InitializeClients(makeCrypto: (Option<string>, Option<string>) -> Option<DataClient>,
                             makeStock: (Option<string>, Option<string>) -> Option<DataClient>)
      returns (ok: bool)
      modifies this
      ensures apiKey == old(apiKey) && apiSecret == old(apiSecret)
      ensures ok <==> makeCrypto(apiKey, apiSecret).Some? && makeStock(apiKey, apiSecret).Some?
      ensures makeCrypto(apiKey, apiSecret).None? ==> cryptoClient == old(cryptoClient) && stockClient == old(stockClient)
      ensures makeCrypto(apiKey, apiSecret).Some? ==> cryptoClient == makeCrypto(apiKey, apiSecret)
      ensures makeCrypto(apiKey, apiSecret).Some? && makeStock(apiKey, apiSecret).None? ==> stockClient == old(stockClient)
      ensures ok ==> IsReady() && stockClient == makeStock(apiKey, apiSecret)
    {
      var crypto := makeCrypto(apiKey, apiSecret);
      if crypto.None? {
        return false;
      }
      cryptoClient := crypto;
      var stock := makeStock(apiKey, apiSecret);
      if stock.None? {
        return false;
      }
      stockClient := stock;
      return true;
    }

    /** get_crypto_bars: nothing is asked when not ready, nor when the
        default start overflows (the except clause returns None); otherwise
        the crypto client answers the crypto request. `request` is the
        request sent, None when none was. */
    method GetCryptoBars(symbol: string, timeframe: TimeFrame, start: Option<Instant>, end: Option<Instant>,
                         limit: int, now: Instant)
      returns (bars: Option<BarData>, request: Option<BarsRequest>)
      ensures !IsReady() ==> bars.None? && request.None?
      ensures IsReady() ==> request == CryptoRequest(symbol, timeframe, start, end, limit, now)
      ensures request.None? ==> bars.None?
      ensures request.Some? ==> bars == cryptoClient.value.getBars(request.value)
    {
      if !IsReady() {
        return None, None;
      }
      var e := if end.Some? then end.value else now;
      var s: Instant;
      if start.Some? {
        s := start.value;
      } else {
        var d := DefaultStart(timeframe, e, limit);
        if !InDatetimeRange(d) {
          return None, None;
        }
        s := d;
      }
      var r := BarsRequest(symbol, timeframe, s, Some(e), limit);
      request := Some(r);
      bars := cryptoClient.value.getBars(r);
    }

    /** get_stock_bars: as get_crypto_bars, with the stock client and a
        request that carries no end. */
    method GetStockBars(symbol: string, timeframe: TimeFrame, start: Option<Instant>, end: Option<Instant>,
                        limit: int, now: Instant)
      returns (bars: Option<BarData>, request: Option<BarsRequest>)
      ensures !IsReady() ==> bars.None? && request.None?
      ensures IsReady() ==> request == StockRequest(symbol, timeframe, start, end, limit, now)
      ensures request.None? ==> bars.None?
      ensures request.Some? ==> bars == stockClient.value.getBars(request.value)
    {
      if !IsReady() {
        return None, None;
      }
      var e := if end.Some? then end.value else now;
      var s: Instant;
      if start.Some? {
        s := start.value;
      } else {
        var d := DefaultStart(timeframe, e, limit);
        if !InDatetimeRange(d) {
          return None, None;
        }
        s := d;
      }
      var r := BarsRequest(symbol, timeframe, s, None, limit);
      request := Some(r);
      bars := stockClient.value.getBars(r);
    }
  }
}
