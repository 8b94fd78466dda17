/**
 * The client facade: builds the request for each query, checks the HTTP status of
 * the single call it makes, and hands the body to the matching parser. The HTTP
 * transport is an uninterpreted function from request to outcome.
 */
module Client {
  import opened Wrappers
  import opened Deserialize
  import ExchangeRates
  import TimeSeries

  /** The upstream function token of the exchange-rate query. */
  const ExchangeRateToken: string := "CURRENCY_EXCHANGE_RATE"

  /** The only HTTP status whose body is read. */
  const StatusOk: nat := 200

  /** A request as handed to the request builder: function token and ordered query parameters. */
  datatype Request = Request(token: string, params: seq<(string, string)>)

  /** What one HTTP exchange yields: a failure of the transport, or a status and the body (None when reading it fails). */
  datatype Outcome = TransportFailure | Response(status: nat, body: Option<Body>)

  /** The client's error kinds. */
  datatype Error =
    | Transport                                 // the HTTP layer failed
    | ServerError(status: nat)                  // any status other than 200
    | ExchangeRateError(cause: ExchangeRates.ParseError)
    | TimeSeriesError(message: string)

  /** The value of the first parameter named `key`, as a server reading the query would see it. */
  function Lookup(params: seq<(string, string)>, key: string): Option<string>
  {
    if params == [] then None
    else if params[0].0 == key then Some(params[0].1)
    else Lookup(params[1..], key)
  }

  /** The request of the exchange-rate query: the fixed token and the two codes, in order, verbatim. */
  function ExchangeRateRequest(fromCode: string, toCode: string): (req: Request)
    ensures req.token == ExchangeRateToken
    ensures |req.params| == 2
    ensures req.params[0].0 == "from_currency" && req.params[1].0 == "to_currency"
    ensures Lookup(req.params, "from_currency") == Some(fromCode)
    ensures Lookup(req.params, "to_currency") == Some(toCode)
  {
    Request(ExchangeRateToken, [("from_currency", fromCode), ("to_currency", toCode)])
  }

  /**
   * The query parameters of a time-series request, as a reference definition: the
   * symbol first, and a second, `interval`, entry exactly for intraday.
   */
  function TimeSeriesParams(intervalText: TimeSeries.IntradayInterval -> string, f: TimeSeries.Function, symbol: string)
    : (p: seq<(string, string)>)
    ensures 1 <= |p| <= 2
    ensures p[0] == ("symbol", symbol)
    ensures |p| == 2 <==> f.IntraDay?
    ensures f.IntraDay? ==> p[1] == ("interval", intervalText(f.interval))
  {
    [("symbol", symbol)] + (if f.IntraDay? then [("interval", intervalText(f.interval))] else [])
  }

  /** `get_time_series`'s parameter construction: start with the symbol, push the interval for intraday. */
  method BuildTimeSeriesParams(intervalText: TimeSeries.IntradayInterval -> string, f: TimeSeries.Function, symbol: string)
    returns (params: seq<(string, string)>)
    ensures params == TimeSeriesParams(intervalText, f, symbol)
  {
    params := [("symbol", symbol)];
    if f.IntraDay? {
      params := params + [("interval", intervalText(f.interval))];
    }
  }

  /** `api_call`'s status check: only a 200 response's body is passed on. */
  function ApiCall(outcome: Outcome): (r: Result<Body, Error>)
    ensures r.Ok? <==> outcome.Response? && outcome.status == StatusOk && outcome.body.Some?
    ensures r.Ok? ==> r.value == outcome.body.value
    ensures outcome.Response? && outcome.status != StatusOk ==> r == Err(ServerError(outcome.status))
    ensures r == Err(Transport) <==>
      outcome.TransportFailure? || (outcome.status == StatusOk && outcome.body.None?)
  {
    match outcome
    case TransportFailure => Err(Transport)
    case Response(status, body) =>
      if status != StatusOk then Err(ServerError(status))
      else match body
        case None => Err(Transport)
        case Some(bytes) => Ok(bytes)
  }

  /** A non-200 status is a server error carrying that status, whatever the body. */
  lemma ServerErrorIgnoresBody(status: nat, body: Option<Body>)
    requires status != StatusOk
    ensures ApiCall(Response(status, body)) == Err(ServerError(status))
    ensures ApiCall(Response(status, body)) == ApiCall(Response(status, None))
  {
  }

  /** The rate-limit and server-failure statuses surface as server errors, not transport failures. */
  lemma CommonServerErrors(body: Option<Body>)
    ensures ApiCall(Response(429, body)) == Err(ServerError(429))
    ensures ApiCall(Response(500, body)) == Err(ServerError(500))
    ensures ApiCall(Response(503, body)) == Err(ServerError(503))
  {
  }

  /**
   * The request handed to the builder for `f` and `symbol`. Reading it back gives the
   * function's token, the caller's symbol unchanged, and an interval exactly for intraday.
   */
  function TimeSeriesRequest<TS>(series: TimeSeries.Api<TS>, f: TimeSeries.Function, symbol: string): (req: Request)
    ensures req.token == series.token(f)
    ensures Lookup(req.params, "symbol") == Some(symbol)
    ensures Lookup(req.params, "interval") == if f.IntraDay? then Some(series.intervalText(f.interval)) else None
  {
    Request(series.token(f), TimeSeriesParams(series.intervalText, f, symbol))
  }

  /** The client: its HTTP transport, the decoders and the time-series module. */
  datatype Client<TS> = Client(transport: Request -> Outcome, decoders: Decoders, series: TimeSeries.Api<TS>)
  {
    /** `get_exchange_rate`: build, call, parse; the first error stops the pipeline. */
    function GetExchangeRate(fromCode: string, toCode: string): (r: Result<ExchangeRates.ExchangeRate, Error>)
      ensures var call := ApiCall(transport(ExchangeRateRequest(fromCode, toCode)));
        && (call.Err? ==> r == Err(call.error))
        && (call.Ok? ==> var parsed := ExchangeRates.ParseBody(decoders, call.value);
              && (r.Ok? <==> parsed.Ok?)
              && (r.Ok? ==> r.value == parsed.value)
              && (r.Err? ==> r.error == ExchangeRateError(parsed.error)))
    {
      match ApiCall(transport(ExchangeRateRequest(fromCode, toCode)))
      case Err(e) => Err(e)
      case Ok(body) =>
        match ExchangeRates.ParseBody(decoders, body)
        case Err(e) => Err(ExchangeRateError(e))
        case Ok(rate) => Ok(rate)
    }

    /** The time-series pipeline as a reference definition: build, call, then the parser for the same function. */
    function FetchTimeSeries(f: TimeSeries.Function, symbol: string): (r: Result<TS, Error>)
      ensures var call := ApiCall(transport(TimeSeriesRequest(series, f, symbol)));
        && (call.Err? ==> r == Err(call.error))
        && (call.Ok? ==> var parsed := series.parse(f, call.value);
              && (r.Ok? <==> parsed.Ok?)
              && (r.Ok? ==> r.value == parsed.value)
              && (r.Err? ==> r.error == TimeSeriesError(parsed.error)))
    {
      match ApiCall(transport(TimeSeriesRequest(series, f, symbol)))
      case Err(e) => Err(e)
      case Ok(body) =>
        match series.parse(f, body)
        case Err(m) => Err(TimeSeriesError(m))
        case Ok(ts) => Ok(ts)
    }

    /** `get_time_series`, which builds its parameter list step by step. */
    method GetTimeSeries(f: TimeSeries.Function, symbol: string) returns (r: Result<TS, Error>)
      ensures r == FetchTimeSeries(f, symbol)
    {
      var params := BuildTimeSeriesParams(series.intervalText, f, symbol);
      var request := Request(series.token(f), params);
      var response := ApiCall(transport(request));
      if response.Err? {
        return Err(response.error);
      }
      var parsed := series.parse(f, response.value);
      if parsed.Err? {
        return Err(TimeSeriesError(parsed.error));
      }
      r := Ok(parsed.value);
    }

    /** `get_time_series_intraday`: the time-series pipeline for an intraday interval. */
    method GetTimeSeriesIntraday(symbol: string, interval: TimeSeries.IntradayInterval) returns (r: Result<TS, Error>)
      ensures r == FetchTimeSeries(TimeSeries.IntraDay(interval), symbol)
    {
      r := GetTimeSeries(TimeSeries.IntraDay(interval), symbol);
    }

    /** `get_time_series_daily`: the time-series pipeline for the daily series. */
    method GetTimeSeriesDaily(symbol: string) returns (r: Result<TS, Error>)
      ensures r == FetchTimeSeries(TimeSeries.Daily, symbol)
    {
      r := GetTimeSeries(TimeSeries.Daily, symbol);
    }

    /** `get_time_series_weekly`: the time-series pipeline for the weekly series. */
    method GetTimeSeriesWeekly(symbol: string) returns (r: Result<TS, Error>)
      ensures r == FetchTimeSeries(TimeSeries.Weekly, symbol)
    {
      r := GetTimeSeries(TimeSeries.Weekly, symbol);
    }

    /** `get_time_series_monthly`: the time-series pipeline for the monthly series. */
    method GetTimeSeriesMonthly(symbol: string) returns (r: Result<TS, Error>)
      ensures r == FetchTimeSeries(TimeSeries.Monthly, symbol)
    {
      r := GetTimeSeries(TimeSeries.Monthly, symbol);
    }

    /** A non-200 response stops either query with that status; the body is never parsed. */
    lemma ServerErrorStopsPipeline(fromCode: string, toCode: string, f: TimeSeries.Function, symbol: string)
      ensures var out := transport(ExchangeRateRequest(fromCode, toCode));
        out.Response? && out.status != StatusOk ==> GetExchangeRate(fromCode, toCode) == Err(ServerError(out.status))
      ensures var out := transport(TimeSeriesRequest(series, f, symbol));
        out.Response? && out.status != StatusOk ==> FetchTimeSeries(f, symbol) == Err(ServerError(out.status))
    {
    }

    /** End to end: the fixture served with status 200 yields the fixture's exchange rate. */
    lemma FixtureEndToEnd(fromCode: string, toCode: string, body: Body)
      requires transport(ExchangeRateRequest(fromCode, toCode)) == Response(StatusOk, Some(body))
      requires decoders.json(body) == Some(ExchangeRates.FixtureDocument)
      requires decoders.rate("1.16665014") == Some(1.16665014)
      requires decoders.dateTime("2018-06-23 10:27:49") == Some(UtcDateTime(2018, 6, 23, 10, 27, 49))
      ensures GetExchangeRate(fromCode, toCode) == Ok(ExchangeRates.ExchangeRate(
        ExchangeRates.Currency("Euro", "EUR"), ExchangeRates.Currency("United States Dollar", "USD"),
        1.16665014, UtcDateTime(2018, 6, 23, 10, 27, 49)))
    {
    }
  }
}
