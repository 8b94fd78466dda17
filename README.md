# Alpha Vantage client: exchange-rate parsing and request dispatch

This project models the core of a Rust client library for the Alpha Vantage
market-data API, and proves properties of that model in Dafny.

- **Exchange-rate parser** (`src/exchange_rate.rs`). A decoded JSON document holds
  the envelope member `"Realtime Currency Exchange Rate"`. Inside it are seven
  numbered string fields, `"1. From_Currency Code"` to `"7. Time Zone"`. The parser
  decodes them into an intermediate record, coercing the rate and the
  last-refreshed date-time on the way. It rejects any time zone other than
  `"UTC"` with an error naming the zone. Otherwise it assembles
  `ExchangeRate { from, to, rate, date }`.
- **Client facade** (`src/client.rs`). It builds each query's request: the
  function token plus an ordered parameter list. It makes one HTTP call, turns any
  status other than 200 into `ServerError(status)`, and gives the body to the
  matching parser. The first error stops the pipeline.

Modules:

- `Wrappers`: the `Option` and `Result` types.
- `Deserialize`: the collaborators whose code is not part of this model. These are
  the JSON reader, the string-to-f64 coercion and the date-time coercion. Each is
  an uninterpreted partial function (a field of type `A -> Option<B>` of the
  `Decoders` record), so every property holds whatever they do.
- `ExchangeRates`: `src/exchange_rate.rs`.
- `TimeSeries`: the interface of `src/time_series.rs` as the client uses it. That
  file is not part of this model. The function-to-token mapping, the interval text
  and the time-series parser are uninterpreted fields of `TimeSeries.Api`.
- `Client`: `src/client.rs`. The HTTP transport is a field
  `transport: Request -> Outcome` of the `Client` value. An `Outcome` is a
  transport failure, or a status plus a body. The body is `None` when reading it
  fails.

How decoding orders its errors. Serde's derived deserializer reports coercion
failures while it visits the members present, and missing members after that, in
declaration order. Unknown members are ignored. `Decode` follows the same order:
a missing envelope, then an unparseable rate, then an unparseable date-time, then
the first missing field in declaration order (`FirstMissing` over the table
`WireKeys`). In serde, which of a bad rate and a bad date is reported first
depends on the members' order in the JSON text. A map has no order, so the model
fixes the upstream order, where field 5 comes before field 6.

An unparseable rate is raised inside serde's deserializer, so the model reports
it as `Deserialization(InvalidRate(text))`, a deserialization error.

## Model

| member | source | states |
|---|---|---|
| `ExchangeRates.TimeZoneMessage` | src/exchange_rate.rs:58-62 | the time-zone error message ends with the offending zone string |
| `ExchangeRates.FirstMissing` | src/exchange_rate.rs:39-54 | gives no position iff every key of the table is present; otherwise gives the first absent key, with all earlier keys present |
| `ExchangeRates.AllFieldsPresent` | src/exchange_rate.rs:40-53 | the seven-entry table is fully present exactly when each named wire key is present |
| `ExchangeRates.Decode` | src/exchange_rate.rs:32-57 | succeeds iff the envelope exists, all seven fields exist and both coercions accept their strings; on success each intermediate field is the value, or the coerced value, of its own wire key |
| `ExchangeRates.Parse` | src/exchange_rate.rs:56-77 | succeeds iff the document decodes and its zone is exactly "UTC"; on success from = (from name, from code) and to = (to name, to code), with neither pair swapped, and rate and date are the coerced strings |
| `ExchangeRates.ParseBody` | src/exchange_rate.rs:56-57 | text the JSON reader rejects is a deserialization error; otherwise the result is that of parsing the decoded document |
| `ExchangeRates.NonUtcRejected` | src/exchange_rate.rs:58-63 | a decodable document whose zone is not "UTC" yields a validation error carrying "unsupported time zone: " followed by that zone, and no exchange rate |
| `ExchangeRates.DecodeErrorFirst` | src/exchange_rate.rs:57-58 | a document that does not decode yields the decode error, whatever its time zone |
| `ExchangeRates.InvalidRateReported` | src/exchange_rate.rs:48-50 | an unparseable rate string is reported as an invalid rate, even when a field is missing or the zone is not UTC |
| `ExchangeRates.InvalidDateTimeReported` | src/exchange_rate.rs:50-51 | an unparseable last-refreshed string, with the rate absent or parseable, is reported as an invalid date-time, even when a field is missing or the zone is not UTC |
| `ExchangeRates.MissingEnvelopeReported` | src/exchange_rate.rs:32-35 | without the envelope member the error is that member missing |
| `ExchangeRates.MissingFieldReported` | src/exchange_rate.rs:38-54 | when the coercions accept their strings, the error names the first missing wire key in declaration order |
| `ExchangeRates.WireKeysDistinct` | src/exchange_rate.rs:40-53 | the seven wire keys are pairwise distinct |
| `ExchangeRates.UnknownFieldIgnored` | src/exchange_rate.rs:38-54 | a member inside the envelope that is not one of the seven keys does not change the result |
| `ExchangeRates.UnknownTopLevelIgnored` | src/exchange_rate.rs:32-36 | a top-level member other than the envelope does not change the result |
| `ExchangeRates.WirePayloadParses` | src/exchange_rate.rs:64-76 | round trip: the payload that describes an exchange rate parses back to exactly that exchange rate |
| `ExchangeRates.FixtureParses` | src/exchange_rate.rs:86-107 | the EUR/Euro to USD/United States Dollar fixture parses to rate 1.16665014 at 2018-06-23 10:27:49 UTC |
| `ExchangeRates.CurrencyEquality` | src/exchange_rate.rs:4-10 | two currencies are equal iff their names and their codes are equal |
| `Client.ExchangeRateRequest` | src/client.rs:68-73 | the token is "CURRENCY_EXCHANGE_RATE"; the parameters are exactly from_currency then to_currency, and both read back verbatim |
| `Client.TimeSeriesParams` | src/client.rs:84-87 | the parameter list starts with ("symbol", symbol); it has length 2 iff the function is intraday, and then the second entry is ("interval", interval text) |
| `Client.TimeSeriesRequest` | src/client.rs:84-88 | the request carries the function's token; reading its parameters back gives the caller's symbol unchanged, and an interval exactly for intraday |
| `Client.BuildTimeSeriesParams` | src/client.rs:84-87 | the list built step by step equals the reference parameter list |
| `Client.ApiCall` | src/client.rs:94-102 | succeeds iff the status is 200 and the body is read, giving that body; any other status is ServerError with exactly that status; only a transport failure, or a failed body read after a 200, is a transport error |
| `Client.ServerErrorIgnoresBody` | src/client.rs:96-99 | a non-200 status gives ServerError(status) whatever the body; the body is not read |
| `Client.CommonServerErrors` | src/client.rs:96-99 | statuses 429, 500 and 503 give ServerError with that same code |
| `Client.Client.GetExchangeRate` | src/client.rs:63-77 | an API-call error is returned and no parser runs; otherwise the result succeeds iff the parser does, with its value, and a parser error is returned as the exchange-rate error |
| `Client.Client.FetchTimeSeries` | src/client.rs:79-92 | an API-call error is returned and no parser runs; otherwise the parser is given the same Function used to build the request, and its result or its error is returned |
| `Client.Client.GetTimeSeries` | src/client.rs:79-92 | the step-by-step pipeline equals the reference time-series pipeline |
| `Client.Client.GetTimeSeriesIntraday` | src/client.rs:25-32 | the intraday query is the time-series pipeline for IntraDay(interval) |
| `Client.Client.GetTimeSeriesDaily` | src/client.rs:35-41 | the daily query is the time-series pipeline for Daily |
| `Client.Client.GetTimeSeriesWeekly` | src/client.rs:44-50 | the weekly query is the time-series pipeline for Weekly |
| `Client.Client.GetTimeSeriesMonthly` | src/client.rs:53-59 | the monthly query is the time-series pipeline for Monthly |
| `Client.Client.ServerErrorStopsPipeline` | src/client.rs:63-99 | a non-200 response makes either query return ServerError with that status |
| `Client.Client.FixtureEndToEnd` | src/client.rs:63-77 | the fixture, served with status 200 for the exchange-rate request, yields the fixture's exchange rate |

## Left out

- HTTP execution, async/await and reading the body (`reqwest`, `Cursor`). These are I/O. The transport is an uninterpreted `Request -> Outcome`, and a failed body read is `Outcome.Response(200, None)`.
- How the request builder lays out the URL and where it puts the API key (`src/api.rs`). That file is not part of this model. A request is the record (function token, parameters) handed to the builder, so `Client::new` and its key are not modelled.
- JSON text parsing. The model starts from a decoded document: an object whose members are objects of strings. The reader drops members outside the schema whatever their type, as serde's derived deserializer ignores unknown members. A wrongly typed envelope or schema field is the reader's failure (`MalformedJson`), a deserialization error as in serde.
- An envelope given as a JSON array, which serde_json also accepts for a struct, is not modelled.
- Duplicate members in the JSON text. Serde rejects duplicates of the schema's own keys and ignores duplicates of unknown members. A map cannot hold either.
- ExchangeRates.Decode: when both the rate and the date-time fail to coerce, serde reports whichever comes first in the JSON text. The model always reports the rate.
- ExchangeRates.InvalidRateReported: when the date-time is unparseable too, the lemma states the rate error, which serde reports only when the rate comes first in the JSON text.
- The f64 rate coercion and the date-time coercion (`deserialize::from_str`, `deserialize::to_datetime`). Their code is not part of this model, and they involve floating point and calendars. They are uninterpreted partial functions, and the rate is a `real`, so rounding to f64 is not modelled.
- `src/time_series.rs`: the time-series parser, `Function`'s token conversion and `IntradayInterval::to_string`. That file is not part of this model. All three are uninterpreted. The five interval variants (1, 5, 15, 30 and 60 minutes) are an assumption of this model, since their definition is not in the modelled files.
- Concurrency and cancellation. Each call is one independent request and response.
