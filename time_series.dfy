/**
 * The interface of the time-series module as the client uses it. Its parser, the
 * mapping from a function to its upstream token and the textual form of an
 * interval are not part of this model: they are uninterpreted fields of `Api`.
 */
module TimeSeries {
  import opened Wrappers
  import opened Deserialize

  /** The sampling granularities of an intraday series. */
  datatype IntradayInterval = OneMinute | FiveMinutes | FifteenMinutes | ThirtyMinutes | SixtyMinutes

  /** The time-series functions of the API; only the intraday one carries a parameter. */
  datatype Function = IntraDay(interval: IntradayInterval) | Daily | Weekly | Monthly

  /** The time-series module's operations, left uninterpreted. */
  datatype Api<TS> = Api(
    token: Function -> string,                     // `function.into()`
    intervalText: IntradayInterval -> string,      // `interval.to_string()`
    parse: (Function, Body) -> Result<TS, string>) // the time-series parser; Err carries its message
}
