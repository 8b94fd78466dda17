/**
 * The collaborators the parsers rely on but whose code is not part of this model:
 * the JSON text decoder, the string-to-f64 coercion and the fixed-format date-time
 * coercion. Each is an uninterpreted partial function, carried as a field of
 * `Decoders`, so every property proved below holds for any behaviour they have.
 */
module Deserialize {
  import opened Wrappers

  /** The bytes of an HTTP response body. */
  type Body = seq<bv8>

  /** A JSON object whose members are all strings. */
  type Fields = map<string, string>

  /**
   * A decoded JSON document: a top-level object whose members are objects of strings.
   * Members outside the parser's schema are dropped by the reader, whatever their type.
   */
  type Document = map<string, Fields>

  /** A `chrono::DateTime<Utc>`, as calendar and clock fields. */
  datatype UtcDateTime = UtcDateTime(year: int, month: int, day: int, hour: int, minute: int, second: int)

  /** The uninterpreted decoding functions. */
  datatype Decoders = Decoders(
    json: Body -> Option<Document>,           // the JSON reader; None for malformed text or a mistyped schema member
    rate: string -> Option<real>,             // the decimal-string to f64 coercion
    dateTime: string -> Option<UtcDateTime>)  // the "YYYY-MM-DD HH:MM:SS" to UTC timestamp coercion
}
