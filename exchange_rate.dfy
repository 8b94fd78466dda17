/**
 * The exchange-rate response parser: the wire schema of the
 * "Realtime Currency Exchange Rate" payload, its decoding into the intermediate
 * record, the UTC check and the assembly of the public `ExchangeRate`.
 */
module ExchangeRates {
  import opened Wrappers
  import opened Deserialize

  /** A currency; equality is structural on name and code. */
  datatype Currency = Currency(name: string, code: string)

  /** The exchange rate of a currency pair at one instant. */
  datatype ExchangeRate = ExchangeRate(from: Currency, to: Currency, rate: real, date: UtcDateTime)

  // The wire-key table: the envelope member and the seven numbered fields inside it.
  const Envelope: string := "Realtime Currency Exchange Rate"
  const FromCodeKey: string := "1. From_Currency Code"
  const FromNameKey: string := "2. From_Currency Name"
  const ToCodeKey: string := "3. To_Currency Code"
  const ToNameKey: string := "4. To_Currency Name"
  const RateKey: string := "5. Exchange Rate"
  const LastRefreshedKey: string := "6. Last Refreshed"
  const TimeZoneKey: string := "7. Time Zone"

  /** The fields in declaration order, which is the order missing fields are reported in. */
  const WireKeys: seq<string> :=
    [FromCodeKey, FromNameKey, ToCodeKey, ToNameKey, RateKey, LastRefreshedKey, TimeZoneKey]

  /** The only time zone the parser accepts. */
  const Utc: string := "UTC"

  /** The intermediate record that mirrors the envelope's contents, values already coerced. */
  datatype RealtimeExchangeRate = RealtimeExchangeRate(
    fromCode: string, fromName: string, toCode: string, toName: string,
    rate: real, lastRefreshed: UtcDateTime, timeZone: string)

  /** Why the document did not match the schema. */
  datatype DecodeError =
    | MalformedJson              // the body is not a JSON document of the expected shape
    | MissingField(key: string)  // a member of the schema is absent
    | InvalidRate(text: string)  // the rate string is not a number
    | InvalidDateTime(text: string)  // the last-refreshed string is not a date-time

  /** The parser's errors: a schema mismatch, or a time zone other than UTC. */
  datatype ParseError = Deserialization(cause: DecodeError) | Validation(message: string)

  /** The message of the time-zone error; it names the offending zone. */
  function TimeZoneMessage(zone: string): (m: string)
    ensures |m| >= |zone| && m[|m| - |zone|..] == zone
  {
    "unsupported time zone: " + zone
  }

  /** The position of the first key of `keys` that `fields` lacks, if any. */
  function FirstMissing(keys: seq<string>, fields: Fields): (r: Option<nat>)
    ensures r.None? <==> forall i :: 0 <= i < |keys| ==> keys[i] in fields
    ensures r.Some? ==> r.value < |keys| && keys[r.value] !in fields
    ensures r.Some? ==> forall j :: 0 <= j < r.value ==> keys[j] in fields
  {
    if keys == [] then None
    else if keys[0] !in fields then Some(0)
    else match FirstMissing(keys[1..], fields)
      case None => None
      case Some(i) => Some(i + 1)
  }

  /** Every member of the wire-key table is present. */
  predicate HasAllFields(fields: Fields) {
    && FromCodeKey in fields && FromNameKey in fields && ToCodeKey in fields && ToNameKey in fields
    && RateKey in fields && LastRefreshedKey in fields && TimeZoneKey in fields
  }

  /** Every present string that needs a coercion coerces. */
  predicate Coercible(d: Decoders, fields: Fields) {
    && (RateKey in fields ==> d.rate(fields[RateKey]).Some?)
    && (LastRefreshedKey in fields ==> d.dateTime(fields[LastRefreshedKey]).Some?)
  }

  /** The document matches the schema: the decoding step succeeds on it. */
  predicate Decodable(d: Decoders, doc: Document) {
    Envelope in doc && HasAllFields(doc[Envelope]) && Coercible(d, doc[Envelope])
  }

  /** The table and the named keys agree: all of the table is present exactly when each key is. */
  lemma AllFieldsPresent(fields: Fields)
    ensures (forall i :: 0 <= i < |WireKeys| ==> WireKeys[i] in fields) <==> HasAllFields(fields)
  {
    assert WireKeys[0] == FromCodeKey && WireKeys[1] == FromNameKey && WireKeys[2] == ToCodeKey;
    assert WireKeys[3] == ToNameKey && WireKeys[4] == RateKey && WireKeys[5] == LastRefreshedKey;
    assert WireKeys[6] == TimeZoneKey;
  }

  /**
   * Deserialization into the intermediate record. Coercion failures are raised
   * while the present members are visited, missing members afterwards, in
   * declaration order; unknown members are ignored.
   */
  function Decode(d: Decoders, doc: Document): (r: Result<RealtimeExchangeRate, DecodeError>)
    ensures r.Ok? <==> Decodable(d, doc)
    ensures r.Ok? ==>
      var f := doc[Envelope];
      && r.value.fromCode == f[FromCodeKey] && r.value.fromName == f[FromNameKey]
      && r.value.toCode == f[ToCodeKey] && r.value.toName == f[ToNameKey]
      && d.rate(f[RateKey]) == Some(r.value.rate)
      && d.dateTime(f[LastRefreshedKey]) == Some(r.value.lastRefreshed)
      && r.value.timeZone == f[TimeZoneKey]
  {
    if Envelope !in doc then Err(MissingField(Envelope))
    else
      var f := doc[Envelope];
      if RateKey in f && d.rate(f[RateKey]).None? then Err(InvalidRate(f[RateKey]))
      else if LastRefreshedKey in f && d.dateTime(f[LastRefreshedKey]).None? then
        Err(InvalidDateTime(f[LastRefreshedKey]))
      else match FirstMissing(WireKeys, f)
        case Some(i) => Err(MissingField(WireKeys[i]))
        case None =>
          AllFieldsPresent(f);
          Ok(RealtimeExchangeRate(
            f[FromCodeKey], f[FromNameKey], f[ToCodeKey], f[ToNameKey],
            d.rate(f[RateKey]).value, d.dateTime(f[LastRefreshedKey]).value, f[TimeZoneKey]))
  }

  /**
   * `parser::parse` after the JSON text is read: decode, reject a zone other than
   * UTC, then assemble the currencies and the rate.
   */
  function Parse(d: Decoders, doc: Document): (r: Result<ExchangeRate, ParseError>)
    ensures r.Ok? <==> Decodable(d, doc) && doc[Envelope][TimeZoneKey] == Utc
    ensures r.Ok? ==>
      var f := doc[Envelope];
      && r.value.from == Currency(f[FromNameKey], f[FromCodeKey])
      && r.value.to == Currency(f[ToNameKey], f[ToCodeKey])
      && d.rate(f[RateKey]) == Some(r.value.rate)
      && d.dateTime(f[LastRefreshedKey]) == Some(r.value.date)
  {
    match Decode(d, doc)
    case Err(e) => Err(Deserialization(e))
    case Ok(h) =>
      if h.timeZone != Utc then Err(Validation(TimeZoneMessage(h.timeZone)))
      else Ok(ExchangeRate(Currency(h.fromName, h.fromCode), Currency(h.toName, h.toCode), h.rate, h.lastRefreshed))
  }

  /** `parser::parse` on the body's bytes: the JSON reader first, then `Parse`. */
  function ParseBody(d: Decoders, body: Body): (r: Result<ExchangeRate, ParseError>)
    ensures d.json(body).None? ==> r == Err(Deserialization(MalformedJson))
    ensures d.json(body).Some? ==> r == Parse(d, d.json(body).value)
  {
    match d.json(body)
    case None => Err(Deserialization(MalformedJson))
    case Some(doc) => Parse(d, doc)
  }

  /** A zone other than UTC is rejected with an error naming it; no rate is produced. */
  lemma NonUtcRejected(d: Decoders, doc: Document)
    requires Decodable(d, doc)
    requires doc[Envelope][TimeZoneKey] != Utc
    ensures Parse(d, doc) == Err(Validation(TimeZoneMessage(doc[Envelope][TimeZoneKey])))
  {
  }

  /** Decoding comes before validation: any schema mismatch is reported whatever the time zone. */
  lemma DecodeErrorFirst(d: Decoders, doc: Document)
    requires !Decodable(d, doc)
    ensures Parse(d, doc).Err? && Parse(d, doc).error.Deserialization?
    ensures Parse(d, doc) == Err(Deserialization(Decode(d, doc).error))
  {
  }

  /** An unparseable rate is reported as such even when a field is missing or the zone is not UTC. */
  lemma InvalidRateReported(d: Decoders, doc: Document)
    requires Envelope in doc && RateKey in doc[Envelope]
    requires d.rate(doc[Envelope][RateKey]).None?
    ensures Parse(d, doc) == Err(Deserialization(InvalidRate(doc[Envelope][RateKey])))
  {
  }

  /** An unparseable date-time is reported after a bad rate but before any missing field or the zone check. */
  lemma InvalidDateTimeReported(d: Decoders, doc: Document)
    requires Envelope in doc && LastRefreshedKey in doc[Envelope]
    requires d.dateTime(doc[Envelope][LastRefreshedKey]).None?
    requires RateKey in doc[Envelope] ==> d.rate(doc[Envelope][RateKey]).Some?
    ensures Parse(d, doc) == Err(Deserialization(InvalidDateTime(doc[Envelope][LastRefreshedKey])))
  {
  }

  /** A document without the envelope member fails with that member missing. */
  lemma MissingEnvelopeReported(d: Decoders, doc: Document)
    requires Envelope !in doc
    ensures Parse(d, doc) == Err(Deserialization(MissingField(Envelope)))
  {
  }

  /** A missing wire field is reported by its key: the first missing one in declaration order. */
  lemma MissingFieldReported(d: Decoders, doc: Document, i: nat)
    requires Envelope in doc && Coercible(d, doc[Envelope])
    requires i < |WireKeys| && WireKeys[i] !in doc[Envelope]
    requires forall j :: 0 <= j < i ==> WireKeys[j] in doc[Envelope]
    ensures Parse(d, doc) == Err(Deserialization(MissingField(WireKeys[i])))
  {
  }

  /** The wire keys are pairwise distinct, so each domain field has its own member. */
  lemma WireKeysDistinct()
    ensures forall i, j :: 0 <= i < j < |WireKeys| ==> WireKeys[i] != WireKeys[j]
  {
  }

  /** Members outside the wire-key table, inside the envelope, do not affect the result. */
  lemma UnknownFieldIgnored(d: Decoders, doc: Document, k: string, v: string)
    requires Envelope in doc
    requires k !in WireKeys
    ensures Parse(d, doc[Envelope := doc[Envelope][k := v]]) == Parse(d, doc)
  {
  }

  /** Top-level members other than the envelope do not affect the result. */
  lemma UnknownTopLevelIgnored(d: Decoders, doc: Document, k: string, v: Fields)
    requires k != Envelope
    ensures Parse(d, doc[k := v]) == Parse(d, doc)
  {
  }

  /** The envelope contents the upstream service sends for `x`, with the given rate and date strings. */
  function WireFields(x: ExchangeRate, rateText: string, dateText: string): Fields {
    map[FromCodeKey := x.from.code, FromNameKey := x.from.name,
        ToCodeKey := x.to.code, ToNameKey := x.to.name,
        RateKey := rateText, LastRefreshedKey := dateText, TimeZoneKey := Utc]
  }

  /** Round trip: the payload that describes `x` parses back to exactly `x`. */
  lemma WirePayloadParses(d: Decoders, x: ExchangeRate, rateText: string, dateText: string)
    requires d.rate(rateText) == Some(x.rate)
    requires d.dateTime(dateText) == Some(x.date)
    ensures Parse(d, map[Envelope := WireFields(x, rateText, dateText)]) == Ok(x)
  {
  }

  /** The repository's test fixture: EUR/Euro to USD/United States Dollar. */
  const FixtureDocument: Document := map[Envelope := map[
    FromCodeKey := "EUR", FromNameKey := "Euro",
    ToCodeKey := "USD", ToNameKey := "United States Dollar",
    RateKey := "1.16665014", LastRefreshedKey := "2018-06-23 10:27:49", TimeZoneKey := "UTC"]]

  /** The fixture parses to the expected rate, given coercions that read its two strings as written. */
  lemma FixtureParses(d: Decoders)
    requires d.rate("1.16665014") == Some(1.16665014)
    requires d.dateTime("2018-06-23 10:27:49") == Some(UtcDateTime(2018, 6, 23, 10, 27, 49))
    ensures Parse(d, FixtureDocument) == Ok(ExchangeRate(
      Currency("Euro", "EUR"), Currency("United States Dollar", "USD"),
      1.16665014, UtcDateTime(2018, 6, 23, 10, 27, 49)))
  {
  }

  /** Currency equality is structural: same name and same code. */
  lemma CurrencyEquality(a: Currency, b: Currency)
    ensures a == b <==> a.name == b.name && a.code == b.code
  {
  }
}
