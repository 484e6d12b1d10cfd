/**
 * The ENTSO-E transparency-platform adapter: the `yyyyMMddHH00` period
 * strings, the request parameters, the three XML parsers (day-ahead prices,
 * actual generation, system load), the 24-hour mock series every fetch falls
 * back to, and the Swedish bidding-zone name lookups.
 *
 * The XML document is an abstract tree: whether a `Reason` element occurs
 * anywhere, and for every `TimeSeries` the `Point` elements below it in
 * document order, each with the text of its first `position`,
 * `price.amount` and `quantity` child (if there is one).
 */
module Entsoe {
  import opened Common
  import opened Text
  import Js
  import opened Sequences

  // ---------------------------------------------------------------------------
  // Constant tables

  /** The keys of `SWEDISH_DOMAINS`, in declaration order. */
  datatype Zone = SE1 | SE2 | SE3 | SE4 {
    /** The zone's EIC code. */
    function Code(): string {
      match this
      case SE1 => "10Y1001A1001A44P"
      case SE2 => "10Y1001A1001A45N"
      case SE3 => "10Y1001A1001A46L"
      case SE4 => "10Y1001A1001A47J"
    }
    function ShortName(): string {
      match this
      case SE1 => "SE1"
      case SE2 => "SE2"
      case SE3 => "SE3"
      case SE4 => "SE4"
    }
    /** The value the `domainNames` table inside `getDomainName` gives the zone's code. */
    function DisplayName(): string {
      match this
      case SE1 => "Northern Sweden (SE1)"
      case SE2 => "Central Sweden (SE2)"
      case SE3 => "Southern Sweden (SE3)"
      case SE4 => "Malmö area (SE4)"
    }
  }

  const ZONES: seq<Zone> := [SE1, SE2, SE3, SE4]

  /** The keys of `PSR_TYPES` (production-source types). */
  datatype Psr =
    | Biomass | FossilBrownCoal | FossilCoal | FossilGas | FossilHardCoal | FossilOil | Geothermal
    | HydroPumpedStorage | HydroRunOfRiver | HydroWaterReservoir | Nuclear | OtherRenewable
    | Solar | Waste | WindOffshore | WindOnshore | Other
  {
    /** The PSR code the table gives the type. */
    function Code(): string {
      match this
      case Biomass => "B01"
      case FossilBrownCoal => "B02"
      case FossilCoal => "B03"
      case FossilGas => "B04"
      case FossilHardCoal => "B05"
      case FossilOil => "B06"
      case Geothermal => "B09"
      case HydroPumpedStorage => "B11"
      case HydroRunOfRiver => "B12"
      case HydroWaterReservoir => "B13"
      case Nuclear => "B14"
      case OtherRenewable => "B15"
      case Solar => "B16"
      case Waste => "B17"
      case WindOffshore => "B18"
      case WindOnshore => "B19"
      case Other => "B20"
    }
  }

  /** The four feeds the adapter fetches. */
  datatype Feed = Prices | SolarGeneration | WindGeneration | SystemLoad

  /** `DOCUMENT_TYPES`: day-ahead prices A44, actual generation A75, load A65. */
  function DocumentType(feed: Feed): string {
    match feed
    case Prices => "A44"
    case SolarGeneration => "A75"
    case WindGeneration => "A75"
    case SystemLoad => "A65"
  }

  // ---------------------------------------------------------------------------
  // Period strings

  /**
   * The local-time fields of a `Date` as its getters report them:
   * `getFullYear()`, `getMonth()` (0 to 11), `getDate()` (1 to 31) and
   * `getHours()` (0 to 23).
   */
  datatype LocalTime = LocalTime(year: int, month: int, day: int, hour: int) {
    predicate Valid() { 0 <= month < 12 && 1 <= day <= 31 && 0 <= hour < 24 }
  }

  /** `formatDateForEntsoe`: year, then 2-digit month (1-based), day and hour, then "00". */
  function FormatDateForEntsoe(t: LocalTime): (r: string)
    requires t.Valid()
    ensures |r| >= 9 && r[|r| - 2..] == "00"
  {
    IntToString(t.year) + PadStart2(t.month + 1) + PadStart2(t.day) + PadStart2(t.hour) + "00"
  }

  /** Reads a 12-digit `yyyyMMddHH00` period string back into its fields. */
  function ParsePeriod(s: string): Option<LocalTime> {
    if |s| == 12 && AllDigitsIn(s, 10) && s[10..] == "00" then
      DigitsOfSlices(s);
      Some(LocalTime(RadixValue(s[..4], 10), RadixValue(s[4..6], 10) - 1,
                     RadixValue(s[6..8], 10), RadixValue(s[8..10], 10)))
    else None
  }

  lemma DigitsOfSlices(s: string)
    requires |s| == 12 && AllDigitsIn(s, 10)
    ensures AllDigitsIn(s[..4], 10) && AllDigitsIn(s[4..6], 10)
    ensures AllDigitsIn(s[6..8], 10) && AllDigitsIn(s[8..10], 10)
  {
    assert forall i :: 0 <= i < 4 ==> s[..4][i] == s[i];
    assert forall i :: 0 <= i < 2 ==> s[4..6][i] == s[4 + i] && s[6..8][i] == s[6 + i] && s[8..10][i] == s[8 + i];
  }

  lemma {:induction false} FourDigitYear(year: int)
    requires 1000 <= year <= 9999
    ensures |IntToString(year)| == 4
  {
    var n: nat := year;
    assert NatToString(n) == NatToString(n / 10) + [DigitChar(n % 10)];
    assert NatToString(n / 10) == NatToString(n / 100) + [DigitChar(n / 10 % 10)];
    assert NatToString(n / 100) == NatToString(n / 1000) + [DigitChar(n / 100 % 10)];
    assert |NatToString(n / 1000)| == 1;
  }

  /** For four-digit years the period string is read back to the same fields. */
  lemma FormatDateRoundTrip(t: LocalTime)
    requires t.Valid() && 1000 <= t.year <= 9999
    ensures ParsePeriod(FormatDateForEntsoe(t)) == Some(t)
  {
    FourDigitYear(t.year);
    var y := IntToString(t.year);
    var m := PadStart2(t.month + 1);
    var d := PadStart2(t.day);
    var h := PadStart2(t.hour);
    NatToStringRoundTrip(t.year);
    PeriodSlices(y, m, d, h);
  }

  /** The four fields of a period string sit at fixed offsets, all digits. */
  lemma PeriodSlices(y: string, m: string, d: string, h: string)
    requires |y| == 4 && |m| == 2 && |d| == 2 && |h| == 2
    requires AllDigitsIn(y, 10) && AllDigitsIn(m, 10) && AllDigitsIn(d, 10) && AllDigitsIn(h, 10)
    ensures var s := y + m + d + h + "00";
            |s| == 12 && AllDigitsIn(s, 10) && s[10..] == "00"
            && s[..4] == y && s[4..6] == m && s[6..8] == d && s[8..10] == h
  {
    var s := y + m + d + h + "00";
    assert AllDigitsIn("00", 10) by { assert DigitIn('0', 10).Some?; }
    AllDigitsInAppend(y, m, 10);
    AllDigitsInAppend(y + m, d, 10);
    AllDigitsInAppend(y + m + d, h, 10);
    AllDigitsInAppend(y + m + d + h, "00", 10);
    assert s[..4] == y && s[4..6] == m && s[6..8] == d && s[8..10] == h && s[10..] == "00";
  }

  /** Distinct local times give distinct period strings (for four-digit years). */
  lemma FormatDateInjective(a: LocalTime, b: LocalTime)
    requires a.Valid() && 1000 <= a.year <= 9999
    requires b.Valid() && 1000 <= b.year <= 9999
    requires FormatDateForEntsoe(a) == FormatDateForEntsoe(b)
    ensures a == b
  {
    FormatDateRoundTrip(a);
    FormatDateRoundTrip(b);
  }

  // ---------------------------------------------------------------------------
  // Requests

  /** The query parameters the adapter sends. */
  datatype Param = SecurityToken | DocumentTypeParam | InDomain | OutDomain | PeriodStart | PeriodEnd | PsrType {
    function Name(): string {
      match this
      case SecurityToken => "securityToken"
      case DocumentTypeParam => "documentType"
      case InDomain => "in_Domain"
      case OutDomain => "out_Domain"
      case PeriodStart => "periodStart"
      case PeriodEnd => "periodEnd"
      case PsrType => "psrType"
    }
  }

  /** `periodStart || default`: a missing or empty bound falls back to the default. */
  function OrDefault(given: Option<string>, default: string): string {
    if given.Some? && given.value != "" then given.value else default
  }

  /**
   * The query parameters of one `fetch*` call, in `URLSearchParams` order.
   * `domain` defaults to SE3 only when it is not passed; the period bounds
   * default (when missing or empty) to `defaultStart` and `defaultEnd`, which
   * the source computes as `formatDateForEntsoe` of the current time and of
   * the time 24 hours later; a missing token is sent as the text "undefined".
   */
  function Query(feed: Feed, domain: Option<string>, periodStart: Option<string>, periodEnd: Option<string>,
                 token: Option<string>, defaultStart: string, defaultEnd: string): (q: seq<(Param, string)>)
    ensures |q| == 6 && UniqueKeys(q)
  {
    var d := domain.GetOr(SE3.Code());
    var token := token.GetOr("undefined");
    var start := OrDefault(periodStart, defaultStart);
    var end := OrDefault(periodEnd, defaultEnd);
    match feed
    case Prices =>
      [(SecurityToken, token), (DocumentTypeParam, DocumentType(feed)), (InDomain, d), (OutDomain, d),
       (PeriodStart, start), (PeriodEnd, end)]
    case SolarGeneration =>
      [(SecurityToken, token), (DocumentTypeParam, DocumentType(feed)), (InDomain, d),
       (PeriodStart, start), (PeriodEnd, end), (PsrType, Solar.Code())]
    case WindGeneration =>
      [(SecurityToken, token), (DocumentTypeParam, DocumentType(feed)), (InDomain, d),
       (PeriodStart, start), (PeriodEnd, end), (PsrType, WindOnshore.Code())]
    case SystemLoad =>
      [(SecurityToken, token), (DocumentTypeParam, DocumentType(feed)), (InDomain, d), (OutDomain, d),
       (PeriodStart, start), (PeriodEnd, end)]
  }

  /** The token, document type and `in_Domain` lead every query, with their defaults. */
  lemma QueryCommonParams(feed: Feed, domain: Option<string>, periodStart: Option<string>, periodEnd: Option<string>,
                   token: Option<string>, defaultStart: string, defaultEnd: string)
    ensures Lookup(Query(feed, domain, periodStart, periodEnd, token, defaultStart, defaultEnd), SecurityToken) == Some(token.GetOr("undefined"))
    ensures Lookup(Query(feed, domain, periodStart, periodEnd, token, defaultStart, defaultEnd), DocumentTypeParam) == Some(DocumentType(feed))
    ensures Lookup(Query(feed, domain, periodStart, periodEnd, token, defaultStart, defaultEnd), InDomain) == Some(domain.GetOr(SE3.Code()))
  {
    var q := Query(feed, domain, periodStart, periodEnd, token, defaultStart, defaultEnd);
    LookupFirst(q, 0);
    LookupFirst(q, 1);
    LookupFirst(q, 2);
  }

  /** A missing or empty period bound is replaced by its default. */
  lemma QueryPeriodParams(feed: Feed, domain: Option<string>, periodStart: Option<string>, periodEnd: Option<string>,
                   token: Option<string>, defaultStart: string, defaultEnd: string)
    ensures Lookup(Query(feed, domain, periodStart, periodEnd, token, defaultStart, defaultEnd), PeriodStart) == Some(OrDefault(periodStart, defaultStart))
    ensures Lookup(Query(feed, domain, periodStart, periodEnd, token, defaultStart, defaultEnd), PeriodEnd) == Some(OrDefault(periodEnd, defaultEnd))
  {
    var q := Query(feed, domain, periodStart, periodEnd, token, defaultStart, defaultEnd);
    if feed.Prices? || feed.SystemLoad? {
      LookupFirst(q, 4);
      LookupFirst(q, 5);
    } else {
      LookupFirst(q, 3);
      LookupFirst(q, 4);
    }
  }

  /** `out_Domain` goes only with prices and load; `psrType` only with generation (B16 solar, B19 onshore wind). */
  lemma QueryFeedParams(feed: Feed, domain: Option<string>, periodStart: Option<string>, periodEnd: Option<string>,
                   token: Option<string>, defaultStart: string, defaultEnd: string)
    ensures Lookup(Query(feed, domain, periodStart, periodEnd, token, defaultStart, defaultEnd), OutDomain) == (if feed.Prices? || feed.SystemLoad? then Some(domain.GetOr(SE3.Code())) else None)
    ensures Lookup(Query(feed, domain, periodStart, periodEnd, token, defaultStart, defaultEnd), PsrType) == (if feed.SolarGeneration? then Some(Solar.Code())
                                     else if feed.WindGeneration? then Some(WindOnshore.Code()) else None)
  {
    var q := Query(feed, domain, periodStart, periodEnd, token, defaultStart, defaultEnd);
    if feed.Prices? || feed.SystemLoad? {
      LookupFirst(q, 3);
    } else {
      LookupFirst(q, 5);
    }
  }

  // ---------------------------------------------------------------------------
  // XML documents and their parsers

  datatype XmlPoint = XmlPoint(position: Option<string>, priceAmount: Option<string>, quantity: Option<string>)

  datatype XmlDocument = XmlDocument(hasReason: bool, timeSeries: seq<seq<XmlPoint>>)

  /** Which of the three parsers: prices read `price.amount`, the others `quantity`. */
  datatype Parser = PriceParser | GenerationParser | LoadParser {
    /** The load parser has no `Reason` check. */
    predicate ChecksReason() { !LoadParser? }
    function Unit(): string { if PriceParser? then "EUR/MWh" else "MW" }
  }

  /** A number the model does not compute: the text `parseFloat` reads, or an exact value. */
  datatype Reading = ParsedFrom(text: string) | Exact(x: real)

  /** One series entry: `hour`, the value, and the `timestamp` in epoch milliseconds. */
  datatype Entry = Entry(hour: int, reading: Reading, timestamp: int)

  /** The object every parser and mock generator returns. */
  datatype Series = Series(source: Source, entries: seq<Entry>, total: nat, domain: string, unit: string)

  function ValueText(p: XmlPoint, parser: Parser): Option<string> {
    if parser.PriceParser? then p.priceAmount else p.quantity
  }

  /** `if (position && value)`: both texts exist and are not empty. */
  predicate Usable(p: XmlPoint, parser: Parser) {
    p.position.Some? && p.position.value != ""
    && ValueText(p, parser).Some? && ValueText(p, parser).value != ""
  }

  /** The (position, value) texts of a usable point. */
  function Pick(parser: Parser): XmlPoint -> Option<(string, string)> {
    (p: XmlPoint) => if Usable(p, parser) then Some((p.position.value, ValueText(p, parser).value)) else None
  }

  /** The (position, value) texts of the usable points, in document order. */
  function Kept(ps: seq<XmlPoint>, parser: Parser): seq<(string, string)> {
    Picked(ps, Pick(parser))
  }

  /**
   * The kept pairs are exactly the texts of the usable points, in document
   * order: the k-th pair comes from the point at the k-th index of a
   * strictly increasing list that holds an index iff the point there is usable.
   */
  lemma KeptSpec(ps: seq<XmlPoint>, parser: Parser)
    ensures var ix := PickedIndices(ps, Pick(parser));
            |Kept(ps, parser)| == |ix|
            && (forall k :: 0 <= k < |ix| ==>
                  ix[k] < |ps| && Usable(ps[ix[k]], parser)
                  && Kept(ps, parser)[k] == (ps[ix[k]].position.value, ValueText(ps[ix[k]], parser).value))
            && (forall k, l :: 0 <= k < l < |ix| ==> ix[k] < ix[l])
            && (forall i :: 0 <= i < |ps| ==> (Usable(ps[i], parser) <==> i in ix))
  {
    PickedSpec(ps, Pick(parser));
  }

  /**
   * The entry of one usable point. `hour` is `parseInt(position)`; the
   * timestamp is the parse-time clock `now` plus `hour - 1` hours; building
   * its ISO string throws when `parseInt` gives NaN or the instant is out of
   * the `Date` range.
   */
  function EntryOf(position: string, value: string, now: int): Result<Entry> {
    match ParseInt(position)
    case None => Err("Invalid time value")
    case Some(hour) =>
      var timestamp :- Js.DateAt(now + (hour - 1) * HOUR_MS);
      Ok(Entry(hour, ParsedFrom(value), timestamp))
  }

  function Converter(now: int): ((string, string)) -> Result<Entry> {
    (kv: (string, string)) => EntryOf(kv.0, kv.1, now)
  }

  /**
   * A point converts iff its position parses to an integer whose timestamp
   * is a valid `Date`; the entry carries that hour, the timestamp `hour - 1`
   * hours after `now`, and the value text.
   */
  lemma EntryOfSpec(position: string, value: string, now: int)
    ensures EntryOf(position, value, now).Ok? <==>
              ParseInt(position).Some? && -Js.MAX_TIME <= now + (ParseInt(position).value - 1) * HOUR_MS <= Js.MAX_TIME
    ensures EntryOf(position, value, now).Ok? ==>
              var e := EntryOf(position, value, now).value;
              e.hour == ParseInt(position).value && e.timestamp == now + (e.hour - 1) * HOUR_MS
              && e.reading == ParsedFrom(value)
  {
  }

  /**
   * What `parseEntsoePriceXML`, `parseEntsoeGenerationXML` and
   * `parseEntsoeLoadXML` return or throw: a `Reason` element rejects the
   * document (not for load), a document without `TimeSeries` is an error,
   * and only the first `TimeSeries` is read.
   */
  function ParseSpec(doc: XmlDocument, parser: Parser, now: int): Result<Series> {
    if parser.ChecksReason() && doc.hasReason then Err("ENTSO-E API error response")
    else if doc.timeSeries == [] then Err("No TimeSeries in response")
    else
      var entries :- MapResult(Kept(doc.timeSeries[0], parser), Converter(now));
      Ok(Series(Real, entries, |entries|, "SE3", parser.Unit()))
  }

  /**
   * The three parsers as the source runs them: a `for...of` over the Points
   * of the first `TimeSeries`, pushing one entry per usable point.
   */
  method ParseXml(doc: XmlDocument, parser: Parser, now: int) returns (r: Result<Series>)
    ensures r == ParseSpec(doc, parser, now)
  {
    if parser.ChecksReason() && doc.hasReason {
      return Err("ENTSO-E API error response");
    }
    if doc.timeSeries == [] {
      return Err("No TimeSeries in response");
    }
    var entries :- PushPicked(doc.timeSeries[0], Pick(parser), Converter(now));
    return Ok(Series(Real, entries, |entries|, "SE3", parser.Unit()));
  }

  /**
   * A parsed series has one entry per usable point of the first
   * `TimeSeries`, in document order, with `total` equal to the entry count;
   * each entry's hour is the position read by `parseInt` and its timestamp
   * lies `hour - 1` hours after the parse-time clock.
   */
  lemma ParsedSeriesSpec(doc: XmlDocument, parser: Parser, now: int)
    requires ParseSpec(doc, parser, now).Ok?
    ensures doc.timeSeries != [] && !(parser.ChecksReason() && doc.hasReason)
    ensures var s := ParseSpec(doc, parser, now).value;
            s.source == Real && s.domain == "SE3" && s.unit == parser.Unit() && s.total == |s.entries|
            && EntriesOf(s.entries, Kept(doc.timeSeries[0], parser), now)
  {
    var kept := Kept(doc.timeSeries[0], parser);
    var mapped := MapResult(kept, Converter(now));
    assert mapped.Ok?;
    assert ParseSpec(doc, parser, now).value.entries == mapped.value;
    ConvertedEntries(kept, now);
  }

  /**
   * The entries read from the kept points: one per point, in order, each
   * with the hour `parseInt` reads from the position, the timestamp
   * `hour - 1` hours after the parse-time clock, and the value text.
   */
  predicate EntriesOf(entries: seq<Entry>, kept: seq<(string, string)>, now: int) {
    |entries| == |kept| && forall k :: 0 <= k < |kept| ==> EntryFrom(entries[k], kept[k], now)
  }

  /** Entry `e` carries the hour, timestamp and reading of `point`. */
  predicate EntryFrom(e: Entry, point: (string, string), now: int) {
    ParseInt(point.0).Some?
    && e.hour == ParseInt(point.0).value
    && e.timestamp == now + (e.hour - 1) * HOUR_MS
    && e.reading == ParsedFrom(point.1)
  }

  /** Every entry of a successful conversion run is the conversion of its point. */
  lemma ConvertedEntries(kept: seq<(string, string)>, now: int)
    requires MapResult(kept, Converter(now)).Ok?
    ensures EntriesOf(MapResult(kept, Converter(now)).value, kept, now)
  {
    var entries := MapResult(kept, Converter(now)).value;
    MapResultSpec(kept, Converter(now));
    forall k | 0 <= k < |kept|
      ensures EntryFrom(entries[k], kept[k], now)
    {
      assert Converter(now)(kept[k]).Ok? && entries[k] == Converter(now)(kept[k]).value;
      ConvertedEntry(entries[k], kept[k], now);
    }
  }

  lemma ConvertedEntry(e: Entry, point: (string, string), now: int)
    requires EntryOf(point.0, point.1, now).Ok? && e == EntryOf(point.0, point.1, now).value
    ensures EntryFrom(e, point, now)
  {
    EntryOfSpec(point.0, point.1, now);
  }

  /** Series after the first do not matter. */
  lemma LaterSeriesIgnored(hasReason: bool, first: seq<XmlPoint>, rest: seq<seq<XmlPoint>>, parser: Parser, now: int)
    ensures ParseSpec(XmlDocument(hasReason, [first] + rest), parser, now)
            == ParseSpec(XmlDocument(hasReason, [first]), parser, now)
  {
  }

  /** Only the load parser reads a document that carries a `Reason`. */
  lemma ReasonRejected(doc: XmlDocument, parser: Parser, now: int)
    requires doc.hasReason
    ensures parser.ChecksReason() ==> ParseSpec(doc, parser, now) == Err("ENTSO-E API error response")
    ensures parser.LoadParser? ==> ParseSpec(doc, parser, now) == ParseSpec(doc.(hasReason := false), parser, now)
  {
  }

  /**
   * A well-formed series whose positions are "1", "2", ... yields hours
   * 1, 2, ... and timestamps one hour apart from the parse-time clock.
   */
  lemma WellFormedSeries(points: seq<XmlPoint>, parser: Parser, now: int)
    requires 0 <= now && now + |points| * HOUR_MS <= Js.MAX_TIME
    requires forall k :: 0 <= k < |points| ==> points[k].position == Some(NatToString(k + 1))
    requires forall k :: 0 <= k < |points| ==> ValueText(points[k], parser).Some? && ValueText(points[k], parser).value != ""
    ensures var r := ParseSpec(XmlDocument(false, [points]), parser, now);
            r.Ok? && |r.value.entries| == |points|
            && forall k :: 0 <= k < |points| ==>
                 r.value.entries[k].hour == k + 1 && r.value.entries[k].timestamp == now + k * HOUR_MS
  {
    KeptPositions(points, parser);
    ConvertsInOrder(Kept(points, parser), now);
    SingleSeries(points, parser, now);
  }

  /** Points numbered 1, 2, ... that all carry a value are all kept, in order. */
  lemma KeptPositions(points: seq<XmlPoint>, parser: Parser)
    requires forall k :: 0 <= k < |points| ==> points[k].position == Some(NatToString(k + 1))
    requires forall k :: 0 <= k < |points| ==> ValueText(points[k], parser).Some? && ValueText(points[k], parser).value != ""
    ensures |Kept(points, parser)| == |points|
    ensures forall k :: 0 <= k < |points| ==> Kept(points, parser)[k].0 == NatToString(k + 1)
  {
    var kept := Kept(points, parser);
    PickedAll(points, Pick(parser));
    forall k | 0 <= k < |kept| ensures kept[k].0 == NatToString(k + 1) {
      assert kept[k] == Pick(parser)(points[k]).value;
    }
  }

  /** A document without a `Reason` and with one `TimeSeries` yields that series' conversion run. */
  lemma SingleSeries(points: seq<XmlPoint>, parser: Parser, now: int)
    ensures var m, r := MapResult(Kept(points, parser), Converter(now)), ParseSpec(XmlDocument(false, [points]), parser, now);
            (r.Ok? <==> m.Ok?) && (m.Ok? ==> r.value.entries == m.value)
  {
  }

  /** Positions 1..n, all within the `Date` range, convert to n entries one hour apart. */
  lemma ConvertsInOrder(kept: seq<(string, string)>, now: int)
    requires 0 <= now && now + |kept| * HOUR_MS <= Js.MAX_TIME
    requires forall k :: 0 <= k < |kept| ==> kept[k].0 == NatToString(k + 1)
    ensures var m := MapResult(kept, Converter(now));
            m.Ok? && |m.value| == |kept|
            && forall k :: 0 <= k < |kept| ==> m.value[k].hour == k + 1 && m.value[k].timestamp == now + k * HOUR_MS
  {
    forall k | 0 <= k < |kept|
      ensures Converter(now)(kept[k]) == Ok(Entry(k + 1, ParsedFrom(kept[k].1), now + k * HOUR_MS))
    {
      EarlierHour(now, k, |kept|);
      WellFormedEntry(k, kept[k].1, now);
    }
    MapResultSpec(kept, Converter(now));
  }

  lemma WellFormedEntry(k: nat, value: string, now: int)
    requires 0 <= now + k * HOUR_MS <= Js.MAX_TIME
    ensures EntryOf(NatToString(k + 1), value, now) == Ok(Entry(k + 1, ParsedFrom(value), now + k * HOUR_MS))
  {
    ParseIntOfNatToString(k + 1);
    EntryOfHour(NatToString(k + 1), k + 1, value, now);
  }

  lemma EntryOfHour(position: string, hour: int, value: string, now: int)
    requires ParseInt(position) == Some(hour)
    requires -Js.MAX_TIME <= now + (hour - 1) * HOUR_MS <= Js.MAX_TIME
    ensures EntryOf(position, value, now) == Ok(Entry(hour, ParsedFrom(value), now + (hour - 1) * HOUR_MS))
  {
  }

  /** An hour before the end of a series lies before the end too. */
  lemma EarlierHour(now: int, k: nat, n: nat)
    requires k < n && 0 <= now && now + n * HOUR_MS <= Js.MAX_TIME
    ensures 0 <= now + k * HOUR_MS <= Js.MAX_TIME
  {
    assert HOUR_MS == 3600000;
    assert k * 3600000 <= n * 3600000;
  }

  // ---------------------------------------------------------------------------
  // Mock series

  /** The 24-entry layout every mock shares: hour i + 1 at `now` + i hours. */
  predicate MockLayout(s: Series, now: int) {
    s.source == Mock && s.domain == "SE3" && |s.entries| == 24 && s.total == 24
    && forall i :: 0 <= i < 24 ==> s.entries[i].hour == i + 1 && s.entries[i].timestamp == now + i * HOUR_MS
  }

  predicate PricePeak(i: int) { (7 <= i <= 9) || (17 <= i <= 20) }
  predicate Night(i: int) { i >= 23 || i <= 6 }

  /** Price of mock hour `i` in EUR/MWh, rounded to cents. */
  function MockPrice(i: int, draw: real, wave: real): real {
    var x := 45.0 + wave * 15.0 + (if PricePeak(i) then 10.0 else 0.0) + (if Night(i) then -8.0 else 0.0) + draw * 8.0;
    Round(x * 100.0) as real / 100.0
  }

  /** Solar output of one mock hour in MW: zero whenever the sine curve is not positive. */
  function MockSolar(draw: real, wave: real): (mw: int)
    requires 0.0 <= draw < 1.0 && -1.0 <= wave <= 1.0
    ensures 0 <= mw <= 832
    ensures wave <= 0.0 ==> mw == 0
  {
    var curve := if wave < 0.0 then 0.0 else wave;
    var factor := 0.9 + draw * 0.2;
    var x := curve * 1200.0 * 0.7 * 0.9 * factor;
    ScaledBounds(curve, factor);
    assert x == 756.0 * (curve * factor);
    Round(x)
  }

  lemma ScaledBounds(a: real, b: real)
    requires 0.0 <= a <= 1.0 && 0.0 <= b <= 1.1
    ensures 0.0 <= a * b <= 1.1
  {
    ProductNonNegative(a, b);
    ProductNonNegative(1.0 - a, b);
  }

  /** Wind output of one mock hour in MW, never below 100. */
  function MockWind(draw: real, wave: real): (mw: int)
    ensures mw >= 100
  {
    Max(100, Round(2500.0 + (draw - 0.5) * 1000.0 + wave * 300.0))
  }

  predicate MorningPeak(i: int) { 7 <= i <= 9 }
  predicate EveningPeak(i: int) { 17 <= i <= 21 }

  /** The deterministic part of mock load for hour `i`. */
  function LoadBase(i: int): int {
    12000 + (if MorningPeak(i) then 2000 else 0) + (if EveningPeak(i) then 2500 else 0) + (if Night(i) then -2000 else 0)
  }

  /** Mock load for hour `i` in MW: the base within +-250 MW of noise. */
  function MockLoad(i: int, draw: real): (mw: int)
    requires 0.0 <= draw < 1.0
    ensures LoadBase(i) - 250 <= mw <= LoadBase(i) + 250
  {
    Round(LoadBase(i) as real + (draw - 0.5) * 500.0)
  }

  function MockPrices(now: int, draws: seq<real>, waves: seq<real>): (s: Series)
    requires UnitDraws(draws, 24) && Waves(waves, 24)
    ensures MockLayout(s, now) && s.unit == "EUR/MWh"
  {
    var entries := seq(24, i requires 0 <= i < 24 => Entry(i + 1, Exact(MockPrice(i, draws[i], waves[i])), now + i * HOUR_MS));
    Series(Mock, entries, |entries|, "SE3", "EUR/MWh")
  }

  function MockSolarGeneration(now: int, draws: seq<real>, waves: seq<real>): (s: Series)
    requires UnitDraws(draws, 24) && Waves(waves, 24)
    ensures MockLayout(s, now) && s.unit == "MW"
    ensures forall i :: 0 <= i < 24 ==> s.entries[i].reading.Exact? && 0.0 <= s.entries[i].reading.x
  {
    var entries := seq(24, i requires 0 <= i < 24 => Entry(i + 1, Exact(MockSolar(draws[i], waves[i]) as real), now + i * HOUR_MS));
    Series(Mock, entries, |entries|, "SE3", "MW")
  }

  function MockWindGeneration(now: int, draws: seq<real>, waves: seq<real>): (s: Series)
    requires UnitDraws(draws, 24) && Waves(waves, 24)
    ensures MockLayout(s, now) && s.unit == "MW"
    ensures forall i :: 0 <= i < 24 ==> s.entries[i].reading.Exact? && 100.0 <= s.entries[i].reading.x
  {
    var entries := seq(24, i requires 0 <= i < 24 => Entry(i + 1, Exact(MockWind(draws[i], waves[i]) as real), now + i * HOUR_MS));
    Series(Mock, entries, |entries|, "SE3", "MW")
  }

  function MockSystemLoad(now: int, draws: seq<real>): (s: Series)
    requires UnitDraws(draws, 24)
    ensures MockLayout(s, now) && s.unit == "MW"
    ensures forall i :: 0 <= i < 24 ==> s.entries[i].reading == Exact(MockLoad(i, draws[i]) as real)
  {
    var entries := seq(24, i requires 0 <= i < 24 => Entry(i + 1, Exact(MockLoad(i, draws[i]) as real), now + i * HOUR_MS));
    Series(Mock, entries, |entries|, "SE3", "MW")
  }

  /** Every peak hour of the mock load is above every night hour, whatever the draws. */
  lemma MockLoadPeaksAboveNight(draws: seq<real>, i: int, j: int)
    requires UnitDraws(draws, 24)
    requires 0 <= i < 24 && 0 <= j < 24
    requires MorningPeak(i) || EveningPeak(i)
    requires Night(j)
    ensures MockLoad(i, draws[i]) > MockLoad(j, draws[j])
  {
    assert LoadBase(i) >= 14000;
    assert LoadBase(j) == 10000;
  }

  /** The mock layout is the layout of a parsed well-formed document with positions 1 to 24. */
  lemma MockLayoutMatchesParse(s: Series, points: seq<XmlPoint>, parser: Parser, now: int)
    requires MockLayout(s, now)
    requires 0 <= now && now + 24 * HOUR_MS <= Js.MAX_TIME
    requires |points| == 24
    requires forall k :: 0 <= k < 24 ==> points[k].position == Some(NatToString(k + 1))
    requires forall k :: 0 <= k < 24 ==> ValueText(points[k], parser).Some? && ValueText(points[k], parser).value != ""
    ensures var r := ParseSpec(XmlDocument(false, [points]), parser, now);
            r.Ok? && |r.value.entries| == |s.entries|
            && forall k :: 0 <= k < 24 ==>
                 r.value.entries[k].hour == s.entries[k].hour && r.value.entries[k].timestamp == s.entries[k].timestamp
  {
    WellFormedSeries(points, parser, now);
  }

  // ---------------------------------------------------------------------------
  // Fetch wrappers

  function ParserFor(feed: Feed): Parser {
    match feed
    case Prices => PriceParser
    case SolarGeneration => GenerationParser
    case WindGeneration => GenerationParser
    case SystemLoad => LoadParser
  }

  function MockFor(feed: Feed, now: int, draws: seq<real>, waves: seq<real>): (s: Series)
    requires UnitDraws(draws, 24) && Waves(waves, 24)
    ensures MockLayout(s, now)
  {
    match feed
    case Prices => MockPrices(now, draws, waves)
    case SolarGeneration => MockSolarGeneration(now, draws, waves)
    case WindGeneration => MockWindGeneration(now, draws, waves)
    case SystemLoad => MockSystemLoad(now, draws)
  }

  /** The real series a response yields, if any: a 2xx status, a readable body, a successful parse. */
  function RealSeries(feed: Feed, response: Fetched<XmlDocument>, now: int): Option<Series> {
    if response.Ok() && response.body.Ok? then
      match ParseSpec(response.body.value, ParserFor(feed), now)
      case Ok(s) => Some(s)
      case Err(_) => None
    else None
  }

  /**
   * `fetchElectricityPrices`, `fetchSolarGeneration`, `fetchWindGeneration`,
   * `fetchSystemLoad`: the parsed series on success, the feed's mock series
   * otherwise; nothing escapes, and the domain is "SE3" whatever was asked.
   */
  method FetchSeries(feed: Feed, response: Fetched<XmlDocument>, now: int, draws: seq<real>, waves: seq<real>)
    returns (s: Series)
    requires UnitDraws(draws, 24) && Waves(waves, 24)
    ensures RealSeries(feed, response, now).Some? ==> s == RealSeries(feed, response, now).value
    ensures RealSeries(feed, response, now).None? ==> s == MockFor(feed, now, draws, waves)
    ensures s.domain == "SE3"
    ensures s.source == Real <==> RealSeries(feed, response, now).Some?
    ensures !response.Ok() ==> MockLayout(s, now)
  {
    if !response.Ok() || response.body.Err? {
      return MockFor(feed, now, draws, waves);
    }
    var parsed := ParseXml(response.body.value, ParserFor(feed), now);
    if parsed.Err? {
      return MockFor(feed, now, draws, waves);
    }
    return parsed.value;
  }

  // ---------------------------------------------------------------------------
  // Domain names

  /** `getDomainName`: the display name of a Swedish EIC code, or the code itself. */
  function GetDomainName(code: string): string {
    if code == SE1.Code() then SE1.DisplayName()
    else if code == SE2.Code() then SE2.DisplayName()
    else if code == SE3.Code() then SE3.DisplayName()
    else if code == SE4.Code() then SE4.DisplayName()
    else code
  }

  /** Only the four Swedish codes are renamed, each to its own zone's name; every other code comes back as it is. */
  lemma DomainNameSpec(code: string)
    ensures GetDomainName(code) != code <==> exists z: Zone :: z.Code() == code
    ensures forall z: Zone :: z.Code() == code ==> GetDomainName(code) == z.DisplayName()
  {
    if code == SE1.Code() || code == SE2.Code() || code == SE3.Code() || code == SE4.Code() {
      assert GetDomainName(code)[0] != code[0];
    }
  }

  datatype DomainInfo = DomainInfo(code: string, name: string, shortName: string)

  /** `getAllSwedishDomains`: SE1 to SE4 in declaration order, each with its display name. */
  function GetAllSwedishDomains(): (r: seq<DomainInfo>)
    ensures |r| == 4
    ensures forall i :: 0 <= i < 4 ==> r[i].shortName == ZONES[i].ShortName() && r[i].code == ZONES[i].Code()
    ensures forall i :: 0 <= i < 4 ==> r[i].name == ZONES[i].DisplayName() && r[i].name != r[i].code
  {
    seq(4, i requires 0 <= i < 4 => DomainInfo(ZONES[i].Code(), GetDomainName(ZONES[i].Code()), ZONES[i].ShortName()))
  }
}
