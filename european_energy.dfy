/**
 * The European energy API discovery module: the code tables it builds its
 * ENTSO-E requests from, the compact date format, the six provider probes
 * (each a loop that records one result per endpoint), their summaries, the
 * discovery roll-up with its recommendations, and the two helpers that pick
 * real data out of a probe.
 *
 * Every `fetch` is an outcome given in advance, one per request, in the
 * order the probe issues them; the clock and the environment keys are
 * parameters too.
 */
module EuropeanEnergy {
  import opened Common
  import opened Text
  import opened Js
  import opened Sequences
  import Entsoe

  // ---------------------------------------------------------------------------
  // Code tables

  /** The countries of `EIC_CODES`, in declaration order. */
  datatype Country = Sweden | Denmark | Norway | Finland | Germany | Netherlands | Poland | France {
    /** The Energy Identification Code the table gives the country. */
    function EicCode(): string {
      match this
      case Sweden => "10Y1001A1001A46L"
      case Denmark => "10Y1001A1001A65H"
      case Norway => "10Y1001A1001A48H"
      case Finland => "10Y1001A1001A47J"
      case Germany => "10Y1001A1001A83F"
      case Netherlands => "10Y1001A1001A92E"
      case Poland => "10Y1001A1001A39I"
      case France => "10Y1001A1001A92E"
    }
  }

  /**
   * The table cannot be inverted: the Netherlands and France share a code,
   * and every other pair of countries is told apart.
   */
  lemma EicCodesCollide()
    ensures Netherlands.EicCode() == France.EicCode()
    ensures forall a: Country, b: Country :: a != b && a.EicCode() == b.EicCode() ==>
              (a == Netherlands && b == France) || (a == France && b == Netherlands)
  {
  }

  /**
   * The "sweden" code here is the bidding zone SE3 of the ENTSO-E adapter,
   * and the "finland" code is that adapter's SE4.
   */
  lemma EicCodesAgainstSwedishZones()
    ensures Sweden.EicCode() == Entsoe.Zone.SE3.Code()
    ensures Finland.EicCode() == Entsoe.Zone.SE4.Code()
  {
  }

  /** The resource types of `PSR_TYPES`, in declaration order. */
  datatype PsrKind = Solar | WindOnshore | WindOffshore | Hydro | Nuclear | Fossil | Biomass | Geothermal {
    function Code(): string {
      match this
      case Solar => "B16"
      case WindOnshore => "B19"
      case WindOffshore => "B18"
      case Hydro => "B12"
      case Nuclear => "B14"
      case Fossil => "B15"
      case Biomass => "B01"
      case Geothermal => "B09"
    }
  }

  /**
   * The two adapters agree on solar, wind, nuclear, biomass and geothermal,
   * but give B15 different meanings: fossil here, other renewable in the
   * ENTSO-E adapter.
   */
  lemma PsrCodesAgainstEntsoe()
    ensures Solar.Code() == Entsoe.Psr.Solar.Code() && WindOnshore.Code() == Entsoe.Psr.WindOnshore.Code()
    ensures WindOffshore.Code() == Entsoe.Psr.WindOffshore.Code() && Nuclear.Code() == Entsoe.Psr.Nuclear.Code()
    ensures Biomass.Code() == Entsoe.Psr.Biomass.Code() && Geothermal.Code() == Entsoe.Psr.Geothermal.Code()
    ensures Hydro.Code() == Entsoe.Psr.HydroRunOfRiver.Code()
    ensures Fossil.Code() == Entsoe.Psr.OtherRenewable.Code()
  {
  }

  /** The document types of `DOCUMENT_TYPES`. */
  datatype DocumentKind = ActualGeneration | DayAheadPrices | LoadForecast | WindSolarForecast {
    function Code(): string {
      match this
      case ActualGeneration => "A75"
      case DayAheadPrices => "A44"
      case LoadForecast => "A65"
      case WindSolarForecast => "A69"
    }
  }

  /** The document types the two adapters share carry the same codes. */
  lemma DocumentCodesAgainstEntsoe()
    ensures ActualGeneration.Code() == Entsoe.DocumentType(Entsoe.SolarGeneration)
    ensures ActualGeneration.Code() == Entsoe.DocumentType(Entsoe.WindGeneration)
    ensures DayAheadPrices.Code() == Entsoe.DocumentType(Entsoe.Prices)
    ensures LoadForecast.Code() == Entsoe.DocumentType(Entsoe.SystemLoad)
  {
  }

  // ---------------------------------------------------------------------------
  // Dates

  /** The UTC fields `toISOString()` prints, for years 0 to 9999. */
  datatype UtcTime = UtcTime(year: nat, month: nat, day: nat, hour: nat, minute: nat, second: nat, millisecond: nat) {
    predicate Valid() {
      year <= 9999 && 1 <= month <= 12 && 1 <= day <= 31 && hour < 24 && minute < 60 && second < 60 && millisecond < 1000
    }
  }

  /** `toISOString()`: `YYYY-MM-DDTHH:mm:ss.sssZ`. */
  function IsoString(t: UtcTime): string {
    IsoHead(t) + IsoTail(t)
  }

  /** Date, hour and minute: `YYYY-MM-DDTHH:mm`. */
  function IsoHead(t: UtcTime): string {
    PadDigits(t.year, 4) + "-" + PadDigits(t.month, 2) + "-" + PadDigits(t.day, 2) + "T"
    + PadDigits(t.hour, 2) + ":" + PadDigits(t.minute, 2)
  }

  /** Seconds and milliseconds: `:ss.sssZ`. */
  function IsoTail(t: UtcTime): string {
    ":" + PadDigits(t.second, 2) + "." + PadDigits(t.millisecond, 3) + "Z"
  }

  /** The ISO fields of a valid time have their nominal widths. */
  lemma IsoWidths(t: UtcTime)
    requires t.Valid()
    ensures |PadDigits(t.year, 4)| == 4 && |PadDigits(t.month, 2)| == 2 && |PadDigits(t.day, 2)| == 2
    ensures |PadDigits(t.hour, 2)| == 2 && |PadDigits(t.minute, 2)| == 2
  {
    NatToStringWidth(t.year, 4);
    NatToStringWidth(t.month, 2);
    NatToStringWidth(t.day, 2);
    NatToStringWidth(t.hour, 2);
    NatToStringWidth(t.minute, 2);
  }

  /**
   * Stripping a class that holds '-' and ':' but no digit from a
   * date-and-time layout keeps the digit groups and drops the separators.
   */
  lemma StripDateTime(y: string, mo: string, d: string, h: string, mi: string, tail: string, drop: set<char>)
    requires AllDigits(y) && AllDigits(mo) && AllDigits(d) && AllDigits(h) && AllDigits(mi)
    requires '-' in drop && ':' in drop
    requires forall c :: c in drop ==> !IsDigit(c)
    ensures Strip(y + "-" + mo + "-" + d + "T" + h + ":" + mi + tail, drop)
            == y + mo + d + Strip("T", drop) + h + mi + Strip(tail, drop)
  {
    AllKept(y, drop);
    StripDroppedStep(y, y, '-', mo, drop);
    StripDroppedStep(y + "-" + mo, y + mo, '-', d, drop);
    StripStep(y + "-" + mo + "-" + d, y + mo + d, "T", h, drop);
    StripDroppedStep(y + "-" + mo + "-" + d + "T" + h, y + mo + d + Strip("T", drop) + h, ':', mi, drop);
    StripAppend(y + "-" + mo + "-" + d + "T" + h + ":" + mi, tail, drop);
  }

  /** One more digit group after a stripped prefix: the separator is stripped, the digits kept. */
  lemma StripStep(p: string, q: string, sep: string, g: string, drop: set<char>)
    requires Strip(p, drop) == q && AllDigits(g)
    requires forall c :: c in drop ==> !IsDigit(c)
    ensures Strip(p + sep + g, drop) == q + Strip(sep, drop) + g
  {
    StripAppend(p, sep, drop);
    StripAppend(p + sep, g, drop);
    AllKept(g, drop);
  }

  lemma StripDroppedStep(p: string, q: string, sep: char, g: string, drop: set<char>)
    requires Strip(p, drop) == q && AllDigits(g) && sep in drop
    requires forall c :: c in drop ==> !IsDigit(c)
    ensures Strip(p + [sep] + g, drop) == q + g
  {
    StripStep(p, q, [sep], g, drop);
    StripSingle(sep, drop);
    assert q + [] + g == q + g;
  }

  lemma StripSingle(c: char, drop: set<char>)
    ensures Strip([c], drop) == if c in drop then [] else [c]
  {
    assert [c][1..] == [];
  }

  lemma AllKept(a: string, drop: set<char>)
    requires AllDigits(a)
    requires forall c :: c in drop ==> !IsDigit(c)
    ensures Strip(a, drop) == a
  {
    StripKeeps(a, drop);
  }

  /** The characters `formatDateTime` deletes as written: `/[-:]/g`. */
  const SEPARATORS: set<char> := {'-', ':'}

  /** `formatDateTime` as written: strip '-' and ':' from the ISO string, keep 12 characters. */
  function FormatDateTimeAsWritten(iso: string): (r: string)
    ensures |r| <= 12
  {
    Take(Strip(iso, SEPARATORS), 12)
  }

  /**
   * As written, the 'T' between date and time survives at index 8, so the
   * result holds only the first digit of the minutes and is not the
   * `yyyyMMddHHmm` form ENTSO-E periods use.
   */
  lemma FormatDateTimeKeepsT(t: UtcTime)
    requires t.Valid()
    ensures FormatDateTimeAsWritten(IsoString(t))
            == PadDigits(t.year, 4) + PadDigits(t.month, 2) + PadDigits(t.day, 2) + "T"
               + PadDigits(t.hour, 2) + PadDigits(t.minute, 2)[..1]
    ensures FormatDateTimeAsWritten(IsoString(t))[8] == 'T'
    ensures !AllDigits(FormatDateTimeAsWritten(IsoString(t)))
  {
    IsoWidths(t);
    var y, mo, d := PadDigits(t.year, 4), PadDigits(t.month, 2), PadDigits(t.day, 2);
    var h, mi := PadDigits(t.hour, 2), PadDigits(t.minute, 2);
    StripDateTime(y, mo, d, h, mi, IsoTail(t), SEPARATORS);
    StripSingle('T', SEPARATORS);
    var a := y + mo + d + "T" + h;
    var rest := Strip(IsoTail(t), SEPARATORS);
    assert Strip(IsoString(t), SEPARATORS) == a + mi + rest;
    assert |a| == 11;
    assert (a + mi + rest)[..12] == a + mi[..1];
    assert (a + mi[..1])[8] == 'T';
  }

  /** The evidently intended class: the 'T' goes as well. */
  const SEPARATORS_AND_T: set<char> := {'-', ':', 'T'}

  /** `formatDateTime` as evidently intended: `yyyyMMddHHmm`. */
  function FormatDateTime(iso: string): (r: string)
    ensures |r| <= 12
  {
    Take(Strip(iso, SEPARATORS_AND_T), 12)
  }

  /** The corrected format is the twelve digits of year, month, day, hour and minute. */
  lemma FormatDateTimeDigits(t: UtcTime)
    requires t.Valid()
    ensures FormatDateTime(IsoString(t))
            == PadDigits(t.year, 4) + PadDigits(t.month, 2) + PadDigits(t.day, 2) + PadDigits(t.hour, 2) + PadDigits(t.minute, 2)
    ensures |FormatDateTime(IsoString(t))| == 12 && AllDigits(FormatDateTime(IsoString(t)))
  {
    IsoWidths(t);
    var y, mo, d := PadDigits(t.year, 4), PadDigits(t.month, 2), PadDigits(t.day, 2);
    var h, mi := PadDigits(t.hour, 2), PadDigits(t.minute, 2);
    StripIsoCorrected(t);
    var head := y + mo + d + h + mi;
    var rest := Strip(IsoTail(t), SEPARATORS_AND_T);
    assert |head| == 12;
    assert (head + rest)[..12] == head;
    AllDigitsAppend(y, mo);
    AllDigitsAppend(y + mo, d);
    AllDigitsAppend(y + mo + d, h);
    AllDigitsAppend(y + mo + d + h, mi);
  }

  /** The corrected class strips the ISO head down to its digit groups. */
  lemma StripIsoCorrected(t: UtcTime)
    ensures Strip(IsoString(t), SEPARATORS_AND_T)
            == PadDigits(t.year, 4) + PadDigits(t.month, 2) + PadDigits(t.day, 2) + PadDigits(t.hour, 2)
               + PadDigits(t.minute, 2) + Strip(IsoTail(t), SEPARATORS_AND_T)
  {
    var y, mo, d := PadDigits(t.year, 4), PadDigits(t.month, 2), PadDigits(t.day, 2);
    var h, mi := PadDigits(t.hour, 2), PadDigits(t.minute, 2);
    StripDateTime(y, mo, d, h, mi, IsoTail(t), SEPARATORS_AND_T);
    StripSingle('T', SEPARATORS_AND_T);
    assert y + mo + d + [] == y + mo + d;
  }

  /**
   * On the hour and for four-digit years, the corrected format is the period
   * string the ENTSO-E adapter builds from the same fields.
   */
  lemma FormatDateTimeMatchesEntsoe(t: UtcTime)
    requires t.Valid() && 1000 <= t.year && t.minute == 0
    ensures FormatDateTime(IsoString(t)) == Entsoe.FormatDateForEntsoe(Entsoe.LocalTime(t.year, t.month - 1, t.day, t.hour))
  {
    FormatDateTimeDigits(t);
    NatToStringWidth(t.year, 4);
    NatToStringWide(t.year, 4);
    assert PadDigits(t.year, 4) == IntToString(t.year);
    PadTwo(t.month);
    PadTwo(t.day);
    PadTwo(t.hour);
    assert PadDigits(0, 2) == "00";
  }

  /** Two-digit padding agrees with the ENTSO-E adapter's. */
  lemma PadTwo(n: nat)
    requires n < 100
    ensures PadDigits(n, 2) == PadStart2(n)
  {
    NatToStringWidth(n, 2);
  }

  datatype DateRange = DateRange(start: string, end: string)

  /**
   * The compact form `formatDateTime` gives as written: year, month and day,
   * the 'T', the hour, and only the first digit of the minutes.
   */
  predicate CompactAsWritten(s: string, t: UtcTime) {
    |s| == 12 && s[8] == 'T'
    && s[..8] == PadDigits(t.year, 4) + PadDigits(t.month, 2) + PadDigits(t.day, 2)
    && s[9..] == PadDigits(t.hour, 2) + PadDigits(t.minute, 2)[..1]
  }

  lemma FormatDateTimeCompact(t: UtcTime)
    requires t.Valid()
    ensures CompactAsWritten(FormatDateTimeAsWritten(IsoString(t)), t)
  {
    FormatDateTimeKeepsT(t);
    IsoWidths(t);
    var ymd := PadDigits(t.year, 4) + PadDigits(t.month, 2) + PadDigits(t.day, 2);
    var hm := PadDigits(t.hour, 2) + PadDigits(t.minute, 2)[..1];
    assert FormatDateTimeAsWritten(IsoString(t)) == ymd + "T" + hm;
    assert |ymd| == 8;
    assert (ymd + "T" + hm)[..8] == ymd;
    assert (ymd + "T" + hm)[9..] == hm;
  }

  /**
   * `getTodayDateRange`: local midnight today and tomorrow, formatted by
   * `formatDateTime` as written, so both bounds keep the 'T'. The UTC fields
   * of those two instants are parameters: finding them needs the time zone.
   */
  function GetTodayDateRange(today: UtcTime, tomorrow: UtcTime): (r: DateRange)
    requires today.Valid() && tomorrow.Valid()
    ensures CompactAsWritten(r.start, today) && CompactAsWritten(r.end, tomorrow)
  {
    FormatDateTimeCompact(today);
    FormatDateTimeCompact(tomorrow);
    DateRange(FormatDateTimeAsWritten(IsoString(today)), FormatDateTimeAsWritten(IsoString(tomorrow)))
  }

  /**
   * Each bound of the range as written is the corrected twelve digits with
   * the 'T' put back after the day and the last minute digit lost.
   */
  lemma TodayRangeAgainstCorrected(today: UtcTime, tomorrow: UtcTime)
    requires today.Valid() && tomorrow.Valid()
    ensures var r := GetTodayDateRange(today, tomorrow);
            var s, e := FormatDateTime(IsoString(today)), FormatDateTime(IsoString(tomorrow));
            |s| == 12 && |e| == 12 && r.start == s[..8] + "T" + s[8..11] && r.end == e[..8] + "T" + e[8..11]
  {
    CompactAgainstCorrected(today);
    CompactAgainstCorrected(tomorrow);
  }

  lemma CompactAgainstCorrected(t: UtcTime)
    requires t.Valid()
    ensures var w, s := FormatDateTimeAsWritten(IsoString(t)), FormatDateTime(IsoString(t));
            |s| == 12 && w == s[..8] + "T" + s[8..11]
  {
    FormatDateTimeCompact(t);
    FormatDateTimeDigits(t);
    IsoWidths(t);
    var w, s := FormatDateTimeAsWritten(IsoString(t)), FormatDateTime(IsoString(t));
    var ymd := PadDigits(t.year, 4) + PadDigits(t.month, 2) + PadDigits(t.day, 2);
    var h, mi := PadDigits(t.hour, 2), PadDigits(t.minute, 2);
    assert s == ymd + h + mi;
    assert s[..8] == ymd;
    assert s[8..11] == h + mi[..1];
    assert w == w[..8] + [w[8]] + w[9..];
  }

  // ---------------------------------------------------------------------------
  // Probe results

  /** A 2xx response body as read: its text, and its JSON value or the error `json()` threw. */
  datatype Body = Body(text: string, json: Result<JsValue>)

  /**
   * One entry of a probe's `results`. `subject` is the provider, country or
   * location the probe reports, where it reports one; absent fields are
   * `None`.
   */
  datatype Probe = Probe(
    endpoint: string,
    subject: Option<string>,
    coordinates: Option<string>,
    url: Option<string>,
    requiresAuth: Option<bool>,
    status: Option<int>,
    statusText: Option<string>,
    success: bool,
    error: Option<string>,
    preview: Option<string>,
    dataLength: Option<nat>,
    dataType: Option<string>,
    metrics: Option<JsValue>)

  /** The object built right after `fetch` resolves: `success` is `response.ok`. */
  function Answer(endpoint: string, subject: Option<string>, coordinates: Option<string>, url: string,
                  requiresAuth: Option<bool>, status: int, statusText: string): Probe {
    Probe(endpoint, subject, coordinates, Some(url), requiresAuth, Some(status), Some(statusText),
          200 <= status <= 299, None, None, None, None, None)
  }

  /** The object the `catch` block pushes. */
  function Caught(endpoint: string, subject: Option<string>, coordinates: Option<string>, url: Option<string>,
                  message: string): Probe {
    Probe(endpoint, subject, coordinates, url, None, None, None, false, Some(message), None, None, None, None)
  }

  function HttpError(status: int): string { "HTTP " + IntToString(status) }

  /** `text.substring(0, n) + '...'`. */
  function Preview(text: string, n: nat): string { Take(text, n) + "..." }

  /** Every result carries an error exactly when it did not succeed. */
  predicate Consistent(p: Probe) { p.error.Some? <==> !p.success }

  /** The response was 2xx and its body could be read. */
  predicate Readable(response: Fetched<Body>) { response.Ok() && response.body.Ok? }

  /** The response was 2xx and its body parsed as JSON. */
  predicate ParsedJson(response: Fetched<Body>) { Readable(response) && response.body.value.json.Ok? }

  // ---------------------------------------------------------------------------
  // ENTSO-E probe

  const ENTSOE_BASE_URL := "https://web-api.tp.entsoe.eu/api"

  datatype AuthEndpoint = AuthEndpoint(url: string, description: string, requiresAuth: bool)

  /** The four ENTSO-E endpoints `testENTSOEAPI` tries, in order. */
  function EntsoeEndpoints(range: DateRange): (es: seq<AuthEndpoint>)
    ensures |es| == 4 && !es[0].requiresAuth && es[1].requiresAuth && es[2].requiresAuth && es[3].requiresAuth
  {
    var period := "&periodStart=" + range.start + "&periodEnd=" + range.end;
    [AuthEndpoint(ENTSOE_BASE_URL + "/health", "Health Check", false),
     AuthEndpoint(ENTSOE_BASE_URL + "?documentType=" + ActualGeneration.Code() + "&in_Domain=" + Sweden.EicCode()
                  + "&psrType=" + Solar.Code() + period, "Sweden Solar Generation", true),
     AuthEndpoint(ENTSOE_BASE_URL + "?documentType=" + ActualGeneration.Code() + "&in_Domain=" + Sweden.EicCode()
                  + "&psrType=" + WindOnshore.Code() + period, "Sweden Wind Generation", true),
     AuthEndpoint(ENTSOE_BASE_URL + "?documentType=" + DayAheadPrices.Code() + "&out_Domain=" + Sweden.EicCode()
                  + period, "Sweden Day-Ahead Prices", true)]
  }

  const TOKEN_PARAM := "securityToken="

  /** The URL actually requested: the token is appended only when one exists and the endpoint needs it. */
  function WithToken(e: AuthEndpoint, token: Option<string>): (url: string)
    ensures Present(token) && e.requiresAuth ==> url == e.url + "&" + TOKEN_PARAM + token.value
    ensures !(Present(token) && e.requiresAuth) ==> url == e.url
  {
    if Present(token) && e.requiresAuth then e.url + "&" + TOKEN_PARAM + token.value else e.url
  }

  /** The length of the run of characters other than '&' at the start of `s`. */
  function TokenLength(s: string): (n: nat)
    ensures n <= |s| && (n < |s| ==> s[n] == '&')
    ensures forall i :: 0 <= i < n ==> s[i] != '&'
  {
    if s == [] || s[0] == '&' then 0 else 1 + TokenLength(s[1..])
  }

  /** `url.replace(/securityToken=[^&]*\/, 'securityToken=***')`: the first token value masked. */
  function RedactToken(url: string): string {
    match IndexOf(url, TOKEN_PARAM)
    case None => url
    case Some(i) =>
      var valueStart := i + |TOKEN_PARAM|;
      url[..i] + TOKEN_PARAM + "***" + url[valueStart + TokenLength(url[valueStart..])..]
  }

  /**
   * Appending `&securityToken=<token>` to a URL that has no such parameter
   * and masking it again leaves `&securityToken=***`: the token is gone
   * whenever it holds no '&'. A URL without the parameter is left alone.
   */
  lemma RedactAppendedToken(base: string, token: string)
    requires IndexOf(base, TOKEN_PARAM).None?
    requires forall i :: 0 <= i < |token| ==> token[i] != '&'
    ensures RedactToken(base) == base
    ensures RedactToken(base + "&" + TOKEN_PARAM + token) == base + "&" + TOKEN_PARAM + "***"
  {
    var url := base + "&" + TOKEN_PARAM + token;
    var at := |base| + 1;
    assert OccursAt(url, TOKEN_PARAM, at) by {
      assert url[at..at + |TOKEN_PARAM|] == TOKEN_PARAM;
    }
    forall j | 0 <= j < at ensures !OccursAt(url, TOKEN_PARAM, j) {
      if j + |TOKEN_PARAM| <= |base| {
        assert url[j..j + |TOKEN_PARAM|] == base[j..j + |TOKEN_PARAM|];
        assert !OccursAt(base, TOKEN_PARAM, j);
      } else if j + |TOKEN_PARAM| <= |url| {
        assert url[j..j + |TOKEN_PARAM|][|base| - j] == url[|base|] == '&';
        assert forall c :: 0 <= c < |TOKEN_PARAM| ==> TOKEN_PARAM[c] != '&';
      }
    }
    assert IndexOf(url, TOKEN_PARAM) == Some(at);
    var valueStart := at + |TOKEN_PARAM|;
    assert url[valueStart..] == token;
    assert TokenLength(token) == |token|;
    assert url[..at] == base + "&";
  }

  /**
   * One pass of the `testENTSOEAPI` loop. The status path reports the URL
   * with the token masked; the `catch` path reports the URL as requested.
   */
  function EntsoeProbe(token: Option<string>, e: AuthEndpoint, response: Fetched<Body>): (p: Probe)
    ensures p.endpoint == e.description && Consistent(p)
    ensures p.success <==> Readable(response)
    ensures response.Answered? && !response.Ok() ==>
              p.requiresAuth == Some(e.requiresAuth) && p.status == Some(response.status)
              && p.error == Some(HttpError(response.status))
    ensures response.Answered? && (!response.Ok() || response.body.Ok?) ==> p.url == Some(RedactToken(WithToken(e, token)))
    ensures response.Threw? ==> p.url == Some(WithToken(e, token)) && p.error == Some(response.message)
    ensures response.Ok() && response.body.Err? ==>
              p.url == Some(WithToken(e, token)) && p.error == Some(response.body.message)
    ensures p.success ==> p.preview == Some(Preview(response.body.value.text, 200))
                          && p.dataLength == Some(|response.body.value.text|)
  {
    var url := WithToken(e, token);
    match response
    case Threw(m) => Caught(e.description, None, None, Some(url), m)
    case Answered(status, statusText, body) =>
      var answer := Answer(e.description, None, None, RedactToken(url), Some(e.requiresAuth), status, statusText);
      if !(200 <= status <= 299) then answer.(error := Some(HttpError(status)))
      else
        match body
        case Err(m) => Caught(e.description, None, None, Some(url), m)
        case Ok(b) => answer.(preview := Some(Preview(b.text, 200)), dataLength := Some(|b.text|))
  }

  /** The `summary` object of a provider report. */
  datatype Summary = Summary(total: nat, successful: nat, needsApiKey: JsValue, listed: seq<Option<string>>)

  /** A provider report; `provider` is absent on the stand-in for a rejected probe. */
  datatype Report = Report(provider: Option<string>, apiKeyRequired: bool, results: seq<Probe>,
                           summary: Option<Summary>, error: Option<string>)

  function Successes(results: seq<Probe>): nat { Count(results, (p: Probe) => p.success) }

  predicate AuthRefused(p: Probe) { p.requiresAuth == Some(true) && p.status == Some(401) }

  /** The ENTSO-E summary: `needsApiKey` says whether some endpoint needing a key was refused with 401. */
  function EntsoeSummary(results: seq<Probe>): (s: Summary)
    ensures s.total == |results| && s.successful <= s.total
    ensures Truthy(s.needsApiKey) <==> exists i :: 0 <= i < |results| && AuthRefused(results[i])
  {
    Summary(|results|, Successes(results), Bool(exists i :: 0 <= i < |results| && AuthRefused(results[i])), [])
  }

  /**
   * `testENTSOEAPI`: one result per endpoint, in order, whatever each request
   * did; the period is today's range, built from the clock's `today` and
   * `tomorrow`.
   */
  method TestEntsoeApi(token: Option<string>, today: UtcTime, tomorrow: UtcTime, responses: seq<Fetched<Body>>)
    returns (report: Report)
    requires today.Valid() && tomorrow.Valid()
    requires |responses| == 4
    ensures report.provider == Some("ENTSO-E") && !report.apiKeyRequired && report.error.None?
    ensures |report.results| == 4
    ensures forall i :: 0 <= i < 4 ==>
              report.results[i] == EntsoeProbe(token, EntsoeEndpoints(GetTodayDateRange(today, tomorrow))[i], responses[i])
    ensures report.summary == Some(EntsoeSummary(report.results))
  {
    var range := GetTodayDateRange(today, tomorrow);
    var endpoints := EntsoeEndpoints(range);
    var results := PushEach(endpoints, responses, (e, r) => EntsoeProbe(token, e, r));
    report := Report(Some("ENTSO-E"), false, results, Some(EntsoeSummary(results)), None);
  }

  /**
   * With a token and a URL that carries no token of its own, the status
   * path reports the URL with `***` in place of the token, while the
   * `catch` path of an endpoint that needs the key reports the token itself.
   */
  lemma EntsoeTokenExposure(token: Option<string>, e: AuthEndpoint, response: Fetched<Body>)
    requires Present(token) && IndexOf(e.url, TOKEN_PARAM).None?
    requires forall i :: 0 <= i < |token.value| ==> token.value[i] != '&'
    ensures response.Answered? && (!response.Ok() || response.body.Ok?) ==>
              EntsoeProbe(token, e, response).url == Some(e.url + (if e.requiresAuth then "&" + TOKEN_PARAM + "***" else ""))
    ensures response.Threw? && e.requiresAuth ==>
              EntsoeProbe(token, e, response).url == Some(e.url + "&" + TOKEN_PARAM + token.value)
  {
    RedactAppendedToken(e.url, token.value);
    if e.requiresAuth {
      assert e.url + "&" + TOKEN_PARAM + "***" == e.url + ("&" + TOKEN_PARAM + "***");
    } else {
      assert e.url + "" == e.url;
    }
  }

  // ---------------------------------------------------------------------------
  // Swedish grid probe

  /** An endpoint with the provider, country or location the probe reports for it. */
  datatype NamedEndpoint = NamedEndpoint(url: string, description: string, subject: string)

  /** The nine Swedish endpoints `testSwedishGridAPI` tries, in order. */
  const SWEDISH_APIS: seq<NamedEndpoint> := [
    NamedEndpoint("https://www.svk.se/api/v1/production", "SVK Production API", "Svenska Kraftnät"),
    NamedEndpoint("https://www.svk.se/api/v1/solar", "SVK Solar API", "Svenska Kraftnät"),
    NamedEndpoint("https://www.svk.se/api/v1/renewable", "SVK Renewable API", "Svenska Kraftnät"),
    NamedEndpoint("https://mimer.svk.se/ProductionConsumption/api/ProductionConsumption", "SVK Mimer Production API",
                  "Svenska Kraftnät"),
    NamedEndpoint("https://www.ei.se/api/v1/statistics", "EI Statistics API", "Energimarknadsinspektionen"),
    NamedEndpoint("https://www.ei.se/api/v1/renewable", "EI Renewable API", "Energimarknadsinspektionen"),
    NamedEndpoint("https://opendata.svk.se/api/v1/production", "SVK Open Data Production", "Svenska Kraftnät Open Data"),
    NamedEndpoint("https://data.gov.se/api/datasets/renewable-energy", "Government Open Data", "Swedish Government"),
    NamedEndpoint("https://www.svk.se/services/controlroom/v2/situation-awareness", "SVK Situation Awareness",
                  "Svenska Kraftnät")
  ]

  /**
   * The message of the TypeError `response.text()` rejects with once
   * `response.json()` has consumed the body (the wording is the browser's).
   */
  const BODY_ALREADY_READ := "Failed to execute 'text' on 'Response': body stream already read"

  /**
   * One pass of the `testSwedishGridAPI` loop as written. `response.json()`
   * consumes the body whether or not it parses, so when it fails the text
   * fallback's `response.text()` rejects and the outer `catch` records the
   * endpoint as failed: only a JSON body is a success.
   */
  function SwedishProbe(e: NamedEndpoint, response: Fetched<Body>): (p: Probe)
    ensures p.endpoint == e.description && p.subject == Some(e.subject) && p.url == Some(e.url) && Consistent(p)
    ensures p.success <==> ParsedJson(response)
    ensures response.Answered? && !response.Ok() ==> p.error == Some(HttpError(response.status))
    ensures response.Ok() && !ParsedJson(response) ==> p.error == Some(BODY_ALREADY_READ)
    ensures p.success ==> p.preview == Some(Preview(response.body.value.text, 200)) && p.dataType == Some("JSON")
  {
    match response
    case Threw(m) => Caught(e.description, Some(e.subject), None, Some(e.url), m)
    case Answered(status, statusText, body) =>
      var answer := Answer(e.description, Some(e.subject), None, e.url, None, status, statusText);
      if !(200 <= status <= 299) then answer.(error := Some(HttpError(status)))
      else if body.Ok? && body.value.json.Ok? then answer.(preview := Some(Preview(body.value.text, 200)), dataType := Some("JSON"))
      else Caught(e.description, Some(e.subject), None, Some(e.url), BODY_ALREADY_READ)
  }

  /**
   * The probe as evidently intended: the body is read once as text and a
   * body that is not JSON is still a success, previewed as TEXT/HTML.
   */
  function SwedishProbeIntended(e: NamedEndpoint, response: Fetched<Body>): (p: Probe)
    ensures p.endpoint == e.description && p.subject == Some(e.subject) && p.url == Some(e.url) && Consistent(p)
    ensures p.success <==> Readable(response)
    ensures response.Answered? && !response.Ok() ==> p.error == Some(HttpError(response.status))
    ensures p.success ==> p.preview == Some(Preview(response.body.value.text, 200))
                          && p.dataType == Some(if response.body.value.json.Ok? then "JSON" else "TEXT/HTML")
  {
    match response
    case Threw(m) => Caught(e.description, Some(e.subject), None, Some(e.url), m)
    case Answered(status, statusText, body) =>
      var answer := Answer(e.description, Some(e.subject), None, e.url, None, status, statusText);
      if !(200 <= status <= 299) then answer.(error := Some(HttpError(status)))
      else
        match body
        case Err(m) => Caught(e.description, Some(e.subject), None, Some(e.url), m)
        case Ok(b) =>
          answer.(preview := Some(Preview(b.text, 200)), dataType := Some(if b.json.Ok? then "JSON" else "TEXT/HTML"))
  }

  /**
   * The text fallback as written never succeeds: a 2xx body that is not
   * JSON fails with the second read's error where the intended probe
   * reports TEXT/HTML; on every other response the two agree.
   */
  lemma SwedishTextFallbackFails(e: NamedEndpoint, response: Fetched<Body>)
    ensures Readable(response) && response.body.value.json.Err? ==>
              !SwedishProbe(e, response).success && SwedishProbe(e, response).error == Some(BODY_ALREADY_READ)
              && SwedishProbeIntended(e, response).success && SwedishProbeIntended(e, response).dataType == Some("TEXT/HTML")
    ensures !(Readable(response) && response.body.value.json.Err?) && (response.Ok() ==> response.body.Ok?) ==>
              SwedishProbe(e, response) == SwedishProbeIntended(e, response)
  {
  }

  /** `results.map(r => r.<field>)` for the reported provider, country or location. */
  function Subjects(results: seq<Probe>): (s: seq<Option<string>>)
    ensures |s| == |results| && forall i :: 0 <= i < |results| ==> s[i] == results[i].subject
  {
    seq(|results|, i requires 0 <= i < |results| => results[i].subject)
  }

  /** A summary that lists each reported subject once, in order of first appearance. */
  function ListingSummary(results: seq<Probe>): (s: Summary)
    ensures s.total == |results| && s.successful <= s.total && s.needsApiKey == Undefined
  {
    Summary(|results|, Successes(results), Undefined, Dedup(Subjects(results)))
  }

  /**
   * The listed subjects are those of the results, each once, in the order
   * in which they first appear.
   */
  lemma ListingSummarySpec(results: seq<Probe>)
    ensures NoDuplicates(ListingSummary(results).listed)
    ensures forall x :: x in ListingSummary(results).listed <==> exists i :: 0 <= i < |results| && results[i].subject == x
  {
    DedupSpec(Subjects(results));
    forall x ensures x in Subjects(results) <==> exists i :: 0 <= i < |results| && results[i].subject == x {
      if x in Subjects(results) {
        var i :| 0 <= i < |results| && Subjects(results)[i] == x;
      }
    }
  }

  method TestSwedishGridApi(responses: seq<Fetched<Body>>) returns (report: Report)
    requires |responses| == |SWEDISH_APIS|
    ensures report.provider == Some("Swedish National Grid") && !report.apiKeyRequired && report.error.None?
    ensures |report.results| == |SWEDISH_APIS|
    ensures forall i :: 0 <= i < |SWEDISH_APIS| ==> report.results[i] == SwedishProbe(SWEDISH_APIS[i], responses[i])
    ensures report.summary == Some(ListingSummary(report.results))
  {
    var results := PushEach(SWEDISH_APIS, responses, SwedishProbe);
    report := Report(Some("Swedish National Grid"), false, results, Some(ListingSummary(results)), None);
  }

  // ---------------------------------------------------------------------------
  // Energy-Charts probe

  /** The nine Energy-Charts endpoints `testEnergyChartsAPI` tries, in order. */
  const ENERGY_CHARTS_ENDPOINTS: seq<NamedEndpoint> := [
    NamedEndpoint("https://api.energy-charts.info/public_power", "Public Power Data", "All"),
    NamedEndpoint("https://api.energy-charts.info/renewable_power", "Renewable Power Data", "All"),
    NamedEndpoint("https://api.energy-charts.info/solar_power", "Solar Power Data", "All"),
    NamedEndpoint("https://api.energy-charts.info/wind_power", "Wind Power Data", "All"),
    NamedEndpoint("https://api.energy-charts.info/public_power?country=se", "Sweden Public Power", "Sweden"),
    NamedEndpoint("https://api.energy-charts.info/renewable_power?country=se", "Sweden Renewable Power", "Sweden"),
    NamedEndpoint("https://api.energy-charts.info/solar_power?country=se", "Sweden Solar Power", "Sweden"),
    NamedEndpoint("https://api.energy-charts.info/renewable_power?country=dk", "Denmark Renewable Power", "Denmark"),
    NamedEndpoint("https://api.energy-charts.info/renewable_power?country=no", "Norway Renewable Power", "Norway")
  ]

  /** One pass of the `testEnergyChartsAPI` loop: a 2xx body that is not JSON ends in the `catch`. */
  function EnergyChartsProbe(e: NamedEndpoint, response: Fetched<Body>): (p: Probe)
    ensures p.endpoint == e.description && p.subject == Some(e.subject) && p.url == Some(e.url) && Consistent(p)
    ensures p.success <==> ParsedJson(response)
    ensures response.Answered? && !response.Ok() ==> p.error == Some(HttpError(response.status))
    ensures Readable(response) && response.body.value.json.Err? ==> p.error == Some(response.body.value.json.message)
    ensures p.success ==> p.preview == Some(Preview(response.body.value.text, 200))
                          && p.dataLength == Some(|response.body.value.text|)
  {
    match response
    case Threw(m) => Caught(e.description, Some(e.subject), None, Some(e.url), m)
    case Answered(status, statusText, body) =>
      var answer := Answer(e.description, Some(e.subject), None, e.url, None, status, statusText);
      if !(200 <= status <= 299) then answer.(error := Some(HttpError(status)))
      else
        match body
        case Err(m) => Caught(e.description, Some(e.subject), None, Some(e.url), m)
        case Ok(b) =>
          match b.json
          case Err(m) => Caught(e.description, Some(e.subject), None, Some(e.url), m)
          case Ok(_) => answer.(preview := Some(Preview(b.text, 200)), dataLength := Some(|b.text|))
  }

  method TestEnergyChartsApi(responses: seq<Fetched<Body>>) returns (report: Report)
    requires |responses| == |ENERGY_CHARTS_ENDPOINTS|
    ensures report.provider == Some("Energy Charts") && !report.apiKeyRequired && report.error.None?
    ensures |report.results| == |ENERGY_CHARTS_ENDPOINTS|
    ensures forall i :: 0 <= i < |ENERGY_CHARTS_ENDPOINTS| ==>
              report.results[i] == EnergyChartsProbe(ENERGY_CHARTS_ENDPOINTS[i], responses[i])
    ensures report.summary == Some(ListingSummary(report.results))
  {
    var results := PushEach(ENERGY_CHARTS_ENDPOINTS, responses, EnergyChartsProbe);
    report := Report(Some("Energy Charts"), false, results, Some(ListingSummary(results)), None);
  }

  // ---------------------------------------------------------------------------
  // Electricity Maps probe

  /** The five Electricity Maps endpoints `testElectricityMapAPI` tries, in order. */
  const ELECTRICITY_MAP_ENDPOINTS: seq<AuthEndpoint> := [
    AuthEndpoint("https://api.electricitymap.org/health", "Health Check", false),
    AuthEndpoint("https://api.electricitymap.org/v3/carbon-intensity/latest?zone=SE", "Sweden Carbon Intensity", true),
    AuthEndpoint("https://api.electricitymap.org/v3/power-breakdown/latest?zone=SE", "Sweden Power Breakdown", true),
    AuthEndpoint("https://api.electricitymap.org/v3/power-breakdown/latest?zone=DK-DK1", "Denmark West Power Breakdown", true),
    AuthEndpoint("https://api.electricitymap.org/v3/carbon-intensity/latest?zone=NO-NO1", "Norway South Carbon Intensity", true)
  ]

  /** The request headers: the key goes in `auth-token` only when one is set and the endpoint needs it. */
  function ElectricityMapHeaders(e: AuthEndpoint, apiKey: Option<string>): (hs: seq<(string, string)>)
    ensures |hs| >= 2 && hs[..2] == [("Accept", "application/json"), ("User-Agent", "RebaseEnergyResearch/1.0")]
    ensures Lookup(hs, "auth-token").Some? <==> e.requiresAuth && Present(apiKey)
    ensures Lookup(hs, "auth-token").Some? ==> Lookup(hs, "auth-token").value == apiKey.value
  {
    var common := [("Accept", "application/json"), ("User-Agent", "RebaseEnergyResearch/1.0")];
    assert common[0].0 != "auth-token" && common[1].0 != "auth-token";
    if e.requiresAuth && Present(apiKey) then
      var hs := common + [("auth-token", apiKey.value)];
      LookupFirst(hs, 2);
      hs
    else
      common
  }

  const AUTH_REQUIRED := "Authentication required - API key needed"

  /** One pass of the `testElectricityMapAPI` loop: a 401 gets its own message. */
  function ElectricityMapProbe(e: AuthEndpoint, response: Fetched<Body>): (p: Probe)
    ensures p.endpoint == e.description && p.url == Some(e.url) && Consistent(p)
    ensures p.success <==> ParsedJson(response)
    ensures p.status == Some(401) <==> response.Answered? && response.status == 401
    ensures response.Answered? && !response.Ok() ==>
              p.requiresAuth == Some(e.requiresAuth)
              && p.error == Some(if response.status == 401 then AUTH_REQUIRED else HttpError(response.status))
    ensures p.success ==> p.preview == Some(Preview(response.body.value.text, 200))
  {
    match response
    case Threw(m) => Caught(e.description, None, None, Some(e.url), m)
    case Answered(status, statusText, body) =>
      var answer := Answer(e.description, None, None, e.url, Some(e.requiresAuth), status, statusText);
      if 200 <= status <= 299 then
        match body
        case Err(m) => Caught(e.description, None, None, Some(e.url), m)
        case Ok(b) =>
          match b.json
          case Err(m) => Caught(e.description, None, None, Some(e.url), m)
          case Ok(_) => answer.(preview := Some(Preview(b.text, 200)))
      else if status == 401 then answer.(error := Some(AUTH_REQUIRED))
      else answer.(error := Some(HttpError(status)))
  }

  /** The Electricity Maps summary: `needsApiKey` is the number of 401 answers, whatever the endpoint. */
  function ElectricityMapSummary(results: seq<Probe>): (s: Summary)
    ensures s.total == |results| && s.successful <= s.total
  {
    Summary(|results|, Successes(results), Num(Count(results, (p: Probe) => p.status == Some(401)) as real), [])
  }

  /**
   * The two probes that report `needsApiKey` disagree on its meaning: a
   * count of 401 answers here, a flag for 401 answers on endpoints that
   * need a key in the ENTSO-E probe. As truth values the count is set
   * exactly when some answer was 401.
   */
  lemma NeedsApiKeyConventions(results: seq<Probe>)
    ensures ElectricityMapSummary(results).needsApiKey.Num?
    ensures EntsoeSummary(results).needsApiKey.Bool?
    ensures Truthy(ElectricityMapSummary(results).needsApiKey) <==>
              exists i :: 0 <= i < |results| && results[i].status == Some(401)
    ensures Truthy(EntsoeSummary(results).needsApiKey) ==> Truthy(ElectricityMapSummary(results).needsApiKey)
  {
    CountSpec(results, (p: Probe) => p.status == Some(401));
  }

  method TestElectricityMapApi(responses: seq<Fetched<Body>>) returns (report: Report)
    requires |responses| == |ELECTRICITY_MAP_ENDPOINTS|
    ensures report.provider == Some("ElectricityMap") && report.apiKeyRequired && report.error.None?
    ensures |report.results| == |ELECTRICITY_MAP_ENDPOINTS|
    ensures forall i :: 0 <= i < |ELECTRICITY_MAP_ENDPOINTS| ==>
              report.results[i] == ElectricityMapProbe(ELECTRICITY_MAP_ENDPOINTS[i], responses[i])
    ensures report.summary == Some(ElectricityMapSummary(report.results))
  {
    var results := PushEach(ELECTRICITY_MAP_ENDPOINTS, responses, ElectricityMapProbe);
    report := Report(Some("ElectricityMap"), true, results, Some(ElectricityMapSummary(results)), None);
  }

  // ---------------------------------------------------------------------------
  // PVGIS probe

  /** A test location; latitude and longitude as `String(number)` prints them. */
  datatype Site = Site(name: string, lat: string, lon: string)

  /** The five Swedish locations `testPVGisAPI` tries, in order (55.6050 prints as 55.605). */
  const PVGIS_SITES: seq<Site> := [
    Site("Stockholm", "59.3293", "18.0686"),
    Site("Gothenburg", "57.7089", "11.9746"),
    Site("Malmö", "55.605", "13.0038"),
    Site("Uppsala", "59.8586", "17.6389"),
    Site("Kiruna (Northern)", "67.8558", "20.2253")
  ]

  function Coordinates(s: Site): string { s.lat + ", " + s.lon }

  function PVGisUrl(s: Site): string {
    "https://re.jrc.ec.europa.eu/api/v5_2/PVcalc?" + "lat=" + s.lat + "&lon=" + s.lon + "&raddatabase=PVGIS-SARAH2&"
    + "outputformat=json&peakpower=1&loss=14&pvtechchoice=crystSi&" + "mountingplace=free&angle=35&aspect=0"
  }

  /** `x?.E || 'N/A'`. */
  function OrNotAvailable(v: JsValue): (r: JsValue)
    ensures Truthy(r) && (Truthy(v) ==> r == v)
    ensures !Truthy(v) ==> r == Str("N/A")
  {
    Or(v, Str("N/A"))
  }

  /**
   * The `solarMetrics` extraction: reading `outputs` of a null payload
   * throws; the metrics exist when `outputs` and `outputs.totals` are
   * truthy, each one being the `fixed` figure or 'N/A'.
   */
  function SolarMetrics(data: JsValue): (r: Result<Option<JsValue>>)
    ensures r.Err? <==> Nullish(data)
    ensures r.Ok? ==> (r.value.Some? <==> Truthy(OptMember(data, "outputs"))
                                          && Truthy(OptMember(OptMember(data, "outputs"), "totals")))
    ensures r.Ok? && r.value.Some? ==>
              var fixed := OptMember(OptMember(OptMember(data, "outputs"), "totals"), "fixed");
              r.value.value == Obj(map["yearlyPVout" := OrNotAvailable(OptMember(fixed, "E_y")),
                                       "averageDailyPVout" := OrNotAvailable(OptMember(fixed, "E_d")),
                                       "solarIrradiation" := OrNotAvailable(OptMember(fixed, "H_sun"))])
  {
    match Member(data, "outputs")
    case Err(m) => Err(m)
    case Ok(outputs) =>
      if !Truthy(outputs) then Ok(None)
      else
        var totals := OptMember(outputs, "totals");
        if !Truthy(totals) then Ok(None)
        else
          var fixed := OptMember(totals, "fixed");
          Ok(Some(Obj(map["yearlyPVout" := OrNotAvailable(OptMember(fixed, "E_y")),
                          "averageDailyPVout" := OrNotAvailable(OptMember(fixed, "E_d")),
                          "solarIrradiation" := OrNotAvailable(OptMember(fixed, "H_sun"))])))
  }

  /** One pass of the `testPVGisAPI` loop; its `catch` reports no URL. */
  function PVGisProbe(s: Site, response: Fetched<Body>): (p: Probe)
    ensures p.endpoint == "PVGis Solar Resource - " + s.name && p.subject == Some(s.name)
    ensures p.coordinates == Some(Coordinates(s)) && Consistent(p)
    ensures p.success <==> ParsedJson(response) && SolarMetrics(response.body.value.json.value).Ok?
    ensures p.url.Some? <==> response.Answered? && (!response.Ok() || p.success)
    ensures p.success ==> p.preview == Some(Preview(response.body.value.text, 300))
                          && p.metrics == SolarMetrics(response.body.value.json.value).value
  {
    var endpoint := "PVGis Solar Resource - " + s.name;
    match response
    case Threw(m) => Caught(endpoint, Some(s.name), Some(Coordinates(s)), None, m)
    case Answered(status, statusText, body) =>
      var answer := Answer(endpoint, Some(s.name), Some(Coordinates(s)), PVGisUrl(s), None, status, statusText);
      if !(200 <= status <= 299) then answer.(error := Some(HttpError(status)))
      else
        match body
        case Err(m) => Caught(endpoint, Some(s.name), Some(Coordinates(s)), None, m)
        case Ok(b) =>
          match b.json
          case Err(m) => Caught(endpoint, Some(s.name), Some(Coordinates(s)), None, m)
          case Ok(data) =>
            match SolarMetrics(data)
            case Err(m) => Caught(endpoint, Some(s.name), Some(Coordinates(s)), None, m)
            case Ok(metrics) => answer.(preview := Some(Preview(b.text, 300)), metrics := metrics)
  }

  /** `testLocations.map(l => l.name)`. */
  function SiteNames(sites: seq<Site>): (names: seq<Option<string>>)
    ensures |names| == |sites| && forall i :: 0 <= i < |sites| ==> names[i] == Some(sites[i].name)
  {
    seq(|sites|, i requires 0 <= i < |sites| => Some(sites[i].name))
  }

  /** The results `testPVGisAPI` collects. */
  function PVGisResults(responses: seq<Fetched<Body>>): (rs: seq<Probe>)
    requires |responses| == |PVGIS_SITES|
    ensures |rs| == |PVGIS_SITES| && forall i :: 0 <= i < |rs| ==> rs[i] == PVGisProbe(PVGIS_SITES[i], responses[i])
  {
    seq(|PVGIS_SITES|, i requires 0 <= i < |PVGIS_SITES| => PVGisProbe(PVGIS_SITES[i], responses[i]))
  }

  method TestPVGisApi(responses: seq<Fetched<Body>>) returns (report: Report)
    requires |responses| == |PVGIS_SITES|
    ensures report.provider == Some("PVGis") && !report.apiKeyRequired && report.error.None?
    ensures report.results == PVGisResults(responses)
    ensures report.summary == Some(Summary(|PVGIS_SITES|, Successes(report.results), Undefined, SiteNames(PVGIS_SITES)))
  {
    var results := PushEach(PVGIS_SITES, responses, PVGisProbe);
    report := Report(Some("PVGis"), false, results,
                     Some(Summary(|results|, Successes(results), Undefined, SiteNames(PVGIS_SITES))), None);
  }

  // ---------------------------------------------------------------------------
  // OpenWeatherMap probe

  const OPENWEATHER_SITES: seq<Site> := [
    Site("Stockholm", "59.3293", "18.0686"),
    Site("Gothenburg", "57.7089", "11.9746")
  ]

  const NO_KEY_ERROR := "API key not found in environment variables"

  /** The One Call URL up to the key, and from after it. */
  function OneCallHead(s: Site): string {
    "https://api.openweathermap.org/data/3.0/onecall?" + "lat=" + s.lat + "&lon=" + s.lon + "&appid="
  }

  const ONE_CALL_TAIL := "&" + "exclude=minutely,alerts&units=metric"

  function OneCallUrl(s: Site, key: string): string { OneCallHead(s) + key + ONE_CALL_TAIL }

  /** `data.current` and the five figures read from it when it is truthy; a null payload throws. */
  function WeatherMetrics(data: JsValue): (r: Result<Option<JsValue>>)
    ensures r.Err? <==> Nullish(data)
    ensures r.Ok? ==> (r.value.Some? <==> Truthy(OptMember(data, "current")))
    ensures r.Ok? && r.value.Some? ==>
              var current := OptMember(data, "current");
              r.value.value == Obj(map["temperature" := OptMember(current, "temp"),
                                       "humidity" := OptMember(current, "humidity"),
                                       "windSpeed" := OptMember(current, "wind_speed"),
                                       "cloudCover" := OptMember(current, "clouds"),
                                       "uvIndex" := OptMember(current, "uvi")])
  {
    match Member(data, "current")
    case Err(m) => Err(m)
    case Ok(current) =>
      if !Truthy(current) then Ok(None)
      else
        Ok(Some(Obj(map["temperature" := OptMember(current, "temp"),
                        "humidity" := OptMember(current, "humidity"),
                        "windSpeed" := OptMember(current, "wind_speed"),
                        "cloudCover" := OptMember(current, "clouds"),
                        "uvIndex" := OptMember(current, "uvi")])))
  }

  /**
   * One pass of the `testOpenWeatherMapAPI` loop: the reported URL has the
   * first occurrence of the key replaced by `***`; the `catch` reports
   * neither URL nor coordinates.
   */
  function OpenWeatherProbe(key: string, s: Site, response: Fetched<Body>): (p: Probe)
    ensures p.endpoint == "OpenWeather OneCall - " + s.name && p.subject == Some(s.name) && Consistent(p)
    ensures p.success <==> ParsedJson(response) && WeatherMetrics(response.body.value.json.value).Ok?
    ensures response.Threw? ==> p.url.None? && p.coordinates.None?
    ensures response.Ok() && !p.success ==> p.url.None? && p.coordinates.None?
    ensures response.Answered? && (!response.Ok() || p.success) ==>
              p.url == Some(ReplaceFirst(OneCallUrl(s, key), key, "***"))
    ensures p.success ==> p.metrics == WeatherMetrics(response.body.value.json.value).value
  {
    var endpoint := "OpenWeather OneCall - " + s.name;
    match response
    case Threw(m) => Caught(endpoint, Some(s.name), None, None, m)
    case Answered(status, statusText, body) =>
      var answer := Answer(endpoint, Some(s.name), Some(Coordinates(s)), ReplaceFirst(OneCallUrl(s, key), key, "***"),
                           None, status, statusText);
      if !(200 <= status <= 299) then answer.(error := Some(HttpError(status)))
      else
        match body
        case Err(m) => Caught(endpoint, Some(s.name), None, None, m)
        case Ok(b) =>
          match b.json
          case Err(m) => Caught(endpoint, Some(s.name), None, None, m)
          case Ok(data) =>
            match WeatherMetrics(data)
            case Err(m) => Caught(endpoint, Some(s.name), None, None, m)
            case Ok(metrics) => answer.(preview := Some(Preview(b.text, 200)), metrics := metrics)
  }

  /**
   * When the key does not occur in the URL before the `appid` value, the
   * reported URL is the requested one with `***` for the key.
   */
  lemma OpenWeatherKeyMasked(key: string, s: Site)
    requires forall j :: 0 <= j < |OneCallHead(s)| ==> !OccursAt(OneCallUrl(s, key), key, j)
    ensures ReplaceFirst(OneCallUrl(s, key), key, "***") == OneCallHead(s) + "***" + ONE_CALL_TAIL
  {
    var url := OneCallHead(s) + key + ONE_CALL_TAIL;
    assert OneCallUrl(s, key) == url;
    ReplaceFirstAt(OneCallHead(s), key, ONE_CALL_TAIL, "***");
  }

  /**
   * `testOpenWeatherMapAPI`: without a key it makes no request and reports
   * an empty result list with an error; with one, a result per location.
   */
  method TestOpenWeatherMapApi(apiKey: Option<string>, responses: seq<Fetched<Body>>) returns (report: Report)
    requires Present(apiKey) ==> |responses| == |OPENWEATHER_SITES|
    ensures report.provider == Some("OpenWeatherMap")
    ensures !Present(apiKey) ==> report == Report(Some("OpenWeatherMap"), false, [], None, Some(NO_KEY_ERROR))
    ensures Present(apiKey) ==>
              report.apiKeyRequired && report.error.None? && |report.results| == |OPENWEATHER_SITES|
              && (forall i :: 0 <= i < |OPENWEATHER_SITES| ==>
                    report.results[i] == OpenWeatherProbe(apiKey.value, OPENWEATHER_SITES[i], responses[i]))
              && report.summary == Some(Summary(|OPENWEATHER_SITES|, Successes(report.results), Undefined,
                                                SiteNames(OPENWEATHER_SITES)))
  {
    if !Present(apiKey) {
      return Report(Some("OpenWeatherMap"), false, [], None, Some(NO_KEY_ERROR));
    }
    var key := apiKey.value;
    var results := PushEach(OPENWEATHER_SITES, responses, (s, r) => OpenWeatherProbe(key, s, r));
    report := Report(Some("OpenWeatherMap"), true, results,
                     Some(Summary(|results|, Successes(results), Undefined, SiteNames(OPENWEATHER_SITES))), None);
  }

  // ---------------------------------------------------------------------------
  // Discovery

  /** What `Promise.allSettled` reports for one probe. */
  datatype Settled = Fulfilled(report: Report) | Rejected(reason: string)

  /** `result.value || { error: result.reason }`. */
  function Settle(s: Settled): Report {
    match s
    case Fulfilled(r) => r
    case Rejected(reason) => Report(None, false, [], None, Some(reason))
  }

  /** `r.summary?.total || 0` and `r.summary?.successful || 0`. */
  function TotalOf(r: Report): nat { if r.summary.Some? then r.summary.value.total else 0 }
  function SuccessfulOf(r: Report): nat { if r.summary.Some? then r.summary.value.successful else 0 }

  /** `r.summary?.successful > 0`. */
  predicate Working(r: Report) { r.summary.Some? && r.summary.value.successful > 0 }

  /** No summary claims more successes than endpoints. */
  predicate WellFormed(r: Report) { r.summary.Some? ==> r.summary.value.successful <= r.summary.value.total }

  datatype DiscoverySummary = DiscoverySummary(totalApis: nat, successfulProviders: nat, totalEndpoints: nat,
                                               successfulEndpoints: nat, testDuration: int)

  /** The discovery `summary`; the start and end readings of the clock are parameters. */
  function SummariseDiscovery(reports: seq<Report>, startTime: int, endTime: int): DiscoverySummary {
    DiscoverySummary(6, Count(reports, Working), SumOf(reports, TotalOf), SumOf(reports, SuccessfulOf),
                     endTime - startTime)
  }

  /**
   * The roll-up is coherent: no more working providers than providers; no
   * working provider exactly when no endpoint succeeded; and, when every
   * summary is well formed, no more successful endpoints than endpoints.
   */
  lemma DiscoverySummaryCoherent(reports: seq<Report>, startTime: int, endTime: int)
    ensures SummariseDiscovery(reports, startTime, endTime).successfulProviders <= |reports|
    ensures SummariseDiscovery(reports, startTime, endTime).successfulProviders == 0
            <==> SummariseDiscovery(reports, startTime, endTime).successfulEndpoints == 0
    ensures (forall i :: 0 <= i < |reports| ==> WellFormed(reports[i])) ==>
              SummariseDiscovery(reports, startTime, endTime).successfulEndpoints
              <= SummariseDiscovery(reports, startTime, endTime).totalEndpoints
  {
    CountSpec(reports, Working);
    SumOfZero(reports, SuccessfulOf);
    if forall i :: 0 <= i < |reports| ==> WellFormed(reports[i]) {
      SumOfMono(reports, SuccessfulOf, TotalOf);
    }
  }

  datatype Priority = High | Medium | Low

  datatype Recommendation = Recommendation(api: Option<string>, status: string, reason: string, priority: Priority)

  /** `r.summary?.needsApiKey || r.apiKeyRequired`. */
  predicate KeyHinted(r: Report) { (r.summary.Some? && Truthy(r.summary.value.needsApiKey)) || r.apiKeyRequired }

  /**
   * One recommendation: high when some endpoint worked, medium when a key
   * is hinted at, low otherwise, with the report's error (or a stock
   * reason) as the explanation.
   */
  function RecommendationFor(r: Report): (rec: Recommendation)
    ensures rec.api == r.provider
    ensures rec.priority == High <==> Working(r)
    ensures rec.priority == Medium <==> !Working(r) && KeyHinted(r)
    ensures rec.priority == High ==> rec.reason == NatToString(r.summary.value.successful) + " working endpoints found"
    ensures rec.priority == Medium ==> rec.reason == "Free registration required"
    ensures rec.priority == Low ==>
              rec.reason == (if r.error.Some? && r.error.value != "" then r.error.value else "All endpoints failed")
  {
    if Working(r) then
      Recommendation(r.provider, "\U{2705} Ready to integrate",
                     NatToString(r.summary.value.successful) + " working endpoints found", High)
    else if KeyHinted(r) then
      Recommendation(r.provider, "\U{1F511} Needs API key", "Free registration required", Medium)
    else
      Recommendation(r.provider, "\U{274C} Not accessible",
                     if r.error.Some? && r.error.value != "" then r.error.value else "All endpoints failed", Low)
  }

  /** `generateAPIRecommendations`: one recommendation per provider, in order. */
  method GenerateApiRecommendations(reports: seq<Report>) returns (recs: seq<Recommendation>)
    ensures |recs| == |reports|
    ensures forall i :: 0 <= i < |reports| ==> recs[i] == RecommendationFor(reports[i])
  {
    recs := [];
    for i := 0 to |reports|
      invariant |recs| == i
      invariant forall k :: 0 <= k < i ==> recs[k] == RecommendationFor(reports[k])
    {
      recs := recs + [RecommendationFor(reports[i])];
    }
  }

  /** A probe report is recommended with high priority exactly when one of its endpoints succeeded. */
  lemma HighExactlyWhenSomeEndpointWorked(r: Report)
    requires r.summary.Some? && r.summary.value.successful == Successes(r.results)
    ensures RecommendationFor(r).priority == High <==> exists i :: 0 <= i < |r.results| && r.results[i].success
  {
    CountSpec(r.results, (p: Probe) => p.success);
  }

  /** Without a key the OpenWeatherMap probe is recommended with low priority, quoting its error. */
  lemma OpenWeatherWithoutKeyIsLow()
    ensures RecommendationFor(Report(Some("OpenWeatherMap"), false, [], None, Some(NO_KEY_ERROR)))
            == Recommendation(Some("OpenWeatherMap"), "\U{274C} Not accessible", NO_KEY_ERROR, Low)
  {
  }

  datatype Discovery = Discovery(reports: seq<Report>, summary: DiscoverySummary, recommendations: seq<Recommendation>)

  /**
   * `discoverAllEuropeanEnergyAPIs` once the six probes have settled: the
   * reports in a fixed order, the roll-up, and the recommendations.
   */
  method DiscoverAllEuropeanEnergyApis(settled: seq<Settled>, startTime: int, endTime: int) returns (d: Discovery)
    requires |settled| == 6
    ensures |d.reports| == 6 && forall i :: 0 <= i < 6 ==> d.reports[i] == Settle(settled[i])
    ensures d.summary == SummariseDiscovery(d.reports, startTime, endTime)
    ensures |d.recommendations| == 6
    ensures forall i :: 0 <= i < 6 ==> d.recommendations[i] == RecommendationFor(d.reports[i])
  {
    var reports := seq(6, i requires 0 <= i < 6 => Settle(settled[i]));
    var recommendations := GenerateApiRecommendations(reports);
    d := Discovery(reports, SummariseDiscovery(reports, startTime, endTime), recommendations);
  }

  // ---------------------------------------------------------------------------
  // Integration helpers

  datatype RealData = RealData(source: string, data: JsValue, success: bool, message: Option<string>)

  /** `r.<field>.toLowerCase().includes(query.toLowerCase()) && r.success`. */
  predicate Matches(query: string, p: Probe) {
    p.subject.Some? && Contains(ToLower(p.subject.value), ToLower(query)) && p.success
  }

  const NO_SOLAR_DATA := RealData("none", Null, false, Some("No real solar data sources available"))
  const NO_GRID_DATA := RealData("none", Null, false, Some("No real grid data sources available"))

  /**
   * The first successful result whose location contains the query, ignoring
   * case, answers only when it carries solar metrics; a later match is never
   * consulted.
   */
  function SolarDataOf(location: string, results: seq<Probe>): (r: RealData)
    ensures r.success <==> FindFirst(results, p => Matches(location, p)).Some?
                           && results[FindFirst(results, p => Matches(location, p)).value].metrics.Some?
    ensures r.success ==> r.source == "PVGis"
                          && Some(r.data) == results[FindFirst(results, p => Matches(location, p)).value].metrics
    ensures !r.success ==> r == NO_SOLAR_DATA
  {
    match FindFirst(results, p => Matches(location, p))
    case Some(i) =>
      if results[i].metrics.Some? then RealData("PVGis", results[i].metrics.value, true, None) else NO_SOLAR_DATA
    case None => NO_SOLAR_DATA
  }

  /** `fetchRealSwedishSolarData`: run the PVGIS probe and look for the location in it. */
  method FetchRealSwedishSolarData(location: string, responses: seq<Fetched<Body>>) returns (r: RealData)
    requires |responses| == |PVGIS_SITES|
    ensures r == SolarDataOf(location, PVGisResults(responses))
  {
    var report := TestPVGisApi(responses);
    r := SolarDataOf(location, report.results);
  }

  /** The first successful result whose country contains the query, ignoring case, answers with its preview. */
  function GridDataOf(country: string, results: seq<Probe>): (r: RealData)
    ensures r.success <==> exists i :: 0 <= i < |results| && Matches(country, results[i])
    ensures r.success ==> r.source == "Energy Charts"
                          && var i := FindFirst(results, p => Matches(country, p)).value;
                             r.data == (if results[i].preview.Some? then Str(results[i].preview.value) else Undefined)
    ensures !r.success ==> r == NO_GRID_DATA
  {
    match FindFirst(results, p => Matches(country, p))
    case Some(i) =>
      RealData("Energy Charts", if results[i].preview.Some? then Str(results[i].preview.value) else Undefined, true, None)
    case None => NO_GRID_DATA
  }

  /** `fetchRealEuropeanGridData(country = 'sweden')`: run the Energy-Charts probe and look for the country. */
  method FetchRealEuropeanGridData(country: Option<string>, responses: seq<Fetched<Body>>) returns (r: RealData)
    requires |responses| == |ENERGY_CHARTS_ENDPOINTS|
    ensures r == GridDataOf(country.GetOr("sweden"),
                            seq(|ENERGY_CHARTS_ENDPOINTS|, i requires 0 <= i < |ENERGY_CHARTS_ENDPOINTS| =>
                                  EnergyChartsProbe(ENERGY_CHARTS_ENDPOINTS[i], responses[i])))
  {
    var report := TestEnergyChartsApi(responses);
    assert report.results == seq(|ENERGY_CHARTS_ENDPOINTS|, i requires 0 <= i < |ENERGY_CHARTS_ENDPOINTS| =>
                                   EnergyChartsProbe(ENERGY_CHARTS_ENDPOINTS[i], responses[i]));
    r := GridDataOf(country.GetOr("sweden"), report.results);
  }
}
