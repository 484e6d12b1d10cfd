# Rebase energy dashboard: the data adapters

This project models the five API adapters of the Rebase energy dashboard
(`src/api/`) in Dafny and proves properties of the model. Each adapter
fetches one provider's data and falls back to generated mock data when the
request fails:

- `entsoeApi.js`: ENTSO-E day-ahead prices, solar and wind generation and
  system load for the Swedish bidding zones. The module builds the query,
  reads the XML `TimeSeries`/`Point` structure into hourly series, and
  supplies 24-hour mock series.
- `electricityMapApi.js`: Electricity Maps carbon intensity, power
  breakdown, history and exchanges. It also holds the carbon-level bands,
  the zone-name tables, the carbon-footprint formula and the mocks.
- `europeanEnergyApi.js`: a discovery run that probes ENTSO-E, Swedish grid
  sites, Energy-Charts, Electricity Maps, PVGis and OpenWeather One Call. It
  summarises the probes and turns them into integration recommendations.
  The module also has two helpers that extract "real" solar and grid data
  from the probes.
- `openWeatherApi.js`: current weather and the 5-day/3-hour forecast,
  with mocks.
- `rebaseApi.js`: the authenticated request helper, the connection test,
  the energy-site listing with its mock registry, and the weather fetch
  with its chain of three fallback endpoints.

The model works as follows:

- Every network call is a parameter `Fetched<T>`: either an answer (status,
  status text and a parsed body or a parse error) or a thrown error.
- `Math.random()` is a sequence of draws in `[0, 1)` consumed in source
  order, and `Math.sin` values are a sequence of waves in `[-1, 1]`.
- `Date.now()` is an integer `now` in milliseconds.
- The values JavaScript code reads from JSON are modelled by `Js.JsValue`,
  together with truthiness, `||`, `?.` and member access that throws on
  `null`/`undefined`.
- Functions that only compute become Dafny functions. Code that loops and
  pushes, or that normalises an array in place, becomes a method with loop
  invariants, proved equal to the specifying function.

The modules are `Common` (Option/Result, fetch outcomes, lookup in key/value
lists), `Sequences` (filter/map/count/sum/first-match helpers with their
specifications), `Text` (decimal formatting and parsing, padding, search
and replace, deduplication), `Js`, `Entsoe`, `ElectricityMap`,
`EuropeanEnergy`, `OpenWeather` and `Rebase`.

## Model

| member | source | states |
|---|---|---|
| Entsoe.FormatDateForEntsoe | src/api/entsoeApi.js:166-172 | the period string ends in the two literal zero minutes |
| Entsoe.FormatDateRoundTrip | src/api/entsoeApi.js:166-172 | for four-digit years, reading `yyyyMMddHH00` back gives the local date and hour that were formatted |
| Entsoe.FormatDateInjective | src/api/entsoeApi.js:166-172 | two different valid local hours never produce the same period string |
| Entsoe.Query | src/api/entsoeApi.js:41-163 | each fetcher sends six parameters with distinct names |
| Entsoe.QueryCommonParams | src/api/entsoeApi.js:43-50 | the token is sent as-is (the text "undefined" when absent), the document type is the feed's, and the in-domain defaults to SE3 |
| Entsoe.QueryPeriodParams | src/api/entsoeApi.js:48-49 | a missing or empty period start or end falls back to the default window |
| Entsoe.QueryFeedParams | src/api/entsoeApi.js:41-163 | prices and load carry an out-domain, while solar and wind carry the PSR type B16 or B19 and no out-domain |
| Entsoe.KeptSpec | src/api/entsoeApi.js:195-207 | the parser keeps exactly the points that have a position and a non-empty value, in document order |
| Entsoe.EntryOfSpec | src/api/entsoeApi.js:199-205 | an entry exists iff its position parses as an integer and the timestamp is a valid date; hour = position, timestamp = now + (hour-1) h |
| Entsoe.ParseXml | src/api/entsoeApi.js:174-306 | the loop over the first TimeSeries equals the parse specification |
| Entsoe.ParsedSeriesSpec | src/api/entsoeApi.js:209-215 | a parsed series is real, in SE3, in the parser's unit, and has one entry per kept point with that point's hour, time and reading |
| Entsoe.ConvertedEntries | src/api/entsoeApi.js:195-207 | every entry of a successful conversion is its point's entry: hour = `parseInt(position)`, timestamp = now + (hour-1) h, reading = the parsed value |
| Entsoe.LaterSeriesIgnored | src/api/entsoeApi.js:186-195 | only the first TimeSeries is read |
| Entsoe.ReasonRejected | src/api/entsoeApi.js:180-184 | a `Reason` element fails the price and generation parsers but is ignored by the load parser |
| Entsoe.WellFormedSeries | src/api/entsoeApi.js:195-215 | points numbered 1..n with values give n entries at hours 1..n, one hour apart from `now` |
| Entsoe.WellFormedEntry | src/api/entsoeApi.js:199-205 | a point at position k+1 becomes the entry for hour k+1 at now + k h |
| Entsoe.MockSolar | src/api/entsoeApi.js:337-344 | mock solar output lies between 0 and 832 MW and is 0 when the sun curve is not positive |
| Entsoe.MockWind | src/api/entsoeApi.js:362-368 | mock wind output is at least 100 MW |
| Entsoe.MockLoad | src/api/entsoeApi.js:386-394 | mock load is within 250 MW of the hour's base load |
| Entsoe.MockPrices | src/api/entsoeApi.js:309-332 | 24 hourly EUR/MWh mock entries, hours 1..24 from `now` |
| Entsoe.MockSolarGeneration | src/api/entsoeApi.js:334-357 | 24 hourly MW mock entries, all non-negative |
| Entsoe.MockWindGeneration | src/api/entsoeApi.js:359-381 | 24 hourly MW mock entries, each at least 100 |
| Entsoe.MockSystemLoad | src/api/entsoeApi.js:383-407 | 24 hourly MW mock entries, each the mock load of its hour |
| Entsoe.MockLoadPeaksAboveNight | src/api/entsoeApi.js:386-394 | every morning or evening peak hour has more mock load than every night hour |
| Entsoe.MockLayoutMatchesParse | src/api/entsoeApi.js:195-215 | a mock series and a parsed well-formed 24-point series have the same hours and timestamps |
| Entsoe.MockFor | src/api/entsoeApi.js:309-407 | every feed's mock has the 24-hour layout |
| Entsoe.FetchSeries | src/api/entsoeApi.js:41-163 | a fetcher returns the parsed series exactly when the answer is ok and parses, otherwise the feed's mock; the domain is always SE3 |
| Entsoe.DomainNameSpec | src/api/entsoeApi.js:410-418 | a code is renamed iff it is one of the four Swedish zones, and then to that zone's name |
| Entsoe.GetAllSwedishDomains | src/api/entsoeApi.js:420-426 | four entries SE1..SE4, each with its code, short name and display name |
| ElectricityMap.LevelOf | src/api/electricityMapApi.js:150-181 | each level holds exactly on its band: below 100, 100-200, 200-400, 400-600, and 600 and above |
| ElectricityMap.GetCarbonLevel | src/api/electricityMapApi.js:150-181 | the intensity is compared as `ToNumber` makes it: a finite number gets its band (`null`, `""` and `[]` count as 0), NaN (non-numeric text, an object, a longer array, `undefined`) falls through every comparison to Very High, +Infinity is Very High and -Infinity Very Low |
| ElectricityMap.CarbonLevelOfText | src/api/electricityMapApi.js:150-181 | decimal text such as "50", alone or as a one-element array, gets the band of the number it denotes |
| ElectricityMap.LevelMonotone | src/api/electricityMapApi.js:150-181 | a higher intensity never gets a better level |
| ElectricityMap.ThresholdsGoUp | src/api/electricityMapApi.js:150-181 | each threshold value itself belongs to the higher band |
| ElectricityMap.ZoneNamePrecedence | src/api/electricityMapApi.js:299-301 | Swedish names first, then European names, then the code itself |
| ElectricityMap.NationalSwedenWins | src/api/electricityMapApi.js:128-147 | "SE" is named "Sweden (National)" although the European table says "Sweden" |
| ElectricityMap.GetAllSwedishZones | src/api/electricityMapApi.js:303-308 | one code/name entry per Swedish zone, in table order |
| ElectricityMap.SwedishZonesNamed | src/api/electricityMapApi.js:299-308 | looking up each listed zone's code gives back its listed name |
| ElectricityMap.FootprintLaws | src/api/electricityMapApi.js:294-297 | the footprint is 0 for no consumption or no intensity, is linear in each argument, and is symmetric |
| ElectricityMap.GenerateMockCarbonIntensity | src/api/electricityMapApi.js:184-197 | mock intensity for the requested zone, between 40 and 100 |
| ElectricityMap.FetchCarbonIntensityAsWritten | src/api/electricityMapApi.js:10-27 | the payload on an ok answer; every failure ends in an error |
| ElectricityMap.CarbonIntensityFallbackThrows | src/api/electricityMapApi.js:22-26 | a 503 answer and a network error both end in an error instead of mock data |
| ElectricityMap.FetchCarbonIntensity | src/api/electricityMapApi.js:10-27 | the payload on an ok answer, otherwise mock data for the zone (default SE) |
| ElectricityMap.CarbonIntensityCorrection | src/api/electricityMapApi.js:10-27 | the corrected fetch agrees with the original on success and yields mock data exactly where the original throws |
| ElectricityMap.RealBreakdownOf | src/api/electricityMapApi.js:42-55 | reading the breakdown succeeds iff the payload is not null or undefined; the consumption and production breakdowns, the renewable and fossil-free percentages, `datetime` and `updatedAt` are the payload's own fields |
| ElectricityMap.TotalProduction | src/api/electricityMapApi.js:201 | mock total production is in [15000, 20000) MW |
| ElectricityMap.RawMix | src/api/electricityMapApi.js:203-210 | six strictly positive raw shares |
| ElectricityMap.SumScaled | src/api/electricityMapApi.js:212-216 | scaling every share scales their sum |
| ElectricityMap.NormalisedSum | src/api/electricityMapApi.js:212-216 | after normalising, the shares add up to the total production |
| ElectricityMap.FossilFreeSplit | src/api/electricityMapApi.js:218-219 | the fossil-free percentage is the renewable percentage plus the nuclear share, so never smaller |
| ElectricityMap.MockBreakdownShape | src/api/electricityMapApi.js:199-249 | the mock has the zone, shares summing to the total, coal/gas as 30/70 of fossil, battery discharge only on the consumption side, and fossil-free ≥ renewable |
| ElectricityMap.NormaliseInPlace | src/api/electricityMapApi.js:212-216 | the in-place loop leaves the array equal to the normalised mix |
| ElectricityMap.GenerateMockPowerBreakdown | src/api/electricityMapApi.js:199-249 | the method builds exactly the specified mock |
| ElectricityMap.FetchPowerBreakdown | src/api/electricityMapApi.js:29-60 | real iff an ok answer with a non-null payload, otherwise the mock for the zone (default SE) |
| ElectricityMap.HistoryWindow | src/api/electricityMapApi.js:66-67 | missing or empty bounds default to the last 24 hours ending now |
| ElectricityMap.MockIntensityAt | src/api/electricityMapApi.js:254-260 | a mock history value is at least 20 |
| ElectricityMap.GenerateMockCarbonHistory | src/api/electricityMapApi.js:251-271 | 24 hourly points ending at `now`, each at least 20 |
| ElectricityMap.MockHistoryInWindow | src/api/electricityMapApi.js:66-67 | the mock history is strictly increasing and lies inside the default window |
| ElectricityMap.FetchCarbonIntensityHistory | src/api/electricityMapApi.js:62-95 | real iff an ok answer with a non-null payload, whose `history` (undefined when absent) is returned, otherwise the mock history |
| ElectricityMap.GenerateMockExchanges | src/api/electricityMapApi.js:273-291 | five neighbour flows, each within its fixed range |
| ElectricityMap.FetchExchanges | src/api/electricityMapApi.js:97-125 | real iff an ok answer with a non-null payload, whose `exchanges` (undefined when absent) are returned, otherwise the mock flows |
| EuropeanEnergy.EicCodesCollide | src/api/europeanEnergyApi.js:12-21 | the Netherlands and France share one EIC code; every other pair is distinct |
| EuropeanEnergy.EicCodesAgainstSwedishZones | src/api/europeanEnergyApi.js:13-16 | the "Sweden" and "Finland" codes are the SE3 and SE4 bidding-zone codes of the ENTSO-E adapter |
| EuropeanEnergy.PsrCodesAgainstEntsoe | src/api/europeanEnergyApi.js:24-33 | the PSR codes agree with the ENTSO-E adapter except B15, which is fossil here and other renewable there |
| EuropeanEnergy.DocumentCodesAgainstEntsoe | src/api/europeanEnergyApi.js:36-41 | the shared document types carry the same codes in both adapters |
| EuropeanEnergy.FormatDateTimeAsWritten | src/api/europeanEnergyApi.js:47-49 | the original formatter returns at most 12 characters |
| EuropeanEnergy.FormatDateTimeKeepsT | src/api/europeanEnergyApi.js:47-49 | on an ISO time the original keeps the 'T' at index 8 and loses the last minute digit |
| EuropeanEnergy.FormatDateTime | src/api/europeanEnergyApi.js:47-49 | the corrected formatter returns at most 12 characters |
| EuropeanEnergy.FormatDateTimeDigits | src/api/europeanEnergyApi.js:47-49 | on an ISO time the corrected formatter yields the 12 digits yyyyMMddHHmm |
| EuropeanEnergy.FormatDateTimeMatchesEntsoe | src/api/europeanEnergyApi.js:47-49 | on the hour, the corrected formatter agrees with the ENTSO-E adapter's period format |
| EuropeanEnergy.GetTodayDateRange | src/api/europeanEnergyApi.js:51-61 | both bounds come from the formatter as written: 12 characters, the date digits, a 'T' at index 8, the hour and the first minute digit |
| EuropeanEnergy.TodayRangeAgainstCorrected | src/api/europeanEnergyApi.js:51-61 | each bound is the corrected 12-digit period with the 'T' put back after the day and its last minute digit lost |
| EuropeanEnergy.EntsoeEndpoints | src/api/europeanEnergyApi.js:72-98 | four probes, the first open and the other three needing the token |
| EuropeanEnergy.WithToken | src/api/europeanEnergyApi.js:110-113 | the token is appended only to endpoints that need it, and only when set |
| EuropeanEnergy.RedactAppendedToken | src/api/europeanEnergyApi.js:122 | masking an appended token leaves `securityToken=***` and leaves a URL without a token as it is |
| EuropeanEnergy.EntsoeProbe | src/api/europeanEnergyApi.js:102-151 | a probe succeeds iff the answer is ok and readable; a non-2xx answer reports the URL with the token masked and its HTTP status; a thrown request, or a 2xx whose body cannot be read, reports the URL with the token in clear and the error message |
| EuropeanEnergy.EntsoeTokenExposure | src/api/europeanEnergyApi.js:141-150 | answered probes show the masked token, but a thrown request reports the URL with the token in clear |
| EuropeanEnergy.EntsoeSummary | src/api/europeanEnergyApi.js:153-163 | `needsApiKey` is set iff some token-requiring probe got a 401 |
| EuropeanEnergy.TestEntsoeApi | src/api/europeanEnergyApi.js:67-164 | one probe per endpoint of today's range (built by GetTodayDateRange from the clock), in order, with the summary of those probes |
| EuropeanEnergy.SwedishProbe | src/api/europeanEnergyApi.js:230-277 | success iff a 2xx answer whose body parses as JSON, previewed and typed JSON; a non-JSON 2xx body fails with the second read's "body stream already read" error; a non-2xx answer carries its status |
| EuropeanEnergy.SwedishProbeIntended | src/api/europeanEnergyApi.js:250-258 | corrected: success iff a 2xx answer with a readable body; typed JSON when it parses, otherwise TEXT/HTML |
| EuropeanEnergy.SwedishTextFallbackFails | src/api/europeanEnergyApi.js:250-258 | a readable non-JSON 2xx body fails as written and succeeds as TEXT/HTML when corrected; on every other answer the two agree |
| EuropeanEnergy.ListingSummary | src/api/europeanEnergyApi.js:285-289 | total is the number of probes and successful never exceeds it |
| EuropeanEnergy.ListingSummarySpec | src/api/europeanEnergyApi.js:288 | the listed providers are the probes' providers, each once |
| EuropeanEnergy.TestSwedishGridApi | src/api/europeanEnergyApi.js:170-291 | one probe per Swedish site, in order, with the listing summary |
| EuropeanEnergy.EnergyChartsProbe | src/api/europeanEnergyApi.js:355-397 | success iff a 2xx answer whose body parses as JSON, previewed with its length; a non-2xx answer carries its status; a JSON error on a 2xx answer is reported as the error |
| EuropeanEnergy.TestEnergyChartsApi | src/api/europeanEnergyApi.js:297-410 | one probe per Energy-Charts endpoint, with the countries listed once each |
| EuropeanEnergy.ElectricityMapHeaders | src/api/europeanEnergyApi.js:455-462 | the `auth-token` header is sent iff the endpoint needs it and a key is set |
| EuropeanEnergy.ElectricityMapProbe | src/api/europeanEnergyApi.js:469-501 | a 401 is reported as needing a key, other failures by status |
| EuropeanEnergy.NeedsApiKeyConventions | src/api/europeanEnergyApi.js:157-163 | Electricity Maps counts 401s where ENTSO-E gives a boolean; a true ENTSO-E flag implies a non-zero count |
| EuropeanEnergy.TestElectricityMapApi | src/api/europeanEnergyApi.js:416-516 | one probe per endpoint; the key is always marked as required |
| EuropeanEnergy.OrNotAvailable | src/api/europeanEnergyApi.js:568-570 | a truthy figure is kept; a falsy one (missing, 0, "" or NaN) becomes "N/A" |
| EuropeanEnergy.SolarMetrics | src/api/europeanEnergyApi.js:566-572 | a null payload throws; metrics are present iff outputs and totals are, and are read from `totals.fixed` |
| EuropeanEnergy.PVGisProbe | src/api/europeanEnergyApi.js:536-593 | success iff JSON was read and the metrics step did not throw; the coordinates are always reported |
| EuropeanEnergy.TestPVGisApi | src/api/europeanEnergyApi.js:522-606 | one probe per site, with the summary listing every site |
| EuropeanEnergy.WeatherMetrics | src/api/europeanEnergyApi.js:658-666 | a null payload throws; metrics are present iff `current` is truthy, and then they are its `temp`, `humidity`, `wind_speed`, `clouds` and `uvi` |
| EuropeanEnergy.OpenWeatherProbe | src/api/europeanEnergyApi.js:635-686 | success iff a 2xx body parses as JSON and its metrics can be read; a non-2xx answer and a success report the URL with the first occurrence of the key replaced; a thrown request or a failed 2xx reports no URL and no coordinates |
| EuropeanEnergy.OpenWeatherKeyMasked | src/api/europeanEnergyApi.js:647 | when the key does not occur before the `appid` value, the replacement masks exactly the key |
| EuropeanEnergy.TestOpenWeatherMapApi | src/api/europeanEnergyApi.js:612-700 | without a key, the fixed "no key" report; with one, a probe per city |
| EuropeanEnergy.DiscoverySummaryCoherent | src/api/europeanEnergyApi.js:738-745 | working providers ≤ providers; no provider works iff no endpoint does; for well-formed reports successful ≤ total |
| EuropeanEnergy.RecommendationFor | src/api/europeanEnergyApi.js:770-800 | high iff some endpoint worked, medium iff none did and a key is hinted, otherwise low, with the matching reason |
| EuropeanEnergy.GenerateApiRecommendations | src/api/europeanEnergyApi.js:770-800 | one recommendation per report, in order |
| EuropeanEnergy.HighExactlyWhenSomeEndpointWorked | src/api/europeanEnergyApi.js:775-781 | when the count is honest, high priority means some probe succeeded and vice versa |
| EuropeanEnergy.OpenWeatherWithoutKeyIsLow | src/api/europeanEnergyApi.js:617-625 | the "no key" OpenWeather report is recommended low with its own error as the reason |
| EuropeanEnergy.DiscoverAllEuropeanEnergyApis | src/api/europeanEnergyApi.js:706-764 | six reports (a rejection becomes an error report), their summary and one recommendation each |
| EuropeanEnergy.SolarDataOf | src/api/europeanEnergyApi.js:806-832 | success iff the first matching successful site has metrics, which are returned; otherwise the fixed failure |
| EuropeanEnergy.FetchRealSwedishSolarData | src/api/europeanEnergyApi.js:806-832 | the search over the PVGis probes equals its specification |
| EuropeanEnergy.GridDataOf | src/api/europeanEnergyApi.js:834-859 | success iff some successful probe names the country; its preview is returned |
| EuropeanEnergy.FetchRealEuropeanGridData | src/api/europeanEnergyApi.js:834-859 | the search over the Energy-Charts probes, with "sweden" by default |
| OpenWeather.WeatherRequest | src/api/openWeatherApi.js:8-21 | a request is made iff an API key is set |
| OpenWeather.FromUnixSeconds | src/api/openWeatherApi.js:49-50 | Unix seconds become milliseconds |
| OpenWeather.RealWeather | src/api/openWeatherApi.js:30-51 | reading succeeds iff the payload and its `sys`, `coord`, `main` and `weather` exist and sunrise/sunset are valid; the name, country, coordinates, rounded temperature and times come from the payload |
| OpenWeather.RealWeatherDefaults | src/api/openWeatherApi.js:38-46 | wind speed and direction, description, icon and visibility are kept when truthy and otherwise become 0, 0, 'Unknown', '01d' and 10000; the feel is the rounded `feels_like`, humidity and pressure are the payload's |
| OpenWeather.MockDescription | src/api/openWeatherApi.js:119 | the mock description is one of the listed ones |
| OpenWeather.MockWeather | src/api/openWeatherApi.js:104-127 | the Stockholm mock, stamped `now`: temperature 5–20, feels-like 3–20, humidity 60–90, pressure 1010–1030, wind speed 0–10 m/s, wind direction 0–360, visibility 8000–10000, a description from the mock list and icon `03d`; sunrise is 6 h and sunset 18 h after `now` |
| OpenWeather.FetchCurrentWeather | src/api/openWeatherApi.js:8-57 | real iff there is a key and an ok answer that reads; otherwise the mock |
| OpenWeather.ForecastItemOf | src/api/openWeatherApi.js:87-94 | an item converts iff it, its `main` and its `weather` exist and its `dt` is a valid time; the time is `dt` in milliseconds, the temperature rounded, humidity the item's, and wind speed, description and icon are kept when truthy and otherwise 0, 'Unknown' and '01d' |
| OpenWeather.RealForecast | src/api/openWeatherApi.js:80-96 | reading succeeds iff the payload, `city` and `city.coord` exist, `list` is an array and every entry converts; the location comes from `city` and the items are the converted list |
| OpenWeather.RealForecastOneToOne | src/api/openWeatherApi.js:87-94 | one item per list element, each timed by its `dt` |
| OpenWeather.MockForecastItem | src/api/openWeatherApi.js:131-141 | slot i is at now + 3i h, with temperature 5–20, humidity 60–90, wind speed 0–10 m/s, a description from the mock list and icon `03d` |
| OpenWeather.GetMockForecastData | src/api/openWeatherApi.js:129-153 | the loop builds 40 slots, each the specified mock item |
| OpenWeather.MockForecastSpacing | src/api/openWeatherApi.js:131-141 | slots are 3 h apart, from `now` to now + 117 h |
| OpenWeather.FetchWeatherForecast | src/api/openWeatherApi.js:59-102 | real iff there is a key and an ok answer whose list reads; otherwise the 40-slot mock |
| Rebase.ConfigOf | src/api/rebaseApi.js:2-3 | a set, non-empty URL is the base URL; the default is used iff the setting is unset or empty (or is the default itself) |
| Rebase.PutLookup | src/api/rebaseApi.js:12-16 | setting a key in an object literal overrides that key only |
| Rebase.SpreadLookup | src/api/rebaseApi.js:12-23 | after a spread, a key has the spread object's value if it has one, and the earlier value otherwise |
| Rebase.CallerHeadersDropAuthorization | src/api/rebaseApi.js:19-23 | as written, a caller's `headers` option replaces the merged headers and loses Authorization and Content-Type |
| Rebase.RequestInit | src/api/rebaseApi.js:12-23 | corrected: method defaults to GET; caller headers win, then Content-Type and the bearer Authorization |
| Rebase.MergedHeadersLookup | src/api/rebaseApi.js:12-16 | the merged headers: caller headers win, then the two defaults |
| Rebase.RequestInitKeepsAuthorization | src/api/rebaseApi.js:12-23 | the corrected request keeps the bearer token unless the caller overrides it, and equals the original when no headers are passed |
| Rebase.RequestUrl | src/api/rebaseApi.js:8 | the URL is the base URL followed by the endpoint |
| Rebase.ApiResult | src/api/rebaseApi.js:27-38 | the data on an ok answer; "HTTP status: text" on a failed answer; the thrown message otherwise |
| Rebase.MakeApiRequest | src/api/rebaseApi.js:7-39 | as written: method defaults to GET; a caller's `headers` become the request headers outright; without them the headers carry the bearer token and the JSON content type and the request equals the corrected one; the outcome is the API result |
| Rebase.TestRebaseConnection | src/api/rebaseApi.js:42-57 | probes `/sites`; connected iff the request succeeds, otherwise the request's error |
| Rebase.MockSitesRegistry | src/api/rebaseApi.js:125-174 | four active sites with ids site-001..site-004, generation within capacity, efficiency in (0, 100] |
| Rebase.FetchEnergySites | src/api/rebaseApi.js:60-76 | requests `/sites` iff a key is set; real data iff that request succeeds, otherwise the mock sites |
| Rebase.MockConditions | src/api/rebaseApi.js:176-197 | each reading lies between its base and base plus its width, as `base + Math.random() * width` gives |
| Rebase.GetMockWeatherData | src/api/rebaseApi.js:176-197 | the Stockholm mock stamped `now`: current temperature 12–20, humidity 45–75, wind speed 2–8, pressure 1010–1030; 24 hourly entries, entry i at hour i and `now` + i h, with temperature 10–22, humidity 40–80, wind speed 1–9 and pressure 1005–1030 |
| Rebase.WeatherEndpoints | src/api/rebaseApi.js:91-107 | three endpoints, the last with fixed Stockholm coordinates |
| Rebase.RealWeatherOf | src/api/rebaseApi.js:110-116 | reading succeeds iff the payload is not null; `current` is the payload's `current` when truthy and the payload otherwise; `forecast` is the payload's `forecast` when truthy and `[]` otherwise |
| Rebase.FetchRebaseWeather | src/api/rebaseApi.js:81-122 | endpoints are tried in order up to the first success; real iff a key is set and that success has a payload; otherwise the mock |

## Left out

- Network, clock and randomness: `fetch`, `Date.now()`, `Math.random()` and `Math.sin` are parameters. Every random draw is a value in [0, 1) taken in source order.
- Console logging and the descriptive `description`/`website` strings of each report are not modelled.
- `JSON.stringify` is not modelled. A preview of a parsed body is approximated by the response body text; the two can differ in whitespace, key order and number spelling.
- `toISOString` output is not modelled: timestamps are integers in milliseconds. The exception is `formatDateTime`, which is modelled on the ISO string of a UTC time.
- Local time zones are not modelled. `formatDateForEntsoe` takes the local calendar fields as input. `getTodayDateRange` takes the two UTC times it formats.
- XML parsing (`DOMParser`) is not modelled: a document is its `Reason` flag and its series of points. Value text is kept as a reading; `parseFloat` is left abstract.
- Body streams are modelled only as far as the Swedish probe needs: after `response.json()` the body is used, so the text fallback rejects. The rejection message is the browser's wording (Chrome's is used), which differs between browsers.
- URL encoding of the location in the Rebase weather endpoints is not modelled: strings are concatenated as the template literal does.
- Fields of `options` other than `method` and `headers` are not modelled in `makeApiRequest`.
- The `catch` of `discoverAllEuropeanEnergyAPIs` is not modelled. Every probe catches its own errors and `Promise.allSettled` never rejects, so that branch cannot be reached in the model.
- Numbers are exact reals: the results of `Number(...)` and the arithmetic of ElectricityMap.FootprintLaws, ElectricityMap.SumScaled, ElectricityMap.NormalisedSum, ElectricityMap.FossilFreeSplit and ElectricityMap.MockBreakdownShape hold for real numbers. IEEE-754 doubles round, overflow to Infinity and have -0, so those sums and ratios agree with the source only up to rounding.
- Text.LowerChar: case folding covers ASCII and Latin-1 only; `toLowerCase` on other Unicode letters (Greek, Cyrillic and so on) is not modelled. Whitespace trimming follows the JavaScript set of space and line-terminator characters.
- `Date.now()` is a single `now` per call: the per-point `Date.now()` / `new Date()` calls in the ENTSO-E parsers and mocks and in the Rebase mock forecast are taken to read the same instant. The `fetchedAt` stamps are not modelled, and the per-entry `currency`/`unit` strings of ENTSO-E entries are modelled once per series as its unit.
- EntsoeProbe, SwedishProbe, EnergyChartsProbe, ElectricityMapProbe, PVGisProbe, OpenWeatherProbe: lengths and previews count Unicode code points, where JavaScript's `length` and `substring` count UTF-16 code units. Text outside the Basic Multilingual Plane gives a different `dataLength` and cut point, and JavaScript can split a surrogate pair there.
- Error messages are the `message` a `catch` reads, without the error's name (`TypeError`, `ReferenceError`, `RangeError`). The wording of engine-made messages is V8's; other engines word them differently.
- Lookups that hit `Object.prototype` (such as `getDomainName("toString")`) are not modelled.
- EuropeanEnergy.Matches: a probe without a provider or location counts as no match, where JavaScript would throw. Every probe the two search helpers read sets that field.

## Findings

| source | as written | input that shows it | evidently intended | confidence | as-written member | corrected member |
|---|---|---|---|---|---|---|
| src/api/electricityMapApi.js:25 | the `catch` returns `getMockCarbonIntensity()`, which is not defined anywhere, so every failure throws a ReferenceError | a 503 answer, or `fetch` rejecting with "Failed to fetch" | fall back to `generateMockCarbonIntensity(zone)` like the other fetchers (the corrected member also passes `zone`) | high (not executed) | ElectricityMap.CarbonIntensityFallbackThrows | ElectricityMap.CarbonIntensityCorrection |
| src/api/europeanEnergyApi.js:47-49 | `replace(/[-:]/g, '').slice(0, 12)` keeps the 'T' of the ISO string, giving `yyyyMMddTHHm` | any date, e.g. 2024-01-15T10:00:00.000Z gives `20240115T100` | the 12 digits `yyyyMMddHHmm` that ENTSO-E expects | high (not executed) | EuropeanEnergy.FormatDateTimeKeepsT | EuropeanEnergy.FormatDateTimeMatchesEntsoe |
| src/api/europeanEnergyApi.js:250-258 | after `response.json()` rejects, the `catch` calls `response.text()` on a body that is already used, which rejects too, so the outer `catch` records a failure | a 200 answer with an HTML body | a non-JSON page previewed as TEXT/HTML (read the text once, then try to parse it) | high (not executed) | EuropeanEnergy.SwedishTextFallbackFails | EuropeanEnergy.SwedishProbeIntended |
| src/api/rebaseApi.js:19-23 | `...options` comes after `headers`, so a caller's `options.headers` replaces the merged headers | options `{ headers: { Accept: 'text/csv' } }` loses Authorization and Content-Type | caller headers merged over the defaults | medium (not executed; no caller in these files passes options) | Rebase.CallerHeadersDropAuthorization | Rebase.RequestInitKeepsAuthorization |
