/**
 * The Rebase Energy adapter (`src/api/rebaseApi.js`): an authenticated GET
 * helper, a connection test, the site registry and a weather lookup that
 * tries three endpoints in turn, each falling back to mock data.
 *
 * The environment (`VITE_REBASE_API_URL`, `VITE_REBASE_API_KEY`) is a
 * `Config`; each request's outcome, the clock and the `Math.random()` draws
 * are parameters.
 */
module Rebase {
  import opened Common
  import opened Js
  import Text
  import Sequences

  const DEFAULT_BASE_URL := "https://api.rebase.energy/v1"

  datatype Config = Config(baseUrl: string, apiKey: Option<string>)

  /** `VITE_REBASE_API_URL || 'https://api.rebase.energy/v1'`, with the key as configured. */
  function ConfigOf(configuredUrl: Option<string>, apiKey: Option<string>): (c: Config)
    ensures c.apiKey == apiKey
    ensures c.baseUrl == DEFAULT_BASE_URL <==> configuredUrl.None? || configuredUrl.value in {"", DEFAULT_BASE_URL}
    ensures configuredUrl.Some? && configuredUrl.value != "" ==> c.baseUrl == configuredUrl.value
  {
    Config(if configuredUrl.Some? && configuredUrl.value != "" then configuredUrl.value else DEFAULT_BASE_URL, apiKey)
  }

  // ---------------------------------------------------------------------------
  // Object spread over header dictionaries

  /** An object as its (name, value) pairs in insertion order. */
  type Fields = seq<(string, string)>

  /** `obj[k] = v`: overwrite the first pair named `k` in place, or append one. */
  function Put(obj: Fields, k: string, v: string): (r: Fields)
    ensures |r| == |obj| || |r| == |obj| + 1
  {
    if obj == [] then [(k, v)]
    else if obj[0].0 == k then [(k, v)] + obj[1..]
    else [obj[0]] + Put(obj[1..], k, v)
  }

  /** After `obj[k] = v`, `k` reads `v` and every other name reads as before. */
  lemma {:induction false} PutLookup(obj: Fields, k: string, v: string, j: string)
    ensures Lookup(Put(obj, k, v), j) == if j == k then Some(v) else Lookup(obj, j)
  {
    if obj != [] && obj[0].0 != k {
      PutLookup(obj[1..], k, v, j);
    }
  }

  /** `{ ...obj, ...over }`: the pairs of `over` assigned one by one onto `obj`. */
  function Spread(obj: Fields, over: Fields): Fields
    decreases |over|
  {
    if over == [] then obj else Spread(Put(obj, over[0].0, over[0].1), over[1..])
  }

  /** A spread name reads its value from `over` when `over` has it, from `obj` otherwise. */
  lemma {:induction false} SpreadLookup(obj: Fields, over: Fields, j: string)
    requires UniqueKeys(over)
    ensures Lookup(Spread(obj, over), j) == if Lookup(over, j).Some? then Lookup(over, j) else Lookup(obj, j)
    decreases |over|
  {
    if over != [] {
      var (k, v) := over[0];
      assert UniqueKeys(over[1..]) by {
        forall a, b | 0 <= a < b < |over[1..]| ensures over[1..][a].0 != over[1..][b].0 {
          assert over[1..][a] == over[a + 1] && over[1..][b] == over[b + 1];
        }
      }
      SpreadLookup(Put(obj, k, v), over[1..], j);
      PutLookup(obj, k, v, j);
      if j == k {
        assert Lookup(over[1..], j).None? by {
          forall a | 0 <= a < |over[1..]| ensures over[1..][a].0 != j {
            assert over[1..][a] == over[a + 1];
          }
        }
      }
    }
  }

  // ---------------------------------------------------------------------------
  // makeApiRequest

  /** The caller's `options`: the properties that the request `init` reads. */
  datatype Options = Options(verb: Option<string>, headers: Option<Fields>)

  const NO_OPTIONS := Options(None, None)

  /** The `init` passed to `fetch`. */
  datatype Init = Init(verb: string, headers: Fields)

  /** `` `Bearer ${API_KEY}` ``: an undefined key prints as "undefined". */
  function Bearer(c: Config): string {
    "Bearer " + (if c.apiKey.Some? then c.apiKey.value else "undefined")
  }

  /** `{ 'Content-Type': ..., 'Authorization': ..., ...options.headers }`. */
  function MergedHeaders(c: Config, options: Options): Fields {
    Spread([("Content-Type", "application/json"), ("Authorization", Bearer(c))], options.headers.GetOr([]))
  }

  /**
   * `{ method: 'GET', headers, ...options }` as written: a caller's
   * `options.headers` is spread after the merged set and replaces it whole.
   */
  function InitAsWritten(c: Config, options: Options): Init {
    Init(options.verb.GetOr("GET"),
         if options.headers.Some? then options.headers.value else MergedHeaders(c, options))
  }

  /** One caller header is enough for the request as written to go out without credentials. */
  lemma CallerHeadersDropAuthorization(c: Config)
    ensures var init := InitAsWritten(c, Options(None, Some([("Accept", "text/csv")])));
            Lookup(init.headers, "Authorization").None? && Lookup(init.headers, "Content-Type").None?
  {
  }

  /** `{ method: 'GET', ...options, headers }`: the merged set always wins. */
  function RequestInit(c: Config, options: Options): (init: Init)
    requires options.headers.Some? ==> UniqueKeys(options.headers.value)
    ensures init.verb == options.verb.GetOr("GET")
    ensures forall j :: Lookup(init.headers, j) ==
              if options.headers.Some? && Lookup(options.headers.value, j).Some? then Lookup(options.headers.value, j)
              else if j == "Content-Type" then Some("application/json")
              else if j == "Authorization" then Some(Bearer(c))
              else None
  {
    MergedHeadersLookup(c, options);
    Init(options.verb.GetOr("GET"), MergedHeaders(c, options))
  }

  lemma MergedHeadersLookup(c: Config, options: Options)
    requires options.headers.Some? ==> UniqueKeys(options.headers.value)
    ensures forall j :: Lookup(MergedHeaders(c, options), j) ==
              if options.headers.Some? && Lookup(options.headers.value, j).Some? then Lookup(options.headers.value, j)
              else if j == "Content-Type" then Some("application/json")
              else if j == "Authorization" then Some(Bearer(c))
              else None
  {
    var over := options.headers.GetOr([]);
    var base := [("Content-Type", "application/json"), ("Authorization", Bearer(c))];
    assert MergedHeaders(c, options) == Spread(base, over);
    forall j ensures Lookup(Spread(base, over), j) ==
                       if options.headers.Some? && Lookup(options.headers.value, j).Some? then Lookup(options.headers.value, j)
                       else if j == "Content-Type" then Some("application/json")
                       else if j == "Authorization" then Some(Bearer(c))
                       else None {
      SpreadLookup(base, over, j);
      assert Lookup(base, j) == if j == "Content-Type" then Some("application/json")
                                else if j == "Authorization" then Some(Bearer(c)) else None;
    }
  }

  /**
   * The corrected init sends the bearer token unless the caller names an
   * Authorization header itself, and agrees with the init as written
   * whenever the caller passes no headers.
   */
  lemma RequestInitKeepsAuthorization(c: Config, options: Options)
    requires options.headers.Some? ==> UniqueKeys(options.headers.value)
    ensures options.headers.None? || Lookup(options.headers.value, "Authorization").None? ==>
              Lookup(RequestInit(c, options).headers, "Authorization") == Some(Bearer(c))
    ensures options.headers.None? ==> RequestInit(c, options) == InitAsWritten(c, options)
  {
  }

  /** `` `${BASE_URL}${endpoint}` ``. */
  function RequestUrl(c: Config, endpoint: string): (url: string)
    ensures |url| == |c.baseUrl| + |endpoint|
    ensures url[..|c.baseUrl|] == c.baseUrl && url[|c.baseUrl|..] == endpoint
  {
    c.baseUrl + endpoint
  }

  /**
   * `makeApiRequest`'s outcome: the parsed body of a 2xx answer; otherwise
   * the error it rethrows, "HTTP <status>: <statusText>" for a refused
   * status, the fetch or parse error as it came for the rest.
   */
  function ApiResult(response: Fetched<JsValue>): (r: Result<JsValue>)
    ensures r.Ok? <==> response.Ok() && response.body.Ok?
    ensures r.Ok? ==> r.value == response.body.value
    ensures response.Answered? && !response.Ok() ==>
              r == Err("HTTP " + Text.IntToString(response.status) + ": " + response.statusText)
    ensures response.Threw? ==> r == Err(response.message)
  {
    match response
    case Threw(m) => Err(m)
    case Answered(status, statusText, body) =>
      if !(200 <= status <= 299) then Err("HTTP " + Text.IntToString(status) + ": " + statusText)
      else body
  }

  /** One request: where it goes, with what, and what comes back. */
  datatype Request = Request(url: string, init: Init)

  /**
   * `makeApiRequest` as written: the URL, the init it builds (a caller's
   * `headers` replace the merged set, the default set carries the JSON
   * content type and the bearer token), and the outcome.
   */
  function MakeApiRequest(c: Config, endpoint: string, options: Options, response: Fetched<JsValue>)
    : (r: (Request, Result<JsValue>))
    ensures r.0.url == RequestUrl(c, endpoint) && r.0.init.verb == options.verb.GetOr("GET")
    ensures options.headers.Some? ==> r.0.init.headers == options.headers.value
    ensures options.headers.None? ==>
              Lookup(r.0.init.headers, "Authorization") == Some(Bearer(c))
              && Lookup(r.0.init.headers, "Content-Type") == Some("application/json")
    ensures options.headers.None? ==> r.0.init == RequestInit(c, options)
    ensures r.1 == ApiResult(response)
  {
    (Request(RequestUrl(c, endpoint), InitAsWritten(c, options)), ApiResult(response))
  }

  // ---------------------------------------------------------------------------
  // Connection test and sites

  datatype Connection = Connected(data: JsValue) | Failed(error: string)

  /** `testRebaseConnection`: a GET of `/sites`, reported rather than thrown; no key check is made. */
  function TestRebaseConnection(c: Config, response: Fetched<JsValue>): (r: (Request, Connection))
    ensures r.0.url == c.baseUrl + "/sites"
    ensures r.1.Connected? <==> response.Ok() && response.body.Ok?
    ensures r.1.Connected? ==> r.1.data == response.body.value
    ensures r.1.Failed? ==> Err(r.1.error) == ApiResult(response)
  {
    var (request, result) := MakeApiRequest(c, "/sites", NO_OPTIONS, response);
    (request, match result case Ok(data) => Connected(data) case Err(m) => Failed(m))
  }

  datatype EnergySite = EnergySite(id: string, name: string, location: string, lat: real, lng: real,
                                   capacity: nat, kind: string, status: string, installationDate: string,
                                   currentGeneration: real, efficiency: real)

  /** `getMockSites`: four Swedish sites, capacities in MW. */
  const MOCK_SITES: seq<EnergySite> := [
    EnergySite("site-001", "Stockholm Solar Farm", "Stockholm, Sweden", 59.3293, 18.0686, 50, "solar", "active",
               "2023-06-15", 35.2, 87.5),
    EnergySite("site-002", "Gotland Wind Farm", "Gotland, Sweden", 57.4684, 18.4867, 120, "wind", "active",
               "2022-09-22", 89.4, 74.5),
    EnergySite("site-003", "Malmö Offshore Wind", "Malmö, Sweden", 55.6050, 13.0038, 200, "wind_offshore", "active",
               "2024-01-10", 156.8, 78.4),
    EnergySite("site-004", "Västerås Hydro Plant", "Västerås, Sweden", 59.6162, 16.5528, 75, "hydro", "active",
               "2021-03-18", 68.9, 91.9)
  ]

  /**
   * The mock registry: four sites with distinct ids site-001 to site-004, all
   * active, each generating no more than its capacity at an efficiency
   * between 0 and 100 percent.
   */
  lemma MockSitesRegistry()
    ensures |MOCK_SITES| == 4
    ensures forall i :: 0 <= i < 4 ==> MOCK_SITES[i].id == "site-00" + Text.NatToString(i + 1)
    ensures forall i, j :: 0 <= i < j < 4 ==> MOCK_SITES[i].id != MOCK_SITES[j].id
    ensures forall i :: 0 <= i < 4 ==> MOCK_SITES[i].status == "active"
    ensures forall i :: 0 <= i < 4 ==>
              0.0 <= MOCK_SITES[i].currentGeneration <= MOCK_SITES[i].capacity as real
              && 0.0 < MOCK_SITES[i].efficiency <= 100.0
  {
    forall i | 0 <= i < 4 ensures MOCK_SITES[i].id == "site-00" + Text.NatToString(i + 1) {
      assert Text.NatToString(i + 1) == [Text.DigitChar(i + 1)];
    }
  }

  datatype Sites = RealSites(payload: JsValue) | MockSites(sites: seq<EnergySite>)

  /**
   * `fetchEnergySites`: the mock registry without a request when there is no
   * key, and again when the request fails; otherwise the payload unchanged.
   */
  function FetchEnergySites(c: Config, response: Fetched<JsValue>): (r: (Option<Request>, Sites))
    ensures r.0.Some? <==> Present(c.apiKey)
    ensures r.0.Some? ==> r.0.value.url == c.baseUrl + "/sites"
    ensures r.1.RealSites? <==> Present(c.apiKey) && ApiResult(response).Ok?
    ensures r.1.RealSites? ==> r.1.payload == response.body.value
    ensures r.1.MockSites? ==> r.1.sites == MOCK_SITES
  {
    if !Present(c.apiKey) then (None, MockSites(MOCK_SITES))
    else
      var (request, result) := MakeApiRequest(c, "/sites", NO_OPTIONS, response);
      (Some(request), match result case Ok(sites) => RealSites(sites) case Err(_) => MockSites(MOCK_SITES))
  }

  // ---------------------------------------------------------------------------
  // Weather

  datatype Conditions = Conditions(temperature: real, humidity: real, windSpeed: real, pressure: real)

  datatype HourlyConditions = HourlyConditions(hour: nat, timestamp: int, conditions: Conditions)

  datatype RebaseWeather =
    | RealWeather(current: JsValue, forecast: JsValue, location: string, timestamp: int)
    | MockWeather(conditions: Conditions, hourly: seq<HourlyConditions>, location: string, timestamp: int)
  {
    function Source(): Source { if RealWeather? then Real else Mock }
  }

  /** `low + Math.random() * width`: in [low, low + width). */
  function Between(low: real, width: real, draw: real): (x: real)
    requires 0.0 <= draw < 1.0 && 0.0 <= width
    ensures low <= x <= low + width
  {
    ScaledDraw(draw, width);
    low + draw * width
  }

  /** Mock conditions from four draws. */
  function MockConditions(temperature: (real, real), humidity: (real, real), windSpeed: (real, real),
                          pressure: (real, real), draws: seq<real>): (c: Conditions)
    requires UnitDraws(draws, 4)
    requires 0.0 <= temperature.1 && 0.0 <= humidity.1 && 0.0 <= windSpeed.1 && 0.0 <= pressure.1
    ensures temperature.0 <= c.temperature <= temperature.0 + temperature.1
    ensures humidity.0 <= c.humidity <= humidity.0 + humidity.1
    ensures windSpeed.0 <= c.windSpeed <= windSpeed.0 + windSpeed.1
    ensures pressure.0 <= c.pressure <= pressure.0 + pressure.1
  {
    Conditions(Between(temperature.0, temperature.1, draws[0]), Between(humidity.0, humidity.1, draws[1]),
               Between(windSpeed.0, windSpeed.1, draws[2]), Between(pressure.0, pressure.1, draws[3]))
  }

  /**
   * `getMockWeatherData` from 100 draws (four for now, four per hour): 24
   * hourly entries, entry `i` for hour `i` at now + i hours, in Stockholm.
   */
  function GetMockWeatherData(now: int, draws: seq<real>): (w: RebaseWeather)
    requires UnitDraws(draws, 100)
    ensures w.MockWeather? && w.location == "Stockholm" && w.timestamp == now
    ensures |w.hourly| == 24
    ensures forall i :: 0 <= i < 24 ==> w.hourly[i].hour == i && w.hourly[i].timestamp == now + i * HOUR_MS
    ensures 12.0 <= w.conditions.temperature <= 20.0 && 45.0 <= w.conditions.humidity <= 75.0
    ensures 2.0 <= w.conditions.windSpeed <= 8.0 && 1010.0 <= w.conditions.pressure <= 1030.0
    ensures forall i :: 0 <= i < 24 ==>
              var c := w.hourly[i].conditions;
              10.0 <= c.temperature <= 22.0 && 40.0 <= c.humidity <= 80.0
              && 1.0 <= c.windSpeed <= 9.0 && 1005.0 <= c.pressure <= 1030.0
  {
    MockWeather(MockConditions((12.0, 8.0), (45.0, 30.0), (2.0, 6.0), (1010.0, 20.0), draws[..4]),
                seq(24, i requires 0 <= i < 24 =>
                      HourlyConditions(i, now + i * HOUR_MS,
                                       MockConditions((10.0, 12.0), (40.0, 40.0), (1.0, 8.0), (1005.0, 25.0),
                                                      draws[4 + 4 * i .. 8 + 4 * i]))),
                "Stockholm", now)
  }

  /** The endpoints tried in order; the last one names Stockholm's coordinates whatever the location. */
  function WeatherEndpoints(location: string): (e: seq<string>)
    ensures |e| == 3 && e[2] == "/weather?lat=59.3293&lon=18.0686"
  {
    ["/weather?location=" + location, "/weather/current?location=" + location, "/weather?lat=59.3293&lon=18.0686"]
  }

  /**
   * The `real` result: `weather.current || weather`, `weather.forecast || []`
   * and the requested location; a null payload makes `weather.current` throw.
   */
  function RealWeatherOf(payload: JsValue, location: string, now: int): (r: Result<RebaseWeather>)
    ensures r.Ok? <==> !Nullish(payload)
    ensures r.Ok? ==> r.value.RealWeather? && r.value.location == location && r.value.timestamp == now
    ensures r.Ok? ==> r.value.current == (if Truthy(OptMember(payload, "current")) then OptMember(payload, "current")
                                         else payload)
    ensures r.Ok? ==> Truthy(r.value.forecast)
    ensures r.Ok? ==> var f := OptMember(payload, "forecast");
                      (Truthy(f) ==> r.value.forecast == f) && (!Truthy(f) ==> r.value.forecast == Arr([]))
  {
    match Member(payload, "current")
    case Err(m) => Err(m)
    case Ok(current) => Ok(RealWeather(Or(current, payload), Or(OptMember(payload, "forecast"), Arr([])), location, now))
  }

  /** The outcomes of the three attempts, as `makeApiRequest` reports them. */
  function Attempts(responses: seq<Fetched<JsValue>>): (r: seq<Result<JsValue>>)
    requires |responses| == 3
    ensures |r| == 3 && forall i :: 0 <= i < 3 ==> r[i] == ApiResult(responses[i])
  {
    [ApiResult(responses[0]), ApiResult(responses[1]), ApiResult(responses[2])]
  }

  predicate Succeeded(r: Result<JsValue>) { r.Ok? }

  /**
   * `fetchRebaseWeather(location = 'Stockholm')`: without a key, the mock
   * and no request; otherwise the endpoints are tried in order until one
   * answers, so exactly the attempts up to the first success are made. The
   * first payload gives the real result; no success, or a null payload,
   * gives the mock.
   */
  method FetchRebaseWeather(c: Config, location: Option<string>, responses: seq<Fetched<JsValue>>, now: int,
                            draws: seq<real>)
    returns (w: RebaseWeather, requested: seq<string>)
    requires |responses| == 3 && UnitDraws(draws, 100)
    ensures var place := location.GetOr("Stockholm");
            var first := Sequences.FindFirst(Attempts(responses), Succeeded);
            && (!Present(c.apiKey) ==> requested == [] && w == GetMockWeatherData(now, draws))
            && (Present(c.apiKey) && first.Some? ==> requested == WeatherEndpoints(place)[..first.value + 1])
            && (Present(c.apiKey) && first.None? ==> requested == WeatherEndpoints(place))
            && (w.RealWeather? <==> Present(c.apiKey) && first.Some? && !Nullish(Attempts(responses)[first.value].value))
            && (w.RealWeather? ==> Ok(w) == RealWeatherOf(Attempts(responses)[first.value].value, place, now))
            && (w.MockWeather? ==> w == GetMockWeatherData(now, draws))
  {
    var place := location.GetOr("Stockholm");
    ghost var attempts := Attempts(responses);
    if !Present(c.apiKey) {
      return GetMockWeatherData(now, draws), [];
    }
    var endpoints := WeatherEndpoints(place);
    var weather: Option<JsValue> := None;
    var result := ApiResult(responses[0]);
    requested := [endpoints[0]];
    if result.Ok? {
      weather := Some(result.value);
    } else {
      result := ApiResult(responses[1]);
      requested := requested + [endpoints[1]];
      if result.Ok? {
        weather := Some(result.value);
      } else {
        result := ApiResult(responses[2]);
        requested := requested + [endpoints[2]];
        if result.Ok? {
          weather := Some(result.value);
        }
      }
    }
    assert requested == endpoints[..|requested|];
    if weather.Some? {
      var normalised := RealWeatherOf(weather.value, place, now);
      if normalised.Ok? {
        return normalised.value, requested;
      }
    }
    w := GetMockWeatherData(now, draws);
  }
}
