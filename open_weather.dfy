/**
 * The OpenWeatherMap adapter (`src/api/openWeatherApi.js`): current weather
 * and the five-day forecast for a coordinate, normalised into the
 * dashboard's shape, with mock data whenever the key is missing, the call
 * fails or the payload cannot be normalised.
 *
 * The payload is a `JsValue`; the clock (`Date.now()`) and the
 * `Math.random()` draws are parameters. Instants are epoch milliseconds,
 * standing for the `toISOString()` text the adapter stores.
 */
module OpenWeather {
  import opened Common
  import opened Js
  import opened Sequences

  /** `DEFAULT_COORDS`, as the query string prints them. */
  const DEFAULT_LAT := "59.3293"
  const DEFAULT_LON := "18.0686"

  function CurrentWeatherUrl(lat: string, lon: string, key: string): string {
    "https://api.openweathermap.org/data/2.5/weather?lat=" + lat + "&lon=" + lon + "&appid=" + key + "&units=metric"
  }

  function ForecastUrl(lat: string, lon: string, key: string): string {
    "https://api.openweathermap.org/data/2.5/forecast?lat=" + lat + "&lon=" + lon + "&appid=" + key
    + "&units=metric&cnt=40"
  }

  /**
   * The request each function makes: none without a key, otherwise the
   * endpoint URL for the given (or default Stockholm) coordinates.
   */
  function WeatherRequest(forecast: bool, lat: Option<string>, lon: Option<string>, apiKey: Option<string>)
    : (url: Option<string>)
    ensures url.Some? <==> Present(apiKey)
  {
    if !Present(apiKey) then None
    else if forecast then Some(ForecastUrl(lat.GetOr(DEFAULT_LAT), lon.GetOr(DEFAULT_LON), apiKey.value))
    else Some(CurrentWeatherUrl(lat.GetOr(DEFAULT_LAT), lon.GetOr(DEFAULT_LON), apiKey.value))
  }

  /** The `location` block of a result. */
  datatype Place = Place(name: JsValue, country: JsValue, lat: JsValue, lon: JsValue)

  /** Stockholm, Sweden: the location of both mocks. */
  const STOCKHOLM := Place(Str("Stockholm"), Str("SE"), Num(59.3293), Num(18.0686))

  datatype Current = Current(temperature: JsValue, feelsLike: JsValue, humidity: JsValue, pressure: JsValue,
                             windSpeed: JsValue, windDirection: JsValue, description: JsValue, icon: JsValue,
                             visibility: JsValue)

  datatype Weather = Weather(source: Source, location: Place, current: Current, timestamp: int,
                             sunrise: int, sunset: int)

  /** `new Date(seconds * 1000)`: a Unix time in seconds as a `Date`, or the RangeError `toISOString` throws. */
  function FromUnixSeconds(seconds: JsValue): (r: Result<int>)
    ensures forall k: int :: seconds == Num(k as real) && -MAX_TIME <= k * 1000 <= MAX_TIME ==> r == Ok(k * 1000)
  {
    DateOf(Times(seconds, 1000.0))
  }

  /**
   * The `real` branch of `fetchCurrentWeather`: reading a field of a missing
   * `sys`, `coord`, `main` or `weather` block throws, and so does a sunrise
   * or sunset that is no valid time; missing wind, description, icon and
   * visibility take their defaults.
   */
  function RealWeather(data: JsValue, now: int): (r: Result<Weather>)
    ensures r.Ok? <==>
              !Nullish(data)
              && !Nullish(OptMember(data, "sys")) && !Nullish(OptMember(data, "coord"))
              && !Nullish(OptMember(data, "main")) && !Nullish(OptMember(data, "weather"))
              && FromUnixSeconds(OptMember(OptMember(data, "sys"), "sunrise")).Ok?
              && FromUnixSeconds(OptMember(OptMember(data, "sys"), "sunset")).Ok?
    ensures r.Ok? ==> r.value.source == Real && r.value.timestamp == now
    ensures r.Ok? ==> r.value.location.name == OptMember(data, "name")
                      && r.value.location.country == OptMember(OptMember(data, "sys"), "country")
                      && r.value.location.lat == OptMember(OptMember(data, "coord"), "lat")
                      && r.value.location.lon == OptMember(OptMember(data, "coord"), "lon")
    ensures r.Ok? ==> r.value.current.temperature == MathRound(OptMember(OptMember(data, "main"), "temp"))
    ensures r.Ok? ==> Ok(r.value.sunrise) == FromUnixSeconds(OptMember(OptMember(data, "sys"), "sunrise"))
                      && Ok(r.value.sunset) == FromUnixSeconds(OptMember(OptMember(data, "sys"), "sunset"))
  {
    if Nullish(data) then Err("Cannot read properties of null (reading 'name')")
    else
      var sys := OptMember(data, "sys");
      var coord := OptMember(data, "coord");
      var main := OptMember(data, "main");
      var weather := OptMember(data, "weather");
      var wind := OptMember(data, "wind");
      if Nullish(sys) || Nullish(coord) || Nullish(main) || Nullish(weather) then
        Err("Cannot read properties of undefined")
      else
        var first := Element(weather, 0).value;
        match (FromUnixSeconds(OptMember(sys, "sunrise")), FromUnixSeconds(OptMember(sys, "sunset")))
        case (Ok(sunrise), Ok(sunset)) =>
          Ok(Weather(Real,
                     Place(OptMember(data, "name"), OptMember(sys, "country"),
                           OptMember(coord, "lat"), OptMember(coord, "lon")),
                     Current(MathRound(OptMember(main, "temp")), MathRound(OptMember(main, "feels_like")),
                             OptMember(main, "humidity"), OptMember(main, "pressure"),
                             Or(OptMember(wind, "speed"), Num(0.0)), Or(OptMember(wind, "deg"), Num(0.0)),
                             Or(OptMember(first, "description"), Str("Unknown")),
                             Or(OptMember(first, "icon"), Str("01d")),
                             Or(OptMember(data, "visibility"), Num(10000.0))),
                     now, sunrise, sunset))
        case _ => Err("Invalid time value")
  }

  /** `x || d`: a truthy reading is kept and a falsy one replaced by the default `d`. */
  predicate Defaulted(out: JsValue, x: JsValue, d: JsValue) {
    (Truthy(x) ==> out == x) && (!Truthy(x) ==> out == d)
  }

  /**
   * A falsy figure never reaches the dashboard: a truthy wind speed and
   * direction, description, icon and visibility are kept, and a falsy one
   * becomes 0, 0, 'Unknown', '01d' or 10000; the other readings are the
   * payload's own, the feel rounded like the temperature.
   */
  lemma RealWeatherDefaults(data: JsValue, now: int)
    requires RealWeather(data, now).Ok?
    ensures var c := RealWeather(data, now).value.current;
            var main, wind := OptMember(data, "main"), OptMember(data, "wind");
            var first := Element(OptMember(data, "weather"), 0).value;
            Defaulted(c.windSpeed, OptMember(wind, "speed"), Num(0.0))
            && Defaulted(c.windDirection, OptMember(wind, "deg"), Num(0.0))
            && Defaulted(c.description, OptMember(first, "description"), Str("Unknown"))
            && Defaulted(c.icon, OptMember(first, "icon"), Str("01d"))
            && Defaulted(c.visibility, OptMember(data, "visibility"), Num(10000.0))
            && c.feelsLike == MathRound(OptMember(main, "feels_like"))
            && c.humidity == OptMember(main, "humidity") && c.pressure == OptMember(main, "pressure")
    ensures var c := RealWeather(data, now).value.current;
            (Truthy(c.windSpeed) || c.windSpeed == Num(0.0))
            && (Truthy(c.windDirection) || c.windDirection == Num(0.0))
            && c.description != Str("") && Truthy(c.description) && Truthy(c.icon) && Truthy(c.visibility)
    ensures OptMember(data, "visibility") == Num(0.0) ==>
              RealWeather(data, now).value.current.visibility == Num(10000.0)
    ensures Truthy(OptMember(data, "visibility")) ==>
              RealWeather(data, now).value.current.visibility == OptMember(data, "visibility")
  {
  }

  /** `Math.round(low + Math.random() * width)`: an integer in [low, low + width]. */
  function Spread(low: real, width: real, draw: real): (r: int)
    requires 0.0 <= draw < 1.0 && 0.0 <= width
    ensures low - 0.5 < r as real <= low + width + 0.5
  {
    ScaledDraw(draw, width);
    Round(low + draw * width)
  }

  const MOCK_DESCRIPTIONS: seq<string> := ["partly cloudy", "overcast", "light rain", "clear sky"]

  /** `[...][Math.floor(Math.random() * 4)]`: always one of the four descriptions. */
  function MockDescription(draw: real): (d: string)
    requires 0.0 <= draw < 1.0
    ensures d in MOCK_DESCRIPTIONS
  {
    MOCK_DESCRIPTIONS[(draw * 4.0).Floor]
  }

  /**
   * `getMockWeatherData`, from eight draws: Stockholm, figures in their
   * typical Swedish ranges, sunrise six and sunset eighteen hours from now.
   */
  function MockWeather(now: int, draws: seq<real>): (w: Weather)
    requires UnitDraws(draws, 8)
    ensures w.source == Mock && w.location == STOCKHOLM && w.timestamp == now
    ensures w.sunrise == now + 6 * HOUR_MS && w.sunset == now + 18 * HOUR_MS
    ensures w.current.temperature.Num? && 5.0 <= w.current.temperature.n <= 20.0
    ensures w.current.feelsLike.Num? && 3.0 <= w.current.feelsLike.n <= 20.0
    ensures w.current.humidity.Num? && 60.0 <= w.current.humidity.n <= 90.0
    ensures w.current.pressure.Num? && 1010.0 <= w.current.pressure.n <= 1030.0
    ensures w.current.windSpeed.Num? && 0.0 <= w.current.windSpeed.n <= 10.0
    ensures w.current.windDirection.Num? && 0.0 <= w.current.windDirection.n <= 360.0
    ensures w.current.visibility.Num? && 8000.0 <= w.current.visibility.n <= 10000.0
    ensures w.current.description.Str? && w.current.description.s in MOCK_DESCRIPTIONS
    ensures w.current.icon == Str("03d")
  {
    Weather(Mock, STOCKHOLM,
            Current(Num(Spread(5.0, 15.0, draws[0]) as real), Num(Spread(3.0, 17.0, draws[1]) as real),
                    Num(Spread(60.0, 30.0, draws[2]) as real), Num(Spread(1010.0, 20.0, draws[3]) as real),
                    Num(Spread(0.0, 10.0, draws[4]) as real), Num(Spread(0.0, 360.0, draws[5]) as real),
                    Str(MockDescription(draws[6])), Str("03d"), Num(Spread(8000.0, 2000.0, draws[7]) as real)),
            now, now + 6 * HOUR_MS, now + 18 * HOUR_MS)
  }

  /**
   * `fetchCurrentWeather`: without a key no request is made and the result
   * is the mock; a refused call, a non-2xx status, an unparsable body or a
   * payload that cannot be normalised also give the mock; otherwise the
   * normalised payload, tagged real. It never throws.
   */
  function FetchCurrentWeather(apiKey: Option<string>, response: Fetched<JsValue>, now: int, draws: seq<real>)
    : (w: Weather)
    requires UnitDraws(draws, 8)
    ensures !Present(apiKey) ==> w == MockWeather(now, draws)
    ensures !response.Ok() ==> w == MockWeather(now, draws)
    ensures w.source == Real <==> Present(apiKey) && response.Ok() && response.body.Ok?
                                  && RealWeather(response.body.value, now).Ok?
    ensures w.source == Real ==> Ok(w) == RealWeather(response.body.value, now)
    ensures w.source == Mock ==> w == MockWeather(now, draws)
  {
    if !Present(apiKey) || !response.Ok() || response.body.Err? then MockWeather(now, draws)
    else
      match RealWeather(response.body.value, now)
      case Ok(w) => w
      case Err(_) => MockWeather(now, draws)
  }

  // ---------------------------------------------------------------------------
  // Forecast

  datatype ForecastItem = ForecastItem(datetime: int, temperature: JsValue, humidity: JsValue, windSpeed: JsValue,
                                       description: JsValue, icon: JsValue)

  datatype Forecast = Forecast(source: Source, location: Place, items: seq<ForecastItem>, timestamp: int)

  /** The callback of `data.list.map(...)`: one list entry, normalised. */
  function ForecastItemOf(item: JsValue): (r: Result<ForecastItem>)
    ensures r.Ok? <==> !Nullish(item) && !Nullish(OptMember(item, "main")) && !Nullish(OptMember(item, "weather"))
                       && FromUnixSeconds(OptMember(item, "dt")).Ok?
    ensures r.Ok? ==> Ok(r.value.datetime) == FromUnixSeconds(OptMember(item, "dt"))
    ensures r.Ok? ==> var main, first := OptMember(item, "main"), Element(OptMember(item, "weather"), 0).value;
                      r.value.temperature == MathRound(OptMember(main, "temp"))
                      && r.value.humidity == OptMember(main, "humidity")
                      && Defaulted(r.value.windSpeed, OptMember(OptMember(item, "wind"), "speed"), Num(0.0))
                      && Defaulted(r.value.description, OptMember(first, "description"), Str("Unknown"))
                      && Defaulted(r.value.icon, OptMember(first, "icon"), Str("01d"))
    ensures r.Ok? ==> Truthy(r.value.description) && Truthy(r.value.icon)
                      && (Truthy(r.value.windSpeed) || r.value.windSpeed == Num(0.0))
  {
    if Nullish(item) then Err("Cannot read properties of undefined (reading 'dt')")
    else
      var main := OptMember(item, "main");
      var weather := OptMember(item, "weather");
      if Nullish(main) || Nullish(weather) then Err("Cannot read properties of undefined")
      else
        var first := Element(weather, 0).value;
        match FromUnixSeconds(OptMember(item, "dt"))
        case Err(m) => Err(m)
        case Ok(datetime) =>
          Ok(ForecastItem(datetime, MathRound(OptMember(main, "temp")), OptMember(main, "humidity"),
                          Or(OptMember(OptMember(item, "wind"), "speed"), Num(0.0)),
                          Or(OptMember(first, "description"), Str("Unknown")),
                          Or(OptMember(first, "icon"), Str("01d"))))
  }

  /** The `real` branch of `fetchWeatherForecast`: `data.list` must be an array. */
  function RealForecast(data: JsValue, now: int): (r: Result<Forecast>)
    ensures r.Ok? <==> !Nullish(data) && !Nullish(OptMember(data, "city"))
                       && !Nullish(OptMember(OptMember(data, "city"), "coord"))
                       && OptMember(data, "list").Arr?
                       && forall i :: 0 <= i < |OptMember(data, "list").items| ==>
                            ForecastItemOf(OptMember(data, "list").items[i]).Ok?
    ensures r.Ok? ==> r.value.source == Real && r.value.timestamp == now
    ensures r.Ok? ==> var city := OptMember(data, "city");
                      r.value.location == Place(OptMember(city, "name"), OptMember(city, "country"),
                                                OptMember(OptMember(city, "coord"), "lat"),
                                                OptMember(OptMember(city, "coord"), "lon"))
    ensures r.Ok? ==> OptMember(data, "list").Arr?
                      && MapResult(OptMember(data, "list").items, ForecastItemOf) == Ok(r.value.items)
  {
    if Nullish(data) then Err("Cannot read properties of null (reading 'city')")
    else
      var city := OptMember(data, "city");
      var list := OptMember(data, "list");
      if Nullish(city) || Nullish(OptMember(city, "coord")) then Err("Cannot read properties of undefined")
      else if !list.Arr? then Err("data.list.map is not a function")
      else
        MapResultSpec(list.items, ForecastItemOf);
        match MapResult(list.items, ForecastItemOf)
        case Err(m) => Err(m)
        case Ok(items) =>
          var coord := OptMember(city, "coord");
          Ok(Forecast(Real, Place(OptMember(city, "name"), OptMember(city, "country"),
                                  OptMember(coord, "lat"), OptMember(coord, "lon")), items, now))
  }

  /**
   * The map is one-to-one and keeps the order: as many items as list
   * entries, the i-th stamped with the i-th entry's `dt` in milliseconds.
   */
  lemma RealForecastOneToOne(data: JsValue, now: int)
    requires RealForecast(data, now).Ok?
    ensures var list := OptMember(data, "list").items;
            var items := RealForecast(data, now).value.items;
            |items| == |list|
            && forall i :: 0 <= i < |list| ==> Ok(items[i].datetime) == FromUnixSeconds(OptMember(list[i], "dt"))
  {
    var list := OptMember(data, "list").items;
    MapResultSpec(list, ForecastItemOf);
  }

  /** One mock entry, from its four draws: the `i`-th forecast slot, three hours apart. */
  function MockForecastItem(now: int, i: int, draws: seq<real>): (item: ForecastItem)
    requires UnitDraws(draws, 4)
    ensures item.datetime == now + i * 3 * HOUR_MS
    ensures item.temperature.Num? && 5.0 <= item.temperature.n <= 20.0
    ensures item.humidity.Num? && 60.0 <= item.humidity.n <= 90.0
    ensures item.windSpeed.Num? && 0.0 <= item.windSpeed.n <= 10.0
    ensures item.description.Str? && item.description.s in MOCK_DESCRIPTIONS
    ensures item.icon == Str("03d")
  {
    ForecastItem(now + i * 3 * HOUR_MS, Num(Spread(5.0, 15.0, draws[0]) as real), Num(Spread(60.0, 30.0, draws[1]) as real),
                 Num(Spread(0.0, 10.0, draws[2]) as real), Str(MockDescription(draws[3])), Str("03d"))
  }

  /** The draws of slot `i`. */
  function SlotDraws(draws: seq<real>, i: nat): (d: seq<real>)
    requires UnitDraws(draws, 160) && i < 40
    ensures UnitDraws(d, 4)
  {
    draws[4 * i .. 4 * i + 4]
  }

  /**
   * `getMockForecastData`: 40 entries pushed one per loop pass, slot `i`
   * being `now + i * 3 h`, at Stockholm.
   */
  method GetMockForecastData(now: int, draws: seq<real>) returns (f: Forecast)
    requires UnitDraws(draws, 160)
    ensures f.source == Mock && f.location == STOCKHOLM && f.timestamp == now
    ensures |f.items| == 40
    ensures forall i :: 0 <= i < 40 ==> f.items[i] == MockForecastItem(now, i, SlotDraws(draws, i))
  {
    var forecast: seq<ForecastItem> := [];
    for i := 0 to 40
      invariant |forecast| == i
      invariant forall k :: 0 <= k < i ==> forecast[k] == MockForecastItem(now, k, SlotDraws(draws, k))
    {
      forecast := forecast + [MockForecastItem(now, i, SlotDraws(draws, i))];
    }
    f := Forecast(Mock, STOCKHOLM, forecast, now);
  }

  /** The mock forecast covers five days: strictly increasing slots, exactly three hours apart, from now. */
  lemma MockForecastSpacing(now: int, draws: seq<real>, items: seq<ForecastItem>)
    requires UnitDraws(draws, 160) && |items| == 40
    requires forall i :: 0 <= i < 40 ==> items[i] == MockForecastItem(now, i, SlotDraws(draws, i))
    ensures items[0].datetime == now && items[39].datetime == now + 117 * HOUR_MS
    ensures forall i :: 0 <= i < 39 ==> items[i + 1].datetime - items[i].datetime == 3 * HOUR_MS
  {
    assert items[39] == MockForecastItem(now, 39, SlotDraws(draws, 39));
    forall i | 0 <= i < 39
      ensures items[i + 1].datetime - items[i].datetime == 3 * HOUR_MS
    {
      assert items[i + 1].datetime == now + (i + 1) * 3 * HOUR_MS;
      assert items[i].datetime == now + i * 3 * HOUR_MS;
      assert (i + 1) * 3 == i * 3 + 3;
      assert (i * 3 + 3) * HOUR_MS == i * 3 * HOUR_MS + 3 * HOUR_MS;
    }
  }

  /**
   * `fetchWeatherForecast`: the normalised forecast on a 2xx JSON response
   * with a key, the mock forecast in every other case.
   */
  method FetchWeatherForecast(apiKey: Option<string>, response: Fetched<JsValue>, now: int, draws: seq<real>)
    returns (f: Forecast)
    requires UnitDraws(draws, 160)
    ensures f.source == Real <==> Present(apiKey) && response.Ok() && response.body.Ok?
                                  && RealForecast(response.body.value, now).Ok?
    ensures f.source == Real ==> Ok(f) == RealForecast(response.body.value, now)
    ensures f.source == Mock ==> |f.items| == 40 && f.location == STOCKHOLM
    ensures f.source == Mock ==> forall i :: 0 <= i < 40 ==> f.items[i] == MockForecastItem(now, i, SlotDraws(draws, i))
  {
    if Present(apiKey) && response.Ok() && response.body.Ok? {
      var normalised := RealForecast(response.body.value, now);
      if normalised.Ok? {
        return normalised.value;
      }
    }
    f := GetMockForecastData(now, draws);
  }
}
