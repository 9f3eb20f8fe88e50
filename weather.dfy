/** The weather adapter: the availability guard, the current-weather and
    forecast requests, the mapping of failures to fixed messages, the
    defaults applied while reading a response, and the text handed back to
    the language model.  The HTTP GET is the parameter `fetch`; locale
    formatting of times and dates (`toLocaleTimeString`,
    `toLocaleDateString`) and the printing of fractional numbers are the
    parameters `localeTime`, `localeDate` and `showNumber`. */
module Weather {
  import opened Common

  const BaseUrl: string := "http://api.openweathermap.org/data/2.5"
  const Units: string := "metric"
  /** Request timeout, in milliseconds. */
  const Timeout: int := 8000
  const DefaultForecastDays: int := 5
  /** Forecast entries are three hours apart: eight a day, forty at most. */
  const EntriesPerDay: int := 8
  const MaxEntries: int := 40

  const NotAvailable: string := "Weather service not available"
  const InvalidKey: string := "Invalid Weather API key"
  const NotFoundPrefix: string := "Weather data not found for location: "
  const RateLimited: string := "Weather API rate limit exceeded"
  const Unavailable: string := "Weather service temporarily unavailable"
  /** What reading `weather[0].description` of an empty list throws. */
  const NoConditionsError: string := "Cannot read properties of undefined (reading 'description')"

  /** `isAvailable()`: `Boolean(apiKey)`. */
  predicate IsAvailable(apiKey: Option<string>)
  {
    Truthy(apiKey)
  }

  /** The query of a request to `<base>/<endpoint>`; `cnt` only for the
      forecast. */
  datatype WeatherParams = WeatherParams(endpoint: string, q: Option<string>, appid: string, units: string, cnt: Option<int>)

  datatype Condition = Condition(description: string, icon: string)
  datatype Wind = Wind(speed: Option<real>, deg: Option<int>)

  /** The fields of `/weather`'s body the adapter reads. */
  datatype CurrentData = CurrentData(name: string, country: string, temp: real, feelsLike: real,
                                     humidity: int, pressure: int, weather: seq<Condition>,
                                     wind: Option<Wind>, visibility: Option<int>, timezone: int,
                                     sunrise: int, sunset: int)

  datatype ForecastItem = ForecastItem(dt: int, temp: real, weather: seq<Condition>, humidity: int, wind: Option<Wind>)

  /** The fields of `/forecast`'s body the adapter reads. */
  datatype ForecastData = ForecastData(cityName: string, cityCountry: string, list: seq<ForecastItem>)

  /** What either endpoint answers. */
  datatype Body = Current(current: CurrentData) | Forecast(forecast: ForecastData)

  datatype CurrentWeather = CurrentWeather(location: string, temperature: int, feelsLike: int, humidity: int,
                                           pressure: int, conditions: string, icon: string, windSpeed: real,
                                           windDirection: int, visibility: Option<int>, timezone: int,
                                           sunrise: string, sunset: string)

  datatype ForecastEntry = ForecastEntry(date: string, time: string, temperature: int, conditions: string,
                                         humidity: int, windSpeed: real)

  datatype ForecastReport = ForecastReport(location: string, forecasts: seq<ForecastEntry>)

  /** `wind?.speed || 0`. */
  function WindSpeed(wind: Option<Wind>): (s: real)
    ensures wind.None? || wind.value.speed.None? ==> s == 0.0
    ensures wind.Some? && wind.value.speed.Some? ==> s == wind.value.speed.value
  {
    if wind.Some? && wind.value.speed.Some? then wind.value.speed.value else 0.0
  }

  /** `wind?.deg || 0`. */
  function WindDirection(wind: Option<Wind>): (d: int)
    ensures wind.None? || wind.value.deg.None? ==> d == 0
    ensures wind.Some? && wind.value.deg.Some? ==> d == wind.value.deg.value
  {
    if wind.Some? && wind.value.deg.Some? then wind.value.deg.value else 0
  }

  /** `visibility ? Math.round(visibility / 1000) : null`: metres to whole
      kilometres, and no value for a missing or zero visibility. */
  function VisibilityKm(visibility: Option<int>): (v: Option<int>)
    ensures v.Some? <==> visibility.Some? && visibility.value != 0
    ensures v.Some? ==> v.value == (visibility.value + 500) / 1000
  {
    if visibility.Some? && visibility.value != 0 then
      var km := Round(visibility.value as real / 1000.0);
      RoundOfThousandths(visibility.value);
      Some(km)
    else None
  }

  /** Rounding metres to kilometres is integer arithmetic. */
  lemma RoundOfThousandths(m: int)
    ensures Round(m as real / 1000.0) == (m + 500) / 1000
  {
    var k := (m + 500) / 1000;
    assert k * 1000 <= m + 500 < k * 1000 + 1000;
    assert k as real <= m as real / 1000.0 + 0.5 < k as real + 1.0;
  }

  /** `parseWeatherData(data)`; an empty `weather` list fails while reading
      the conditions. */
  function ParseWeatherData(data: CurrentData, localeTime: int -> string): (r: Result<CurrentWeather>)
    ensures r.Err? <==> data.weather == []
    ensures r.Err? ==> r.error == NoConditionsError
    ensures r.Ok? ==> var w := r.value;
              && w.location == data.name + ", " + data.country
              && w.temperature == Round(data.temp) && w.feelsLike == Round(data.feelsLike)
              && w.conditions == data.weather[0].description && w.icon == data.weather[0].icon
              && w.windSpeed == WindSpeed(data.wind) && w.windDirection == WindDirection(data.wind)
              && w.visibility == VisibilityKm(data.visibility)
              && w.sunrise == localeTime(data.sunrise * 1000) && w.sunset == localeTime(data.sunset * 1000)
  {
    if data.weather == [] then Err(NoConditionsError)
    else Ok(CurrentWeather(data.name + ", " + data.country, Round(data.temp), Round(data.feelsLike),
                           data.humidity, data.pressure, data.weather[0].description, data.weather[0].icon,
                           WindSpeed(data.wind), WindDirection(data.wind), VisibilityKm(data.visibility),
                           data.timezone, localeTime(data.sunrise * 1000), localeTime(data.sunset * 1000)))
  }

  function ParseForecastItem(item: ForecastItem, localeDate: int -> string, localeTime: int -> string): (r: Result<ForecastEntry>)
    ensures r.Err? <==> item.weather == []
  {
    if item.weather == [] then Err(NoConditionsError)
    else Ok(ForecastEntry(localeDate(item.dt * 1000), localeTime(item.dt * 1000), Round(item.temp),
                          item.weather[0].description, item.humidity, WindSpeed(item.wind)))
  }

  /** `list.map(...)`: one entry per item, in order, unless an item has no
      conditions. */
  function ParseForecastData(data: ForecastData, localeDate: int -> string, localeTime: int -> string): (r: Result<ForecastReport>)
    ensures r.Ok? <==> forall i :: 0 <= i < |data.list| ==> data.list[i].weather != []
    ensures r.Ok? ==> r.value.location == data.cityName + ", " + data.cityCountry
    ensures r.Ok? ==> |r.value.forecasts| == |data.list|
    ensures r.Ok? ==> forall i :: 0 <= i < |data.list| ==>
                        Ok(r.value.forecasts[i]) == ParseForecastItem(data.list[i], localeDate, localeTime)
  {
    if forall i :: 0 <= i < |data.list| ==> data.list[i].weather != [] then
      Ok(ForecastReport(data.cityName + ", " + data.cityCountry,
                        seq(|data.list|, i requires 0 <= i < |data.list| => ParseForecastItem(data.list[i], localeDate, localeTime).value)))
    else Err(NoConditionsError)
  }

  /** The message `getCurrentWeather` throws; a failure without a status,
      such as a parse error, is "temporarily unavailable". */
  function ErrorMessage(status: Option<int>, location: Option<string>): (m: string)
    ensures status == Some(401) ==> m == InvalidKey
    ensures status == Some(404) ==> m == NotFoundPrefix + Show(location)
    ensures status == Some(429) ==> m == RateLimited
    ensures status !in {Some(401), Some(404), Some(429)} ==> m == Unavailable
  {
    if status == Some(401) then InvalidKey
    else if status == Some(404) then NotFoundPrefix + Show(location)
    else if status == Some(429) then RateLimited
    else Unavailable
  }

  /** `getCurrentWeather(location)`. */
  function GetCurrentWeather(apiKey: Option<string>, location: Option<string>, fetch: WeatherParams -> HttpResult<Body>,
                             localeTime: int -> string): (r: Result<CurrentWeather>)
    ensures !IsAvailable(apiKey) ==> r == Err(NotAvailable)
    ensures IsAvailable(apiKey) ==>
              var sent := fetch(WeatherParams("weather", location, apiKey.value, Units, None));
              && (sent.HttpError? ==> r == Err(ErrorMessage(sent.status, location)))
              && (sent.Response? && sent.data.Current? ==>
                    r == (var p := ParseWeatherData(sent.data.current, localeTime); if p.Ok? then p else Err(Unavailable)))
              && (sent.Response? && !sent.data.Current? ==> r == Err(Unavailable))
  {
    if !IsAvailable(apiKey) then Err(NotAvailable)
    else
      match fetch(WeatherParams("weather", location, apiKey.value, Units, None))
      case HttpError(status, _) => Err(ErrorMessage(status, location))
      case Response(body) =>
        if !body.Current? then Err(ErrorMessage(None, location))
        else
          var parsed := ParseWeatherData(body.current, localeTime);
          if parsed.Ok? then parsed else Err(ErrorMessage(None, location))
  }

  /** `cnt: Math.min(days * 8, 40)`. */
  function ForecastCount(days: int): (n: int)
    ensures n <= MaxEntries
    ensures days * EntriesPerDay <= MaxEntries ==> n == days * EntriesPerDay
    ensures days >= DefaultForecastDays ==> n == MaxEntries
  {
    Min(days * EntriesPerDay, MaxEntries)
  }

  /** `getForecast(location, days)`: failures are passed on with their own
      message. */
  function GetForecast(apiKey: Option<string>, location: Option<string>, days: int, fetch: WeatherParams -> HttpResult<Body>,
                       localeDate: int -> string, localeTime: int -> string): (r: Result<ForecastReport>)
    ensures !IsAvailable(apiKey) ==> r == Err(NotAvailable)
    ensures IsAvailable(apiKey) ==>
              var sent := fetch(WeatherParams("forecast", location, apiKey.value, Units, Some(ForecastCount(days))));
              && (sent.HttpError? ==> r == Err(sent.message))
              && (sent.Response? && sent.data.Forecast? ==> r == ParseForecastData(sent.data.forecast, localeDate, localeTime))
  {
    if !IsAvailable(apiKey) then Err(NotAvailable)
    else
      match fetch(WeatherParams("forecast", location, apiKey.value, Units, Some(ForecastCount(days))))
      case HttpError(_, message) => Err(message)
      case Response(body) =>
        if body.Forecast? then ParseForecastData(body.forecast, localeDate, localeTime) else Err(NoConditionsError)
  }

  /** Without a key neither request is made. */
  lemma UnavailableMakesNoRequest(apiKey: Option<string>, location: Option<string>, days: int,
                                  f1: WeatherParams -> HttpResult<Body>, f2: WeatherParams -> HttpResult<Body>,
                                  localeDate: int -> string, localeTime: int -> string)
    requires !IsAvailable(apiKey)
    ensures GetCurrentWeather(apiKey, location, f1, localeTime) == GetCurrentWeather(apiKey, location, f2, localeTime) == Err(NotAvailable)
    ensures GetForecast(apiKey, location, days, f1, localeDate, localeTime) == GetForecast(apiKey, location, days, f2, localeDate, localeTime) == Err(NotAvailable)
  {
  }

  /** The tool definition offered to the language model. */
  const ToolDef: ToolDefinition :=
    ToolDefinition("get_current_weather",
                   "Get current weather information for a specific location",
                   [ToolParameter("location", "The city name, state, and/or country (e.g., \"Paris, France\" or \"New York, NY\")", None)],
                   ["location"])

  /** The text `executeFunction` returns for a weather report. */
  function Describe(w: CurrentWeather, showNumber: real -> string): string
  {
    "Current weather in " + w.location + ":\n" +
    "Temperature: " + IntToString(w.temperature) + "\U{B0}C (feels like " + IntToString(w.feelsLike) + "\U{B0}C)\n" +
    "Conditions: " + w.conditions + "\n" +
    "Humidity: " + IntToString(w.humidity) + "%\n" +
    "Wind: " + showNumber(w.windSpeed) + " m/s\n" +
    "Sunrise: " + w.sunrise + "\n" +
    "Sunset: " + w.sunset
  }

  /** `executeFunction(functionCall)`: parses the arguments and describes the
      current weather at the given location. */
  function ExecuteFunction(apiKey: Option<string>, call: FunctionCall, fetch: WeatherParams -> HttpResult<Body>,
                           localeTime: int -> string, showNumber: real -> string): (r: Result<string>)
    ensures call.arguments.Err? ==> r == Err(call.arguments.error)
    ensures call.arguments.Ok? ==>
              var args := call.arguments.value;
              var w := GetCurrentWeather(apiKey, if "location" in args then Some(args["location"]) else None, fetch, localeTime);
              && (w.Err? ==> r == Err(w.error))
              && (w.Ok? ==> r == Ok(Describe(w.value, showNumber)))
  {
    match call.arguments
    case Err(e) => Err(e)
    case Ok(args) =>
      var location := if "location" in args then Some(args["location"]) else None;
      match GetCurrentWeather(apiKey, location, fetch, localeTime)
      case Err(e) => Err(e)
      case Ok(w) => Ok(Describe(w, showNumber))
  }

  /** A missing wind reading and a missing visibility read as calm and
      unknown. */
  lemma MissingReadingsDefault(data: CurrentData, localeTime: int -> string)
    requires data.weather != [] && data.wind.None? && data.visibility.None?
    ensures var r := ParseWeatherData(data, localeTime);
            r.Ok? && r.value.windSpeed == 0.0 && r.value.windDirection == 0 && r.value.visibility.None?
  {
  }

  lemma VisibilityExamples()
    ensures VisibilityKm(Some(10000)) == Some(10)
    ensures VisibilityKm(Some(1500)) == Some(2)
    ensures VisibilityKm(Some(1499)) == Some(1)
    ensures VisibilityKm(Some(0)).None?
  {
  }
}
