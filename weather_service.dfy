/** `WeatherService.formatWeatherData` (src/services/WeatherService.ts): turns an
    untyped current-weather payload and a forecast payload into one weather
    record. An OpenWeatherMap-shaped payload (truthy `weather` and `main`) is
    read field by field; any other payload, mock data included, goes through a
    tolerant coalescing branch that falls back to literal defaults. */
module WeatherService {
  import opened Base
  import opened Records

  /** An element of OpenWeatherMap's `weather[]`. */
  datatype WeatherEntry = WeatherEntry(main: string)

  /** OpenWeatherMap's `main` object. A reading missing from it behaves like 0
      in every truthiness test the coalescing branch makes. */
  datatype MainReadings = MainReadings(temp: real, feelsLike: real, humidity: real, pressure: real)

  datatype WindReading = WindReading(speed: real)

  /** OpenWeatherMap's `sys` object: unix seconds, 0 when absent. */
  datatype SunTimes = SunTimes(sunrise: int, sunset: int)

  /** One 3-hour bucket of OpenWeatherMap's forecast `list`; `dt` in unix
      seconds. `main` and `wind` may be missing from a bucket. */
  datatype ListItem = ListItem(dt: int, main: Option<MainReadings>, weather: seq<WeatherEntry>, wind: Option<WindReading>)

  /** The current-weather payload: the union of every key either branch reads.
      `uvIndexSnake` is the key `uv_index`, `weatherCondition` the key `weather_condition`. */
  datatype RawWeather = RawWeather(
    name: Option<string>,
    city: Option<string>,
    weather: Option<seq<WeatherEntry>>,
    main: Option<MainReadings>,
    wind: Option<WindReading>,
    sys: Option<SunTimes>,
    uvi: Option<real>,
    temperature: Option<real>,
    feelsLike: Option<real>,
    condition: Option<string>,
    weatherCondition: Option<string>,
    humidity: Option<real>,
    windSpeed: Option<real>,
    pressure: Option<real>,
    uvIndex: Option<real>,
    uvIndexSnake: Option<real>,
    sunrise: Option<string>,
    sunset: Option<string>,
    hourlyForecast: Option<seq<Hourly>>,
    dailyForecast: Option<seq<Daily>>)

  /** The forecast payload. */
  datatype RawForecast = RawForecast(
    list: Option<seq<ListItem>>,
    hourlyForecast: Option<seq<Hourly>>,
    dailyForecast: Option<seq<Daily>>)

  const DayMs: int := 86400000

  /** The branch test: `weatherData.weather && weatherData.main` (arrays and objects are truthy). */
  predicate IsOpenWeatherMap(w: RawWeather)
  {
    w.weather.Some? && w.main.Some?
  }

  // ---------------------------------------------------------------------------
  // OpenWeatherMap forecast sampling

  /** `filter((_, index) => index % 8 === 0)`: every eighth bucket, from the first. */
  function EveryEighth<T>(s: seq<T>): (r: seq<T>)
    ensures |r| == (|s| + 7) / 8
    ensures forall k :: 0 <= k < |r| ==> 8 * k < |s| && r[k] == s[8 * k]
    decreases |s|
  {
    if |s| == 0 then []
    else if |s| <= 8 then [s[0]]
    else [s[0]] + EveryEighth(s[8..])
  }

  /** The buckets the daily forecast reads: every eighth one, at most five. */
  function DailySample(list: seq<ListItem>): (r: seq<ListItem>)
    ensures |r| == Min(5, (|list| + 7) / 8)
    ensures forall k :: 0 <= k < |r| ==> 8 * k < |list| && r[k] == list[8 * k]
  {
    Take(EveryEighth(list), 5)
  }

  /** A daily bucket is read through `main.temp` and `weather[0].main`;
      reading a bucket without `main` or without `weather[0]` throws. */
  predicate DailyReadable(items: seq<ListItem>)
  {
    forall k :: 0 <= k < |items| ==> items[k].main.Some? && |items[k].weather| > 0
  }

  /** An hourly bucket is read through `main.temp`, `weather[0].main` and
      `wind.speed`; each of the three must exist. */
  predicate HourlyReadable(items: seq<ListItem>)
  {
    forall k :: 0 <= k < |items| ==> items[k].main.Some? && |items[k].weather| > 0 && items[k].wind.Some?
  }

  /** The OpenWeatherMap branch reads `weather[0]` and `wind.speed` of the
      payload and the buckets it samples from the forecast; each of these must exist. */
  predicate OwmReadable(w: RawWeather, f: RawForecast)
    requires IsOpenWeatherMap(w)
  {
    && |w.weather.value| > 0
    && w.wind.Some?
    && (f.list.Some? ==> DailyReadable(DailySample(f.list.value)) && HourlyReadable(Take(f.list.value, 5)))
  }

  function DailyOfItem(loc: Locale, item: ListItem): Daily
    requires item.main.Some? && |item.weather| > 0
  {
    Daily(loc.weekdayLong(item.dt * 1000), loc.dayMonthShort(item.dt * 1000),
          Round(item.main.value.temp) as real, item.weather[0].main, None)
  }

  function HourlyOfItem(loc: Locale, item: ListItem, index: int): Hourly
    requires item.main.Some? && |item.weather| > 0 && item.wind.Some?
  {
    Hourly(loc.clock24(item.dt * 1000), Round(item.main.value.temp) as real, item.weather[0].main,
           None, Round(item.wind.value.speed) as real, index == 0)
  }

  function OwmDailyForecast(loc: Locale, f: RawForecast): seq<Daily>
    requires f.list.Some? ==> DailyReadable(DailySample(f.list.value))
  {
    if f.list.None? then []
    else
      var items := DailySample(f.list.value);
      seq(|items|, k requires 0 <= k < |items| => DailyOfItem(loc, items[k]))
  }

  function OwmHourlyForecast(loc: Locale, f: RawForecast): seq<Hourly>
    requires f.list.Some? ==> HourlyReadable(Take(f.list.value, 5))
  {
    if f.list.None? then []
    else
      var items := Take(f.list.value, 5);
      seq(|items|, k requires 0 <= k < |items| => HourlyOfItem(loc, items[k], k))
  }

  // ---------------------------------------------------------------------------
  // UV approximation

  /** The lower-cased condition mentions a clear or sunny sky. */
  predicate IsClearSky(condition: string)
  {
    Contains(ToLower(condition), "clear") || Contains(ToLower(condition), "sunny")
  }

  predicate IsCloudy(condition: string)
  {
    Contains(ToLower(condition), "cloud")
  }

  /** `calculateUvIndex`: temperature over 3, 4 or 6, rounded, and clamped to
      [1, 11], [1, 8] or [1, 5] for a clear, cloudy or other sky. The result is
      the integer nearest the quotient unless that lies outside the band, where
      it is the band's edge. */
  function CalculateUvIndex(condition: string, temp: real): (uv: int)
    ensures 1 <= uv <= 11
    ensures var (d, cap) := if IsClearSky(condition) then (3.0, 11)
                            else if IsCloudy(condition) then (4.0, 8) else (6.0, 5);
            && uv <= cap
            && (|| uv as real - 0.5 <= temp / d < uv as real + 0.5
                || (uv == 1 && temp / d < 1.5)
                || (uv == cap && temp / d >= cap as real - 0.5))
  {
    if IsClearSky(condition) then Clamp(Round(temp / 3.0), 1, 11)
    else if IsCloudy(condition) then Clamp(Round(temp / 4.0), 1, 8)
    else Clamp(Round(temp / 6.0), 1, 5)
  }

  lemma ClearLower()
    ensures ToLower("Clear") == "clear"
  {
    var r := ToLower("Clear");
    assert r[0] == 'c' && r[1] == 'l' && r[2] == 'e' && r[3] == 'a' && r[4] == 'r';
  }

  /** A clear sky at 24 degrees gives a UV index of 8. */
  lemma UvIndexOfClearSky()
    ensures CalculateUvIndex("Clear", 24.0) == 8
  {
    ClearLower();
    assert IsClearSky("Clear");
    RoundOfInteger(8);
    assert 24.0 / 3.0 == 8 as real;
  }

  // ---------------------------------------------------------------------------
  // Times and defaults

  /** `formatTimeFromTimestamp`: a falsy timestamp gives "00:00 AM". */
  function FormatTimeFromTimestamp(loc: Locale, timestamp: int): string
  {
    if timestamp == 0 then "00:00 AM" else loc.clock12(timestamp * 1000)
  }

  /** `getDefaultHourlyForecast`. */
  function DefaultHourlyForecast(): (r: seq<Hourly>)
    ensures |r| == 5
    ensures forall k :: 0 <= k < 5 ==> (r[k].active <==> k == 0) && r[k].conditionIcon.None?
    ensures CountActive(r) == 1
    ensures r[0].time == "12:00" && r[1].time == "15:00" && r[2].time == "18:00"
         && r[3].time == "21:00" && r[4].time == "00:00"
  {
    var r := [
      Hourly("12:00", 26.0, "Sunny", None, 3.0, true),
      Hourly("15:00", 27.0, "Partly Cloudy", None, 4.0, false),
      Hourly("18:00", 25.0, "Clear", None, 3.0, false),
      Hourly("21:00", 22.0, "Clear", None, 2.0, false),
      Hourly("00:00", 20.0, "Clear", None, 2.0, false)];
    OnlyFirstActive(r);
    r
  }

  /** `getDefaultDailyForecast`, with "now" given in epoch milliseconds. */
  function DefaultDailyForecast(loc: Locale, now: int): (r: seq<Daily>)
    ensures |r| == 5
    ensures forall k :: 0 <= k < 5 ==> r[k].date == loc.dayMonthShort(now + k * DayMs)
    ensures forall k :: 2 <= k < 5 ==> r[k].day == loc.weekdayLong(now + k * DayMs)
    ensures r[0].day == "Today" && r[1].day == "Tomorrow"
    ensures r[0].temperature == 26.0 && r[1].temperature == 28.0 && r[2].temperature == 25.0
         && r[3].temperature == 23.0 && r[4].temperature == 22.0
  {
    [
      Daily("Today", loc.dayMonthShort(now), 26.0, "Sunny", None),
      Daily("Tomorrow", loc.dayMonthShort(now + 86400000), 28.0, "Sunny", None),
      Daily(loc.weekdayLong(now + 172800000), loc.dayMonthShort(now + 172800000), 25.0, "Partly Cloudy", None),
      Daily(loc.weekdayLong(now + 259200000), loc.dayMonthShort(now + 259200000), 23.0, "Cloudy", None),
      Daily(loc.weekdayLong(now + 345600000), loc.dayMonthShort(now + 345600000), 22.0, "Rainy", None)
    ]
  }

  // ---------------------------------------------------------------------------
  // The two branches

  function FormatOpenWeatherMap(loc: Locale, w: RawWeather, f: RawForecast): WeatherData
    requires IsOpenWeatherMap(w) && OwmReadable(w, f)
  {
    var m := w.main.value;
    var condition := w.weather.value[0].main;
    WeatherData(
      city := StrOr(w.name, "Unknown Location"),
      temperature := Round(m.temp) as real,
      feelsLike := Round(m.feelsLike) as real,
      condition := condition,
      conditionIcon := None,
      humidity := m.humidity,
      windSpeed := Round(w.wind.value.speed) as real,
      pressure := Round(m.pressure) as real,
      uvIndex := if NumTruthy(w.uvi) then w.uvi.value else CalculateUvIndex(condition, m.temp) as real,
      sunrise := if w.sys.Some? && w.sys.value.sunrise != 0
                 then FormatTimeFromTimestamp(loc, w.sys.value.sunrise) else "06:00 AM",
      sunset := if w.sys.Some? && w.sys.value.sunset != 0
                then FormatTimeFromTimestamp(loc, w.sys.value.sunset) else "06:00 PM",
      hourlyForecast := OwmHourlyForecast(loc, f),
      dailyForecast := OwmDailyForecast(loc, f))
  }

  /** `weatherData.weather && weatherData.weather[0]?.main`. */
  function FirstWeatherMain(w: RawWeather): Option<string>
  {
    if w.weather.Some? && |w.weather.value| > 0 then Some(w.weather.value[0].main) else None
  }

  /** The coalescing branch: a defined scalar is taken verbatim, else one derived
      from a truthy `main`/`wind` reading, else a literal default. */
  function FormatCoalesced(loc: Locale, now: int, w: RawWeather, f: RawForecast): WeatherData
  {
    WeatherData(
      city := StrOr(w.name, StrOr(w.city, "Unknown")),
      temperature :=
        if w.temperature.Some? then w.temperature.value
        else if w.main.Some? && w.main.value.temp != 0.0 then Round(w.main.value.temp) as real
        else 25.0,
      feelsLike :=
        if w.feelsLike.Some? then w.feelsLike.value
        else if w.main.Some? && w.main.value.feelsLike != 0.0 then Round(w.main.value.feelsLike) as real
        else 24.0,
      condition := StrOr(w.condition, StrOr(FirstWeatherMain(w), StrOr(w.weatherCondition, "Sunny"))),
      conditionIcon := None,
      humidity :=
        if w.humidity.Some? then w.humidity.value
        else if w.main.Some? && w.main.value.humidity != 0.0 then w.main.value.humidity
        else 50.0,
      windSpeed :=
        if w.windSpeed.Some? then w.windSpeed.value
        else if w.wind.Some? && w.wind.value.speed != 0.0 then Round(w.wind.value.speed) as real
        else 5.0,
      pressure :=
        if w.pressure.Some? then w.pressure.value
        else if w.main.Some? && w.main.value.pressure != 0.0 then w.main.value.pressure
        else 1013.0,
      uvIndex := NumOr(w.uvIndex, NumOr(w.uvIndexSnake, 5.0)),
      sunrise := StrOr(w.sunrise,
        if w.sys.Some? && w.sys.value.sunrise != 0 then loc.clock12(w.sys.value.sunrise * 1000) else "06:00 AM"),
      sunset := StrOr(w.sunset,
        if w.sys.Some? && w.sys.value.sunset != 0 then loc.clock12(w.sys.value.sunset * 1000) else "20:00 PM"),
      hourlyForecast :=
        if w.hourlyForecast.Some? then w.hourlyForecast.value
        else if f.hourlyForecast.Some? then f.hourlyForecast.value
        else DefaultHourlyForecast(),
      dailyForecast :=
        if w.dailyForecast.Some? then w.dailyForecast.value
        else if f.dailyForecast.Some? then f.dailyForecast.value
        else DefaultDailyForecast(loc, now))
  }

  /** `formatWeatherData`. Among the payloads this model can express, it throws
      exactly when the OpenWeatherMap branch reads a missing `weather[0]` or
      `wind` of the payload, or a missing `main`, `weather[0]` or `wind` of a
      sampled forecast bucket; the coalescing branch never throws. */
  function FormatWeatherData(loc: Locale, now: int, w: RawWeather, f: RawForecast): (r: Result<WeatherData, JsError>)
    ensures r.Err? <==> IsOpenWeatherMap(w) && !OwmReadable(w, f)
  {
    if IsOpenWeatherMap(w) then
      if OwmReadable(w, f) then Ok(FormatOpenWeatherMap(loc, w, f)) else Err(TypeError)
    else Ok(FormatCoalesced(loc, now, w, f))
  }

  // ---------------------------------------------------------------------------
  // Properties of the OpenWeatherMap branch

  /** The daily forecast holds the buckets at indices 0, 8, 16, ... in order, at
      most five, each with its temperature rounded; no `list` gives none. */
  lemma OwmDailyForecastSampling(loc: Locale, now: int, w: RawWeather, f: RawForecast)
    requires IsOpenWeatherMap(w) && OwmReadable(w, f)
    ensures FormatWeatherData(loc, now, w, f).Ok?
    ensures var d := FormatWeatherData(loc, now, w, f).value.dailyForecast;
            && (f.list.None? ==> d == [])
            && (f.list.Some? ==>
                  var list := f.list.value;
                  && |d| == Min(5, (|list| + 7) / 8)
                  && forall k :: 0 <= k < |d| ==>
                       && 8 * k < |list| && |list[8 * k].weather| > 0 && list[8 * k].main.Some?
                       && d[k].temperature == Round(list[8 * k].main.value.temp) as real
                       && d[k].condition == list[8 * k].weather[0].main
                       && d[k].day == loc.weekdayLong(list[8 * k].dt * 1000)
                       && d[k].date == loc.dayMonthShort(list[8 * k].dt * 1000))
  {
    if f.list.Some? {
      var items := DailySample(f.list.value);
      forall k | 0 <= k < |items|
        ensures |f.list.value[8 * k].weather| > 0 && f.list.value[8 * k].main.Some?
      {
        assert items[k] == f.list.value[8 * k];
      }
    }
  }

  /** The hourly forecast is the first min(5, |list|) buckets in order, and only
      the first is active, so a non-empty one has exactly one active entry. */
  lemma OwmHourlyForecastPrefix(loc: Locale, now: int, w: RawWeather, f: RawForecast)
    requires IsOpenWeatherMap(w) && OwmReadable(w, f)
    ensures FormatWeatherData(loc, now, w, f).Ok?
    ensures var h := FormatWeatherData(loc, now, w, f).value.hourlyForecast;
            && (f.list.None? ==> h == [])
            && (f.list.Some? ==>
                  var list := f.list.value;
                  && |h| == Min(5, |list|)
                  && forall k :: 0 <= k < |h| ==>
                       && |list[k].weather| > 0 && list[k].main.Some? && list[k].wind.Some?
                       && (h[k].active <==> k == 0)
                       && h[k].temperature == Round(list[k].main.value.temp) as real
                       && h[k].windSpeed == Round(list[k].wind.value.speed) as real
                       && h[k].condition == list[k].weather[0].main
                       && h[k].time == loc.clock24(list[k].dt * 1000))
            && CountActive(h) == (if h == [] then 0 else 1)
  {
    var h := FormatWeatherData(loc, now, w, f).value.hourlyForecast;
    OnlyFirstActive(h);
  }

  /** Readings are `Math.round`ed except humidity; the city falls back to "Unknown Location". */
  lemma OwmScalars(loc: Locale, now: int, w: RawWeather, f: RawForecast)
    requires IsOpenWeatherMap(w) && OwmReadable(w, f)
    ensures FormatWeatherData(loc, now, w, f).Ok?
    ensures var r := FormatWeatherData(loc, now, w, f).value;
            var m := w.main.value;
            && r.temperature == Round(m.temp) as real
            && r.feelsLike == Round(m.feelsLike) as real
            && r.windSpeed == Round(w.wind.value.speed) as real
            && r.pressure == Round(m.pressure) as real
            && r.humidity == m.humidity
            && r.condition == w.weather.value[0].main
            && r.city == (if StrTruthy(w.name) then w.name.value else "Unknown Location")
            && r.city != ""
  {
  }

  /** A truthy `uvi` is copied unrounded; otherwise (absent or 0) the UV index
      is derived, and then lies in [1, 11]. */
  lemma OwmUvIndex(loc: Locale, now: int, w: RawWeather, f: RawForecast)
    requires IsOpenWeatherMap(w) && OwmReadable(w, f)
    ensures FormatWeatherData(loc, now, w, f).Ok?
    ensures var uv := FormatWeatherData(loc, now, w, f).value.uvIndex;
            && (NumTruthy(w.uvi) ==> uv == w.uvi.value)
            && (!NumTruthy(w.uvi) ==>
                  uv == CalculateUvIndex(w.weather.value[0].main, w.main.value.temp) as real
                  && 1.0 <= uv <= 11.0)
  {
  }

  /** Sunrise and sunset come from truthy `sys` timestamps, else "06:00 AM" and
      "06:00 PM"; the "00:00 AM" fallback of the time formatter is never reached. */
  lemma OwmSunTimes(loc: Locale, now: int, w: RawWeather, f: RawForecast)
    requires IsOpenWeatherMap(w) && OwmReadable(w, f)
    ensures FormatWeatherData(loc, now, w, f).Ok?
    ensures var r := FormatWeatherData(loc, now, w, f).value;
            && r.sunrise == (if w.sys.Some? && w.sys.value.sunrise != 0
                             then loc.clock12(w.sys.value.sunrise * 1000) else "06:00 AM")
            && r.sunset == (if w.sys.Some? && w.sys.value.sunset != 0
                            then loc.clock12(w.sys.value.sunset * 1000) else "06:00 PM")
  {
  }

  // ---------------------------------------------------------------------------
  // Properties of the coalescing branch

  /** Scalars: a defined key is used verbatim, else a truthy `main`/`wind`
      reading (temperature, feels-like and wind rounded; humidity and pressure
      not), else the literal default. Strings and the UV index take the first
      truthy value of their chain of keys. */
  lemma CoalescedScalars(loc: Locale, now: int, w: RawWeather, f: RawForecast)
    requires !IsOpenWeatherMap(w)
    ensures FormatWeatherData(loc, now, w, f).Ok?
    ensures var r := FormatWeatherData(loc, now, w, f).value;
            && (w.temperature.Some? ==> r.temperature == w.temperature.value)
            && (w.temperature.None? && w.main.Some? && w.main.value.temp != 0.0 ==>
                  r.temperature == Round(w.main.value.temp) as real)
            && (w.temperature.None? && (w.main.None? || w.main.value.temp == 0.0) ==> r.temperature == 25.0)
            && (w.feelsLike.Some? ==> r.feelsLike == w.feelsLike.value)
            && (w.feelsLike.None? && w.main.Some? && w.main.value.feelsLike != 0.0 ==>
                  r.feelsLike == Round(w.main.value.feelsLike) as real)
            && (w.feelsLike.None? && (w.main.None? || w.main.value.feelsLike == 0.0) ==> r.feelsLike == 24.0)
            && (w.humidity.Some? ==> r.humidity == w.humidity.value)
            && (w.humidity.None? && w.main.Some? && w.main.value.humidity != 0.0 ==>
                  r.humidity == w.main.value.humidity)
            && (w.humidity.None? && (w.main.None? || w.main.value.humidity == 0.0) ==> r.humidity == 50.0)
            && (w.windSpeed.Some? ==> r.windSpeed == w.windSpeed.value)
            && (w.windSpeed.None? && w.wind.Some? && w.wind.value.speed != 0.0 ==>
                  r.windSpeed == Round(w.wind.value.speed) as real)
            && (w.windSpeed.None? && (w.wind.None? || w.wind.value.speed == 0.0) ==> r.windSpeed == 5.0)
            && (w.pressure.Some? ==> r.pressure == w.pressure.value)
            && (w.pressure.None? && w.main.Some? && w.main.value.pressure != 0.0 ==>
                  r.pressure == w.main.value.pressure)
            && (w.pressure.None? && (w.main.None? || w.main.value.pressure == 0.0) ==> r.pressure == 1013.0)
            && (!NumTruthy(w.uvIndex) && !NumTruthy(w.uvIndexSnake) ==> r.uvIndex == 5.0)
            && (NumTruthy(w.uvIndex) ==> r.uvIndex == w.uvIndex.value)
            && (!NumTruthy(w.uvIndex) && NumTruthy(w.uvIndexSnake) ==> r.uvIndex == w.uvIndexSnake.value)
            && (StrTruthy(w.condition) ==> r.condition == w.condition.value)
            && (!StrTruthy(w.condition) && StrTruthy(FirstWeatherMain(w)) ==>
                  r.condition == w.weather.value[0].main)
            && (!StrTruthy(w.condition) && !StrTruthy(FirstWeatherMain(w)) && StrTruthy(w.weatherCondition) ==>
                  r.condition == w.weatherCondition.value)
            && (!(StrTruthy(w.condition) || StrTruthy(FirstWeatherMain(w)) || StrTruthy(w.weatherCondition))
                ==> r.condition == "Sunny")
            && (StrTruthy(w.name) ==> r.city == w.name.value)
            && (!StrTruthy(w.name) && StrTruthy(w.city) ==> r.city == w.city.value)
            && (!StrTruthy(w.name) && !StrTruthy(w.city) ==> r.city == "Unknown")
            && r.city != "" && r.condition != ""
  {
  }

  /** Explicit `sunrise`/`sunset` strings win over `sys` timestamps, which win
      over "06:00 AM" and "20:00 PM". */
  lemma CoalescedSunTimes(loc: Locale, now: int, w: RawWeather, f: RawForecast)
    requires !IsOpenWeatherMap(w)
    ensures FormatWeatherData(loc, now, w, f).Ok?
    ensures var r := FormatWeatherData(loc, now, w, f).value;
            && (StrTruthy(w.sunrise) ==> r.sunrise == w.sunrise.value)
            && (!StrTruthy(w.sunrise) && w.sys.Some? && w.sys.value.sunrise != 0 ==>
                  r.sunrise == loc.clock12(w.sys.value.sunrise * 1000))
            && (!StrTruthy(w.sunrise) && (w.sys.None? || w.sys.value.sunrise == 0) ==> r.sunrise == "06:00 AM")
            && (StrTruthy(w.sunset) ==> r.sunset == w.sunset.value)
            && (!StrTruthy(w.sunset) && w.sys.Some? && w.sys.value.sunset != 0 ==>
                  r.sunset == loc.clock12(w.sys.value.sunset * 1000))
            && (!StrTruthy(w.sunset) && (w.sys.None? || w.sys.value.sunset == 0) ==> r.sunset == "20:00 PM")
  {
  }

  /** Forecast arrays come from the weather payload, else the forecast payload,
      else the five-entry defaults. */
  lemma CoalescedForecasts(loc: Locale, now: int, w: RawWeather, f: RawForecast)
    requires !IsOpenWeatherMap(w)
    ensures FormatWeatherData(loc, now, w, f).Ok?
    ensures var r := FormatWeatherData(loc, now, w, f).value;
            && (w.hourlyForecast.Some? ==> r.hourlyForecast == w.hourlyForecast.value)
            && (w.hourlyForecast.None? && f.hourlyForecast.Some? ==> r.hourlyForecast == f.hourlyForecast.value)
            && (w.hourlyForecast.None? && f.hourlyForecast.None? ==> r.hourlyForecast == DefaultHourlyForecast())
            && (w.dailyForecast.Some? ==> r.dailyForecast == w.dailyForecast.value)
            && (w.dailyForecast.None? && f.dailyForecast.Some? ==> r.dailyForecast == f.dailyForecast.value)
            && (w.dailyForecast.None? && f.dailyForecast.None? ==> r.dailyForecast == DefaultDailyForecast(loc, now))
  {
  }

  /** The `GeolocationPositionError` codes of the W3C Geolocation API. */
  const PermissionDenied: int := 1
  const PositionUnavailable: int := 2
  const Timeout: int := 3

  const GeolocationPrefix := "Unable to get your location. "

  /** The reason appended to the common prefix for each error code. */
  function GeolocationReason(code: int): string
  {
    if code == PermissionDenied then "You denied the request for geolocation."
    else if code == PositionUnavailable then "Location information is unavailable."
    else if code == Timeout then "The request to get your location timed out."
    else "An unknown error occurred."
  }

  /** The message a failed position request is rejected with: the common
      prefix and a reason that tells the three known codes and all others apart. */
  function GeolocationErrorMessage(code: int): (m: string)
    ensures GeolocationPrefix <= m
  {
    GeolocationPrefix + GeolocationReason(code)
  }

  /** Two codes give the same message exactly when both are the same known
      code or both are unknown. */
  lemma GeolocationMessagesDistinguishCodes(a: int, b: int)
    ensures GeolocationErrorMessage(a) == GeolocationErrorMessage(b) <==>
            (a == b || (a !in {PermissionDenied, PositionUnavailable, Timeout} && b !in {PermissionDenied, PositionUnavailable, Timeout}))
  {
    var ra, rb := GeolocationReason(a), GeolocationReason(b);
    if GeolocationErrorMessage(a) == GeolocationErrorMessage(b) {
      assert ra == GeolocationErrorMessage(a)[|GeolocationPrefix|..] == rb;
      assert ra[0] == rb[0] && ra[4] == rb[4];
    }
  }
}
