/** The weather store module (src/store/modules/weather.ts): the displayed
    weather, the saved locations and the bookkeeping that decides whether a
    fetch is needed. Each action is modelled as atomic; what the network
    returned is a parameter. */
module WeatherStore {
  import opened Base
  import opened Records
  import WeatherService

  /** A saved location; `id` is the key `_id`. */
  datatype Location = Location(
    id: string,
    name: string,
    country: Option<string>,
    lat: Option<real>,
    lon: Option<real>,
    user: Option<string>)

  /** The whole state of the module, as one value. */
  datatype WeatherState = WeatherState(
    city: string,
    temperature: real,
    feelsLike: real,
    condition: string,
    iconUrl: string,
    humidity: real,
    windSpeed: real,
    pressure: real,
    uvIndex: real,
    sunrise: string,
    sunset: string,
    hourlyForecast: seq<Hourly>,
    dailyForecast: seq<Daily>,
    savedLocations: seq<Location>,
    loading: bool,
    error: Option<string>,
    lastUpdated: int,
    fetchingLocations: bool)

  /** Ten minutes, in milliseconds. */
  const FreshnessWindowMs: int := 10 * 60 * 1000

  const FetchFailedMessage: string := "Failed to fetch weather data"

  /** `initialState`. */
  function InitialState(): (s: WeatherState)
    ensures s.lastUpdated == 0 && s.city == "Athens"
    ensures s.savedLocations == [] && !s.loading && s.error.None? && !s.fetchingLocations
  {
    WeatherState(
      city := "Athens", temperature := 24.0, feelsLike := 22.0, condition := "Sunny", iconUrl := "",
      humidity := 41.0, windSpeed := 2.0, pressure := 997.0, uvIndex := 8.0,
      sunrise := "06:37 AM", sunset := "20:37 PM", hourlyForecast := [], dailyForecast := [],
      savedLocations := [], loading := false, error := None, lastUpdated := 0, fetchingLocations := false)
  }

  // ---------------------------------------------------------------------------
  // SET_WEATHER_DATA: Object.assign of a partial state

  /** The keys of a `Partial<WeatherState>` that a weather payload can carry. */
  datatype WeatherPatch = WeatherPatch(
    city: Option<string>,
    temperature: Option<real>,
    feelsLike: Option<real>,
    condition: Option<string>,
    iconUrl: Option<string>,
    humidity: Option<real>,
    windSpeed: Option<real>,
    pressure: Option<real>,
    uvIndex: Option<real>,
    sunrise: Option<string>,
    sunset: Option<string>,
    hourlyForecast: Option<seq<Hourly>>,
    dailyForecast: Option<seq<Daily>>)

  function PickStr(o: Option<string>, current: string): string { if o.Some? then o.value else current }
  function PickNum(o: Option<real>, current: real): real { if o.Some? then o.value else current }
  function PickHourly(o: Option<seq<Hourly>>, current: seq<Hourly>): seq<Hourly> { if o.Some? then o.value else current }
  function PickDaily(o: Option<seq<Daily>>, current: seq<Daily>): seq<Daily> { if o.Some? then o.value else current }

  /** `Object.assign(state, data)`: every key present in the patch overwrites. */
  function Merge(s: WeatherState, p: WeatherPatch): WeatherState
  {
    WeatherState(
      PickStr(p.city, s.city), PickNum(p.temperature, s.temperature), PickNum(p.feelsLike, s.feelsLike),
      PickStr(p.condition, s.condition), PickStr(p.iconUrl, s.iconUrl), PickNum(p.humidity, s.humidity),
      PickNum(p.windSpeed, s.windSpeed), PickNum(p.pressure, s.pressure), PickNum(p.uvIndex, s.uvIndex),
      PickStr(p.sunrise, s.sunrise), PickStr(p.sunset, s.sunset), PickHourly(p.hourlyForecast, s.hourlyForecast),
      PickDaily(p.dailyForecast, s.dailyForecast),
      s.savedLocations, s.loading, s.error, s.lastUpdated, s.fetchingLocations)
  }

  /** A state that took every key of the patch, and kept every other field, is the merge. */
  lemma MergeByField(s: WeatherState, t: WeatherState, p: WeatherPatch)
    requires t.city == PickStr(p.city, s.city) && t.temperature == PickNum(p.temperature, s.temperature)
    requires t.feelsLike == PickNum(p.feelsLike, s.feelsLike) && t.condition == PickStr(p.condition, s.condition)
    requires t.iconUrl == PickStr(p.iconUrl, s.iconUrl) && t.humidity == PickNum(p.humidity, s.humidity)
    requires t.windSpeed == PickNum(p.windSpeed, s.windSpeed) && t.pressure == PickNum(p.pressure, s.pressure)
    requires t.uvIndex == PickNum(p.uvIndex, s.uvIndex) && t.sunrise == PickStr(p.sunrise, s.sunrise)
    requires t.sunset == PickStr(p.sunset, s.sunset) && t.hourlyForecast == PickHourly(p.hourlyForecast, s.hourlyForecast)
    requires t.dailyForecast == PickDaily(p.dailyForecast, s.dailyForecast)
    requires t.savedLocations == s.savedLocations && t.loading == s.loading && t.error == s.error
    requires t.lastUpdated == s.lastUpdated && t.fetchingLocations == s.fetchingLocations
    ensures t == Merge(s, p)
  {
  }

  /** The keys of a weather service record: all display fields but `iconUrl`. */
  function PatchOf(d: WeatherData): WeatherPatch
  {
    WeatherPatch(Some(d.city), Some(d.temperature), Some(d.feelsLike), Some(d.condition), None,
                 Some(d.humidity), Some(d.windSpeed), Some(d.pressure), Some(d.uvIndex),
                 Some(d.sunrise), Some(d.sunset), Some(d.hourlyForecast), Some(d.dailyForecast))
  }

  /** Merging a record overwrites what it carries and nothing else; merging twice is merging once. */
  lemma MergeRecord(s: WeatherState, d: WeatherData)
    ensures var t := Merge(s, PatchOf(d));
            && t.city == d.city && t.temperature == d.temperature && t.feelsLike == d.feelsLike
            && t.condition == d.condition && t.humidity == d.humidity && t.windSpeed == d.windSpeed
            && t.pressure == d.pressure && t.uvIndex == d.uvIndex && t.sunrise == d.sunrise
            && t.sunset == d.sunset && t.hourlyForecast == d.hourlyForecast
            && t.dailyForecast == d.dailyForecast
            && t.iconUrl == s.iconUrl && t.savedLocations == s.savedLocations
            && t.loading == s.loading && t.error == s.error
            && t.lastUpdated == s.lastUpdated && t.fetchingLocations == s.fetchingLocations
    ensures Merge(Merge(s, PatchOf(d)), PatchOf(d)) == Merge(s, PatchOf(d))
  {
  }

  // ---------------------------------------------------------------------------
  // Fetching weather

  /** What the two requests of `WeatherService.getWeatherByCity` (or of
      `fetchWeatherByLocation`) produced: both responses, or a failure carrying
      the server's `response.data.message` when there was a response. */
  datatype FetchOutcome =
    | Responded(weather: WeatherService.RawWeather, forecast: WeatherService.RawForecast)
    | Failed(serverMessage: Option<string>)

  /** The service call as the store sees it: the formatted record, or the
      server message of the error it throws (a formatter `TypeError` has none). */
  function ServiceFetch(loc: Locale, now: int, o: FetchOutcome): (r: Result<WeatherData, Option<string>>)
    ensures o.Failed? ==> r == Err(o.serverMessage)
    ensures o.Responded? ==> (r.Ok? <==> WeatherService.FormatWeatherData(loc, now, o.weather, o.forecast).Ok?)
    ensures o.Responded? && r.Ok? ==> r.value == WeatherService.FormatWeatherData(loc, now, o.weather, o.forecast).value
    ensures o.Responded? && r.Err? ==> r.error.None?
  {
    match o
    case Failed(m) => Err(m)
    case Responded(w, f) =>
      match WeatherService.FormatWeatherData(loc, now, w, f)
      case Ok(d) => Ok(d)
      case Err(_) => Err(None)
  }

  /** How an action ended: returned early, resolved, or rethrew the fetch error. */
  datatype ActionResult = Skipped | Completed | Threw

  /** The early-return test of `fetchWeatherByCity`. */
  predicate FreshForCity(s: WeatherState, city: string, now: int)
  {
    s.city == city && now - s.lastUpdated < FreshnessWindowMs && s.lastUpdated != 0
  }

  /** The early-return test of `fetchWeatherByLocation`: the city is not consulted. */
  predicate FreshForLocation(s: WeatherState, now: int)
  {
    now - s.lastUpdated < FreshnessWindowMs && s.lastUpdated != 0
  }

  /** The commits after the fetch: merge, stamp and clear on success; record the
      message and keep the data on failure. */
  function AfterFetch(s: WeatherState, now: int, r: Result<WeatherData, Option<string>>): WeatherState
  {
    match r
    case Ok(d) => Merge(s, PatchOf(d)).(lastUpdated := now, loading := false, error := None)
    case Err(m) => s.(loading := false, error := Some(StrOr(m, FetchFailedMessage)))
  }

  function ResultOf(r: Result<WeatherData, Option<string>>): ActionResult
  {
    if r.Ok? then Completed else Threw
  }

  /** `fetchWeatherByCity` on a state value. */
  function FetchByCity(s: WeatherState, loc: Locale, city: string, now: int, o: FetchOutcome): (WeatherState, ActionResult)
  {
    if FreshForCity(s, city, now) then (s, Skipped)
    else
      var r := ServiceFetch(loc, now, o);
      (AfterFetch(s, now, r), ResultOf(r))
  }

  /** `fetchWeatherByLocation` on a state value. */
  function FetchByLocation(s: WeatherState, loc: Locale, now: int, o: FetchOutcome): (WeatherState, ActionResult)
  {
    if FreshForLocation(s, now) then (s, Skipped)
    else
      var r := ServiceFetch(loc, now, o);
      (AfterFetch(s, now, r), ResultOf(r))
  }

  /** The call skips iff the same city was fetched less than ten minutes ago;
      otherwise it completes or rethrows with `loading` cleared. */
  lemma FetchByCitySkipsOnlyWhenFresh(s: WeatherState, loc: Locale, city: string, now: int, o: FetchOutcome)
    ensures var (t, res) := FetchByCity(s, loc, city, now, o);
            && (res == Skipped <==> s.city == city && s.lastUpdated != 0 && now - s.lastUpdated < 600000)
            && (res == Skipped ==> t == s)
            && (res != Skipped ==> !t.loading)
  {
  }

  /** The first fetch always runs, even for the initial city. */
  lemma InitialFetchRuns(loc: Locale, city: string, now: int, o: FetchOutcome)
    ensures FetchByCity(InitialState(), loc, city, now, o).1 != Skipped
    ensures FetchByLocation(InitialState(), loc, now, o).1 != Skipped
  {
  }

  /** A successful fetch merges the record, stamps the time captured before the
      fetch and clears loading and error; keys the record lacks are kept. */
  lemma FetchSuccess(s: WeatherState, loc: Locale, city: string, now: int, o: FetchOutcome)
    requires !FreshForCity(s, city, now)
    requires ServiceFetch(loc, now, o).Ok?
    ensures var (t, res) := FetchByCity(s, loc, city, now, o);
            var d := ServiceFetch(loc, now, o).value;
            && res == Completed
            && t == Merge(s, PatchOf(d)).(lastUpdated := now, loading := false, error := None)
            && t.city == d.city && t.hourlyForecast == d.hourlyForecast
            && t.iconUrl == s.iconUrl && t.savedLocations == s.savedLocations
            && t.fetchingLocations == s.fetchingLocations
  {
  }

  /** A failed fetch keeps every weather field and `lastUpdated`, records the
      server message or the default one, clears loading and rethrows. */
  lemma FetchFailureKeepsData(s: WeatherState, loc: Locale, city: string, now: int, o: FetchOutcome)
    requires !FreshForCity(s, city, now)
    requires ServiceFetch(loc, now, o).Err?
    ensures var (t, res) := FetchByCity(s, loc, city, now, o);
            var m := ServiceFetch(loc, now, o).error;
            && res == Threw
            && t == s.(loading := false, error := t.error)
            && t.error == Some(if StrTruthy(m) then m.value else "Failed to fetch weather data")
  {
  }

  /** A transport failure without a server message reports the default message. */
  lemma TransportFailureMessage(s: WeatherState, loc: Locale, city: string, now: int)
    requires !FreshForCity(s, city, now)
    ensures FetchByCity(s, loc, city, now, Failed(None)).0.error == Some(FetchFailedMessage)
    ensures FetchByCity(s, loc, city, now, Failed(Some(""))).0.error == Some(FetchFailedMessage)
  {
  }

  /** After a success whose record names the requested city, the same request
      within ten minutes is skipped; a record naming another city (the
      payload's `name`, a fallback such as "Unknown") makes it fetch again. */
  lemma RepeatFetchWithinWindow(s: WeatherState, loc: Locale, city: string, now: int, o: FetchOutcome,
                                later: int, o2: FetchOutcome)
    requires !FreshForCity(s, city, now) && now != 0
    requires ServiceFetch(loc, now, o).Ok?
    requires now <= later < now + FreshnessWindowMs
    ensures var t := FetchByCity(s, loc, city, now, o).0;
            (FetchByCity(t, loc, city, later, o2).1 == Skipped <==> ServiceFetch(loc, now, o).value.city == city)
  {
  }

  /** Any recent fetch, for whatever city, makes `fetchWeatherByLocation` skip. */
  lemma LocationFetchIgnoresCity(s: WeatherState, loc: Locale, now: int, o: FetchOutcome)
    requires s.lastUpdated != 0 && s.lastUpdated <= now < s.lastUpdated + FreshnessWindowMs
    ensures FetchByLocation(s, loc, now, o) == (s, Skipped)
  {
  }

  // ---------------------------------------------------------------------------
  // Saved locations

  /** `savedLocations.filter(loc => loc._id !== locationId)`. */
  function WithoutId(locs: seq<Location>, id: string): (r: seq<Location>)
    ensures |r| <= |locs|
    ensures forall k :: 0 <= k < |r| ==> r[k].id != id
    ensures forall l :: l in locs && l.id != id ==> l in r
    ensures forall l :: l in r ==> l in locs
  {
    if locs == [] then []
    else
      var last := locs[|locs| - 1];
      WithoutId(locs[..|locs| - 1], id) + (if last.id == id then [] else [last])
  }

  /** Filtering distributes over concatenation, so the kept locations stay in order. */
  lemma {:induction false} WithoutIdAppend(a: seq<Location>, b: seq<Location>, id: string)
    ensures WithoutId(a + b, id) == WithoutId(a, id) + WithoutId(b, id)
    decreases |b|
  {
    if b == [] {
      assert a + b == a;
    } else {
      var init, last := b[..|b| - 1], b[|b| - 1];
      var tail := if last.id == id then [] else [last];
      assert (a + b)[..|a + b| - 1] == a + init;
      assert (a + b)[|a + b| - 1] == last;
      WithoutIdAppend(a, init, id);
      calc {
        WithoutId(a + b, id);
        WithoutId(a + init, id) + tail;
        WithoutId(a, id) + WithoutId(init, id) + tail;
        WithoutId(a, id) + (WithoutId(init, id) + tail);
      }
    }
  }

  /** Removing an id nobody has changes nothing. */
  lemma {:induction false} WithoutIdAbsent(locs: seq<Location>, id: string)
    requires forall k :: 0 <= k < |locs| ==> locs[k].id != id
    ensures WithoutId(locs, id) == locs
  {
    if locs != [] {
      var init := locs[..|locs| - 1];
      WithoutIdAbsent(init, id);
      assert locs == init + [locs[|locs| - 1]];
    }
  }

  /** Removing twice is removing once. */
  lemma WithoutIdIdempotent(locs: seq<Location>, id: string)
    ensures WithoutId(WithoutId(locs, id), id) == WithoutId(locs, id)
  {
    WithoutIdAbsent(WithoutId(locs, id), id);
  }

  /** Removing the id of a location just added, under a fresh id, restores the list. */
  lemma RemoveUndoesAdd(locs: seq<Location>, l: Location)
    requires forall k :: 0 <= k < |locs| ==> locs[k].id != l.id
    ensures WithoutId(locs + [l], l.id) == locs
  {
    WithoutIdAppend(locs, [l], l.id);
    WithoutIdAbsent(locs, l.id);
    assert [l][..0] == [];
  }

  /** `fetchSavedLocations`: a no-op while a refresh is in flight; otherwise
      the list is replaced on success, kept on failure, and the flag is cleared. */
  function FetchSavedLocations(s: WeatherState, o: Option<seq<Location>>): (t: WeatherState)
    ensures s.fetchingLocations ==> t == s
    ensures !s.fetchingLocations ==> !t.fetchingLocations
    ensures !s.fetchingLocations && o.None? ==> t == s
    ensures !s.fetchingLocations && o.Some? ==> t == s.(savedLocations := o.value)
  {
    if s.fetchingLocations then s
    else
      var during := s.(fetchingLocations := true);
      var fetched := if o.Some? then during.(savedLocations := o.value) else during;
      fetched.(fetchingLocations := false)
  }

  /** `selectLocation`'s argument: a location object or a city name. */
  datatype Selection = LocationObject(location: Location) | CityName(name: string)

  // ---------------------------------------------------------------------------
  // The store object

  class Store {
    var city: string
    var temperature: real
    var feelsLike: real
    var condition: string
    var iconUrl: string
    var humidity: real
    var windSpeed: real
    var pressure: real
    var uvIndex: real
    var sunrise: string
    var sunset: string
    var hourlyForecast: seq<Hourly>
    var dailyForecast: seq<Daily>
    var savedLocations: seq<Location>
    var loading: bool
    var error: Option<string>
    var lastUpdated: int
    var fetchingLocations: bool

    /** The fields as one value. */
    function State(): WeatherState
      reads this
    {
      WeatherState(city, temperature, feelsLike, condition, iconUrl, humidity, windSpeed, pressure,
                   uvIndex, sunrise, sunset, hourlyForecast, dailyForecast, savedLocations, loading,
                   error, lastUpdated, fetchingLocations)
    }

    constructor ()
      ensures State() == InitialState()
    {
      city, temperature, feelsLike, condition, iconUrl := "Athens", 24.0, 22.0, "Sunny", "";
      humidity, windSpeed, pressure, uvIndex := 41.0, 2.0, 997.0, 8.0;
      sunrise, sunset := "06:37 AM", "20:37 PM";
      hourlyForecast, dailyForecast, savedLocations := [], [], [];
      loading, error, lastUpdated, fetchingLocations := false, None, 0, false;
    }

    // -- mutations

    method SetWeatherData(p: WeatherPatch)
      modifies this
      ensures State() == Merge(old(State()), p)
    {
      ghost var before := State();
      SetCurrentConditions(p);
      SetReadings(p);
      SetForecasts(p);
      MergeByField(before, State(), p);
    }

    /** The first group of keys `SET_WEATHER_DATA` may overwrite. */
    method SetCurrentConditions(p: WeatherPatch)
      modifies this`city, this`temperature, this`feelsLike, this`condition, this`iconUrl
      ensures city == PickStr(p.city, old(city)) && temperature == PickNum(p.temperature, old(temperature))
      ensures feelsLike == PickNum(p.feelsLike, old(feelsLike)) && condition == PickStr(p.condition, old(condition))
      ensures iconUrl == PickStr(p.iconUrl, old(iconUrl))
    {
      city, temperature, feelsLike := PickStr(p.city, city), PickNum(p.temperature, temperature), PickNum(p.feelsLike, feelsLike);
      condition, iconUrl := PickStr(p.condition, condition), PickStr(p.iconUrl, iconUrl);
    }

    /** The second group: the scalar readings. */
    method SetReadings(p: WeatherPatch)
      modifies this`humidity, this`windSpeed, this`pressure, this`uvIndex
      ensures humidity == PickNum(p.humidity, old(humidity)) && windSpeed == PickNum(p.windSpeed, old(windSpeed))
      ensures pressure == PickNum(p.pressure, old(pressure)) && uvIndex == PickNum(p.uvIndex, old(uvIndex))
    {
      humidity, windSpeed := PickNum(p.humidity, humidity), PickNum(p.windSpeed, windSpeed);
      pressure, uvIndex := PickNum(p.pressure, pressure), PickNum(p.uvIndex, uvIndex);
    }

    /** The third group: sun times and forecasts. */
    method SetForecasts(p: WeatherPatch)
      modifies this`sunrise, this`sunset, this`hourlyForecast, this`dailyForecast
      ensures sunrise == PickStr(p.sunrise, old(sunrise)) && sunset == PickStr(p.sunset, old(sunset))
      ensures hourlyForecast == PickHourly(p.hourlyForecast, old(hourlyForecast))
      ensures dailyForecast == PickDaily(p.dailyForecast, old(dailyForecast))
    {
      sunrise, sunset := PickStr(p.sunrise, sunrise), PickStr(p.sunset, sunset);
      hourlyForecast, dailyForecast := PickHourly(p.hourlyForecast, hourlyForecast), PickDaily(p.dailyForecast, dailyForecast);
    }

    method SetSavedLocations(locations: seq<Location>)
      modifies this
      ensures State() == old(State()).(savedLocations := locations)
    {
      savedLocations := locations;
    }

    method AddSavedLocation(location: Location)
      modifies this
      ensures State() == old(State()).(savedLocations := old(savedLocations) + [location])
    {
      savedLocations := savedLocations + [location];
    }

    method RemoveSavedLocation(locationId: string)
      modifies this
      ensures State() == old(State()).(savedLocations := WithoutId(old(savedLocations), locationId))
    {
      savedLocations := WithoutId(savedLocations, locationId);
    }

    method SetLoading(value: bool)
      modifies this
      ensures State() == old(State()).(loading := value)
    {
      loading := value;
    }

    method SetError(value: Option<string>)
      modifies this
      ensures State() == old(State()).(error := value)
    {
      error := value;
    }

    method SetLastUpdated(timestamp: int)
      modifies this
      ensures State() == old(State()).(lastUpdated := timestamp)
    {
      lastUpdated := timestamp;
    }

    method SetFetchingLocations(fetching: bool)
      modifies this
      ensures State() == old(State()).(fetchingLocations := fetching)
    {
      fetchingLocations := fetching;
    }

    // -- actions

    /** The commits shared by both weather fetches, once the freshness test has failed. */
    method CommitFetch(loc: Locale, now: int, o: FetchOutcome) returns (result: ActionResult)
      modifies this
      ensures State() == AfterFetch(old(State()), now, ServiceFetch(loc, now, o))
      ensures result == ResultOf(ServiceFetch(loc, now, o))
    {
      SetLoading(true);
      SetError(None);
      var fetched := ServiceFetch(loc, now, o);
      match fetched {
        case Ok(weatherData) =>
          SetWeatherData(PatchOf(weatherData));
          SetLastUpdated(now);
          SetLoading(false);
          result := Completed;
        case Err(serverMessage) =>
          SetError(Some(StrOr(serverMessage, FetchFailedMessage)));
          SetLoading(false);
          result := Threw;
      }
    }

    method FetchWeatherByCity(loc: Locale, requested: string, now: int, o: FetchOutcome) returns (result: ActionResult)
      modifies this
      ensures (State(), result) == FetchByCity(old(State()), loc, requested, now, o)
    {
      if city == requested && now - lastUpdated < FreshnessWindowMs && lastUpdated != 0 {
        return Skipped;
      }
      result := CommitFetch(loc, now, o);
    }

    method FetchWeatherByLocation(loc: Locale, now: int, o: FetchOutcome) returns (result: ActionResult)
      modifies this
      ensures (State(), result) == FetchByLocation(old(State()), loc, now, o)
    {
      if now - lastUpdated < FreshnessWindowMs && lastUpdated != 0 {
        return Skipped;
      }
      result := CommitFetch(loc, now, o);
    }

    /** `o` is the list the server returned, or None when the request failed. */
    method FetchSavedLocationsAction(o: Option<seq<Location>>)
      modifies this
      ensures State() == FetchSavedLocations(old(State()), o)
    {
      if fetchingLocations {
        return;
      }
      SetFetchingLocations(true);
      if o.Some? {
        SetSavedLocations(o.value);
      }
      SetFetchingLocations(false);
    }

    /** `o` is the location the server saved, or None when the request failed
        (then the error propagates and nothing is committed). */
    method SaveLocation(o: Option<Location>) returns (saved: Option<Location>)
      modifies this
      ensures saved == o
      ensures o.Some? ==> State() == old(State()).(savedLocations := old(savedLocations) + [o.value])
      ensures o.None? ==> State() == old(State())
    {
      if o.Some? {
        AddSavedLocation(o.value);
      }
      saved := o;
    }

    /** `deleted` says whether the server deleted the location; when it did not,
        the error propagates and nothing is committed. */
    method RemoveLocation(locationId: string, deleted: bool)
      modifies this
      ensures deleted ==> State() == old(State()).(savedLocations := WithoutId(old(savedLocations), locationId))
      ensures !deleted ==> State() == old(State())
    {
      if deleted {
        RemoveSavedLocation(locationId);
      }
    }

    method SelectLocation(loc: Locale, sel: Selection, now: int, o: FetchOutcome) returns (result: ActionResult)
      modifies this
      ensures sel.CityName? ==> (State(), result) == FetchByCity(old(State()), loc, sel.name, now, o)
      ensures sel.LocationObject? && sel.location.name != "" ==>
                (State(), result) == FetchByCity(old(State()), loc, sel.location.name, now, o)
      ensures sel.LocationObject? && sel.location.name == "" ==> result == Skipped && State() == old(State())
    {
      match sel {
        case LocationObject(location) =>
          if location.name != "" {
            result := FetchWeatherByCity(loc, location.name, now, o);
          } else {
            result := Skipped;
          }
        case CityName(name) =>
          result := FetchWeatherByCity(loc, name, now, o);
      }
    }
  }
}
