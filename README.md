# Weather app core, modelled in Dafny

This project models the decision logic of a Vue weather application in Dafny and proves properties of that model. The model covers six parts:

- **`WeatherService.formatWeatherData`** (`weather_service.dfy`) turns an untyped current-weather payload and a forecast payload into one weather record. A payload with truthy `weather` and `main` takes the OpenWeatherMap branch. That branch rounds readings, samples every eighth forecast bucket for the daily forecast and takes the first five buckets for the hourly one. It derives a UV index when `uvi` is falsy (absent or 0). It throws a `TypeError` when the payload lacks `weather[0]` or `wind`, or a sampled forecast bucket lacks `main`, `weather[0]` or (for the hourly forecast) `wind`; other throws are listed under "Left out". Every other payload goes through a coalescing branch. That branch never throws and falls back to literal defaults, including the five-entry default forecasts. The geolocation error message is modelled alongside.
- **`formatWeatherData` of `src/types/weather.ts`** (`weather_api_format.dfy`) normalises a WeatherAPI.com response. Its nested loop is a `method` with loop invariants. That method is proved equal to the first five entries of a recursive reference definition, `Candidates`. Lemmas about `Candidates` cover which hours are skipped and which entries are active.
- **The weather store** (`weather_store.dfy`) is a class with the module's eighteen state fields. It has one method per mutation and one per action. Each action is proved equal to a pure function on the whole state (`FetchByCity`, `FetchByLocation`, `FetchSavedLocations`). Lemmas about those functions cover the ten-minute freshness window, success and failure commits, and saved-location filtering.
- **The auth store** (`auth_store.dfy`) couples `user`, `isAuthenticated` and the "user" key of `localStorage`. `JSON.stringify` and `JSON.parse` are an injected codec.
- **The theme store** (`theme_store.dfy`) covers `darkMode`, its toggle and its start-up initialisation from storage and from the system preference.
- **The router** (`router.dfy`) holds the route table and the `beforeEach` guard decision.

`localStorage` is a class holding a `map<string, string>` (`browser_storage.dfy`). The following are all parameters:

- locale formatting, as a `Locale` of uninterpreted functions;
- the current time;
- the current hour;
- the system colour-scheme preference;
- what the network returned.

JavaScript's `Math.round` is `Base.Round`. It rounds to the nearest integer with ties toward +infinity.

Behaviour of the code worth noting:

- `fetchWeatherByCity` compares the requested city with the city of the last stored record. That is the city the service returned (the payload's `name`, or a fallback such as "Unknown"), not the city last requested.
- The coalescing branch copies a fallback humidity and pressure from `main` without rounding.
- No icon URL is rewritten.
- The daily forecast of the WeatherAPI.com formatter is not truncated.

## Model

| member | source | states |
|---|---|---|
| Base.Round | src/services/WeatherService.ts:217 | `Math.round` gives the integer within half a unit of its argument, ties counted upward |
| Base.RoundTies | src/services/WeatherService.ts:217 | 24.5 rounds to 25, -2.5 to -2 and 24.4 to 24 |
| Base.Clamp | src/services/WeatherService.ts:191 | `Math.min(hi, Math.max(lo, x))` lies in [lo, hi]: it is `x` when `x` already does, `lo` below the band and `hi` above it |
| Base.ToLower | src/services/WeatherService.ts:184 | lower-casing keeps the length, leaves no upper-case letter, moves each upper-case letter to its lower-case counterpart and leaves every other character in place |
| Base.ToLowerIdempotent | src/services/WeatherService.ts:184 | lower-casing an already lower-cased string changes nothing |
| Base.ContainsAt | src/services/WeatherService.ts:188-192 | `includes` holds exactly when the needle occurs at some position |
| Base.Take | src/services/WeatherService.ts:149 | `slice(0, n)` keeps the first min(n, length) elements unchanged |
| Records.OnlyFirstActive | src/services/WeatherService.ts:177 | when exactly the entry at index 0 is active, a non-empty forecast has one active entry |
| WeatherService.EveryEighth | src/services/WeatherService.ts:148 | the index filter keeps ceil(n/8) elements, the k-th being element 8k |
| WeatherService.DailySample | src/services/WeatherService.ts:146-149 | the daily sample has min(5, ceil(n/8)) buckets, the k-th being bucket 8k |
| WeatherService.CalculateUvIndex | src/services/WeatherService.ts:183-197 | the derived UV index lies in [1, 11]. Within the band of its sky class (clear/sunny, cloudy, other) it is the integer nearest to temp/3, temp/4 or temp/6, or the band's edge when that integer lies outside |
| WeatherService.UvIndexOfClearSky | src/services/WeatherService.ts:187-191 | a "Clear" sky at 24 degrees gives UV index 8 |
| WeatherService.DefaultHourlyForecast | src/services/WeatherService.ts:303-341 | five entries at 12:00, 15:00, 18:00, 21:00 and 00:00, of which only the first is active |
| WeatherService.DefaultDailyForecast | src/services/WeatherService.ts:343-397 | five entries dated now + k days, "Today" and "Tomorrow" then weekday names, with temperatures 26, 28, 25, 23, 22 |
| WeatherService.FormatWeatherData | src/services/WeatherService.ts:140-300 | on the payloads the model expresses, the formatter throws exactly when the OpenWeatherMap branch is taken and the payload's `weather[0]` or `wind`, a daily bucket's `main` or `weather[0]`, or an hourly bucket's `main`, `weather[0]` or `wind` is missing; the coalescing branch never throws |
| WeatherService.OwmDailyForecastSampling | src/services/WeatherService.ts:146-162 | the daily forecast is buckets 0, 8, 16, ... (at most five) in order, rounded and formatted, and empty without a `list` |
| WeatherService.OwmHourlyForecastPrefix | src/services/WeatherService.ts:165-180 | the hourly forecast is the first min(5, n) buckets in order, only the first active, so a non-empty one has exactly one active entry |
| WeatherService.OwmScalars | src/services/WeatherService.ts:215-222 | temperature, feels-like, wind and pressure are rounded. Humidity is copied. The city falls back to "Unknown Location" and is never empty |
| WeatherService.OwmUvIndex | src/services/WeatherService.ts:223 | a truthy `uvi` is copied unrounded; otherwise the derived index, in [1, 11], is used |
| WeatherService.OwmSunTimes | src/services/WeatherService.ts:200-231 | sunrise and sunset are formatted from truthy `sys` timestamps, else "06:00 AM" and "06:00 PM" |
| WeatherService.CoalescedScalars | src/services/WeatherService.ts:240-273 | each numeric reading is the defined key verbatim, else the truthy `main`/`wind` reading (rounded for temperature, feels-like and wind; not for humidity and pressure), else 25, 24, 50, 5 or 1013; the UV index is the first truthy of `uvIndex`, `uv_index` and 5; the city the first non-empty of `name`, `city` and "Unknown"; the condition the first non-empty of `condition`, `weather[0].main`, `weather_condition` and "Sunny" |
| WeatherService.CoalescedSunTimes | src/services/WeatherService.ts:274-289 | for sunrise and sunset alike, a non-empty explicit string wins over a truthy `sys` timestamp formatted on the 12-hour clock, which wins over "06:00 AM" and "20:00 PM" |
| WeatherService.CoalescedForecasts | src/services/WeatherService.ts:290-297 | the forecasts come from the weather payload, else the forecast payload, else are exactly the default hourly and daily forecasts |
| WeatherService.GeolocationErrorMessage | src/services/WeatherService.ts:115-129 | every geolocation error message starts with "Unable to get your location. " |
| WeatherService.GeolocationMessagesDistinguishCodes | src/services/WeatherService.ts:115-129 | two codes give the same message exactly when they are equal or both unknown |
| WeatherApiFormat.DailyForecast | src/types/weather.ts:166-178 | one daily entry per forecast day, in order, with rounded average temperature, condition text and icon, weekday and date |
| WeatherApiFormat.GatherDay | src/types/weather.ts:186-206 | the inner loop appends the qualifying hours of one day to what was gathered and stops at five entries |
| WeatherApiFormat.HourlyForecast | src/types/weather.ts:180-209 | the nested loop returns exactly the first five entries (or all, if fewer) of every qualifying hour, day by day and hour by hour |
| WeatherApiFormat.LaterDayKeepsAllHours | src/types/weather.ts:190 | every hour of a day after the first is kept, and none of them is active |
| WeatherApiFormat.FirstDaySkipsPastHours | src/types/weather.ts:186-203 | on the first day exactly the hours before the current hour are skipped: each kept hour yields its entry, in input order, active exactly when it is the current hour, and every entry comes from a kept hour |
| WeatherApiFormat.FirstDayCount | src/types/weather.ts:190 | the first day contributes one entry per hour not before the current hour |
| WeatherApiFormat.FirstDayKeptPositions | src/types/weather.ts:186-203 | a kept first-day hour's entry follows the entries of the kept hours before it |
| WeatherApiFormat.FirstDayEntriesFromKept | src/types/weather.ts:186-203 | every first-day entry is the entry of an hour not before the current hour |
| WeatherApiFormat.CandidatesActiveCount | src/types/weather.ts:202 | the active entries are exactly the first day's hours at the current hour |
| WeatherApiFormat.AtMostOneActive | src/types/weather.ts:202 | when the first day's hours are distinct, at most one hourly entry is active |
| WeatherApiFormat.NoneActiveWithoutCurrentHour | src/types/weather.ts:202 | when the first day has no entry at the current hour, no hourly entry is active |
| WeatherApiFormat.FormatWeatherResponse | src/types/weather.ts:159-226 | the formatter throws exactly when there is no forecast day. Otherwise current readings are rounded, humidity is copied, sun times come from day 0, the daily forecast is the per-day map and the hourly forecast is the first five candidates |
| WeatherStore.InitialState | src/store/modules/weather.ts:55-74 | the store starts on "Athens" with no saved locations, not loading, no error and `lastUpdated` 0 |
| WeatherStore.MergeRecord | src/store/modules/weather.ts:82-84 | committing a weather record overwrites exactly its keys, keeps `iconUrl` and the bookkeeping fields, and is idempotent |
| WeatherStore.ServiceFetch | src/store/modules/weather.ts:127 | the fetch fails with the server's message on a failed request; on a response it yields the formatter's record when the formatter succeeds and fails with no message when it throws |
| WeatherStore.FetchByCitySkipsOnlyWhenFresh | src/store/modules/weather.ts:111-121 | the action returns early exactly when the stored city equals the request, `lastUpdated` is set and less than 600000 ms have passed; it then changes nothing, and otherwise ends not loading |
| WeatherStore.InitialFetchRuns | src/store/modules/weather.ts:111-148 | from the initial state both fetch actions always run |
| WeatherStore.FetchSuccess | src/store/modules/weather.ts:123-130 | a successful fetch merges the record, stamps the time taken before the request, clears loading and error and keeps saved locations |
| WeatherStore.FetchFailureKeepsData | src/store/modules/weather.ts:131-139 | a failed fetch keeps every other field, records the server message or "Failed to fetch weather data", clears loading and rethrows |
| WeatherStore.TransportFailureMessage | src/store/modules/weather.ts:133-136 | a failure with no or an empty server message records the default message |
| WeatherStore.RepeatFetchWithinWindow | src/store/modules/weather.ts:115-129 | after a success, repeating the request within ten minutes is skipped exactly when the returned record names the requested city |
| WeatherStore.LocationFetchIgnoresCity | src/store/modules/weather.ts:146-148 | any fetch less than ten minutes ago makes the location fetch return early, whatever the city |
| WeatherStore.WithoutId | src/store/modules/weather.ts:91-95 | the filtered list holds no location with the id, keeps every other location, and adds none |
| WeatherStore.WithoutIdAppend | src/store/modules/weather.ts:91-95 | filtering distributes over concatenation, so kept locations stay in order |
| WeatherStore.WithoutIdIdempotent | src/store/modules/weather.ts:91-95 | removing an id twice is removing it once |
| WeatherStore.RemoveUndoesAdd | src/store/modules/weather.ts:88-95 | removing a location just added under a fresh id restores the list |
| WeatherStore.FetchSavedLocations | src/store/modules/weather.ts:168-182 | the refresh is a no-op while one is in flight; otherwise the list is replaced on success, kept on failure, and the flag ends cleared |
| WeatherStore.Store.constructor | src/store/modules/weather.ts:55-79 | a new store holds the initial state |
| WeatherStore.Store.SetWeatherData | src/store/modules/weather.ts:82-84 | `Object.assign`: the new state is the old one with every key present in the patch overwritten |
| WeatherStore.Store.SetSavedLocations | src/store/modules/weather.ts:85-87 | only the saved list changes, to the given one |
| WeatherStore.Store.AddSavedLocation | src/store/modules/weather.ts:88-90 | only the saved list changes, by appending the location |
| WeatherStore.Store.RemoveSavedLocation | src/store/modules/weather.ts:91-95 | only the saved list changes, to its filtered version |
| WeatherStore.Store.SetLoading | src/store/modules/weather.ts:96-98 | only `loading` changes |
| WeatherStore.Store.SetError | src/store/modules/weather.ts:99-101 | only `error` changes |
| WeatherStore.Store.SetLastUpdated | src/store/modules/weather.ts:102-104 | only `lastUpdated` changes |
| WeatherStore.Store.SetFetchingLocations | src/store/modules/weather.ts:105-107 | only `fetchingLocations` changes |
| WeatherStore.Store.CommitFetch | src/store/modules/weather.ts:123-139 | the commit sequence of a fetch that was not skipped leaves the state of `AfterFetch` and reports completion or a rethrow |
| WeatherStore.Store.FetchWeatherByCity | src/store/modules/weather.ts:111-140 | the action's new state and outcome are those of `FetchByCity` |
| WeatherStore.Store.FetchWeatherByLocation | src/store/modules/weather.ts:142-166 | the action's new state and outcome are those of `FetchByLocation` |
| WeatherStore.Store.FetchSavedLocationsAction | src/store/modules/weather.ts:168-182 | the action's new state is that of `FetchSavedLocations` |
| WeatherStore.Store.SaveLocation | src/store/modules/weather.ts:184-188 | a saved location is appended and returned; a failed save changes nothing |
| WeatherStore.Store.RemoveLocation | src/store/modules/weather.ts:190-193 | a deleted location is filtered out; a failed delete changes nothing |
| WeatherStore.Store.SelectLocation | src/store/modules/weather.ts:195-201 | a city string is fetched as is; a location object is fetched by its name when that is non-empty, and otherwise nothing changes |
| BrowserStorage.Storage.SetItem | src/store/modules/auth.ts:26 | `setItem` binds the key and leaves every other entry |
| BrowserStorage.Storage.RemoveItem | src/store/modules/auth.ts:28 | `removeItem` drops the key and leaves every other entry |
| AuthStore.InitialAuth | src/store/modules/auth.ts:15-18 | the store starts signed out: no user, not authenticated |
| AuthStore.AfterSetUser | src/store/modules/auth.ts:21-30 | `SET_USER` stores the user, sets `isAuthenticated` exactly when there is one, writes or removes "user" accordingly, and no other key changes |
| AuthStore.LocalPart | src/store/modules/auth.ts:37 | the name is a prefix of the email with no "@", followed in the email by "@" unless it is all of it |
| AuthStore.LocalPartOfAddress | src/store/modules/auth.ts:37 | for an address `a@b` whose `a` has no "@", the name is `a` |
| AuthStore.LoginUser | src/store/modules/auth.ts:34-38 | the logged-in user keeps the email and is named by the "@"-free prefix of it that ends at its first "@", or by all of it when it has none |
| AuthStore.AfterCheckAuth | src/store/modules/auth.ts:49-60 | with nothing (or "") stored nothing changes; an unparsable value is removed with the state kept; a parsed value is committed through `SET_USER`: it becomes the user, authentication follows its presence, and "user" is rewritten or removed |
| AuthStore.ReloadRestoresSession | src/store/modules/auth.ts:21-60 | with a JSON codec that round-trips the user, `checkAuth` in a fresh store restores the session `SET_USER` saved |
| AuthStore.LogoutSurvivesReload | src/store/modules/auth.ts:44-60 | after a logout, `checkAuth` changes neither state nor storage |
| AuthStore.CheckAuthIdempotent | src/store/modules/auth.ts:49-60 | with a round-tripping codec, running `checkAuth` twice is running it once |
| AuthStore.Auth.constructor | src/store/modules/auth.ts:15-18 | a new store is signed out |
| AuthStore.Auth.SetUser | src/store/modules/auth.ts:21-30 | the mutation leaves the state and storage of `AfterSetUser` |
| AuthStore.Auth.Login | src/store/modules/auth.ts:34-42 | `login` resolves with the user it builds from the email, ignoring the password, and commits it |
| AuthStore.Auth.Logout | src/store/modules/auth.ts:44-47 | `logout` commits no user: signed out, "user" removed |
| AuthStore.Auth.CheckAuth | src/store/modules/auth.ts:49-60 | the action leaves the state and storage of `AfterCheckAuth` |
| ThemeStore.ModeString | src/store/modules/theme.ts:24 | a mode is recorded as "true" exactly when it is dark, else "false" |
| ThemeStore.StoredByToggle | src/store/modules/theme.ts:22-26 | the toggle stores the record of the negation of the mode it has just committed |
| ThemeStore.InitialMode | src/store/modules/theme.ts:28-39 | a non-empty saved value decides (dark exactly when "true"); otherwise the mode becomes the current one or the dark preference |
| ThemeStore.ModeStringReadsBack | src/store/modules/theme.ts:28-39 | a recorded mode is read back as itself whatever the preference |
| ThemeStore.ReloadAfterToggleReverts | src/store/modules/theme.ts:22-39 | as written, a reload after a toggle restores the mode from before the toggle |
| ThemeStore.ReloadAfterCorrectedToggleKeeps | src/store/modules/theme.ts:22-39 | persisting the committed mode makes a reload keep the toggled mode |
| ThemeStore.Theme.constructor | src/store/modules/theme.ts:11-13 | the store starts in light mode |
| ThemeStore.Theme.SetDarkMode | src/store/modules/theme.ts:16-18 | the mutation sets the mode |
| ThemeStore.Theme.ToggleDarkMode | src/store/modules/theme.ts:22-26 | the toggle flips the mode and stores "darkMode" as the mode from before the flip, leaving other keys |
| ThemeStore.Theme.ToggleDarkModePersistingNewMode | src/store/modules/theme.ts:22-26 | the corrected toggle flips the mode and stores the new one |
| ThemeStore.Theme.InitTheme | src/store/modules/theme.ts:28-39 | the start-up mode is `InitialMode` of the saved value and the preference; storage is not written |
| Router.ResolvePath | src/router/index.ts:6-22 | "/home" resolves to the home route; every other path, through the catch-all redirect to "/", to the login route |
| Router.ResolveName | src/router/index.ts:6-16 | a named target matches the one route record of that name |
| Router.RequiresAuth | src/router/index.ts:30 | a target requires authentication exactly when some matched record is marked so |
| Router.Guard | src/router/index.ts:29-39 | unauthenticated targets requiring auth go to "login"; otherwise an authenticated visit to "login" goes to "home"; otherwise navigation proceeds; the cases are exclusive |
| Router.TokenPresent | src/services/AuthService.ts:59-65 | the guard's notion of authenticated is a non-empty "token" entry in storage |
| Router.OnlyHomeRequiresAuth | src/router/index.ts:6-22 | of all paths, only "/home" requires authentication |
| Router.RedirectIsFinal | src/router/index.ts:6-39 | following a redirect issued by the guard never triggers a second redirect |
| Router.DestinationByAuthentication | src/router/index.ts:6-39 | every navigation ends on "home" when authenticated and on "login" otherwise |
| Router.SetUserLeavesGuardInput | src/store/modules/auth.ts:25-29 | the auth store's `SET_USER` never changes the "token" entry the guard reads |

## Left out

- IEEE floating point: numbers are reals, so NaN, infinities and overflow are not modelled. A reading missing from an OpenWeatherMap `main` object that is present is a number in the model, whereas `Math.round(undefined)` would be NaN.
- `null` in payloads is treated like an absent key. The coalescing branch's `typeof x !== "undefined"` tests would let a `null` through verbatim.
- The forecast payload is always an object. A missing one would throw in the OpenWeatherMap branch, which reads `forecastData.list`, and in the coalescing branch only when the weather payload lacks `hourlyForecast` or `dailyForecast` (src/services/WeatherService.ts:290-296).
- WeatherService.FormatWeatherData: every `weather[]` entry carries a `main` string. The source stores an undefined condition for an entry without one, and throws from `undefined.toLowerCase()` when in addition `uvi` is falsy (src/services/WeatherService.ts:184); neither case is expressed.
- Locale and clock formatting (`toLocaleDateString`, `toLocaleTimeString`), date parsing and `getHours()` are uninterpreted functions or fields. Every `Date.now()`/`new Date()` in one call is the same `now`. The `try`/`catch` around time formatting is therefore never exercised.
- `toLowerCase` is modelled for ASCII letters only.
- HTTP and the browser are not modelled. `WeatherService.getWeatherByCity`, `fetchWeatherByLocation` with its geolocation flow and timeout race, `LocationService`, `AuthService.login`/`register` and the API clients are outside the model. What they return is a parameter: the two responses, or a failure with the server message.
- Every action is atomic. `CommitFetch` performs the intermediate `loading := true`/`error := null` commits, but no other code observes the state between them; interleavings of overlapping actions are not modelled.
- WeatherStore.Store.SetWeatherData: only the display keys of the state are patchable. Keys of a record that the state type lacks (such as `conditionIcon`), which `Object.assign` would also copy, are dropped.
- WeatherStore.Store.SelectLocation: `null` or values that are neither objects nor strings are not modelled.
- AuthStore.AfterCheckAuth: `JSON.parse` results other than `null` or a user object (numbers, strings, booleans, arrays) are not modelled.
- Vue-router details are left out: case-insensitive and trailing-slash matching, parameters, query strings and redirect chains. The catch-all's redirect to "/" is resolved directly to the login route.
- The system colour-scheme preference (`matchMedia`) is a parameter.
- Getters that only return fields, the store wiring in `src/store/index.ts`, console logging and promise plumbing are not modelled.

## Findings

| source | as written | input that shows it | evidently intended | confidence | as-written member | corrected member |
|---|---|---|---|---|---|---|
| src/store/modules/theme.ts:22-26 | `toggleDarkMode` commits the flipped mode and then writes `!state.darkMode`, so storage records the mode from before the toggle | light mode, toggle: the mode becomes dark but "darkMode" is "false", so the next `initTheme` starts in light mode | store the mode just committed, so a reload keeps the toggled mode | high, not executed | ThemeStore.Theme.ToggleDarkMode | ThemeStore.Theme.ToggleDarkModePersistingNewMode |
