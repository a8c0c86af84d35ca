/** The normalised weather record every formatter produces and the store
    displays, and the locale formatting the formatters delegate to. */
module Records {
  import opened Base

  /** One hourly forecast entry; `conditionIcon` is absent in the records the
      weather service builds and present in those built from WeatherAPI.com data. */
  datatype Hourly = Hourly(
    time: string,
    temperature: real,
    condition: string,
    conditionIcon: Option<string>,
    windSpeed: real,
    active: bool)

  /** One daily forecast entry. */
  datatype Daily = Daily(
    day: string,
    date: string,
    temperature: real,
    condition: string,
    conditionIcon: Option<string>)

  /** The normalised weather record. Numbers are JavaScript numbers: some are
      rounded, some are copied from the payload unrounded. */
  datatype WeatherData = WeatherData(
    city: string,
    temperature: real,
    feelsLike: real,
    condition: string,
    conditionIcon: Option<string>,
    humidity: real,
    windSpeed: real,
    pressure: real,
    uvIndex: real,
    sunrise: string,
    sunset: string,
    hourlyForecast: seq<Hourly>,
    dailyForecast: seq<Daily>)

  /** The "en-US" locale formatting of an instant given in epoch milliseconds,
      as the browser performs it; the model leaves its results uninterpreted. */
  datatype Locale = Locale(
    weekdayLong: int -> string,   // toLocaleDateString, { weekday: "long" }
    dayMonthShort: int -> string, // toLocaleDateString, { day: "numeric", month: "short" }
    clock24: int -> string,       // toLocaleTimeString, 2-digit hour and minute, hour12: false
    clock12: int -> string)       // toLocaleTimeString, 2-digit hour and minute, hour12: true

  /** Number of entries marked `active`. */
  function CountActive(s: seq<Hourly>): (n: nat)
    ensures n <= |s|
  {
    if s == [] then 0
    else CountActive(s[..|s| - 1]) + (if s[|s| - 1].active then 1 else 0)
  }

  /** `CountActive` distributes over concatenation. */
  lemma {:induction false} CountActiveAppend(a: seq<Hourly>, b: seq<Hourly>)
    ensures CountActive(a + b) == CountActive(a) + CountActive(b)
    decreases |b|
  {
    if b == [] {
      assert a + b == a;
    } else {
      assert (a + b)[..|a + b| - 1] == a + b[..|b| - 1];
      CountActiveAppend(a, b[..|b| - 1]);
    }
  }

  /** Dropping entries from the end never adds an active one. */
  lemma {:induction false} CountActivePrefix(p: seq<Hourly>, s: seq<Hourly>)
    requires p <= s
    ensures CountActive(p) <= CountActive(s)
  {
    assert s == p + s[|p|..];
    CountActiveAppend(p, s[|p|..]);
  }

  /** When exactly the first entry is active, a non-empty sequence has one active entry. */
  lemma {:induction false} OnlyFirstActive(s: seq<Hourly>)
    requires forall k :: 0 <= k < |s| ==> (s[k].active <==> k == 0)
    ensures CountActive(s) == if s == [] then 0 else 1
    decreases |s|
  {
    if |s| > 1 {
      OnlyFirstActive(s[..|s| - 1]);
    } else if |s| == 1 {
      assert s[..0] == [];
    }
  }
}
