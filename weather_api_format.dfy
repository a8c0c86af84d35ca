/** `formatWeatherData` of src/types/weather.ts: normalises a WeatherAPI.com
    response. The daily forecast maps every forecast day; the hourly forecast is
    gathered by a nested loop that skips the first day's past hours and stops at
    five entries. */
module WeatherApiFormat {
  import opened Base
  import opened Records

  datatype Condition = Condition(text: string, icon: string)

  datatype Place = Place(name: string)

  datatype Current = Current(
    tempC: real,
    feelslikeC: real,
    condition: Condition,
    humidity: real,
    windKph: real,
    pressureMb: real,
    uv: real)

  datatype DaySummary = DaySummary(avgtempC: real, condition: Condition)

  datatype Astro = Astro(sunrise: string, sunset: string)

  /** One hour of a forecast day. `time` is the parsed instant in epoch
      milliseconds and `hourOfDay` what `getHours()` reads from it. */
  datatype Hour = Hour(time: int, hourOfDay: int, tempC: real, condition: Condition, windKph: real)

  /** One forecast day; `date` is the parsed date in epoch milliseconds. */
  datatype ForecastDay = ForecastDay(date: int, day: DaySummary, astro: Astro, hour: seq<Hour>)

  datatype Forecast = Forecast(forecastday: seq<ForecastDay>)

  datatype WeatherResponse = WeatherResponse(location: Place, current: Current, forecast: Forecast)

  // ---------------------------------------------------------------------------
  // Daily forecast

  function DailyEntry(loc: Locale, d: ForecastDay): Daily
  {
    Daily(loc.weekdayLong(d.date), loc.dayMonthShort(d.date), Round(d.day.avgtempC) as real,
          d.day.condition.text, Some(d.day.condition.icon))
  }

  /** `forecastday.map(...)`: one entry per forecast day, in order, never truncated. */
  function DailyForecast(loc: Locale, days: seq<ForecastDay>): (r: seq<Daily>)
    ensures |r| == |days|
    ensures forall k :: 0 <= k < |days| ==>
              && r[k].temperature == Round(days[k].day.avgtempC) as real
              && r[k].condition == days[k].day.condition.text
              && r[k].conditionIcon == Some(days[k].day.condition.icon)
              && r[k].day == loc.weekdayLong(days[k].date)
              && r[k].date == loc.dayMonthShort(days[k].date)
  {
    if days == [] then []
    else DailyForecast(loc, days[..|days| - 1]) + [DailyEntry(loc, days[|days| - 1])]
  }

  // ---------------------------------------------------------------------------
  // Hourly forecast: the reference definition

  function HourlyEntry(loc: Locale, h: Hour, active: bool): Hourly
  {
    Hourly(loc.clock24(h.time), Round(h.tempC) as real, h.condition.text,
           Some(h.condition.icon), Round(h.windKph) as real, active)
  }

  /** An hour is kept unless it lies on the first day before the current hour. */
  predicate Qualifies(h: Hour, firstDay: bool, currentHour: int)
  {
    !(firstDay && h.hourOfDay < currentHour)
  }

  /** The entries one day's hours contribute, uncapped, in input order. */
  function DayCandidates(loc: Locale, hours: seq<Hour>, firstDay: bool, currentHour: int): seq<Hourly>
  {
    if hours == [] then []
    else
      var h := hours[|hours| - 1];
      DayCandidates(loc, hours[..|hours| - 1], firstDay, currentHour)
      + (if Qualifies(h, firstDay, currentHour)
         then [HourlyEntry(loc, h, firstDay && h.hourOfDay == currentHour)] else [])
  }

  /** Every qualifying hour of every day, day by day and hour by hour. */
  function Candidates(loc: Locale, days: seq<ForecastDay>, currentHour: int): seq<Hourly>
  {
    if days == [] then []
    else Candidates(loc, days[..|days| - 1], currentHour)
         + DayCandidates(loc, days[|days| - 1].hour, |days| == 1, currentHour)
  }

  lemma {:induction false} DayCandidatesPrefix(loc: Locale, hours: seq<Hour>, j: nat, firstDay: bool, currentHour: int)
    requires j <= |hours|
    ensures DayCandidates(loc, hours[..j], firstDay, currentHour) <= DayCandidates(loc, hours, firstDay, currentHour)
    decreases |hours|
  {
    if j < |hours| {
      var init := hours[..|hours| - 1];
      assert init[..j] == hours[..j];
      DayCandidatesPrefix(loc, init, j, firstDay, currentHour);
    } else {
      assert hours[..j] == hours;
    }
  }

  lemma {:induction false} CandidatesPrefix(loc: Locale, days: seq<ForecastDay>, i: nat, currentHour: int)
    requires i <= |days|
    ensures Candidates(loc, days[..i], currentHour) <= Candidates(loc, days, currentHour)
    decreases |days|
  {
    if i < |days| {
      var init := days[..|days| - 1];
      assert init[..i] == days[..i];
      CandidatesPrefix(loc, init, i, currentHour);
    } else {
      assert days[..i] == days;
    }
  }

  /** One more hour of a day adds that hour's entry when it qualifies. */
  lemma DayCandidatesStep(loc: Locale, hours: seq<Hour>, j: nat, firstDay: bool, currentHour: int)
    requires j < |hours|
    ensures DayCandidates(loc, hours[..j + 1], firstDay, currentHour)
            == DayCandidates(loc, hours[..j], firstDay, currentHour)
               + (if Qualifies(hours[j], firstDay, currentHour)
                  then [HourlyEntry(loc, hours[j], firstDay && hours[j].hourOfDay == currentHour)] else [])
  {
    assert hours[..j + 1][..j] == hours[..j];
  }

  /** One more day adds all that day's candidates; only day 0 is the first day. */
  lemma CandidatesStep(loc: Locale, days: seq<ForecastDay>, i: nat, currentHour: int)
    requires i < |days|
    ensures Candidates(loc, days[..i + 1], currentHour)
            == Candidates(loc, days[..i], currentHour) + DayCandidates(loc, days[i].hour, i == 0, currentHour)
  {
    assert days[..i + 1][..i] == days[..i];
  }

  // ---------------------------------------------------------------------------
  // Hourly forecast: the loop

  /** The inner loop of the source over one day's hours: it appends the
      qualifying hours to what is gathered so far and stops at five entries. */
  method GatherDay(loc: Locale, hours: seq<Hour>, firstDay: bool, currentHour: int, gathered: seq<Hourly>)
    returns (hourly: seq<Hourly>)
    requires |gathered| < 5
    ensures hourly == Take(gathered + DayCandidates(loc, hours, firstDay, currentHour), 5)
  {
    hourly := gathered;
    for j := 0 to |hours|
      invariant hourly == gathered + DayCandidates(loc, hours[..j], firstDay, currentHour)
      invariant |hourly| < 5
    {
      var hourData := hours[j];
      var hourTime := hourData.hourOfDay;
      DayCandidatesStep(loc, hours, j, firstDay, currentHour);
      if firstDay && hourTime < currentHour {
        continue;
      }
      hourly := hourly + [HourlyEntry(loc, hourData, firstDay && hourTime == currentHour)];
      if |hourly| == 5 {
        DayCandidatesPrefix(loc, hours, j + 1, firstDay, currentHour);
        TakeOfPrefix(hourly, gathered + DayCandidates(loc, hours, firstDay, currentHour), 5);
        return;
      }
    }
    assert hours[..|hours|] == hours;
  }

  /** The nested loop of the source: at most five entries, the first qualifying
      hours in day-then-hour order. */
  method HourlyForecast(loc: Locale, days: seq<ForecastDay>, currentHour: int) returns (hourly: seq<Hourly>)
    ensures hourly == Take(Candidates(loc, days, currentHour), 5)
    ensures |hourly| <= 5
  {
    hourly := [];
    for i := 0 to |days|
      invariant hourly == Candidates(loc, days[..i], currentHour)
      invariant |hourly| < 5
    {
      hourly := GatherDay(loc, days[i].hour, i == 0, currentHour, hourly);
      CandidatesStep(loc, days, i, currentHour);
      if |hourly| == 5 {
        CandidatesPrefix(loc, days, i + 1, currentHour);
        TakeOfPrefix(hourly, Candidates(loc, days, currentHour), 5);
        return;
      }
    }
    assert days[..|days|] == days;
  }

  // ---------------------------------------------------------------------------
  // Properties of the reference definition

  /** Every hour of a day after the first qualifies, and none of them is active. */
  lemma {:induction false} LaterDayKeepsAllHours(loc: Locale, hours: seq<Hour>, currentHour: int)
    ensures var c := DayCandidates(loc, hours, false, currentHour);
            && |c| == |hours|
            && forall k :: 0 <= k < |hours| ==> c[k] == HourlyEntry(loc, hours[k], false)
    ensures CountActive(DayCandidates(loc, hours, false, currentHour)) == 0
  {
    if hours != [] {
      var init := hours[..|hours| - 1];
      LaterDayKeepsAllHours(loc, init, currentHour);
      CountActiveAppend(DayCandidates(loc, init, false, currentHour),
                        [HourlyEntry(loc, hours[|hours| - 1], false)]);
    }
  }

  /** Number of hours whose hour of day is exactly `h`. */
  function CountAtHour(hours: seq<Hour>, h: int): nat
  {
    if hours == [] then 0
    else CountAtHour(hours[..|hours| - 1], h) + (if hours[|hours| - 1].hourOfDay == h then 1 else 0)
  }

  /** Hours of a day are distinct when no two share an hour of day. */
  predicate DistinctHours(hours: seq<Hour>)
  {
    forall a, b :: 0 <= a < b < |hours| ==> hours[a].hourOfDay != hours[b].hourOfDay
  }

  lemma {:induction false} CountAtHourAbsent(hours: seq<Hour>, h: int)
    requires forall k :: 0 <= k < |hours| ==> hours[k].hourOfDay != h
    ensures CountAtHour(hours, h) == 0
  {
    if hours != [] {
      CountAtHourAbsent(hours[..|hours| - 1], h);
    }
  }

  lemma {:induction false} CountAtHourDistinct(hours: seq<Hour>, h: int)
    requires DistinctHours(hours)
    ensures CountAtHour(hours, h) <= 1
  {
    if hours != [] {
      var init := hours[..|hours| - 1];
      assert DistinctHours(init);
      if hours[|hours| - 1].hourOfDay == h {
        CountAtHourAbsent(init, h);
      } else {
        CountAtHourDistinct(init, h);
      }
    }
  }

  /** On the first day, the active entries are the hours at exactly the current hour. */
  lemma {:induction false} FirstDayActiveCount(loc: Locale, hours: seq<Hour>, currentHour: int)
    ensures CountActive(DayCandidates(loc, hours, true, currentHour)) == CountAtHour(hours, currentHour)
  {
    if hours != [] {
      var init := hours[..|hours| - 1];
      var h := hours[|hours| - 1];
      FirstDayActiveCount(loc, init, currentHour);
      var tail := if Qualifies(h, true, currentHour)
                  then [HourlyEntry(loc, h, h.hourOfDay == currentHour)] else [];
      CountActiveAppend(DayCandidates(loc, init, true, currentHour), tail);
    }
  }

  /** Active entries come only from the first day's current hour. */
  lemma {:induction false} CandidatesActiveCount(loc: Locale, days: seq<ForecastDay>, currentHour: int)
    ensures CountActive(Candidates(loc, days, currentHour))
            == if days == [] then 0 else CountAtHour(days[0].hour, currentHour)
  {
    if |days| == 1 {
      FirstDayActiveCount(loc, days[0].hour, currentHour);
      CountActiveAppend([], DayCandidates(loc, days[0].hour, true, currentHour));
    } else if |days| > 1 {
      var init := days[..|days| - 1];
      CandidatesActiveCount(loc, init, currentHour);
      LaterDayKeepsAllHours(loc, days[|days| - 1].hour, currentHour);
      CountActiveAppend(Candidates(loc, init, currentHour),
                        DayCandidates(loc, days[|days| - 1].hour, false, currentHour));
    }
  }

  /** With distinct hours on the first day, at most one hourly entry is active. */
  lemma AtMostOneActive(loc: Locale, days: seq<ForecastDay>, currentHour: int)
    requires days != [] ==> DistinctHours(days[0].hour)
    ensures CountActive(Take(Candidates(loc, days, currentHour), 5)) <= 1
  {
    var all := Candidates(loc, days, currentHour);
    CandidatesActiveCount(loc, days, currentHour);
    if days != [] {
      CountAtHourDistinct(days[0].hour, currentHour);
    }
    CountActivePrefix(Take(all, 5), all);
  }

  /** No entry is active when the first day has no hour at the current hour. */
  lemma NoneActiveWithoutCurrentHour(loc: Locale, days: seq<ForecastDay>, currentHour: int)
    requires days != []
    requires forall k :: 0 <= k < |days[0].hour| ==> days[0].hour[k].hourOfDay != currentHour
    ensures CountActive(Take(Candidates(loc, days, currentHour), 5)) == 0
  {
    var all := Candidates(loc, days, currentHour);
    CandidatesActiveCount(loc, days, currentHour);
    CountAtHourAbsent(days[0].hour, currentHour);
    CountActivePrefix(Take(all, 5), all);
  }

  /** First-day hours before the current hour are skipped; the rest are kept,
      in order: the kept hour at index `i` yields the entry at index `i` minus
      the number of skipped hours before it, active exactly when it is the
      current hour, and every entry comes from a kept hour. */
  lemma FirstDaySkipsPastHours(loc: Locale, hours: seq<Hour>, currentHour: int)
    ensures var c := DayCandidates(loc, hours, true, currentHour);
            && |c| == |hours| - CountBefore(hours, currentHour)
            && (forall i :: 0 <= i < |hours| && hours[i].hourOfDay >= currentHour ==>
                  && 0 <= i - CountBefore(hours[..i], currentHour) < |c|
                  && c[i - CountBefore(hours[..i], currentHour)]
                     == HourlyEntry(loc, hours[i], hours[i].hourOfDay == currentHour))
    ensures forall k :: 0 <= k < |DayCandidates(loc, hours, true, currentHour)| ==>
              EntryOfKeptHour(loc, hours, currentHour, DayCandidates(loc, hours, true, currentHour)[k])
  {
    FirstDayCount(loc, hours, currentHour);
    FirstDayKeptPositions(loc, hours, currentHour);
    FirstDayEntriesFromKept(loc, hours, currentHour);
  }

  /** The first day contributes one entry per hour not before the current hour. */
  lemma {:induction false} FirstDayCount(loc: Locale, hours: seq<Hour>, currentHour: int)
    ensures |DayCandidates(loc, hours, true, currentHour)| == |hours| - CountBefore(hours, currentHour)
  {
    if hours != [] {
      FirstDayCount(loc, hours[..|hours| - 1], currentHour);
    }
  }

  /** A kept first-day hour's entry sits after the entries of the kept hours before it. */
  lemma {:induction false} FirstDayKeptPositions(loc: Locale, hours: seq<Hour>, currentHour: int)
    ensures var c := DayCandidates(loc, hours, true, currentHour);
            forall i :: 0 <= i < |hours| && hours[i].hourOfDay >= currentHour ==>
              && 0 <= i - CountBefore(hours[..i], currentHour) < |c|
              && c[i - CountBefore(hours[..i], currentHour)]
                 == HourlyEntry(loc, hours[i], hours[i].hourOfDay == currentHour)
  {
    if hours != [] {
      var n := |hours|;
      var init := hours[..n - 1];
      var last := hours[n - 1];
      var c := DayCandidates(loc, hours, true, currentHour);
      var ci := DayCandidates(loc, init, true, currentHour);
      var tail := if Qualifies(last, true, currentHour)
                  then [HourlyEntry(loc, last, last.hourOfDay == currentHour)] else [];
      assert c == ci + tail;
      FirstDayKeptPositions(loc, init, currentHour);
      forall i | 0 <= i < n && hours[i].hourOfDay >= currentHour
        ensures 0 <= i - CountBefore(hours[..i], currentHour) < |c|
        ensures c[i - CountBefore(hours[..i], currentHour)]
                == HourlyEntry(loc, hours[i], hours[i].hourOfDay == currentHour)
      {
        if i < n - 1 {
          assert hours[..i] == init[..i];
          assert init[i] == hours[i];
        } else {
          assert hours[..i] == init;
          FirstDayCount(loc, init, currentHour);
        }
      }
    }
  }

  /** `e` is the first-day entry of an hour of `hours` not before the current hour. */
  predicate EntryOfKeptHour(loc: Locale, hours: seq<Hour>, currentHour: int, e: Hourly)
  {
    exists i :: 0 <= i < |hours| && hours[i].hourOfDay >= currentHour
                && e == HourlyEntry(loc, hours[i], hours[i].hourOfDay == currentHour)
  }

  /** Every first-day entry is the entry of a kept hour. */
  lemma {:induction false} FirstDayEntriesFromKept(loc: Locale, hours: seq<Hour>, currentHour: int)
    ensures forall k :: 0 <= k < |DayCandidates(loc, hours, true, currentHour)| ==>
              EntryOfKeptHour(loc, hours, currentHour, DayCandidates(loc, hours, true, currentHour)[k])
  {
    if hours != [] {
      var n := |hours|;
      var init := hours[..n - 1];
      var last := hours[n - 1];
      var c := DayCandidates(loc, hours, true, currentHour);
      var ci := DayCandidates(loc, init, true, currentHour);
      var tail := if Qualifies(last, true, currentHour)
                  then [HourlyEntry(loc, last, last.hourOfDay == currentHour)] else [];
      assert c == ci + tail;
      FirstDayEntriesFromKept(loc, init, currentHour);
      forall k | 0 <= k < |c|
        ensures EntryOfKeptHour(loc, hours, currentHour, c[k])
      {
        if k < |ci| {
          assert EntryOfKeptHour(loc, init, currentHour, ci[k]);
          var i :| 0 <= i < |init| && init[i].hourOfDay >= currentHour
                   && ci[k] == HourlyEntry(loc, init[i], init[i].hourOfDay == currentHour);
          assert hours[i] == init[i];
        } else {
          assert c[k] == HourlyEntry(loc, hours[n - 1], hours[n - 1].hourOfDay == currentHour);
        }
      }
    }
  }

  /** Number of hours earlier than `h`. */
  function CountBefore(hours: seq<Hour>, h: int): (n: nat)
    ensures n <= |hours|
  {
    if hours == [] then 0
    else CountBefore(hours[..|hours| - 1], h) + (if hours[|hours| - 1].hourOfDay < h then 1 else 0)
  }

  // ---------------------------------------------------------------------------
  // The whole formatter

  /** `formatWeatherData`: reading `forecastday[0].astro` throws when there are
      no forecast days; otherwise current readings are rounded (humidity is
      copied) and both forecasts are built as above. */
  method FormatWeatherResponse(loc: Locale, data: WeatherResponse, currentHour: int)
    returns (r: Result<WeatherData, JsError>)
    ensures r.Err? <==> data.forecast.forecastday == []
    ensures r.Ok? ==>
              var days := data.forecast.forecastday;
              var c := data.current;
              var d := r.value;
              && d.city == data.location.name
              && d.temperature == Round(c.tempC) as real
              && d.feelsLike == Round(c.feelslikeC) as real
              && d.windSpeed == Round(c.windKph) as real
              && d.pressure == Round(c.pressureMb) as real
              && d.uvIndex == Round(c.uv) as real
              && d.humidity == c.humidity
              && d.condition == c.condition.text
              && d.conditionIcon == Some(c.condition.icon)
              && d.sunrise == days[0].astro.sunrise
              && d.sunset == days[0].astro.sunset
              && d.dailyForecast == DailyForecast(loc, days)
              && d.hourlyForecast == Take(Candidates(loc, days, currentHour), 5)
  {
    var current := data.current;
    var days := data.forecast.forecastday;
    var dailyForecast := DailyForecast(loc, days);
    var hourlyForecast := HourlyForecast(loc, days, currentHour);
    if |days| == 0 {
      return Err(TypeError);
    }
    r := Ok(WeatherData(
      city := data.location.name,
      temperature := Round(current.tempC) as real,
      feelsLike := Round(current.feelslikeC) as real,
      condition := current.condition.text,
      conditionIcon := Some(current.condition.icon),
      humidity := current.humidity,
      windSpeed := Round(current.windKph) as real,
      pressure := Round(current.pressureMb) as real,
      uvIndex := Round(current.uv) as real,
      sunrise := days[0].astro.sunrise,
      sunset := days[0].astro.sunset,
      hourlyForecast := hourlyForecast,
      dailyForecast := dailyForecast));
  }
}
