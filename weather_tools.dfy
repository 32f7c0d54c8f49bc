/** The weather tools of the chat assistant (weather_tools.py): current conditions and the
    daily forecast. The HTTP endpoints are parameters: each call answers `Ok` with the decoded
    reply or `Err` with the text of the request exception it raised. */
module WeatherTools {
  import opened Results
  import opened Strings
  import opened Numbers

  const MOCK_NOTE := "Weather API key not configured. Using mock data."
  const FORECAST_UNAVAILABLE_NOTE := "Weather API key not configured. Forecast unavailable."

  /** Forecast entries per day: one every three hours. */
  const READINGS_PER_DAY := 8

  /** The day count of a forecast request that gives none. */
  const DEFAULT_DAYS := 3

  /** The error text for a place the geocoder does not know. */
  function NotFound(location: string): string
  {
    "Location '" + location + "' not found"
  }

  // ---------------------------------------------------------------------------
  // What the weather service answers

  /** The arguments of a geocoding request (`q`, `limit`). */
  datatype GeoQuery = GeoQuery(q: string, limit: nat)

  /** One geocoding hit. */
  datatype Place = Place(name: string, country: Option<string>, lat: real, lon: real)

  /** The arguments of a current-conditions request. */
  datatype PointQuery = PointQuery(lat: real, lon: real)

  /** The arguments of a forecast request; `cnt` is the number of three-hour entries asked for. */
  datatype ForecastQuery = ForecastQuery(lat: real, lon: real, cnt: int)

  /** The current-conditions reply, as decoded. */
  datatype Observation = Observation(
    temp: real,
    feelsLike: real,
    humidity: real,
    pressure: real,
    description: string,
    windSpeed: real,
    visibility: Option<real>,
    cloudCover: real)

  /** One three-hour entry of the forecast reply: its `dt_txt` stamp, temperature and the
      description of its first weather entry. */
  datatype ForecastItem = ForecastItem(dtTxt: string, temp: real, condition: string)

  /** How a geocoding hit is named in results: `f"{name}, {country}"`, the country empty when absent. */
  function PlaceLabel(p: Place): string
  {
    p.name + ", " + (if p.country.Some? then p.country.value else "")
  }

  // ---------------------------------------------------------------------------
  // get_current_weather

  /** The result object of `get_current_weather`. */
  datatype CurrentWeather =
    | MockWeather(location: string, note: string, temperature: string, condition: string, humidity: string, windSpeed: string)
    | LiveWeather(location: string, lat: real, lon: real, observation: Observation)
    | WeatherError(error: string)

  /** `get_current_weather(location)`. */
  function GetCurrentWeather(
    apiKey: Option<string>,
    location: string,
    geocode: GeoQuery -> Result<seq<Place>>,
    fetchWeather: PointQuery -> Result<Observation>): (r: CurrentWeather)
    ensures !Present(apiKey) <==> r.MockWeather?
    ensures r.MockWeather? ==> r.location == location && Contains(r.note, "mock data")
  {
    if !Present(apiKey) then
      assert OccursAt(MOCK_NOTE, "mock data", 38);
      MockWeather(location, MOCK_NOTE, "20°C (68°F)", "Clear", "45%", "10 km/h")
    else
      match geocode(GeoQuery(location, 1))
      case Err(e) => WeatherError("Failed to fetch weather data: " + e)
      case Ok(places) =>
        if places == [] then WeatherError(NotFound(location))
        else
          var place := places[0];
          match fetchWeather(PointQuery(place.lat, place.lon))
          case Err(e) => WeatherError("Failed to fetch weather data: " + e)
          case Ok(observation) => LiveWeather(PlaceLabel(place), place.lat, place.lon, observation)
  }

  /** An empty geocoding answer is reported as an unknown location, and no weather is fetched. */
  lemma CurrentWeatherNotFound(
    apiKey: Option<string>,
    location: string,
    geocode: GeoQuery -> Result<seq<Place>>,
    fetchWeather: PointQuery -> Result<Observation>)
    requires Present(apiKey) && geocode(GeoQuery(location, 1)) == Ok([])
    ensures GetCurrentWeather(apiKey, location, geocode, fetchWeather) == WeatherError(NotFound(location))
  {
  }

  /** A live report names the first geocoding hit and carries its coordinates. */
  lemma CurrentWeatherUsesFirstHit(
    apiKey: Option<string>,
    location: string,
    geocode: GeoQuery -> Result<seq<Place>>,
    fetchWeather: PointQuery -> Result<Observation>)
    requires GetCurrentWeather(apiKey, location, geocode, fetchWeather).LiveWeather?
    ensures var r := GetCurrentWeather(apiKey, location, geocode, fetchWeather);
      && geocode(GeoQuery(location, 1)).Ok?
      && var places := geocode(GeoQuery(location, 1)).value;
      && |places| > 0
      && r.location == PlaceLabel(places[0])
      && fetchWeather(PointQuery(places[0].lat, places[0].lon)) == Ok(r.observation)
  {
  }

  // ---------------------------------------------------------------------------
  // get_weather_forecast: day count

  /** `max(1, min(days, 5))`. */
  function ClampDays(days: int): (d: int)
    ensures 1 <= d <= 5
    ensures 1 <= days <= 5 ==> d == days
    ensures days < 1 ==> d == 1
    ensures days > 5 ==> d == 5
  {
    Max(1, Min(days, 5))
  }

  /** Clamping twice is clamping once. */
  lemma ClampDaysIdempotent(days: int)
    ensures ClampDays(ClampDays(days)) == ClampDays(days)
  {
  }

  /** The `cnt` sent to the forecast endpoint: eight entries per clamped day. */
  function RequestCount(days: int): (cnt: int)
    ensures 8 <= cnt <= 40
    ensures cnt % READINGS_PER_DAY == 0
    ensures cnt / READINGS_PER_DAY == ClampDays(days)
  {
    ClampDays(days) * READINGS_PER_DAY
  }

  // ---------------------------------------------------------------------------
  // get_weather_forecast: grouping by date

  /** `item["dt_txt"].split(" ")[0]`: the text before the first space. */
  function DateOf(item: ForecastItem): string
  {
    FirstSegment(item.dtTxt, ' ')
  }

  /** The dates of the items, each once, in the order it first appears. */
  function DistinctDates(items: seq<ForecastItem>): seq<string>
  {
    if items == [] then []
    else
      var prior := DistinctDates(items[..|items| - 1]);
      var date := DateOf(items[|items| - 1]);
      if date in prior then prior else prior + [date]
  }

  /** The items of one date, in input order. */
  function ItemsOn(items: seq<ForecastItem>, date: string): seq<ForecastItem>
  {
    if items == [] then []
    else
      var last := items[|items| - 1];
      ItemsOn(items[..|items| - 1], date) + (if DateOf(last) == date then [last] else [])
  }

  /** One more item extends its date's group and leaves the others alone. */
  lemma ItemsOnSnoc(items: seq<ForecastItem>, x: ForecastItem, date: string)
    ensures ItemsOn(items + [x], date) == ItemsOn(items, date) + (if DateOf(x) == date then [x] else [])
  {
    assert (items + [x])[..|items|] == items;
  }

  /** One more item lists its date at the end if it is new. */
  lemma DistinctDatesSnoc(items: seq<ForecastItem>, x: ForecastItem)
    ensures DistinctDates(items + [x])
         == var prior := DistinctDates(items); if DateOf(x) in prior then prior else prior + [DateOf(x)]
  {
    assert (items + [x])[..|items|] == items;
  }

  /** Some item carries the date. */
  predicate HasDate(items: seq<ForecastItem>, date: string)
  {
    exists i :: 0 <= i < |items| && DateOf(items[i]) == date
  }

  /** Item `k` is the first one that carries the date. */
  predicate FirstOn(items: seq<ForecastItem>, date: string, k: int)
  {
    && 0 <= k < |items|
    && DateOf(items[k]) == date
    && forall j :: 0 <= j < k ==> DateOf(items[j]) != date
  }

  /** A date is listed exactly when some item carries it. */
  lemma {:induction false} DistinctDatesMembership(items: seq<ForecastItem>, date: string)
    ensures date in DistinctDates(items) <==> HasDate(items, date)
  {
    if items != [] {
      var prior := items[..|items| - 1];
      DistinctDatesMembership(prior, date);
      if HasDate(prior, date) {
        var i :| 0 <= i < |prior| && DateOf(prior[i]) == date;
        assert DateOf(items[i]) == date;
      }
      if HasDate(items, date) && DateOf(items[|items| - 1]) != date {
        var i :| 0 <= i < |items| && DateOf(items[i]) == date;
        assert DateOf(prior[i]) == date;
      }
    }
  }

  /** No element occurs twice. */
  predicate NoDuplicates(s: seq<string>)
  {
    forall i, j :: 0 <= i < j < |s| ==> s[i] != s[j]
  }

  /** No date is listed twice. */
  lemma {:induction false} DistinctDatesUnique(items: seq<ForecastItem>)
    ensures NoDuplicates(DistinctDates(items))
  {
    if items != [] {
      var prefix := items[..|items| - 1];
      DistinctDatesUnique(prefix);
      var prior := DistinctDates(prefix);
      var date := DateOf(items[|items| - 1]);
      if date !in prior {
        var ds := prior + [date];
        forall i, j | 0 <= i < j < |ds| ensures ds[i] != ds[j] {
          if j == |prior| {
            assert ds[i] == prior[i] && prior[i] in prior;
          } else {
            assert ds[i] == prior[i] && ds[j] == prior[j];
          }
        }
        assert DistinctDates(items) == ds;
      }
    }
  }

  /** Dates are listed in the order of their first appearance. */
  lemma {:induction false} DistinctDatesInFirstAppearanceOrder(items: seq<ForecastItem>, i: nat, j: nat, ki: nat, kj: nat)
    requires i < j < |DistinctDates(items)|
    requires FirstOn(items, DistinctDates(items)[i], ki)
    requires FirstOn(items, DistinctDates(items)[j], kj)
    ensures ki < kj
  {
    var prior := items[..|items| - 1];
    var ds := DistinctDates(prior);
    var n := |prior|;
    var di := DistinctDates(items)[i];
    var dj := DistinctDates(items)[j];
    DistinctDatesMembership(prior, di);
    assert di == ds[i];
    var mi :| 0 <= mi < n && DateOf(prior[mi]) == di;
    assert DateOf(items[mi]) == di;
    assert ki <= mi;
    if j < |ds| {
      DistinctDatesMembership(prior, dj);
      var mj :| 0 <= mj < n && DateOf(prior[mj]) == dj;
      assert DateOf(items[mj]) == dj;
      assert FirstOn(prior, di, ki) && FirstOn(prior, dj, kj);
      DistinctDatesInFirstAppearanceOrder(prior, i, j, ki, kj);
    } else {
      assert dj == DateOf(items[n]) && dj !in ds;
      DistinctDatesMembership(prior, dj);
    }
  }

  /** An item is in its date's group, and only there. */
  lemma {:induction false} ItemsOnMembership(items: seq<ForecastItem>, date: string, x: ForecastItem)
    ensures x in ItemsOn(items, date) <==> x in items && DateOf(x) == date
  {
    if items != [] {
      var prior := items[..|items| - 1];
      ItemsOnMembership(prior, date, x);
      assert items == prior + [items[|items| - 1]];
    }
  }

  /** Grouping keeps input order: it distributes over concatenation. */
  lemma {:induction false} ItemsOnConcat(a: seq<ForecastItem>, b: seq<ForecastItem>, date: string)
    ensures ItemsOn(a + b, date) == ItemsOn(a, date) + ItemsOn(b, date)
    decreases |b|
  {
    if b == [] {
      assert a + b == a;
    } else {
      var bPrior := b[..|b| - 1];
      assert (a + b)[..|a + b| - 1] == a + bPrior;
      ItemsOnConcat(a, bPrior, date);
    }
  }

  /** Every listed date has at least one item. */
  lemma DistinctDatesHaveItems(items: seq<ForecastItem>)
    ensures forall date :: date in DistinctDates(items) ==> ItemsOn(items, date) != []
  {
    forall date | date in DistinctDates(items)
      ensures ItemsOn(items, date) != []
    {
      DistinctDatesMembership(items, date);
      var i :| 0 <= i < |items| && DateOf(items[i]) == date;
      ItemsOnMembership(items, date, items[i]);
    }
  }

  /** The groups of the given dates, one after the other. */
  function Regroup(dates: seq<string>, items: seq<ForecastItem>): seq<ForecastItem>
  {
    if dates == [] then [] else ItemsOn(items, dates[0]) + Regroup(dates[1..], items)
  }

  lemma {:induction false} RegroupAppendItem(dates: seq<string>, items: seq<ForecastItem>, x: ForecastItem)
    requires NoDuplicates(dates)
    ensures multiset(Regroup(dates, items + [x]))
         == multiset(Regroup(dates, items)) + (if DateOf(x) in dates then multiset{x} else multiset{})
  {
    if dates != [] {
      assert (items + [x])[..|items|] == items;
      assert NoDuplicates(dates[1..]) by {
        forall i, j | 0 <= i < j < |dates| - 1 ensures dates[1..][i] != dates[1..][j] {
          assert dates[i + 1] != dates[j + 1];
        }
      }
      RegroupAppendItem(dates[1..], items, x);
      if DateOf(x) == dates[0] {
        assert DateOf(x) !in dates[1..] by {
          forall j | 0 <= j < |dates| - 1 ensures dates[1..][j] != dates[0] {
            assert dates[0] != dates[j + 1];
          }
        }
      }
    }
  }

  lemma {:induction false} RegroupAppendDate(dates: seq<string>, date: string, items: seq<ForecastItem>)
    ensures Regroup(dates + [date], items) == Regroup(dates, items) + ItemsOn(items, date)
  {
    if dates != [] {
      assert (dates + [date])[1..] == dates[1..] + [date];
      RegroupAppendDate(dates[1..], date, items);
    } else {
      assert [] + [date] == [date];
    }
  }

  /** A date no item carries has no items. */
  lemma ItemsOnAbsentDate(items: seq<ForecastItem>, date: string)
    requires date !in DistinctDates(items)
    ensures ItemsOn(items, date) == []
  {
    DistinctDatesMembership(items, date);
    if ItemsOn(items, date) != [] {
      var y := ItemsOn(items, date)[0];
      ItemsOnMembership(items, date, y);
      assert false;
    }
  }

  /** The groups partition the items: each item lands in exactly one group. */
  lemma {:induction false} GroupsPartitionItems(items: seq<ForecastItem>)
    ensures multiset(Regroup(DistinctDates(items), items)) == multiset(items)
  {
    if items != [] {
      var prior := items[..|items| - 1];
      var x := items[|items| - 1];
      var ds := DistinctDates(prior);
      assert items == prior + [x];
      GroupsPartitionItems(prior);
      DistinctDatesUnique(prior);
      DistinctDatesSnoc(prior, x);
      RegroupAppendItem(ds, prior, x);
      if DateOf(x) !in ds {
        RegroupAppendDate(ds, DateOf(x), items);
        ItemsOnSnoc(prior, x, DateOf(x));
        ItemsOnAbsentDate(prior, DateOf(x));
        assert ItemsOn(items, DateOf(x)) == [x];
      }
    }
  }

  /** One step of the loop that fills `daily_forecasts`, for an item whose date already has a
      group: appending it keeps the dates and the groups equal to the specification. */
  lemma GroupStepKnownDate(prior: seq<ForecastItem>, x: ForecastItem, dates: seq<string>, groups: map<string, seq<ForecastItem>>)
    requires dates == DistinctDates(prior)
    requires forall date :: date in groups <==> date in dates
    requires forall date :: date in groups ==> groups[date] == ItemsOn(prior, date)
    requires forall date :: date !in groups ==> ItemsOn(prior, date) == []
    requires DateOf(x) in groups
    ensures dates == DistinctDates(prior + [x])
    ensures forall date :: date in groups[DateOf(x) := groups[DateOf(x)] + [x]] ==>
      groups[DateOf(x) := groups[DateOf(x)] + [x]][date] == ItemsOn(prior + [x], date)
    ensures forall date :: date !in groups ==> ItemsOn(prior + [x], date) == []
  {
    DistinctDatesSnoc(prior, x);
    forall date ensures ItemsOn(prior + [x], date) == ItemsOn(prior, date) + (if DateOf(x) == date then [x] else []) {
      ItemsOnSnoc(prior, x, date);
    }
  }

  /** The same step for an item whose date is new: its group is opened with the item alone and
      the date goes to the end of the list. */
  lemma GroupStepNewDate(prior: seq<ForecastItem>, x: ForecastItem, dates: seq<string>, groups: map<string, seq<ForecastItem>>)
    requires dates == DistinctDates(prior)
    requires forall date :: date in groups <==> date in dates
    requires forall date :: date in groups ==> groups[date] == ItemsOn(prior, date)
    requires forall date :: date !in groups ==> ItemsOn(prior, date) == []
    requires DateOf(x) !in groups
    ensures dates + [DateOf(x)] == DistinctDates(prior + [x])
    ensures forall date :: date in groups[DateOf(x) := [x]] ==>
      groups[DateOf(x) := [x]][date] == ItemsOn(prior + [x], date)
    ensures forall date :: date !in groups[DateOf(x) := [x]] ==> ItemsOn(prior + [x], date) == []
  {
    DistinctDatesSnoc(prior, x);
    forall date ensures ItemsOn(prior + [x], date) == ItemsOn(prior, date) + (if DateOf(x) == date then [x] else []) {
      ItemsOnSnoc(prior, x, date);
    }
  }

  /** The loop that fills `daily_forecasts`: the dates in insertion order and each date's items. */
  method GroupByDate(items: seq<ForecastItem>) returns (dates: seq<string>, groups: map<string, seq<ForecastItem>>)
    ensures dates == DistinctDates(items)
    ensures forall date :: date in groups <==> date in dates
    ensures forall date :: date in groups ==> groups[date] == ItemsOn(items, date)
  {
    dates, groups := [], map[];
    for i := 0 to |items|
      invariant dates == DistinctDates(items[..i])
      invariant forall date :: date in groups <==> date in dates
      invariant forall date :: date in groups ==> groups[date] == ItemsOn(items[..i], date)
      invariant forall date :: date !in groups ==> ItemsOn(items[..i], date) == []
    {
      assert items[..i + 1] == items[..i] + [items[i]];
      var date := DateOf(items[i]);
      ghost var next: map<string, seq<ForecastItem>>;
      if date !in groups {
        GroupStepNewDate(items[..i], items[i], dates, groups);
        next := groups[date := [items[i]]];
        assert [] + [items[i]] == [items[i]];
        groups := groups[date := []];
        dates := dates + [date];
      } else {
        GroupStepKnownDate(items[..i], items[i], dates, groups);
        next := groups[date := groups[date] + [items[i]]];
      }
      groups := groups[date := groups[date] + [items[i]]];
      assert groups == next;
    }
    assert items[..|items|] == items;
  }

  // ---------------------------------------------------------------------------
  // get_weather_forecast: daily summaries

  /** A candidate that occurs in `conditions` at least as often as every other candidate. */
  function MostFrequentOf(candidates: seq<string>, conditions: seq<string>): (m: string)
    requires |candidates| > 0
    ensures m in candidates
    ensures forall c :: c in candidates ==> Count(conditions, c) <= Count(conditions, m)
  {
    if |candidates| == 1 then candidates[0]
    else
      var best := MostFrequentOf(candidates[1..], conditions);
      if Count(conditions, best) <= Count(conditions, candidates[0]) then candidates[0] else best
  }

  /** `max(set(conditions), key=conditions.count)`: a most frequent condition. */
  function MainCondition(conditions: seq<string>): (m: string)
    requires |conditions| > 0
    ensures m in conditions
    ensures forall c :: c in conditions ==> Count(conditions, c) <= Count(conditions, m)
  {
    MostFrequentOf(conditions, conditions)
  }

  /** The conditions of a day's entries, in order. */
  function Conditions(group: seq<ForecastItem>): (cs: seq<string>)
    ensures |cs| == |group|
    ensures forall i :: 0 <= i < |group| ==> cs[i] == group[i].condition
  {
    if group == [] then [] else [group[0].condition] + Conditions(group[1..])
  }

  /** One entry of the `forecast` list. */
  datatype DaySummary = DaySummary(date: string, conditions: set<string>, mainCondition: string)

  /** The summary of one date's entries. */
  function SummarizeDay(date: string, group: seq<ForecastItem>): (s: DaySummary)
    requires group != []
    ensures s.date == date
    ensures s.mainCondition in s.conditions
    ensures forall c :: c in s.conditions <==> exists i :: 0 <= i < |group| && group[i].condition == c
  {
    var conditions := Conditions(group);
    DaySummary(date, (set c | c in conditions), MainCondition(conditions))
  }

  /** The loop that fills `forecast_summary`: the first `days` dates, each summarised. */
  method SummarizeDays(dates: seq<string>, groups: map<string, seq<ForecastItem>>, days: nat)
    returns (summary: seq<DaySummary>)
    requires forall date :: date in dates ==> date in groups && groups[date] != []
    ensures |summary| == Min(days, |dates|)
    ensures forall k :: 0 <= k < |summary| ==> summary[k] == SummarizeDay(dates[k], groups[dates[k]])
  {
    summary := [];
    var n := Min(days, |dates|);
    for k := 0 to n
      invariant |summary| == k
      invariant forall j :: 0 <= j < k ==> summary[j] == SummarizeDay(dates[j], groups[dates[j]])
    {
      summary := summary + [SummarizeDay(dates[k], groups[dates[k]])];
    }
  }

  /** The first `n` daily summaries of the items, in date order. */
  function DailySummaries(items: seq<ForecastItem>, n: nat): seq<DaySummary>
  {
    var dates := DistinctDates(items);
    DistinctDatesHaveItems(items);
    seq(Min(n, |dates|), k requires 0 <= k < Min(n, |dates|) => SummarizeDay(dates[k], ItemsOn(items, dates[k])))
  }

  // ---------------------------------------------------------------------------
  // get_weather_forecast

  /** The result object of `get_weather_forecast`. */
  datatype Forecast =
    | ForecastUnavailable(location: string, note: string, forecast: seq<DaySummary>)
    | DailyForecast(location: string, forecastDays: int, forecast: seq<DaySummary>)
    | ForecastError(error: string)

  /** What `get_weather_forecast(location, days)` returns. */
  function ExpectedForecast(
    apiKey: Option<string>,
    location: string,
    days: int := DEFAULT_DAYS,
    geocode: GeoQuery -> Result<seq<Place>>,
    fetchForecast: ForecastQuery -> Result<seq<ForecastItem>>): Forecast
  {
    if !Present(apiKey) then ForecastUnavailable(location, FORECAST_UNAVAILABLE_NOTE, [])
    else
      var d := ClampDays(days);
      match geocode(GeoQuery(location, 1))
      case Err(e) => ForecastError("Failed to fetch forecast data: " + e)
      case Ok(places) =>
        if places == [] then ForecastError(NotFound(location))
        else
          var place := places[0];
          match fetchForecast(ForecastQuery(place.lat, place.lon, RequestCount(days)))
          case Err(e) => ForecastError("Failed to fetch forecast data: " + e)
          case Ok(items) => DailyForecast(PlaceLabel(place), d, DailySummaries(items, d))
  }

  /** `get_weather_forecast(location, days)`. */
  method GetWeatherForecast(
    apiKey: Option<string>,
    location: string,
    days: int := DEFAULT_DAYS,
    geocode: GeoQuery -> Result<seq<Place>>,
    fetchForecast: ForecastQuery -> Result<seq<ForecastItem>>) returns (r: Forecast)
    ensures r == ExpectedForecast(apiKey, location, days, geocode, fetchForecast)
  {
    if !Present(apiKey) {
      return ForecastUnavailable(location, FORECAST_UNAVAILABLE_NOTE, []);
    }
    var d := ClampDays(days);
    var geo := geocode(GeoQuery(location, 1));
    if geo.Err? {
      return ForecastError("Failed to fetch forecast data: " + geo.message);
    }
    if geo.value == [] {
      return ForecastError(NotFound(location));
    }
    var place := geo.value[0];
    var answer := fetchForecast(ForecastQuery(place.lat, place.lon, RequestCount(days)));
    if answer.Err? {
      return ForecastError("Failed to fetch forecast data: " + answer.message);
    }
    var dates, groups := GroupByDate(answer.value);
    DistinctDatesHaveItems(answer.value);
    var summary := SummarizeDays(dates, groups, d);
    SummariesAgree(answer.value, dates, groups, d, summary);
    return DailyForecast(PlaceLabel(place), d, summary);
  }

  /** What the two loops compute is the specification's list of daily summaries. */
  lemma SummariesAgree(
    items: seq<ForecastItem>,
    dates: seq<string>,
    groups: map<string, seq<ForecastItem>>,
    n: nat,
    summary: seq<DaySummary>)
    requires dates == DistinctDates(items)
    requires forall date :: date in groups <==> date in dates
    requires forall date :: date in groups ==> groups[date] == ItemsOn(items, date)
    requires forall date :: date in dates ==> date in groups && groups[date] != []
    requires |summary| == Min(n, |dates|)
    requires forall k :: 0 <= k < |summary| ==> summary[k] == SummarizeDay(dates[k], groups[dates[k]])
    ensures summary == DailySummaries(items, n)
  {
    var expected := DailySummaries(items, n);
    assert |expected| == |summary|;
    forall k | 0 <= k < |summary| ensures summary[k] == expected[k] {
      assert dates[k] in dates;
    }
  }

  /** Without a key the forecast is empty and carries the note, whatever the services would say. */
  lemma ForecastWithoutKey(
    apiKey: Option<string>,
    location: string,
    days: int,
    geocode: GeoQuery -> Result<seq<Place>>,
    fetchForecast: ForecastQuery -> Result<seq<ForecastItem>>)
    requires !Present(apiKey)
    ensures ExpectedForecast(apiKey, location, days, geocode, fetchForecast)
         == ForecastUnavailable(location, FORECAST_UNAVAILABLE_NOTE, [])
  {
  }

  /** An empty geocoding answer is reported as an unknown location. */
  lemma ForecastNotFound(
    apiKey: Option<string>,
    location: string,
    days: int,
    geocode: GeoQuery -> Result<seq<Place>>,
    fetchForecast: ForecastQuery -> Result<seq<ForecastItem>>)
    requires Present(apiKey) && geocode(GeoQuery(location, 1)) == Ok([])
    ensures ExpectedForecast(apiKey, location, days, geocode, fetchForecast) == ForecastError(NotFound(location))
  {
  }

  /** A forecast reports the clamped day count, asks for eight entries per day, and lists one
      summary per date for the first `min(days, dates)` dates in the order they first appear,
      each with one of its most frequent conditions. */
  lemma ForecastShape(
    apiKey: Option<string>,
    location: string,
    days: int,
    geocode: GeoQuery -> Result<seq<Place>>,
    fetchForecast: ForecastQuery -> Result<seq<ForecastItem>>)
    requires ExpectedForecast(apiKey, location, days, geocode, fetchForecast).DailyForecast?
    ensures var r := ExpectedForecast(apiKey, location, days, geocode, fetchForecast);
      && var places := geocode(GeoQuery(location, 1)).value;
      && |places| > 0
      && var answer := fetchForecast(ForecastQuery(places[0].lat, places[0].lon, RequestCount(days)));
      && answer.Ok?
      && var dates := DistinctDates(answer.value);
      && r.forecastDays == ClampDays(days)
      && |r.forecast| == Min(ClampDays(days), |dates|)
      && forall k :: 0 <= k < |r.forecast| ==>
           && r.forecast[k].date == dates[k]
           && var conditions := Conditions(ItemsOn(answer.value, dates[k]));
           && r.forecast[k].mainCondition in conditions
           && forall c :: c in conditions ==> Count(conditions, c) <= Count(conditions, r.forecast[k].mainCondition)
  {
  }

  /** A request without a day count asks for 24 entries, three days' worth, and reports at most
      three days. */
  lemma DefaultDaysForecast(
    apiKey: Option<string>,
    location: string,
    geocode: GeoQuery -> Result<seq<Place>>,
    fetchForecast: ForecastQuery -> Result<seq<ForecastItem>>)
    requires ExpectedForecast(apiKey, location, geocode := geocode, fetchForecast := fetchForecast).DailyForecast?
    ensures var r := ExpectedForecast(apiKey, location, geocode := geocode, fetchForecast := fetchForecast);
      && var places := geocode(GeoQuery(location, 1)).value;
      && |places| > 0
      && fetchForecast(ForecastQuery(places[0].lat, places[0].lon, 24)).Ok?
      && r.forecastDays == 3
      && |r.forecast| <= 3
  {
    ForecastShape(apiKey, location, DEFAULT_DAYS, geocode, fetchForecast);
  }

  /** The repository's no-key tests. */
  lemma NoKeyExamples(
    geocode: GeoQuery -> Result<seq<Place>>,
    fetchWeather: PointQuery -> Result<Observation>,
    fetchForecast: ForecastQuery -> Result<seq<ForecastItem>>)
    ensures var w := GetCurrentWeather(None, "Mountain View, CA", geocode, fetchWeather);
      w.MockWeather? && w.location == "Mountain View, CA" && Contains(w.note, "mock data")
    ensures ExpectedForecast(None, "London, UK", 3, geocode, fetchForecast)
         == ForecastUnavailable("London, UK", FORECAST_UNAVAILABLE_NOTE, [])
  {
  }
}
