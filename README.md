# whereami: request-handling and tool logic, modelled in Dafny

whereami is a demo service that reports where it runs (cloud region, zone, cluster, pod) and
offers a chat assistant with weather and cloud-region tools. This project models the
deterministic logic around those features, with all I/O turned into inputs:

- **App** (`app.py`): deriving a region from a zone (`_get_region`), the first-match lookup of a
  region's location in the parsed regions file (`_get_location_from_json_list`), the field
  selection of `/api/<path>`, and the region choice and message/prompt text of the home page.
  The metadata payload is an opaque `map<string, string>` input, since its builder is not part
  of this model.
- **GcpTools** (`gcp_tools.py`): the `PROJECT_ID` guards, the zone filter and five-quota cut of
  `get_gcp_region_info`, the summary loop of `list_gcp_regions`, and the service catalogue of
  `get_gcp_services_in_region`.
- **WeatherTools** (`weather_tools.py`): the no-key fallbacks, the unknown-location error, day
  clamping and the requested entry count, grouping forecast entries by date in first-appearance
  order, keeping the first `days` groups, and choosing each day's main condition.
- **Strings** and **Results**: Python's `str.split`/`str.join`/`endswith` on `seq<char>`, and the
  `Option`/`Result` shapes, and Python's `min`/`max` (**Numbers**). `Result` has two readings.
  When a client call or an HTTP endpoint answers `Err(m)`, it raised an exception `e` with
  `str(e) == m`. When a tool answers `Err(m)`, it returned the object `{"error": m}`: the
  `PROJECT_ID not configured` object, or an object built from a caught exception whose text carries
  the tool's prefix, such as `Failed to get region info: ` followed by `str(e)`.

Calls into code that cannot be seen are function-typed parameters: each Compute API client
call and each HTTP request to the weather service. Environment variables are `Option<string>`
inputs. Python treats an unset variable and an empty one alike (`if not project_id`), and so does
`Results.Present`.

Two facts about the code shape the model:

- `_get_region` keeps the first two `-`-segments of the zone, so `a-b-c-d` gives `a-b` and not
  `a-b-c`. On three-segment zones such as `us-central1-a` this is the zone without its last
  segment (`App.RegionOfZone`).
- When neither `region` nor `zone` is in the payload, `home()` carries on with `region = None`. The
  lookup then matches the first record that has no `name`, and the f-strings print `None`. The
  model keeps this (`App.Show`, `Option`-typed record names).

## Model

| member | source | states |
|---|---|---|
| `Results.Present` | weather_tools.py:31 | definition: Python truthiness of an optional string, so an unset and an empty variable both fail; the same test guards weather_tools.py:113, gcp_tools.py:32 and gcp_tools.py:71; constrained by `GcpTools.GetRegionInfo`, `WeatherTools.GetCurrentWeather` and `WeatherTools.ForecastWithoutKey` |
| `Strings.Join` | app.py:124 | definition: `sep.join(parts)`; constrained by `Strings.JoinSplit` |
| `Strings.EndsWith` | gcp_tools.py:43 | definition: `str.endswith`; used by `GcpTools.ZonesInRegionMembership` |
| `Strings.LastSegment` | app.py:175 | definition: `path.split('/')[-1]`; constrained by `Strings.LastSegmentIsLongestFreeSuffix` |
| `Strings.FirstSegment` | weather_tools.py:158 | definition: `dt_txt.split(" ")[0]`; constrained by `Strings.FirstSegmentIsLongestFreePrefix` |
| `Strings.Split` | app.py:123 | `split` yields at least one piece and no piece holds the separator |
| `Strings.JoinSplit` | app.py:123-124 | joining the pieces of `split(sep)` with `sep` gives back the string |
| `Strings.SplitCount` | app.py:123 | `split(sep)` yields one more piece than there are separators |
| `Strings.SplitAround` | app.py:123 | splitting `a + sep + b` gives the pieces of `a` followed by the pieces of `b` |
| `Strings.LastSegmentAfterSeparator` | app.py:175 | whatever precedes the last separator does not change `split(sep)[-1]` |
| `Strings.LastSegmentIsLongestFreeSuffix` | app.py:175 | `path.split('/')[-1]` is the longest `/`-free suffix of the path |
| `Strings.FirstSegmentIsLongestFreePrefix` | weather_tools.py:158 | `dt_txt.split(" ")[0]` is the longest space-free prefix of the stamp |
| `App.GetRegion` | app.py:122-124 | definition: the join of the first two `-`-segments; constrained by `App.RegionIsLongestPrefixWithOneDash`, `App.RegionOfShortZone` and `App.RegionOfZone` |
| `App.RegionIsLongestPrefixWithOneDash` | app.py:122-124 | the region is a prefix of the zone with at most one `-`; it is the whole zone or stops just before the zone's second `-` |
| `App.RegionOfShortZone` | app.py:122-124 | a zone with fewer than three segments is returned unchanged |
| `App.RegionOfZone` | app.py:122-124 | `a-b-rest` gives `a-b` for dash-free `a`, `b`, whatever `rest` holds |
| `App.RegionExampleUsCentral` | tests/test_app.py:93 | `us-central1-a` gives `us-central1` |
| `App.RegionExampleEuropeWest` | tests/test_app.py:94 | `europe-west1-b` gives `europe-west1` (the third test zone, `asia-east1-c`, is the same case of `App.RegionOfZone`) |
| `App.LookupLocation` | app.py:129-132 | definition: the first-match lookup; constrained by `App.LookupFindsFirstMatch`, `App.LookupWithoutMatch` and `App.LookupIgnoresLaterRecords` |
| `App.LocationFromList` | app.py:129-132 | the search loop returns what the first-match lookup specifies |
| `App.LookupFindsFirstMatch` | app.py:129-131 | the answer is the `location` of the first record whose `name` equals the region |
| `App.LookupWithoutMatch` | app.py:132 | with no matching record the answer is None |
| `App.LookupIgnoresLaterRecords` | app.py:129-131 | records after the first match never change the answer |
| `App.Api` | app.py:173-178 | a JSON answer is the payload unchanged; a raw answer is the value of a key the path ends with |
| `App.ApiAnswersForLastSegment` | app.py:175-178 | the answer is the raw value of the path's last segment when it is a key, else the whole payload |
| `App.ApiUsesLastSegment` | app.py:175 | anything before the last `/` does not change the answer |
| `App.ApiEmptyPath` | app.py:171-178 | the empty path gives the full payload unless `""` is itself a key |
| `App.ApiExamples` | tests/test_app.py:37-64 | `/api/zone` gives `us-central1-a`; `/api/` gives the whole payload |
| `App.SelectRegion` | app.py:187-193 | definition: `region` if present, else the region of `zone`, else None; constrained by `App.ExplicitRegionWins` and `App.DerivedRegionIsZonePrefix` |
| `App.Show` | app.py:196-197 | definition: how an f-string prints a value that may be None |
| `App.Greeting` | app.py:196 | definition: `Hello from <region> in <location>!`; constrained by `App.HomeExample` |
| `App.DefaultPrompt` | app.py:197 | definition: `What is an interesting fact about <location>?`; constrained by `App.HomeExample` |
| `App.Home` | app.py:186-197 | the greeting and the prompt are built from the chosen region and that region's looked-up location |
| `App.ExplicitRegionWins` | app.py:187-190 | an explicit `region` is chosen and the zone cannot change that |
| `App.DerivedRegionIsZonePrefix` | app.py:189-190 | a region derived from the zone is a prefix of it with at most one `-` |
| `App.HomeExample` | tests/test_app.py:66-78 | payload `region = us-central1` located in Iowa gives `Hello from us-central1 in Iowa!` |
| `App.HomeExampleFromZone` | app.py:189-190 | a payload with only zone `europe-west1-b` greets from `europe-west1` |
| `GcpTools.InRegion` | gcp_tools.py:43 | definition: the zone's region URL ends with `/` + region; used by `GcpTools.ZonesInRegionMembership` |
| `GcpTools.ZonesInRegion` | gcp_tools.py:43 | the filter keeps at most as many names as there are zones |
| `GcpTools.ZonesInRegionMembership` | gcp_tools.py:43 | a name is kept exactly when a zone of that name has a region URL ending in `/` + region |
| `GcpTools.ZonesInRegionConcat` | gcp_tools.py:43 | the filter keeps input order (it distributes over concatenation) |
| `GcpTools.ZonesAllInRegion` | gcp_tools.py:43 | when every zone matches, every name is kept in order |
| `GcpTools.FirstQuotas` | gcp_tools.py:50 | the quotas are a prefix of the region's quotas, of length `min(5, n)` |
| `GcpTools.GetRegionInfo` | gcp_tools.py:29-58 | no project gives `PROJECT_ID not configured` whatever the clients would answer; a result has at most five quotas |
| `GcpTools.RegionInfoOnSuccess` | gcp_tools.py:35-52 | on success: the client's name, the matching zone names, the first quotas, `deprecated` iff a status is present |
| `GcpTools.RegionInfoExample` | tests/test_tools.py:21-47 | the test's region and zone give region `us-central1` with zone `us-central1-a` |
| `GcpTools.ListRegions` | gcp_tools.py:68-91 | the configuration error, the client's error, or one summary per region in order with `zone_count` its number of zones |
| `GcpTools.ServicesInRegion` | gcp_tools.py:105-140 | the region is echoed; `service_count` is the size of the services; services are a sub-map of the catalogue; major regions get all ten, others exactly compute, storage and cloudsql |
| `GcpTools.CatalogueSize` | gcp_tools.py:108-119 | the catalogue has ten services |
| `GcpTools.LimitedCatalogueSize` | gcp_tools.py:130 | the limited catalogue has exactly three keys |
| `GcpTools.ServiceCountBounds` | tests/test_tools.py:60-79 | more than five services in a major region, at most five elsewhere, compute always present |
| `WeatherTools.PlaceLabel` | weather_tools.py:74 | definition: `<name>, <country>` with an empty country when it is missing (the forecast builds the same label at weather_tools.py:182) |
| `WeatherTools.NotFound` | weather_tools.py:55 | definition: `Location '<location>' not found`, also the forecast's text at weather_tools.py:136; constrained by `WeatherTools.CurrentWeatherNotFound` and `WeatherTools.ForecastNotFound` |
| `WeatherTools.GetCurrentWeather` | weather_tools.py:28-96 | the mock answer comes exactly when no key is set; it echoes the location and its note mentions mock data |
| `WeatherTools.CurrentWeatherNotFound` | weather_tools.py:54-55 | an empty geocoding answer gives `Location '<location>' not found` |
| `WeatherTools.CurrentWeatherUsesFirstHit` | weather_tools.py:57-74 | a live report is named after the first geocoding hit and carries the weather fetched at its coordinates |
| `WeatherTools.ClampDays` | weather_tools.py:121 | the day count lies in 1..5, is the identity on 1..5, 1 below and 5 above |
| `WeatherTools.ClampDaysIdempotent` | weather_tools.py:121 | clamping twice is clamping once |
| `WeatherTools.RequestCount` | weather_tools.py:148 | `cnt` is eight entries per clamped day, between 8 and 40 |
| `WeatherTools.DateOf` | weather_tools.py:158 | definition: the text before the first space of `dt_txt`; constrained by `Strings.FirstSegmentIsLongestFreePrefix` |
| `WeatherTools.DistinctDates` | weather_tools.py:156-161 | definition: the dict's keys in insertion order; constrained by `WeatherTools.DistinctDatesMembership`, `WeatherTools.DistinctDatesUnique` and `WeatherTools.DistinctDatesInFirstAppearanceOrder` |
| `WeatherTools.ItemsOn` | weather_tools.py:156-161 | definition: the list stored under one date; constrained by `WeatherTools.ItemsOnMembership`, `WeatherTools.ItemsOnConcat` and `WeatherTools.GroupsPartitionItems` |
| `WeatherTools.GroupByDate` | weather_tools.py:156-161 | the loop yields the dates in first-appearance order, a group for each listed date and no other, each group the items of that date in order |
| `WeatherTools.DistinctDatesMembership` | weather_tools.py:156-161 | a date is listed exactly when some item carries it |
| `WeatherTools.DistinctDatesUnique` | weather_tools.py:159-160 | no date is listed twice |
| `WeatherTools.DistinctDatesInFirstAppearanceOrder` | weather_tools.py:156-161 | dates are listed in the order of their first item |
| `WeatherTools.ItemsOnMembership` | weather_tools.py:156-161 | an item is in its own date's group and in no other |
| `WeatherTools.ItemsOnConcat` | weather_tools.py:157-161 | items keep their input order within a group |
| `WeatherTools.DistinctDatesHaveItems` | weather_tools.py:159-161 | every group is non-empty |
| `WeatherTools.GroupsPartitionItems` | weather_tools.py:156-161 | the groups together are a permutation of the items: each item is in exactly one group |
| `WeatherTools.MostFrequentOf` | weather_tools.py:178 | the pick is a candidate occurring at least as often as every other candidate |
| `WeatherTools.MainCondition` | weather_tools.py:178 | `main_condition` is one of the day's conditions and none occurs more often |
| `WeatherTools.Conditions` | weather_tools.py:167 | the day's conditions, one per entry, in order |
| `WeatherTools.SummarizeDay` | weather_tools.py:166-179 | the summary keeps the date, its conditions are exactly the entries' conditions and the main one is among them |
| `WeatherTools.SummarizeDays` | weather_tools.py:164-179 | the loop yields `min(days, dates)` summaries, the k-th summarising the k-th date's group |
| `WeatherTools.DailySummaries` | weather_tools.py:164-179 | definition: one summary for each of the first `n` dates; `WeatherTools.SummarizeDays` is proved to compute it |
| `WeatherTools.ExpectedForecast` | weather_tools.py:99-194 | definition: the forecast result on every branch, with `days` defaulting to `DEFAULT_DAYS` (3); constrained by `WeatherTools.ForecastWithoutKey`, `WeatherTools.ForecastNotFound`, `WeatherTools.ForecastShape` and `WeatherTools.DefaultDaysForecast` |
| `WeatherTools.GetWeatherForecast` | weather_tools.py:110-194 | the method returns exactly the specified forecast |
| `WeatherTools.ForecastWithoutKey` | weather_tools.py:113-118 | with no key: the location, the note and an empty forecast |
| `WeatherTools.ForecastNotFound` | weather_tools.py:135-136 | an empty geocoding answer gives `Location '<location>' not found` |
| `WeatherTools.ForecastShape` | weather_tools.py:120-185 | `forecast_days` is the clamped count; `cnt` is days times 8; the first `min(days, dates)` dates are summarised in order, each with a most frequent condition |
| `WeatherTools.DefaultDaysForecast` | weather_tools.py:99 | without a day count (`days = 3`) the request asks for 24 entries and at most three days are reported, with `forecast_days` 3 |
| `WeatherTools.NoKeyExamples` | tests/test_tools.py:83-156 | the no-key answers of the tests: location echoed, mock-data note, empty forecast |

## Left out

- The metadata payload builder `whereami_payload` is not part of this model. Its output is an input map. The gRPC reply `WhereamiReply(**payload)` is a foreign protobuf constructor and is left out too.
- The chat code (`stream_response`, `POST /`, chat_service.py) only wraps the hosted model, markdown rendering and event-stream framing, so it is left out.
- Flask, gRPC, health, reflection, Prometheus and OpenTelemetry setup, `/healthz`, server startup, and the genai client created at import time are process plumbing and are left out.
- Parsing `TRACE_SAMPLING_RATIO` is a float conversion and is left out.
- Reading and parsing `/app/regions.json` is file I/O. The lookup takes the already-parsed `regions` list. A missing file or a missing `regions` key raises in the source and is not modelled. Record `name` and `location` values are taken to be strings or absent.
- JSON serialisation of the tool results is left out: results are datatypes. Dafny maps and sets have no order, so key order in the JSON objects and the order of `list(set(conditions))` are not modelled.
- Temperature arithmetic and rounding (`round`, Fahrenheit conversion, min/max temperatures) use floating point and are left out of the day summaries. The formatting of live current-weather fields (`%`, `hPa`, `m/s`, `.title()`, visibility) depends on Python's number printing, so `LiveWeather` carries the decoded observation as it is.
- Malformed service replies give the "Unexpected error" paths in the source (a missing key, an empty `weather` list). They cannot occur with typed replies and are left out. The `RequestException` paths are modelled as `Err` answers.
- Pagination of the Compute API listings, and exceptions raised while iterating them, are left out. Each listing is a finished sequence or an error.
- `getattr(region_info, 'deprecated', None)` depends on how the client library exposes an unset field. The model takes the client's answer as an `Option` and reports whether a status is present.
- `WeatherTools.MainCondition`: only says it returns a most frequent condition. Python's `max` over `set(conditions)` breaks ties by set iteration order, which depends on hashing. The model itself picks the first most frequent condition in list order.
- `WeatherTools.GetWeatherForecast`: `days` is taken to be an integer. Other argument types are not modelled.
- The log calls are left out because they only write to the log and change no result: `logging.warning` in `home()` (app.py:192), and `logging.error` in the tools' exception handlers (gcp_tools.py:57, gcp_tools.py:90, weather_tools.py:92, weather_tools.py:95, weather_tools.py:190, weather_tools.py:193).
- Flask's routing of `/api/<path:path>` (URL decoding, trailing slashes) is left out. The handler receives the path string.
