/** The request handlers of the web front end (app.py): region derivation from a zone,
    the region-to-location lookup, the `/api/<path>` field selection and the home page text.
    The metadata payload is an input: its builder is not part of this model. */
module App {
  import opened Results
  import opened Strings
  import opened Numbers

  // ---------------------------------------------------------------------------
  // _get_region

  /** `_get_region`: keep the first two `-`-separated segments of the zone. */
  function GetRegion(zone: string): string
  {
    var parts := Split(zone, '-');
    Join(parts[..Min(2, |parts|)], "-")
  }

  /** The region is the longest prefix of the zone that holds at most one `-`:
      it stops either at the end of the zone or just before its second `-`. */
  lemma RegionIsLongestPrefixWithOneDash(zone: string)
    ensures var r := GetRegion(zone);
      && r <= zone
      && Count(r, '-') <= 1
      && (|r| == |zone| || (zone[|r|] == '-' && Count(r, '-') == 1))
  {
    var parts := Split(zone, '-');
    if |parts| >= 3 {
      RegionOfLongZone(zone);
    } else {
      SplitCount(zone, '-');
      RegionOfShortZone(zone);
    }
  }

  /** With three or more segments the region is the first two and the zone continues with a `-`. */
  lemma RegionOfLongZone(zone: string)
    requires |Split(zone, '-')| >= 3
    ensures var parts := Split(zone, '-');
      && GetRegion(zone) == parts[0] + "-" + parts[1]
      && zone == GetRegion(zone) + "-" + Join(parts[2..], "-")
      && Count(GetRegion(zone), '-') == 1
  {
    var parts := Split(zone, '-');
    JoinSplit(zone, '-');
    JoinAt(parts, 2, "-");
    assert parts[..2] == [parts[0], parts[1]];
    assert Join(parts[..2], "-") == parts[0] + "-" + parts[1];
    assert parts[0] in parts && parts[1] in parts;
    assert multiset(parts[0] + "-" + parts[1]) == multiset(parts[0]) + multiset("-") + multiset(parts[1]);
  }

  /** A zone with at most one `-` (fewer than three segments) is returned unchanged. */
  lemma RegionOfShortZone(zone: string)
    requires Count(zone, '-') <= 1
    ensures GetRegion(zone) == zone
  {
    var parts := Split(zone, '-');
    SplitCount(zone, '-');
    JoinSplit(zone, '-');
    assert parts[..Min(2, |parts|)] == parts;
  }

  /** Whatever follows the second `-` is dropped, dashes included. */
  lemma RegionOfZone(a: string, b: string, rest: string)
    requires '-' !in a && '-' !in b
    ensures GetRegion(a + "-" + b + "-" + rest) == a + "-" + b
  {
    SplitWithoutSeparator(a, '-');
    SplitWithoutSeparator(b, '-');
    SplitAround(b, '-', rest);
    assert a + "-" + b + "-" + rest == a + ['-'] + (b + ['-'] + rest);
    SplitAround(a, '-', b + ['-'] + rest);
    var parts := Split(a + "-" + b + "-" + rest, '-');
    assert parts == [a, b] + Split(rest, '-');
    assert parts[..2] == [a, b];
    JoinCons(a, [b], "-");
  }

  /** The zones of the repository's tests. */
  lemma RegionExampleUsCentral(zone: string)
    requires zone == "us-central1-a"
    ensures GetRegion(zone) == "us-central1"
  {
    RegionOfZone("us", "central1", "a");
    assert zone == "us" + "-" + "central1" + "-" + "a";
  }

  lemma RegionExampleEuropeWest(zone: string)
    requires zone == "europe-west1-b"
    ensures GetRegion(zone) == "europe-west1"
  {
    RegionOfZone("europe", "west1", "b");
    assert zone == "europe" + "-" + "west1" + "-" + "b";
  }

  // ---------------------------------------------------------------------------
  // _get_location_from_json_list

  /** One entry of the `regions` list of the regions file; `get` yields None for a missing key. */
  datatype RegionRecord = RegionRecord(name: Option<string>, location: Option<string>)

  /** The `location` of the first record whose `name` equals `region`, or None. */
  function LookupLocation(records: seq<RegionRecord>, region: Option<string>): Option<string>
  {
    if records == [] then None
    else if records[0].name == region then records[0].location
    else LookupLocation(records[1..], region)
  }

  /** The search loop of `_get_location_from_json_list`, over records already read from the file. */
  method LocationFromList(records: seq<RegionRecord>, region: Option<string>) returns (location: Option<string>)
    ensures location == LookupLocation(records, region)
  {
    for i := 0 to |records|
      invariant LookupLocation(records[i..], region) == LookupLocation(records, region)
    {
      assert records[i..][1..] == records[i + 1..];
      if records[i].name == region {
        return records[i].location;
      }
    }
    return None;
  }

  /** The lookup answers with the first record whose name matches. */
  lemma {:induction false} LookupFindsFirstMatch(records: seq<RegionRecord>, region: Option<string>, k: nat)
    requires k < |records| && records[k].name == region
    requires forall j :: 0 <= j < k ==> records[j].name != region
    ensures LookupLocation(records, region) == records[k].location
  {
    if k > 0 {
      LookupFindsFirstMatch(records[1..], region, k - 1);
    }
  }

  /** Without a matching record there is no location. */
  lemma {:induction false} LookupWithoutMatch(records: seq<RegionRecord>, region: Option<string>)
    requires forall j :: 0 <= j < |records| ==> records[j].name != region
    ensures LookupLocation(records, region) == None
  {
    if records != [] {
      LookupWithoutMatch(records[1..], region);
    }
  }

  /** Records after a match are never consulted. */
  lemma {:induction false} LookupIgnoresLaterRecords(records: seq<RegionRecord>, region: Option<string>, k: nat, others: seq<RegionRecord>)
    requires k < |records| && records[k].name == region
    ensures LookupLocation(records[..k + 1] + others, region) == LookupLocation(records, region)
  {
    if records[0].name != region {
      assert (records[..k + 1] + others)[1..] == records[1..][..k] + others;
      LookupIgnoresLaterRecords(records[1..], region, k - 1, others);
    }
  }

  // ---------------------------------------------------------------------------
  // /api/<path>

  /** What the route answers: a field's raw string, or the whole payload as JSON. */
  datatype ApiResponse = Raw(value: string) | Json(payload: map<string, string>)

  /** `api(path)`: the raw value when the text after the last `/` is a payload key,
      otherwise the whole payload. */
  function Api(path: string, payload: map<string, string>): (r: ApiResponse)
    ensures r.Json? ==> r.payload == payload
    ensures r.Raw? ==> exists key :: key in payload && payload[key] == r.value && EndsWith(path, key)
  {
    var key := LastSegment(path, '/');
    LastSegmentIsLongestFreeSuffix(path, '/');
    if key in payload then Raw(payload[key]) else Json(payload)
  }

  /** The route answers for the longest `/`-free suffix of the path, whichever way it was written. */
  lemma ApiAnswersForLastSegment(path: string, key: string, payload: map<string, string>)
    requires '/' !in key && EndsWith(path, key)
    requires |key| == |path| || path[|path| - |key| - 1] == '/'
    ensures Api(path, payload) == if key in payload then Raw(payload[key]) else Json(payload)
  {
    var r := LastSegment(path, '/');
    LastSegmentIsLongestFreeSuffix(path, '/');
    assert |r| == |key|;
    assert r == path[|path| - |r|..] == key;
  }

  /** Only the segment after the last `/` matters. */
  lemma ApiUsesLastSegment(prefix: string, path: string, payload: map<string, string>)
    ensures Api(prefix + "/" + path, payload) == Api(path, payload)
  {
    LastSegmentAfterSeparator(prefix, '/', path);
  }

  /** An empty path gives the full payload, unless the empty string is itself a key. */
  lemma ApiEmptyPath(payload: map<string, string>)
    ensures Api("", payload) == if "" in payload then Raw(payload[""]) else Json(payload)
  {
    ApiAnswersForLastSegment("", "", payload);
  }

  /** The requests of the repository's tests. */
  lemma ApiExamples()
    ensures Api("zone", map["zone" := "us-central1-a", "region" := "us-central1"]) == Raw("us-central1-a")
    ensures var p := map["zone" := "us-central1-a", "region" := "us-central1", "cluster_name" := "test-cluster"];
      Api("", p) == Json(p)
  {
    ApiAnswersForLastSegment("zone", "zone", map["zone" := "us-central1-a", "region" := "us-central1"]);
    ApiEmptyPath(map["zone" := "us-central1-a", "region" := "us-central1", "cluster_name" := "test-cluster"]);
  }

  // ---------------------------------------------------------------------------
  // home (GET)

  /** The region shown on the home page: an explicit `region`, else one derived from `zone`, else None. */
  function SelectRegion(payload: map<string, string>): Option<string>
  {
    if "region" in payload then Some(payload["region"])
    else if "zone" in payload then Some(GetRegion(payload["zone"]))
    else None
  }

  /** How an f-string renders an optional value: Python prints a missing one as `None`. */
  function Show(v: Option<string>): string
  {
    if v.Some? then v.value else "None"
  }

  /** The greeting of the home page. */
  function Greeting(region: Option<string>, location: Option<string>): string
  {
    "Hello from " + Show(region) + " in " + Show(location) + "!"
  }

  /** The default chat prompt of the home page. */
  function DefaultPrompt(location: Option<string>): string
  {
    "What is an interesting fact about " + Show(location) + "?"
  }

  /** What the home page template receives. */
  datatype HomePage = HomePage(message: string, defaultPrompt: string)

  /** `home()` for a GET request, given the payload and the parsed regions file. */
  method Home(payload: map<string, string>, records: seq<RegionRecord>) returns (page: HomePage)
    ensures page.message == Greeting(SelectRegion(payload), LookupLocation(records, SelectRegion(payload)))
    ensures page.defaultPrompt == DefaultPrompt(LookupLocation(records, SelectRegion(payload)))
  {
    var region := SelectRegion(payload);
    var location := LocationFromList(records, region);
    page := HomePage(Greeting(region, location), DefaultPrompt(location));
  }

  /** An explicit region wins: the zone, whatever it is, does not change the choice. */
  lemma ExplicitRegionWins(payload: map<string, string>, zone: string)
    requires "region" in payload
    ensures SelectRegion(payload["zone" := zone]) == SelectRegion(payload) == Some(payload["region"])
  {
  }

  /** Without a region, the one derived from the zone is a prefix of it with at most one `-`. */
  lemma DerivedRegionIsZonePrefix(payload: map<string, string>)
    requires "region" !in payload && "zone" in payload
    ensures SelectRegion(payload).Some?
    ensures SelectRegion(payload).value <= payload["zone"]
    ensures Count(SelectRegion(payload).value, '-') <= 1
  {
    RegionIsLongestPrefixWithOneDash(payload["zone"]);
  }

  /** The page of the repository's home test. */
  lemma HomeExample()
    ensures var region := SelectRegion(map["region" := "us-central1"]);
      var location := LookupLocation([RegionRecord(Some("us-central1"), Some("Iowa"))], region);
      && Greeting(region, location) == "Hello from us-central1 in Iowa!"
      && DefaultPrompt(location) == "What is an interesting fact about Iowa?"
  {
  }

  /** A payload with only a zone greets from the derived region. */
  lemma HomeExampleFromZone(zone: string)
    requires zone == "europe-west1-b"
    ensures SelectRegion(map["zone" := zone]) == Some("europe-west1")
  {
    RegionExampleEuropeWest(zone);
  }
}
