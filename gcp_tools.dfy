/** The cloud-region tools of the chat assistant (gcp_tools.py): region details, the region list
    and the per-region service catalogue. The Compute API clients are parameters: each call
    answers `Ok` with what the API returned or `Err` with the text of the exception it raised. */
module GcpTools {
  import opened Results
  import opened Strings
  import opened Numbers

  /** The error every tool returns when no project is configured. */
  const NOT_CONFIGURED := "PROJECT_ID not configured"

  /** At most this many quotas are reported for a region. */
  const MAX_QUOTAS := 5

  // ---------------------------------------------------------------------------
  // What the Compute API answers

  datatype Quota = Quota(metric: string, limit: real)

  /** A region as the regions client describes it; `deprecated` is the optional deprecation status. */
  datatype ComputeRegion = ComputeRegion(
    name: string,
    description: string,
    status: string,
    quotas: seq<Quota>,
    zones: seq<string>,
    deprecated: Option<string>)

  /** A zone as the zones client lists it; `region` is the URL of the region it belongs to. */
  datatype ComputeZone = ComputeZone(name: string, region: string)

  /** The arguments of `RegionsClient.get`. */
  datatype RegionQuery = RegionQuery(project: string, region: string)

  // ---------------------------------------------------------------------------
  // get_gcp_region_info

  /** The result object of `get_gcp_region_info`. */
  datatype RegionInfo = RegionInfo(
    region: string,
    description: string,
    status: string,
    zones: seq<string>,
    quotas: seq<Quota>,
    deprecated: bool)

  /** The zone filter: the zone's region URL ends with `/` and the region name. */
  predicate InRegion(zone: ComputeZone, region: string)
  {
    EndsWith(zone.region, "/" + region)
  }

  /** `[zone.name for zone in zones if zone.region.endswith(f"/{region}")]`. */
  function ZonesInRegion(zones: seq<ComputeZone>, region: string): (names: seq<string>)
    ensures |names| <= |zones|
  {
    if zones == [] then []
    else (if InRegion(zones[0], region) then [zones[0].name] else []) + ZonesInRegion(zones[1..], region)
  }

  /** A name is kept exactly when some zone of that name passes the filter. */
  lemma {:induction false} ZonesInRegionMembership(zones: seq<ComputeZone>, region: string, name: string)
    ensures name in ZonesInRegion(zones, region)
        <==> exists i :: 0 <= i < |zones| && InRegion(zones[i], region) && zones[i].name == name
  {
    if zones != [] {
      ZonesInRegionMembership(zones[1..], region, name);
      if name in ZonesInRegion(zones[1..], region) {
        var i :| 0 <= i < |zones[1..]| && InRegion(zones[1..][i], region) && zones[1..][i].name == name;
        assert InRegion(zones[i + 1], region) && zones[i + 1].name == name;
      }
      if exists i :: 0 <= i < |zones| && InRegion(zones[i], region) && zones[i].name == name {
        var i :| 0 <= i < |zones| && InRegion(zones[i], region) && zones[i].name == name;
        if i > 0 {
          assert InRegion(zones[1..][i - 1], region) && zones[1..][i - 1].name == name;
        }
      }
    }
  }

  /** The filter keeps the input order: it distributes over concatenation. */
  lemma {:induction false} ZonesInRegionConcat(a: seq<ComputeZone>, b: seq<ComputeZone>, region: string)
    ensures ZonesInRegion(a + b, region) == ZonesInRegion(a, region) + ZonesInRegion(b, region)
  {
    if a != [] {
      assert (a + b)[1..] == a[1..] + b;
      ZonesInRegionConcat(a[1..], b, region);
    } else {
      assert a + b == b;
    }
  }

  /** When every zone belongs to the region, all names are kept, in order. */
  lemma {:induction false} ZonesAllInRegion(zones: seq<ComputeZone>, region: string)
    requires forall i :: 0 <= i < |zones| ==> InRegion(zones[i], region)
    ensures |ZonesInRegion(zones, region)| == |zones|
    ensures forall i :: 0 <= i < |zones| ==> ZonesInRegion(zones, region)[i] == zones[i].name
  {
    if zones != [] {
      ZonesAllInRegion(zones[1..], region);
    }
  }

  /** `[... for quota in region_info.quotas][:5]`: the leading quotas, at most five. */
  function FirstQuotas(quotas: seq<Quota>): (r: seq<Quota>)
    ensures r <= quotas
    ensures |r| == Min(MAX_QUOTAS, |quotas|)
  {
    if |quotas| <= MAX_QUOTAS then quotas else quotas[..MAX_QUOTAS]
  }

  /** `get_gcp_region_info(region)`: the region's details, the names of its zones and its first quotas,
      or the configuration error, or the text of the first client call that failed. */
  function GetRegionInfo(
    projectId: Option<string>,
    region: string,
    getRegion: RegionQuery -> Result<ComputeRegion>,
    listZones: string -> Result<seq<ComputeZone>>): (r: Result<RegionInfo>)
    ensures !Present(projectId) ==> r == Err(NOT_CONFIGURED)
    ensures r.Ok? ==> |r.value.quotas| <= MAX_QUOTAS
  {
    if !Present(projectId) then Err(NOT_CONFIGURED)
    else
      var project := projectId.value;
      match getRegion(RegionQuery(project, region))
      case Err(e) => Err("Failed to get region info: " + e)
      case Ok(info) =>
        match listZones(project)
        case Err(e) => Err("Failed to get region info: " + e)
        case Ok(zones) =>
          Ok(RegionInfo(info.name, info.description, info.status,
                        ZonesInRegion(zones, region), FirstQuotas(info.quotas),
                        info.deprecated.Some?))
  }

  /** When both calls succeed the result describes the region the client returned. */
  lemma RegionInfoOnSuccess(
    projectId: Option<string>,
    region: string,
    getRegion: RegionQuery -> Result<ComputeRegion>,
    listZones: string -> Result<seq<ComputeZone>>,
    info: ComputeRegion,
    zones: seq<ComputeZone>)
    requires Present(projectId)
    requires getRegion(RegionQuery(projectId.value, region)) == Ok(info)
    requires listZones(projectId.value) == Ok(zones)
    ensures var r := GetRegionInfo(projectId, region, getRegion, listZones);
      && r.Ok?
      && r.value.region == info.name
      && (forall name :: name in r.value.zones
            <==> exists i :: 0 <= i < |zones| && InRegion(zones[i], region) && zones[i].name == name)
      && r.value.quotas <= info.quotas
      && |r.value.quotas| == Min(MAX_QUOTAS, |info.quotas|)
      && r.value.deprecated == info.deprecated.Some?
  {
    forall name ensures name in ZonesInRegion(zones, region)
        <==> exists i :: 0 <= i < |zones| && InRegion(zones[i], region) && zones[i].name == name {
      ZonesInRegionMembership(zones, region, name);
    }
  }

  /** The repository's test: one zone of region `us-central1`, no quotas. The deprecation status
      is taken as absent; the test's mock object would answer the `deprecated` attribute with a
      mock of its own, which reports as deprecated. */
  lemma RegionInfoExample(getRegion: RegionQuery -> Result<ComputeRegion>, listZones: string -> Result<seq<ComputeZone>>)
    requires getRegion(RegionQuery("test-project", "us-central1"))
          == Ok(ComputeRegion("us-central1", "Central US region", "UP", [], [], None))
    requires listZones("test-project")
          == Ok([ComputeZone("us-central1-a", "projects/test-project/regions/us-central1")])
    ensures GetRegionInfo(Some("test-project"), "us-central1", getRegion, listZones)
         == Ok(RegionInfo("us-central1", "Central US region", "UP", ["us-central1-a"], [], false))
  {
    var url := "projects/test-project/regions/us-central1";
    var zone := ComputeZone("us-central1-a", url);
    assert url[|url| - |"/us-central1"|..] == "/us-central1";
    assert "/" + "us-central1" == "/us-central1";
    assert InRegion(zone, "us-central1");
    assert ZonesInRegion([zone], "us-central1") == [zone.name] + ZonesInRegion([], "us-central1");
    assert ZonesInRegion([zone], "us-central1") == ["us-central1-a"];
    assert FirstQuotas([]) == [];
    assert Present(Some("test-project"));
  }

  // ---------------------------------------------------------------------------
  // list_gcp_regions

  /** One entry of the `regions` list of `list_gcp_regions`. */
  datatype RegionSummary = RegionSummary(name: string, description: string, status: string, zoneCount: nat)

  /** `list_gcp_regions()`: one summary per region, in the client's order, with the number of its zones. */
  method ListRegions(projectId: Option<string>, listRegions: string -> Result<seq<ComputeRegion>>)
    returns (r: Result<seq<RegionSummary>>)
    ensures !Present(projectId) ==> r == Err(NOT_CONFIGURED)
    ensures Present(projectId) && listRegions(projectId.value).Err? ==>
      r == Err("Failed to list regions: " + listRegions(projectId.value).message)
    ensures Present(projectId) && listRegions(projectId.value).Ok? ==>
      var regions := listRegions(projectId.value).value;
      && r.Ok?
      && |r.value| == |regions|
      && forall i :: 0 <= i < |regions| ==>
           r.value[i] == RegionSummary(regions[i].name, regions[i].description, regions[i].status, |regions[i].zones|)
  {
    if !Present(projectId) {
      return Err(NOT_CONFIGURED);
    }
    var answer := listRegions(projectId.value);
    if answer.Err? {
      return Err("Failed to list regions: " + answer.message);
    }
    var regions := answer.value;
    var result: seq<RegionSummary> := [];
    for i := 0 to |regions|
      invariant |result| == i
      invariant forall j :: 0 <= j < i ==>
        result[j] == RegionSummary(regions[j].name, regions[j].description, regions[j].status, |regions[j].zones|)
    {
      var region := regions[i];
      result := result + [RegionSummary(region.name, region.description, region.status, |region.zones|)];
    }
    return Ok(result);
  }

  // ---------------------------------------------------------------------------
  // get_gcp_services_in_region

  /** The full service catalogue. */
  const COMMON_SERVICES: map<string, string> := map[
    "compute" := "Compute Engine - Virtual machines and infrastructure",
    "storage" := "Cloud Storage - Object storage service",
    "bigquery" := "BigQuery - Data warehouse and analytics",
    "cloudsql" := "Cloud SQL - Managed relational databases",
    "gke" := "Google Kubernetes Engine - Managed Kubernetes",
    "functions" := "Cloud Functions - Serverless compute",
    "run" := "Cloud Run - Serverless containers",
    "dataflow" := "Dataflow - Stream and batch data processing",
    "pubsub" := "Pub/Sub - Messaging service",
    "firestore" := "Firestore - NoSQL document database"
  ]

  /** The regions that get the full catalogue. */
  const MAJOR_REGIONS: seq<string> := ["us-central1", "us-east1", "us-west1", "europe-west1", "asia-east1"]

  /** The services every other region gets. */
  const LIMITED_SERVICES: seq<string> := ["compute", "storage", "cloudsql"]

  const MAJOR_NOTE := "This is a major region with full service availability"
  const LIMITED_NOTE := "This region may have limited service availability. Check GCP documentation for specific services."

  /** The result object of `get_gcp_services_in_region`. */
  datatype ServicesInfo = ServicesInfo(
    region: string,
    note: string,
    availableServices: map<string, string>,
    serviceCount: nat)

  /** `get_gcp_services_in_region(region)`. */
  function ServicesInRegion(region: string): (r: ServicesInfo)
    ensures r.region == region
    ensures r.serviceCount == |r.availableServices|
    ensures forall k :: k in r.availableServices ==> k in COMMON_SERVICES && r.availableServices[k] == COMMON_SERVICES[k]
    ensures region in MAJOR_REGIONS ==> r.availableServices == COMMON_SERVICES && r.serviceCount == 10
    ensures region !in MAJOR_REGIONS ==>
      r.availableServices.Keys == {"compute", "storage", "cloudsql"} && r.serviceCount == 3
  {
    if region in MAJOR_REGIONS then
      CatalogueSize();
      ServicesInfo(region, MAJOR_NOTE, COMMON_SERVICES, |COMMON_SERVICES|)
    else
      var available := map k | k in COMMON_SERVICES && k in LIMITED_SERVICES :: COMMON_SERVICES[k];
      LimitedCatalogueSize(available);
      ServicesInfo(region, LIMITED_NOTE, available, |available|)
  }

  /** The catalogue has ten distinct services. */
  lemma CatalogueSize()
    ensures |COMMON_SERVICES| == 10
  {
  }

  /** The limited catalogue keeps three services. */
  lemma LimitedCatalogueSize(available: map<string, string>)
    requires available == map k | k in COMMON_SERVICES && k in LIMITED_SERVICES :: COMMON_SERVICES[k]
    ensures available.Keys == {"compute", "storage", "cloudsql"}
    ensures |available| == 3
  {
    assert available.Keys == {"compute", "storage", "cloudsql"};
  }

  /** The bounds the repository's tests check: more than five services in a major region,
      at most five elsewhere. */
  lemma ServiceCountBounds(region: string)
    ensures region in MAJOR_REGIONS ==> ServicesInRegion(region).serviceCount > 5
    ensures region !in MAJOR_REGIONS ==> ServicesInRegion(region).serviceCount <= 5
    ensures "compute" in ServicesInRegion(region).availableServices
  {
  }
}
