/** The managed-database fetcher: database instances are listed region by region. */
module DatabasesApi {
  import opened Types
  import opened Transport
  import JsString

  /** The regions databases are listed in, in request order. */
  const REGIONS: seq<string> := ["fr-par", "nl-ams", "pl-waw"]

  /** The database instances of one region: the region sits between a fixed prefix and suffix. */
  function InstancesPath(region: string): (r: string)
    ensures |r| == |region| + 26 && r[16..|r| - 10] == region
    ensures r[..16] == "/rdb/v1/regions/" && r[|r| - 10..] == "/instances"
  {
    "/rdb/v1/regions/" + region + "/instances"
  }

  /** `DatabasesAPI.getAllDatabases`. */
  function GetAllDatabases(get: string -> Response<Database>): (r: Fetched<Database>)
    ensures r.requests == [Get(InstancesPath("fr-par")), Get(InstancesPath("nl-ams")), Get(InstancesPath("pl-waw"))]
    ensures r.result.Success? <==> forall region :: region in REGIONS ==> get(InstancesPath(region)).Ok?
    ensures r.result.Success? ==>
              r.result.value == get(InstancesPath("fr-par")).items
                              + get(InstancesPath("nl-ams")).items
                              + get(InstancesPath("pl-waw")).items
  {
    FanOutThree(REGIONS, InstancesPath, get);
    FanOut(REGIONS, InstancesPath, get)
  }

  /** The fetcher sends one request per region and never the same request twice. */
  lemma RequestsDistinct(get: string -> Response<Database>)
    ensures var rs := GetAllDatabases(get).requests;
            forall i, j :: 0 <= i < j < |rs| ==> rs[i] != rs[j]
  {
    forall x, y | InstancesPath(x) == InstancesPath(y)
      ensures x == y
    {
      JsString.AffixCancel("/rdb/v1/regions/", x, y, "/instances");
    }
    FanOutOneRequestPerRegion(REGIONS, InstancesPath, get);
  }
}
