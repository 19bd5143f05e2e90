/** The managed Redis fetcher: clusters are listed zone by zone. */
module RedisApi {
  import opened Types
  import opened Transport
  import JsArray
  import InstancesApi
  import JsString

  /** The zones Redis clusters are listed in, in request order. */
  const ZONES: seq<string> :=
    ["fr-par-1", "fr-par-2"] + ["nl-ams-1", "nl-ams-2"] + ["pl-waw-1", "pl-waw-2"]

  /** The clusters of one zone: the zone sits between a fixed prefix and suffix. */
  function ClustersPath(zone: string): (r: string)
    ensures |r| == |zone| + 25 && r[16..|r| - 9] == zone
    ensures r[..16] == "/redis/v1/zones/" && r[|r| - 9..] == "/clusters"
  {
    "/redis/v1/zones/" + zone + "/clusters"
  }

  /** `RedisAPI.getAllClusters`. */
  function GetAllClusters(get: string -> Response<RedisCluster>): (r: Fetched<RedisCluster>)
    ensures r.requests == [Get(ClustersPath("fr-par-1")), Get(ClustersPath("fr-par-2")),
                           Get(ClustersPath("nl-ams-1")), Get(ClustersPath("nl-ams-2")),
                           Get(ClustersPath("pl-waw-1")), Get(ClustersPath("pl-waw-2"))]
    ensures r.result.Success? <==> forall zone :: zone in ZONES ==> get(ClustersPath(zone)).Ok?
    ensures r.result.Success? ==>
              && r.result.value == JsArray.Flatten(RegionItems(ZONES, ClustersPath, get))
              && |r.result.value| == JsArray.SumLengths(RegionItems(ZONES, ClustersPath, get))
  {
    assert FanOut(ZONES, ClustersPath, get).result.Success? ==>
             FanOut(ZONES, ClustersPath, get).result.value == JsArray.Flatten(RegionItems(ZONES, ClustersPath, get)) by {
      if FanOut(ZONES, ClustersPath, get).result.Success? {
        FanOutFlattens(ZONES, ClustersPath, get);
      }
    }
    FanOut(ZONES, ClustersPath, get)
  }

  /** Redis is listed in every instance zone except fr-par-3. */
  lemma ZonesAreInstanceZonesButFrPar3()
    ensures forall zone :: zone in ZONES <==> zone in InstancesApi.ZONES && zone != "fr-par-3"
  {
  }

  /** The fetcher sends one request per zone and never the same request twice. */
  lemma RequestsDistinct(get: string -> Response<RedisCluster>)
    ensures var rs := GetAllClusters(get).requests;
            forall i, j :: 0 <= i < j < |rs| ==> rs[i] != rs[j]
  {
    forall x, y | ClustersPath(x) == ClustersPath(y)
      ensures x == y
    {
      JsString.AffixCancel("/redis/v1/zones/", x, y, "/clusters");
    }
    FanOutOneRequestPerRegion(ZONES, ClustersPath, get);
  }
}
