/**
 * The serverless-containers fetchers: namespaces, containers and domains are
 * each listed region by region over the same fixed regions, and a container
 * is redeployed by one POST.
 */
module ContainersApi {
  import opened Types
  import opened Transport
  import JsString

  /** The regions the containers product is listed in, in request order. */
  const REGIONS: seq<string> := ["fr-par", "nl-ams", "pl-waw"]

  /** The namespaces of one region: the region sits between a fixed prefix and suffix. */
  function NamespacesPath(region: string): (r: string)
    ensures |r| == |region| + 39 && r[28..|r| - 11] == region
    ensures r[..28] == "/containers/v1beta1/regions/" && r[|r| - 11..] == "/namespaces"
  {
    "/containers/v1beta1/regions/" + region + "/namespaces"
  }

  /** The containers of one region. */
  function ContainersPath(region: string): (r: string)
    ensures |r| == |region| + 39 && r[28..|r| - 11] == region
    ensures r[..28] == "/containers/v1beta1/regions/" && r[|r| - 11..] == "/containers"
  {
    "/containers/v1beta1/regions/" + region + "/containers"
  }

  /** The domains of one region. */
  function DomainsPath(region: string): (r: string)
    ensures |r| == |region| + 36 && r[28..|r| - 8] == region
    ensures r[..28] == "/containers/v1beta1/regions/" && r[|r| - 8..] == "/domains"
  {
    "/containers/v1beta1/regions/" + region + "/domains"
  }

  /** `ContainersAPI.getAllNamespaces`. */
  function GetAllNamespaces(get: string -> Response<Namespace>): (r: Fetched<Namespace>)
    ensures r.requests == [Get(NamespacesPath("fr-par")), Get(NamespacesPath("nl-ams")), Get(NamespacesPath("pl-waw"))]
    ensures r.result.Success? <==> forall region :: region in REGIONS ==> get(NamespacesPath(region)).Ok?
    ensures r.result.Success? ==>
              r.result.value == get(NamespacesPath("fr-par")).items
                              + get(NamespacesPath("nl-ams")).items
                              + get(NamespacesPath("pl-waw")).items
  {
    FanOutThree(REGIONS, NamespacesPath, get);
    FanOut(REGIONS, NamespacesPath, get)
  }

  /** `ContainersAPI.getAllContainers`. */
  function GetAllContainers(get: string -> Response<Container>): (r: Fetched<Container>)
    ensures r.requests == [Get(ContainersPath("fr-par")), Get(ContainersPath("nl-ams")), Get(ContainersPath("pl-waw"))]
    ensures r.result.Success? <==> forall region :: region in REGIONS ==> get(ContainersPath(region)).Ok?
    ensures r.result.Success? ==>
              r.result.value == get(ContainersPath("fr-par")).items
                              + get(ContainersPath("nl-ams")).items
                              + get(ContainersPath("pl-waw")).items
  {
    FanOutThree(REGIONS, ContainersPath, get);
    FanOut(REGIONS, ContainersPath, get)
  }

  /** `ContainersAPI.getAllDomains`. */
  function GetAllDomains(get: string -> Response<ContainerDomain>): (r: Fetched<ContainerDomain>)
    ensures r.requests == [Get(DomainsPath("fr-par")), Get(DomainsPath("nl-ams")), Get(DomainsPath("pl-waw"))]
    ensures r.result.Success? <==> forall region :: region in REGIONS ==> get(DomainsPath(region)).Ok?
    ensures r.result.Success? ==>
              r.result.value == get(DomainsPath("fr-par")).items
                              + get(DomainsPath("nl-ams")).items
                              + get(DomainsPath("pl-waw")).items
  {
    FanOutThree(REGIONS, DomainsPath, get);
    FanOut(REGIONS, DomainsPath, get)
  }

  /** `ContainersAPI.deployContainer`: one POST, without a body, on the container's deploy path. */
  function DeployContainer(container: Container): (r: Request)
    ensures r.Post? && r.body == NoBody
    ensures r.path == DeployPath(container.region, container.id)
  {
    Post(DeployPath(container.region, container.id), NoBody)
  }

  /** The deploy path of a container: its region and id between fixed pieces. */
  function DeployPath(region: string, id: string): (r: string)
    ensures |r| == |region| + |id| + 47 && r[28..|r| - 7] == region + "/containers/" + id
    ensures r[..28] == "/containers/v1beta1/regions/" && r[|r| - 7..] == "/deploy"
  {
    "/containers/v1beta1/regions/" + region + "/containers/" + id + "/deploy"
  }

  /** Two containers in slash-free regions get the same deploy request only if region and id agree. */
  lemma DeployPathInjective(region1: string, id1: string, region2: string, id2: string)
    requires '/' !in region1 && '/' !in region2
    requires DeployPath(region1, id1) == DeployPath(region2, id2)
    ensures region1 == region2 && id1 == id2
  {
    var m1, m2 := region1 + "/containers/" + id1, region2 + "/containers/" + id2;
    assert m1 == m2;
    assert m1 == region1 + "/" + ("containers/" + id1);
    assert m2 == region2 + "/" + ("containers/" + id2);
    JsString.SlashSplit(region1, "containers/" + id1, region2, "containers/" + id2);
    JsString.PrefixCancel("containers/", id1, id2);
  }

  /** Each path template names its region: different regions give different paths. */
  lemma PathsInjective(x: string, y: string)
    ensures NamespacesPath(x) == NamespacesPath(y) ==> x == y
    ensures ContainersPath(x) == ContainersPath(y) ==> x == y
    ensures DomainsPath(x) == DomainsPath(y) ==> x == y
  {
    var p := "/containers/v1beta1/regions/";
    if NamespacesPath(x) == NamespacesPath(y) {
      JsString.AffixCancel(p, x, y, "/namespaces");
    }
    if ContainersPath(x) == ContainersPath(y) {
      JsString.AffixCancel(p, x, y, "/containers");
    }
    if DomainsPath(x) == DomainsPath(y) {
      JsString.AffixCancel(p, x, y, "/domains");
    }
  }

  /** Each of the three fetchers sends one request per region and never the same request twice. */
  lemma RequestsDistinct(getNamespaces: string -> Response<Namespace>,
                         getContainers: string -> Response<Container>,
                         getDomains: string -> Response<ContainerDomain>)
    ensures var rs := GetAllNamespaces(getNamespaces).requests;
            forall i, j :: 0 <= i < j < |rs| ==> rs[i] != rs[j]
    ensures var rs := GetAllContainers(getContainers).requests;
            forall i, j :: 0 <= i < j < |rs| ==> rs[i] != rs[j]
    ensures var rs := GetAllDomains(getDomains).requests;
            forall i, j :: 0 <= i < j < |rs| ==> rs[i] != rs[j]
  {
    forall x, y
      ensures NamespacesPath(x) == NamespacesPath(y) ==> x == y
      ensures ContainersPath(x) == ContainersPath(y) ==> x == y
      ensures DomainsPath(x) == DomainsPath(y) ==> x == y
    {
      PathsInjective(x, y);
    }
    FanOutOneRequestPerRegion(REGIONS, NamespacesPath, getNamespaces);
    FanOutOneRequestPerRegion(REGIONS, ContainersPath, getContainers);
    FanOutOneRequestPerRegion(REGIONS, DomainsPath, getDomains);
  }
}
