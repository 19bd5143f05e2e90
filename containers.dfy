/**
 * The containers view: the namespace → container → domain join built after
 * the three regional fetches, the view state it feeds, and the console URL
 * of a container.
 */
module Containers {
  import opened Wrappers
  import opened Types
  import opened Transport
  import JsArray
  import JsString
  import ContainersApi

  /** A container together with its domains. */
  datatype ContainerEntry = ContainerEntry(container: Container, domains: seq<ContainerDomain>)

  /** A namespace together with its containers. */
  datatype NamespaceEntry = NamespaceEntry(namespace: Namespace, containers: seq<ContainerEntry>)

  function DomainContainerId(d: ContainerDomain): string { d.containerId }

  function ContainerNamespaceId(c: Container): string { c.namespaceId }

  /** `domains.filter((d) => d.container_id === containerId)`. */
  function DomainsOf(domains: seq<ContainerDomain>, containerId: string): (r: seq<ContainerDomain>)
  {
    JsArray.Filter(domains, DomainContainerId, containerId)
  }

  /** `containers.filter((c) => c.namespace_id === namespaceId)`. */
  function ContainersIn(containers: seq<Container>, namespaceId: string): (r: seq<Container>)
  {
    JsArray.Filter(containers, ContainerNamespaceId, namespaceId)
  }

  /** The containers of a namespace, each with its domains. */
  function Entries(namespace: Namespace, containers: seq<Container>, domains: seq<ContainerDomain>)
    : (r: seq<ContainerEntry>)
  {
    var own := ContainersIn(containers, namespace.id);
    seq(|own|, k requires 0 <= k < |own| => ContainerEntry(own[k], DomainsOf(domains, own[k].id)))
  }

  /** The containers of a list of entries, in order. */
  ghost function ContainersOfEntries(entries: seq<ContainerEntry>): (r: seq<Container>)
    ensures |r| == |entries|
    ensures forall k :: 0 <= k < |entries| ==> r[k] == entries[k].container
  {
    seq(|entries|, k requires 0 <= k < |entries| => entries[k].container)
  }

  /** The regrouping of `fetchContainers`: one entry per namespace, in fetch order. */
  function Join(namespaces: seq<Namespace>, containers: seq<Container>, domains: seq<ContainerDomain>)
    : (r: seq<NamespaceEntry>)
    ensures |r| == |namespaces|
    ensures forall i :: 0 <= i < |r| ==> r[i].namespace == namespaces[i]
  {
    seq(|namespaces|, i requires 0 <= i < |namespaces| =>
      NamespaceEntry(namespaces[i], Entries(namespaces[i], containers, domains)))
  }

  /**
   * A namespace's containers are exactly the fetched containers that point to
   * it, each as often as fetched, in their fetched order.
   */
  lemma JoinContainersExact(namespaces: seq<Namespace>, containers: seq<Container>,
                            domains: seq<ContainerDomain>, i: nat)
    requires i < |namespaces|
    ensures var own := ContainersOfEntries(Join(namespaces, containers, domains)[i].containers);
            && (forall c :: c in own <==> c in containers && c.namespaceId == namespaces[i].id)
            && (forall c :: multiset(own)[c] ==
                  if c.namespaceId == namespaces[i].id then multiset(containers)[c] else 0)
            && JsArray.Subsequence(own, containers)
  {
    var entries := Join(namespaces, containers, domains)[i].containers;
    JsArray.FilterSpec(containers, ContainerNamespaceId, namespaces[i].id);
    assert ContainersOfEntries(entries) == ContainersIn(containers, namespaces[i].id);
  }

  /**
   * A container's domains are exactly the fetched domains that point to it,
   * each as often as fetched, in their fetched order.
   */
  lemma JoinDomainsExact(namespaces: seq<Namespace>, containers: seq<Container>,
                         domains: seq<ContainerDomain>, i: nat, k: nat)
    requires i < |namespaces| && k < |Join(namespaces, containers, domains)[i].containers|
    ensures var entry := Join(namespaces, containers, domains)[i].containers[k];
            && (forall d :: d in entry.domains <==> d in domains && d.containerId == entry.container.id)
            && (forall d :: multiset(entry.domains)[d] ==
                  if d.containerId == entry.container.id then multiset(domains)[d] else 0)
            && JsArray.Subsequence(entry.domains, domains)
  {
    var entry := Join(namespaces, containers, domains)[i].containers[k];
    JsArray.FilterSpec(domains, DomainContainerId, entry.container.id);
  }

  /** A container appears under a namespace only if it is a fetched container pointing to it. */
  lemma JoinEntryOrigin(namespaces: seq<Namespace>, containers: seq<Container>,
                        domains: seq<ContainerDomain>, i: nat, k: nat)
    requires i < |namespaces| && k < |Join(namespaces, containers, domains)[i].containers|
    ensures var entry := Join(namespaces, containers, domains)[i].containers[k];
            entry.container in containers && entry.container.namespaceId == namespaces[i].id
  {
    var entries := Join(namespaces, containers, domains)[i].containers;
    JoinContainersExact(namespaces, containers, domains, i);
    assert ContainersOfEntries(entries)[k] == entries[k].container;
  }

  /** A container whose namespace was not fetched appears nowhere: orphans are dropped. */
  lemma JoinDropsOrphanContainers(namespaces: seq<Namespace>, containers: seq<Container>,
                                  domains: seq<ContainerDomain>, orphan: Container)
    requires forall n :: n in namespaces ==> n.id != orphan.namespaceId
    ensures forall i, k :: 0 <= i < |namespaces| && 0 <= k < |Join(namespaces, containers, domains)[i].containers| ==>
              Join(namespaces, containers, domains)[i].containers[k].container != orphan
  {
    forall i, k | 0 <= i < |namespaces| && 0 <= k < |Join(namespaces, containers, domains)[i].containers|
      ensures Join(namespaces, containers, domains)[i].containers[k].container != orphan
    {
      JoinEntryOrigin(namespaces, containers, domains, i, k);
    }
  }

  /**
   * A domain is listed under namespace `i` exactly when it was fetched and its
   * container is a fetched container of that namespace; other domains,
   * including those whose container is missing, appear nowhere.
   */
  lemma JoinDomainPlacement(namespaces: seq<Namespace>, containers: seq<Container>,
                            domains: seq<ContainerDomain>, i: nat, d: ContainerDomain)
    requires i < |namespaces|
    ensures var entries := Join(namespaces, containers, domains)[i].containers;
            (exists k :: 0 <= k < |entries| && d in entries[k].domains) <==>
            (d in domains && exists c :: c in containers && c.namespaceId == namespaces[i].id && d.containerId == c.id)
  {
    var entries := Join(namespaces, containers, domains)[i].containers;
    if d in domains && exists c :: c in containers && c.namespaceId == namespaces[i].id && d.containerId == c.id {
      var c :| c in containers && c.namespaceId == namespaces[i].id && d.containerId == c.id;
      var own := ContainersOfEntries(entries);
      JoinContainersExact(namespaces, containers, domains, i);
      assert c in own;
      var k :| 0 <= k < |own| && own[k] == c;
      JoinDomainsExact(namespaces, containers, domains, i, k);
      assert d in entries[k].domains;
    }
    if exists k :: 0 <= k < |entries| && d in entries[k].domains {
      var k :| 0 <= k < |entries| && d in entries[k].domains;
      JoinDomainsExact(namespaces, containers, domains, i, k);
      JoinEntryOrigin(namespaces, containers, domains, i, k);
      var c := entries[k].container;
      assert c in containers && c.namespaceId == namespaces[i].id && d.containerId == c.id;
    }
  }

  /** `Promise.all` of the three regional fetches, then the join. */
  function FetchJoined(getNamespaces: string -> Response<Namespace>,
                       getContainers: string -> Response<Container>,
                       getDomains: string -> Response<ContainerDomain>)
    : (r: Result<seq<NamespaceEntry>, Thrown>)
    ensures var namespaces := ContainersApi.GetAllNamespaces(getNamespaces).result;
            var containers := ContainersApi.GetAllContainers(getContainers).result;
            var domains := ContainersApi.GetAllDomains(getDomains).result;
            && (r.Success? <==> namespaces.Success? && containers.Success? && domains.Success?)
            && (r.Success? ==> |r.value| == |namespaces.value|)
            && (namespaces.Failure? ==> r == Failure(namespaces.error))
            && (namespaces.Success? && containers.Failure? ==> r == Failure(containers.error))
            && (namespaces.Success? && containers.Success? && domains.Failure? ==> r == Failure(domains.error))
            && (r.Success? ==> r.value == Join(namespaces.value, containers.value, domains.value))
  {
    var namespaces := ContainersApi.GetAllNamespaces(getNamespaces).result;
    var containers := ContainersApi.GetAllContainers(getContainers).result;
    var domains := ContainersApi.GetAllDomains(getDomains).result;
    if namespaces.Failure? then Failure(namespaces.error)
    else if containers.Failure? then Failure(containers.error)
    else if domains.Failure? then Failure(domains.error)
    else Success(Join(namespaces.value, containers.value, domains.value))
  }

  /** The joined fetch succeeds exactly when all nine regional GETs succeed. */
  lemma FetchJoinedSucceeds(getNamespaces: string -> Response<Namespace>,
                            getContainers: string -> Response<Container>,
                            getDomains: string -> Response<ContainerDomain>)
    ensures FetchJoined(getNamespaces, getContainers, getDomains).Success? <==>
              forall region :: region in ContainersApi.REGIONS ==>
                && getNamespaces(ContainersApi.NamespacesPath(region)).Ok?
                && getContainers(ContainersApi.ContainersPath(region)).Ok?
                && getDomains(ContainersApi.DomainsPath(region)).Ok?
  {
  }

  /** `error instanceof Error ? error : new Error('Something went wrong')`. */
  function AsError(thrown: Thrown): (r: Thrown)
    ensures r.ErrorObject?
    ensures thrown.ErrorObject? ==> r == thrown
    ensures thrown.OtherValue? ==> r == ErrorObject("Something went wrong")
  {
    match thrown
    case ErrorObject(_) => thrown
    case OtherValue => ErrorObject("Something went wrong")
  }

  /** `getContainerUrl`, under the console base URL. */
  function ContainerUrl(consoleUrl: string, container: Container): (r: string)
    ensures JsString.Framed(r, consoleUrl + "/containers/namespaces/",
                            container.region + "/" + container.namespaceId + "/containers/" + container.id,
                            "/deployment")
  {
    assert container.region + ("/" + (container.namespaceId + ("/containers/" + (container.id + "/deployment"))))
        == container.region + "/" + container.namespaceId + "/containers/" + container.id + "/deployment";
    consoleUrl + ("/containers/namespaces/" + (container.region + ("/" + (container.namespaceId
      + ("/containers/" + (container.id + "/deployment"))))))
  }

  /**
   * The console URL names one container: with slash-free region and namespace
   * id, two containers share a URL only if region, namespace and id agree.
   */
  lemma ContainerUrlInjective(consoleUrl: string, a: Container, b: Container)
    requires '/' !in a.region && '/' !in b.region
    requires '/' !in a.namespaceId && '/' !in b.namespaceId
    requires ContainerUrl(consoleUrl, a) == ContainerUrl(consoleUrl, b)
    ensures a.region == b.region && a.namespaceId == b.namespaceId && a.id == b.id
  {
    var inner1, inner2 := "containers/" + (a.id + "/deployment"), "containers/" + (b.id + "/deployment");
    var mid1, mid2 := a.namespaceId + ("/" + inner1), b.namespaceId + ("/" + inner2);
    var tail1, tail2 := a.region + ("/" + mid1), b.region + ("/" + mid2);
    assert "/containers/" + (a.id + "/deployment") == "/" + inner1;
    assert "/containers/" + (b.id + "/deployment") == "/" + inner2;
    JsString.PrefixCancel(consoleUrl, "/containers/namespaces/" + tail1, "/containers/namespaces/" + tail2);
    JsString.PrefixCancel("/containers/namespaces/", tail1, tail2);
    assert tail1 == a.region + "/" + mid1 && tail2 == b.region + "/" + mid2;
    JsString.SlashSplit(a.region, mid1, b.region, mid2);
    assert mid1 == a.namespaceId + "/" + inner1 && mid2 == b.namespaceId + "/" + inner2;
    JsString.SlashSplit(a.namespaceId, inner1, b.namespaceId, inner2);
    JsString.PrefixCancel("containers/", a.id + "/deployment", b.id + "/deployment");
    JsString.SuffixCancel(a.id, b.id, "/deployment");
  }

  /** The id of the first namespace, `allNamespaces[0]?.id`. */
  function FirstNamespaceId(entries: seq<NamespaceEntry>): (r: Option<string>)
    ensures r.None? <==> entries == []
    ensures r.Some? ==> r.value == entries[0].namespace.id
  {
    if entries == [] then None else Some(entries[0].namespace.id)
  }

  /** The state of the containers view and its transitions. */
  class ContainersView {
    var isLoading: bool
    var namespaces: seq<NamespaceEntry>
    var selectedNamespaceId: Option<string>
    var error: Option<Thrown>

    /** The initial state: loading, nothing listed. */
    constructor ()
      ensures isLoading && namespaces == [] && selectedNamespaceId == None && error == None
    {
      isLoading := true;
      namespaces := [];
      selectedNamespaceId := None;
      error := None;
    }

    /** A fetch starts: only the loading flag changes. */
    method StartLoading()
      modifies this
      ensures isLoading
      ensures namespaces == old(namespaces) && selectedNamespaceId == old(selectedNamespaceId)
      ensures error == old(error)
    {
      isLoading := true;
    }

    /** The fetch succeeded: the joined list replaces the old one and its first namespace is selected. */
    method ShowLoaded(entries: seq<NamespaceEntry>)
      modifies this
      ensures !isLoading && namespaces == entries
      ensures selectedNamespaceId == FirstNamespaceId(entries)
      ensures error == old(error)
    {
      namespaces := entries;
      selectedNamespaceId := FirstNamespaceId(entries);
      isLoading := false;
    }

    /** The fetch failed: nothing of the old list or of a partial result remains. */
    method ShowFailed(thrown: Thrown)
      modifies this
      ensures !isLoading && namespaces == [] && selectedNamespaceId == None
      ensures error == Some(AsError(thrown))
    {
      error := Some(AsError(thrown));
      isLoading := false;
      selectedNamespaceId := None;
      namespaces := [];
    }

    /** `fetchContainers`. */
    method Fetch(getNamespaces: string -> Response<Namespace>,
                 getContainers: string -> Response<Container>,
                 getDomains: string -> Response<ContainerDomain>)
      modifies this
      ensures !isLoading
      ensures match FetchJoined(getNamespaces, getContainers, getDomains)
              case Success(entries) =>
                namespaces == entries && selectedNamespaceId == FirstNamespaceId(entries) && error == old(error)
              case Failure(thrown) =>
                namespaces == [] && selectedNamespaceId == None && error == Some(AsError(thrown))
    {
      StartLoading();
      var allNamespaces: seq<NamespaceEntry> := [];
      match FetchJoined(getNamespaces, getContainers, getDomains)
      case Success(entries) =>
        allNamespaces := allNamespaces + entries;
        ShowLoaded(allNamespaces);
      case Failure(thrown) =>
        ShowFailed(thrown);
    }

    /** The namespace dropdown changed. */
    method Select(namespaceId: string)
      modifies this
      ensures selectedNamespaceId == Some(namespaceId)
      ensures isLoading == old(isLoading) && namespaces == old(namespaces) && error == old(error)
    {
      selectedNamespaceId := Some(namespaceId);
    }

    /** `state.namespaces.find((n) => n.id === state.selectedNamespaceId)`. */
    function SelectedNamespace(): (r: Option<NamespaceEntry>)
      reads this
      ensures r.None? <==> selectedNamespaceId.None? ||
                           forall i :: 0 <= i < |namespaces| ==> namespaces[i].namespace.id != selectedNamespaceId.value
      ensures r.Some? ==> exists i :: 0 <= i < |namespaces| && namespaces[i] == r.value &&
                                      r.value.namespace.id == selectedNamespaceId.value &&
                                      forall j :: 0 <= j < i ==> namespaces[j].namespace.id != selectedNamespaceId.value
    {
      match selectedNamespaceId
      case None => None
      case Some(id) => JsArray.Find(namespaces, (n: NamespaceEntry) => n.namespace.id == id)
    }
  }
}
