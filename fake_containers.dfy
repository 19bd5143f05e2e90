/**
 * The canned data served in development mode, used here as a concrete check
 * of the join and of the registry-image split.
 */
module FakeContainers {
  import opened Wrappers
  import opened Types
  import Containers
  import JsArray
  import Utils

  const PRODUCTION := Namespace("4a1a9390-7f17-44ea-9416-b9c35624b53f", "production", "fr-par",
                                "Production namespace", ContainerReady)
  const BETA := Namespace("d6f768da-f669-498a-a218-78c1a8b2f02a", "beta", "fr-par",
                          "Beta namespace for testing", ContainerReady)

  const WEBSITE := Container(
    "9c917bec-c020-468b-8a17-3a3cdff64823", "website", PRODUCTION.id, ContainerReady,
    1, 5, 1024, 560, "300s", None, Public, "Website container for the company",
    "rg.fr-par.scw.cloud/company/website:latest", 80,
    "website.functions.fnc.fr-par.scw.cloud", "unknown_protocol", 8080, "fr-par")
  const DOCUMENTATION := Container(
    "c9c0091e-cb5b-44ac-bc9f-8b5d2e3001df", "documentation", PRODUCTION.id, ContainerReady,
    1, 2, 512, 280, "600s", None, Public, "Application documentation",
    "rg.fr-par.scw.cloud/company/documentation:latest", 80,
    "documentation.functions.fnc.fr-par.scw.cloud", "unknown_protocol", 8080, "fr-par")
  const API := Container(
    "1b16216a-81a5-4b85-b7fc-52842729c5c3", "api", BETA.id, ContainerError,
    1, 1, 512, 280, "300s", Some("Error: Cannot find module '@company/types'"), Public,
    "Beta API container", "rg.fr-par.scw.cloud/company/api:latest", 80,
    "api.functions.fnc.fr-par.scw.cloud", "unknown_protocol", 8080, "fr-par")

  const WEBSITE_DOMAIN := ContainerDomain("2a2c5d0f-c867-42cb-861a-41f87dc2a78c", "company.com",
                                          WEBSITE.id, "https://company.com")
  const DOCS_DOMAIN := ContainerDomain("9e8ecdde-29e3-4deb-acad-06eb6b541119", "docs.company.com",
                                       DOCUMENTATION.id, "https://docs.company.com")
  const API_DOMAIN := ContainerDomain("c57a298b-76d3-4f18-875f-dec1a655e3ee", "api.company.com",
                                      API.id, "https://api.company.com")

  const NAMESPACES: seq<Namespace> := [PRODUCTION, BETA]
  const CONTAINERS: seq<Container> := [WEBSITE, DOCUMENTATION, API]
  const DOMAINS: seq<ContainerDomain> := [WEBSITE_DOMAIN, DOCS_DOMAIN, API_DOMAIN]

  /** production holds website and documentation. */
  lemma FakeProductionContainers()
    ensures Containers.ContainersIn(CONTAINERS, PRODUCTION.id) == [WEBSITE, DOCUMENTATION]
  {
    var key := Containers.ContainerNamespaceId;
    assert PRODUCTION.id != BETA.id;
    JsArray.FilterCons(API, [], key, PRODUCTION.id);
    assert [API] + [] == [API];
    assert JsArray.Filter([API], key, PRODUCTION.id) == [];
    JsArray.FilterCons(DOCUMENTATION, [API], key, PRODUCTION.id);
    assert [DOCUMENTATION] + [API] == [DOCUMENTATION, API];
    assert JsArray.Filter([DOCUMENTATION, API], key, PRODUCTION.id) == [DOCUMENTATION];
    JsArray.FilterCons(WEBSITE, [DOCUMENTATION, API], key, PRODUCTION.id);
    assert [WEBSITE] + [DOCUMENTATION, API] == CONTAINERS;
  }

  /** beta holds api alone. */
  lemma FakeBetaContainers()
    ensures Containers.ContainersIn(CONTAINERS, BETA.id) == [API]
  {
    var key := Containers.ContainerNamespaceId;
    assert PRODUCTION.id != BETA.id;
    JsArray.FilterCons(API, [], key, BETA.id);
    assert [API] + [] == [API];
    assert JsArray.Filter([API], key, BETA.id) == [API];
    JsArray.FilterCons(DOCUMENTATION, [API], key, BETA.id);
    assert [DOCUMENTATION] + [API] == [DOCUMENTATION, API];
    assert JsArray.Filter([DOCUMENTATION, API], key, BETA.id) == [API];
    JsArray.FilterCons(WEBSITE, [DOCUMENTATION, API], key, BETA.id);
    assert [WEBSITE] + [DOCUMENTATION, API] == CONTAINERS;
  }

  /** Filtering the fixture's domains by a container id, one domain at a time. */
  lemma FakeDomainsOf(id: string)
    ensures Containers.DomainsOf(DOMAINS, id)
            == (if WEBSITE_DOMAIN.containerId == id then [WEBSITE_DOMAIN] else [])
             + (if DOCS_DOMAIN.containerId == id then [DOCS_DOMAIN] else [])
             + (if API_DOMAIN.containerId == id then [API_DOMAIN] else [])
  {
    var key := Containers.DomainContainerId;
    JsArray.FilterCons(API_DOMAIN, [], key, id);
    assert [API_DOMAIN] + [] == [API_DOMAIN];
    JsArray.FilterCons(DOCS_DOMAIN, [API_DOMAIN], key, id);
    assert [DOCS_DOMAIN] + [API_DOMAIN] == [DOCS_DOMAIN, API_DOMAIN];
    JsArray.FilterCons(WEBSITE_DOMAIN, [DOCS_DOMAIN, API_DOMAIN], key, id);
    assert [WEBSITE_DOMAIN] + [DOCS_DOMAIN, API_DOMAIN] == DOMAINS;
    var a := if WEBSITE_DOMAIN.containerId == id then [WEBSITE_DOMAIN] else [];
    var b := if DOCS_DOMAIN.containerId == id then [DOCS_DOMAIN] else [];
    var c := if API_DOMAIN.containerId == id then [API_DOMAIN] else [];
    assert JsArray.Filter([API_DOMAIN], key, id) == c;
    assert JsArray.Filter([DOCS_DOMAIN, API_DOMAIN], key, id) == b + c;
    assert a + (b + c) == a + b + c;
  }

  /** Each fixture container has exactly its one domain. */
  lemma FakeDomainsByContainer()
    ensures Containers.DomainsOf(DOMAINS, WEBSITE.id) == [WEBSITE_DOMAIN]
    ensures Containers.DomainsOf(DOMAINS, DOCUMENTATION.id) == [DOCS_DOMAIN]
    ensures Containers.DomainsOf(DOMAINS, API.id) == [API_DOMAIN]
  {
    assert WEBSITE.id != DOCUMENTATION.id && WEBSITE.id != API.id && DOCUMENTATION.id != API.id;
    FakeDomainsOf(WEBSITE.id);
    assert [WEBSITE_DOMAIN] + [] + [] == [WEBSITE_DOMAIN];
    FakeDomainsOf(DOCUMENTATION.id);
    assert [] + [DOCS_DOMAIN] + [] == [DOCS_DOMAIN];
    FakeDomainsOf(API.id);
    assert [] + [] + [API_DOMAIN] == [API_DOMAIN];
  }

  /** production holds website and documentation, beta holds api, each container one domain. */
  lemma FakeDataJoin()
    ensures Containers.Join(NAMESPACES, CONTAINERS, DOMAINS) ==
      [Containers.NamespaceEntry(PRODUCTION, [Containers.ContainerEntry(WEBSITE, [WEBSITE_DOMAIN]),
                                              Containers.ContainerEntry(DOCUMENTATION, [DOCS_DOMAIN])]),
       Containers.NamespaceEntry(BETA, [Containers.ContainerEntry(API, [API_DOMAIN])])]
  {
    FakeProductionContainers();
    FakeBetaContainers();
    FakeDomainsByContainer();
    assert Containers.Entries(PRODUCTION, CONTAINERS, DOMAINS)
        == [Containers.ContainerEntry(WEBSITE, [WEBSITE_DOMAIN]),
            Containers.ContainerEntry(DOCUMENTATION, [DOCS_DOMAIN])];
    assert Containers.Entries(BETA, CONTAINERS, DOMAINS) == [Containers.ContainerEntry(API, [API_DOMAIN])];
  }

  /** The website image splits into its registry and its tagged name. */
  lemma FakeRegistryImage()
    ensures Utils.RegistryName(WEBSITE) == "rg.fr-par.scw.cloud/company"
    ensures Utils.ImageName(WEBSITE) == "website:latest"
  {
    assert WEBSITE.registryImage == "rg.fr-par.scw.cloud/company" + "/" + "website:latest";
    Utils.RegistryImageOfParts(WEBSITE, "rg.fr-par.scw.cloud/company", "website:latest");
  }
}
