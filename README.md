# scaleway-raycast core, modelled in Dafny

This project models the core of a Raycast extension that lists Scaleway cloud
resources: serverless containers grouped by namespace, compute instances,
managed databases and Redis clusters. It covers three things.

- **Presentation helpers** (`src/utils.ts`). These are:
  - the four status-to-icon mappings and their capitalised tooltips;
  - the region-to-flag file name;
  - the privacy accessory;
  - the split of a registry image reference at its last `/`;
  - the fenced log markdown.

  They are pure functions in module `Utils`. The JavaScript string operations
  they use (`toLowerCase`, `toUpperCase`, `substring` with its clamping and
  swapping, `lastIndexOf`, `split`) are written out in module `JsString`.
  The array operations (`filter`, `flat`, `find`) are in `JsArray`.
- **Regional fan-out** (`src/scaleway/*-api.ts`). Each fetcher maps a fixed,
  ordered list of regions or zones to one GET each, waits on `Promise.all`,
  and flattens the per-region lists. Module `Transport` models this as the
  generic `FanOut`. The HTTP client is an abstract function from a path to a
  `Response` (`Ok(items)` or `Err(thrown)`). The result records the requests
  issued and either the flattened list or the error. `Promise.all` is modelled
  positionally: the result is in region order, and on failure the error is the
  one from the first failing region in list order. The modules `ContainersApi`,
  `InstancesApi`, `RedisApi` and `DatabasesApi` instantiate it with their own
  region lists and path templates. The POST actions are modelled as the
  `Request` value they would send.
- **The containers view** (`src/containers.tsx`). Module `Containers` holds:
  - the namespace → container → domain join, as a function;
  - the failure order of the three parallel fetches;
  - the console URL of a container;
  - the view state `{isLoading, namespaces, selectedNamespaceId, error}`, as
    the class `ContainersView`. Its methods make the same state updates as
    `fetchContainers` and the namespace dropdown.

Module `Types` holds the entities and status enumerations, and `FakeContainers`
holds the development fixture. The fixture is used as a concrete check of the
join.

The status enumerations' wire strings are defined in `src/scaleway/types.ts`,
which is not part of this model. Each `*Presentation` function therefore takes
the enumeration value together with its text. The text must be non-empty,
because the source reads `status[0]`.

The fetchers' results keep region-list order: `Promise.all` collects its
responses positionally, whatever order they arrive in, and `flat()` concatenates
them in that order.

## Model

| member | source | states |
|---|---|---|
| Utils.ContainerStatusIcon | src/utils.ts:16-38 | Green full circle iff READY, red full circle iff ERROR, the question-mark icon, and the only untinted one, iff UNKNOWN |
| Utils.ContainerStatusPresentation | src/utils.ts:13-44 | The icon is the container status's icon; the tooltip has the text's length and tail, and its first character is the text's first character upper-cased |
| Utils.InstanceStateIcon | src/utils.ts:49-66 | STOPPED and STOPPED_IN_PLACE share the red full circle, and only they show it; green iff RUNNING |
| Utils.InstanceStatePresentation | src/utils.ts:46-71 | The icon is the instance state's icon; the tooltip is the state text with its first character upper-cased and the rest unchanged |
| Utils.DatabaseStatusIcon | src/utils.ts:88-118 | Blue full circle iff one of the six in-progress statuses; red full circle iff DISK_FULL or ERROR; green iff READY; the question-mark icon, and the only untinted one, iff UNKNOWN |
| Utils.DatabaseStatusPresentation | src/utils.ts:85-123 | The icon is the database status's icon; the tooltip is the status text with its first character upper-cased and the rest unchanged |
| Utils.RedisClusterStatusIcon | src/utils.ts:128-151 | Red full circle iff ERROR or SUSPENDED; blue full circle iff one of the four in-progress statuses; the question-mark icon, and the only untinted one, iff UNKNOWN |
| Utils.RedisClusterStatusPresentation | src/utils.ts:125-156 | The icon is the cluster status's icon; the tooltip is the status text with its first character upper-cased and the rest unchanged |
| Utils.CountryImage | src/utils.ts:165-167 | The file name is the lower-cased first (at most) two characters of the region followed by `.svg` |
| Utils.CountryImageOfLongerName | src/utils.ts:165-167 | Characters after the second are ignored, so a zone and its region share a flag |
| Utils.CountryImageExamples | src/utils.ts:165-167 | `fr-par-1` and `fr-par` both give `fr.svg` |
| Utils.PrivacyAccessory | src/utils.ts:169-178 | PUBLIC, PRIVATE and UNKOWN_PRIVACY get the tooltips `Public`, `Private` and `Unknown` |
| Utils.PrivacyAccessoryDistinct | src/utils.ts:169-178 | Two privacy settings give the same accessory iff they are equal |
| Utils.RegistryName | src/utils.ts:180-182 | The registry is a prefix of the image reference: empty when there is no `/`, otherwise followed by a `/` after which no `/` occurs |
| Utils.ImageName | src/utils.ts:183-185 | The image name is everything after the last `/` of the image reference (the whole reference when there is none), and has no `/` |
| Utils.RegistryImageSplit | src/utils.ts:180-185 | The image name has no `/`; with a `/` present, registry + `/` + image name rebuilds the reference; without one, the registry is empty and the image name is the whole reference |
| Utils.RegistryImageOfParts | src/utils.ts:180-185 | A reference built as registry + `/` + slash-free name is split back into exactly that registry and name |
| Utils.LogMarkdown | src/utils.ts:187-193 | The result never fails, opens with the fence and a newline, and ends with a newline and the fence; between them is the stringified JSON when the message parses, else the message verbatim |
| JsString.LowerChar | src/utils.ts:166 | `toLowerCase` on one character: `A`–`Z` become `a`–`z`, every other character is kept |
| JsString.UpperChar | src/utils.ts:42 | `toUpperCase` on one character: `a`–`z` become `A`–`Z`, every other character is kept; lower-casing cannot tell the two apart |
| JsString.Capitalize | src/utils.ts:42 | `s[0].toUpperCase() + s.slice(1)`: same length, same tail, first character the original's upper-cased |
| JsString.ToLower | src/utils.ts:166 | Same length, each character lower-cased |
| JsString.Substring | src/utils.ts:166 | `substring`: the length is the distance between the clamped bounds; in-range bounds give the slice, an end past the string gives the rest from the start, reversed bounds give the slice between them, two non-positive bounds give "" |
| JsString.LastIndexOf | src/utils.ts:181 | -1 or the index of a `c` with no `c` after it |
| JsString.LastIndexOfFound | src/utils.ts:181 | The index is non-negative iff the character occurs |
| JsString.Split | src/utils.ts:184 | At least one part, and no part contains the separator |
| JsString.JoinSplit | src/utils.ts:184 | Joining the parts of a split with the separator gives back the string |
| JsString.SplitLast | src/utils.ts:184 | The last part of a split is what follows the last separator |
| JsArray.Filter | src/containers.tsx:60-64 | The filtered list is no longer than the input |
| JsArray.FilterSpec | src/containers.tsx:60-64 | `filter` keeps exactly the elements whose key matches, each as often as in the input, in input order |
| JsArray.Flatten | src/scaleway/containers-api.ts:15 | The length of `flat()` is the sum of the lengths |
| JsArray.FlattenAppend | src/scaleway/containers-api.ts:15 | Flattening distributes over concatenation |
| JsArray.FlattenMembership | src/scaleway/containers-api.ts:15 | An element is in the flattened list iff it is in one of the lists |
| JsArray.Find | src/containers.tsx:92 | `find` gives none iff no element matches; otherwise the first matching element |
| Transport.Collect | src/scaleway/containers-api.ts:8-15 | `Promise.all` then `flat()` succeeds iff every response is Ok, and then has the summed length |
| Transport.CollectFlattens | src/scaleway/containers-api.ts:8-15 | When all responses are Ok, the result is the flattened item lists in order |
| Transport.CollectFirstError | src/scaleway/containers-api.ts:8-14 | When all responses before position k are Ok and position k fails, the result is k's error |
| Transport.CollectAppend | src/scaleway/containers-api.ts:8-15 | Collecting two all-Ok batches concatenates their results |
| Transport.FanOut | src/scaleway/containers-api.ts:8-15 | One GET per region, on that region's path and in region order; success iff every region's GET is Ok |
| Transport.FanOutFlattens | src/scaleway/containers-api.ts:15 | A successful fan-out returns the per-region lists flattened in region order |
| Transport.FanOutRegionSlice | src/scaleway/containers-api.ts:15 | Region k's items sit contiguously in the result, after the items of the regions before it |
| Transport.FanOutThree | src/scaleway/databases-api.ts:7-14 | Over three regions: the three GETs in order, and on success the three lists concatenated |
| Transport.FanOutOneRequestPerRegion | src/scaleway/instances-api.ts:12-16 | With distinct regions and an injective path template, no two requests coincide |
| ContainersApi.NamespacesPath | src/scaleway/containers-api.ts:11 | The path is `/containers/v1beta1/regions/`, then region, then `/namespaces` |
| ContainersApi.ContainersPath | src/scaleway/containers-api.ts:22 | The path is `/containers/v1beta1/regions/`, then region, then `/containers` |
| ContainersApi.DomainsPath | src/scaleway/containers-api.ts:33 | The path is `/containers/v1beta1/regions/`, then region, then `/domains` |
| ContainersApi.PathsInjective | src/scaleway/containers-api.ts:11-33 | Each of the three templates gives different paths for different regions |
| ContainersApi.RequestsDistinct | src/scaleway/containers-api.ts:7-38 | Each of the three fetchers sends one request per region and never the same request twice |
| ContainersApi.GetAllNamespaces | src/scaleway/containers-api.ts:7-16 | GETs the namespaces path of fr-par, nl-ams and pl-waw in order; success iff all three are Ok; the value is their lists concatenated in that order |
| ContainersApi.GetAllContainers | src/scaleway/containers-api.ts:18-27 | The same over the containers path |
| ContainersApi.GetAllDomains | src/scaleway/containers-api.ts:29-38 | The same over the domains path |
| ContainersApi.DeployContainer | src/scaleway/containers-api.ts:40-44 | One POST without a body to the container's deploy path in its region |
| ContainersApi.DeployPath | src/scaleway/containers-api.ts:42 | The path is `/containers/v1beta1/regions/`, then region + `/containers/` + id, then `/deploy` |
| ContainersApi.DeployPathInjective | src/scaleway/containers-api.ts:42 | With slash-free regions, equal deploy paths mean equal region and container id |
| InstancesApi.ServersPath | src/scaleway/instances-api.ts:14 | The path is `/instance/v1/zones/`, then zone, then `/servers` |
| InstancesApi.RequestsDistinct | src/scaleway/instances-api.ts:11-18 | The fetcher sends one request per zone and never the same request twice |
| InstancesApi.GetAllInstances | src/scaleway/instances-api.ts:5-18 | GETs the servers path of the seven zones fr-par-1 … pl-waw-2 in order; success iff all are Ok; the value is the per-zone lists flattened in zone order, with the summed length |
| InstancesApi.ActionPath | src/scaleway/instances-api.ts:21 | The path is `/instance/v1/zones/`, then zone + `/servers/` + id, then `/action` |
| InstancesApi.PowerOnInstance | src/scaleway/instances-api.ts:20-24 | POST to the instance's action path with action `poweron` |
| InstancesApi.PowerOffInstance | src/scaleway/instances-api.ts:26-30 | POST to the instance's action path with action `poweroff` |
| InstancesApi.RebootInstance | src/scaleway/instances-api.ts:32-36 | POST to the instance's action path with action `reboot` |
| InstancesApi.PowerActionsDifferOnlyInAction | src/scaleway/instances-api.ts:20-36 | The three actions share one path and are pairwise distinct requests |
| InstancesApi.ActionPathInjective | src/scaleway/instances-api.ts:21 | With slash-free zones, equal action paths mean equal zone and instance id |
| RedisApi.ClustersPath | src/scaleway/redis-api.ts:14 | The path is `/redis/v1/zones/`, then zone, then `/clusters` |
| RedisApi.RequestsDistinct | src/scaleway/redis-api.ts:11-18 | The fetcher sends one request per zone and never the same request twice |
| RedisApi.GetAllClusters | src/scaleway/redis-api.ts:5-18 | GETs the clusters path of the six zones in order; success iff all are Ok; the value is the per-zone lists flattened in zone order, with the summed length |
| RedisApi.ZonesAreInstanceZonesButFrPar3 | src/scaleway/redis-api.ts:5-9 | The Redis zones are the instance zones without fr-par-3 |
| DatabasesApi.InstancesPath | src/scaleway/databases-api.ts:10 | The path is `/rdb/v1/regions/`, then region, then `/instances` |
| DatabasesApi.RequestsDistinct | src/scaleway/databases-api.ts:7-14 | The fetcher sends one request per region and never the same request twice |
| DatabasesApi.GetAllDatabases | src/scaleway/databases-api.ts:5-14 | GETs the instances path of fr-par, nl-ams and pl-waw in order; success iff all are Ok; the value is their lists concatenated in that order |
| Containers.Join | src/containers.tsx:57-66 | One entry per fetched namespace, in fetch order, keeping the namespace unchanged |
| Containers.JoinContainersExact | src/containers.tsx:60-61 | A namespace's containers are exactly the fetched containers with its id, each as often as fetched, in fetch order |
| Containers.JoinDomainsExact | src/containers.tsx:64 | A container's domains are exactly the fetched domains with its id, each as often as fetched, in fetch order |
| Containers.JoinEntryOrigin | src/containers.tsx:60-61 | Every listed container was fetched and points to its namespace |
| Containers.JoinDropsOrphanContainers | src/containers.tsx:60-61 | A container whose namespace was not fetched appears nowhere |
| Containers.JoinDomainPlacement | src/containers.tsx:58-65 | A domain is listed under a namespace iff it was fetched and its container is a fetched container of that namespace |
| Containers.FetchJoined | src/containers.tsx:50-66 | The joined fetch succeeds iff all three fetches do, and its value is then the join of the three fetched lists; on failure the error is the namespaces fetch's, else the containers fetch's, else the domains fetch's |
| Containers.FetchJoinedSucceeds | src/containers.tsx:50-54 | The joined fetch succeeds iff all nine regional GETs (namespaces, containers, domains) are Ok |
| Containers.AsError | src/containers.tsx:79 | The recorded error is always an Error: an Error thrown is kept as is, any other value becomes `Error('Something went wrong')` |
| Containers.ContainerUrl | src/containers.tsx:149-151 | The URL is the console URL and `/containers/namespaces/`, then region, namespace id and container id joined by `/` and `/containers/`, then `/deployment` |
| Containers.ContainerUrlInjective | src/containers.tsx:149-151 | With slash-free region and namespace id, two containers share a console URL only if region, namespace id and id agree |
| Containers.FirstNamespaceId | src/containers.tsx:72 | `allNamespaces[0]?.id`: none iff the list is empty, else the first namespace's id |
| Containers.ContainersView.constructor | src/containers.tsx:18 | The view starts loading, with no namespaces, no selection and no error |
| Containers.ContainersView.StartLoading | src/containers.tsx:45 | Sets the loading flag and changes nothing else |
| Containers.ContainersView.ShowLoaded | src/containers.tsx:69-74 | The joined list replaces the old one, its first namespace is selected, loading stops, the old error is kept |
| Containers.ContainersView.ShowFailed | src/containers.tsx:75-83 | The list is emptied, the selection cleared, loading stops, and the error (wrapped if not an Error) is recorded |
| Containers.ContainersView.Fetch | src/containers.tsx:44-85 | After `fetchContainers`, loading has stopped and the state is the loaded join on success, or the emptied state with the error on failure |
| Containers.ContainersView.Select | src/containers.tsx:103-105 | The dropdown sets the selected namespace id and nothing else |
| Containers.ContainersView.SelectedNamespace | src/containers.tsx:91-93 | None iff nothing is selected or no namespace has the selected id; otherwise the first namespace with that id |
| FakeContainers.FakeProductionContainers | src/scaleway/fake-data/fake-containers.ts:20-83 | The production namespace holds website and documentation, in that order |
| FakeContainers.FakeBetaContainers | src/scaleway/fake-data/fake-containers.ts:20-83 | The beta namespace holds api |
| FakeContainers.FakeDomainsOf | src/scaleway/fake-data/fake-containers.ts:85-104 | Filtering the fixture domains by a container id keeps those pointing to it, in fixture order |
| FakeContainers.FakeDomainsByContainer | src/scaleway/fake-data/fake-containers.ts:85-104 | Each fixture container has exactly its one domain |
| FakeContainers.FakeDataJoin | src/scaleway/fake-data/fake-containers.ts:1-104 | The join of the fixture is production → [website, documentation], beta → [api], each container with its one domain |
| FakeContainers.FakeRegistryImage | src/scaleway/fake-data/fake-containers.ts:34 | `rg.fr-par.scw.cloud/company/website:latest` splits into `rg.fr-par.scw.cloud/company` and `website:latest` |

## Left out

- `bytesToSize` (src/utils.ts:195-200): it relies on floating-point `Math.log`, `Math.pow` and `Math.round`.
- `useInterval` (src/utils.ts:202-223): React refs, effects and timers.
- The HTTP client `ScalewayAPI.get`/`post`, `catchError` and `CONSOLE_URL` live in `src/scaleway/api.ts`, which is not part of this model. GETs are an abstract path-to-`Response` function, POSTs are the `Request` value they would send, and the console URL is a parameter of `Containers.ContainerUrl`. Headers, authentication, retries and the toast shown by `catchError` are not modelled.
- `JSON.parse` and `JSON.stringify(_, null, '\t')` in `getLogMarkdown` are parameters: parse is a partial function (`Option`), stringify is uninterpreted.
- `Promise.all` runs its requests concurrently and rejects with the first rejection in time. The model collects responses positionally and reports the first failure in list order. Which error wins when several regions fail at once is therefore not modelled, nor is interleaving.
- The three fetches of `fetchContainers` are also ordered: a namespace failure is reported before a container failure, and that before a domain failure (`Containers.FetchJoined`).
- JSX rendering, toasts, the `confirmAlert` prompt and the deploy flow of the view (src/containers.tsx:20-42, 95-147). The React `setState` updater functions are modelled as direct field updates on `ContainersView`.
- The other views (`src/instances.tsx`, `src/databases.tsx`, `src/redis.tsx`, `src/containers/container-logs.tsx`) repeat the fetch and reset pattern modelled here for containers.
- The enumerations' wire strings and the entity field types come from `src/scaleway/types.ts`, which is not part of this model. Statuses are closed enumerations, and the presentation functions take their text as a separate argument.
- JsString.Capitalize, JsString.ToLower: case mapping covers ASCII letters only; JavaScript's full Unicode mapping (for example `'ß'.toUpperCase() === 'SS'`, which changes the length) is not modelled.
- JsString.Substring, JsString.LastIndexOf, JsString.Capitalize: a Dafny `char` is a Unicode scalar value, while JavaScript strings index UTF-16 code units; for characters outside the Basic Multilingual Plane, `status[0]`, `substring` and `lastIndexOf` count differently from the model.
- Utils.ContainerStatusPresentation, Utils.InstanceStatePresentation, Utils.DatabaseStatusPresentation, Utils.RedisClusterStatusPresentation: require non-empty status text. On an empty string the source would throw on `status[0].toUpperCase()`, which cannot happen for the enumerations' values.
- Commented-out code (src/utils.ts:73-83, 158-163; src/scaleway/containers-api.ts:46-51).
