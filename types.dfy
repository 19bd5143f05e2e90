/**
 * The records the provider's REST API returns, as the extension reads them.
 * Every entity is an immutable snapshot, refreshed wholesale on each fetch.
 */
module Types {
  import opened Wrappers

  datatype ContainerStatus =
    | ContainerUnknown | ContainerReady | ContainerDeleting | ContainerError
    | ContainerLocked | ContainerCreating | ContainerPending

  datatype InstanceState =
    | Running | Stopped | StoppedInPlace | Starting | Stopping | InstanceLocked

  datatype DatabaseStatus =
    | DatabaseUnknown | DatabaseProvisioning | DatabaseReady | DatabaseDeleting
    | DatabaseError | DatabaseBackuping | DatabaseSnapshotting | DatabaseRestarting
    | DatabaseLocked | DatabaseInitializing | DatabaseConfiguring
    | DatabaseAutohealing | DatabaseDiskFull

  datatype RedisClusterStatus =
    | RedisUnknown | RedisProvisioning | RedisReady | RedisDeleting | RedisError
    | RedisAutohealing | RedisLocked | RedisSuspended | RedisInitializing
    | RedisConfiguring

  datatype Privacy = Public | Private | UnknownPrivacy

  /** A logical grouping of serverless containers within one region. */
  datatype Namespace = Namespace(
    id: string, name: string, region: string, description: string,
    status: ContainerStatus)

  datatype Container = Container(
    id: string, name: string, namespaceId: string, status: ContainerStatus,
    minScale: nat, maxScale: nat, memoryLimit: nat, cpuLimit: nat,
    timeout: string, errorMessage: Option<string>, privacy: Privacy,
    description: string, registryImage: string, maxConcurrency: nat,
    domainName: string, protocol: string, port: nat, region: string)

  datatype ContainerDomain = ContainerDomain(
    id: string, hostname: string, containerId: string, url: string)

  /** A compute server; `allowedActions` is a subset of poweron, poweroff, reboot. */
  datatype Instance = Instance(
    id: string, name: string, zone: string, state: InstanceState,
    allowedActions: seq<string>)

  datatype Database = Database(
    id: string, name: string, region: string, status: DatabaseStatus)

  datatype RedisCluster = RedisCluster(
    id: string, name: string, zone: string, status: RedisClusterStatus)

  /** One log line of a container. */
  datatype Log = Log(
    id: string, message: string, timestamp: string, level: Option<string>,
    source: Option<string>, stream: Option<string>)
}
