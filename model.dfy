/** The typed configuration records of an elastic (multi-warehouse) cluster:
    the desired warehouse and cluster specifications, the persisted external
    correlation record of a warehouse, the instance-type information reported by
    the control plane and the cluster state it reports. */
module ClusterModel {

  datatype Option<+T> = None | Some(value: T)

  const DefaultWarehouseName: string := "default_warehouse"
  const CrossingAz: string := "crossing_az"
  const SpecifyAz: string := "specify_az"
  const StateRunning: string := "running"
  const StateSuspended: string := "suspended"

  /** Milliseconds per minute: idle intervals are given in minutes and sent in milliseconds. */
  const MillisPerMinute: int := 60 * 1000

  /** Volume configuration of a warehouse's compute nodes. */
  datatype VolumeConfig = VolumeConfig(volNumber: int, volSize: int, iops: int, throughput: int)

  /** Volume configuration of the coordinator nodes. */
  datatype CoordinatorVolume = CoordinatorVolume(volSize: int, iops: int, throughput: int)

  /** The volume a warehouse gets when it declares none: two disks of 100 GB. */
  const DefaultComputeVolume: VolumeConfig := VolumeConfig(2, 100, 0, 0)

  /** The volume the coordinator gets when it declares none: one disk of 150 GB. */
  const DefaultCoordinatorVolume: CoordinatorVolume := CoordinatorVolume(150, 0, 0)

  function EffectiveVolume(v: Option<VolumeConfig>): VolumeConfig
  {
    if v.Some? then v.value else DefaultComputeVolume
  }

  function EffectiveCoordinatorVolume(v: Option<CoordinatorVolume>): CoordinatorVolume
  {
    if v.Some? then v.value else DefaultCoordinatorVolume
  }

  /** One warehouse of the desired configuration (the default one or a named one). */
  datatype Warehouse = Warehouse(
    name: string,
    computeNodeSize: string,
    computeNodeCount: int,
    distributionPolicy: string,
    specifyAz: string,
    volume: Option<VolumeConfig>,
    autoScalingPolicy: string,
    idleSuspendInterval: int,
    expectedState: string,
    configs: map<string, string>)

  /** The record persisted per warehouse name after creation. */
  datatype ExternalInfo = ExternalInfo(id: string, isDefault: bool, isInstanceStore: bool)

  /** What the control plane reports about an instance type. */
  datatype VmInfo = VmInfo(arch: string, isInstanceStore: bool)

  /** The desired configuration of a whole cluster, as far as reconciliation reads it. */
  datatype ClusterSpec = ClusterSpec(
    csp: string,
    region: string,
    clusterName: string,
    adminPassword: string,
    dataCredentialId: string,
    deploymentCredentialId: string,
    networkId: string,
    queryPort: int,
    coordinatorNodeSize: string,
    coordinatorNodeCount: int,
    coordinatorVolume: Option<CoordinatorVolume>,
    coordinatorConfigs: map<string, string>,
    defaultWarehouse: Warehouse,
    warehouses: seq<Warehouse>,
    idleSuspendInterval: int)

  /** States the control plane reports for a cluster or a warehouse. */
  datatype ClusterState =
    | Deploying | Scaling | Resuming | Suspending | Releasing | Updating
    | Running | Suspended | Abnormal | Released

  datatype WarehouseStatus = WarehouseStatus(id: string, state: ClusterState)

  /** A cluster as read back from the control plane. */
  datatype ObservedCluster = ObservedCluster(state: ClusterState, warehouses: seq<WarehouseStatus>)

  /** The ASCII white space that is trimmed from warehouse names. */
  predicate IsSpace(c: char)
  {
    c == ' ' || c == '\t' || c == '\n' || c == '\r' || c == '\U{000B}' || c == '\U{000C}'
  }

  function TrimLeft(s: string): (r: string)
    ensures |r| <= |s|
    ensures r == [] || !IsSpace(r[0])
  {
    if s != [] && IsSpace(s[0]) then TrimLeft(s[1..]) else s
  }

  function TrimRight(s: string): (r: string)
    ensures |r| <= |s|
    ensures r == [] || !IsSpace(r[|r| - 1])
  {
    if s != [] && IsSpace(s[|s| - 1]) then TrimRight(s[..|s| - 1]) else s
  }

  /** Leading and trailing white space removed. */
  function Trim(s: string): string
  {
    TrimRight(TrimLeft(s))
  }
}
