# Elastic cluster reconciliation (CelerData BYOC provider), modelled in Dafny

This project models the decision logic of the `celerdatabyoc_elastic_cluster_v2` resource of the
CelerData BYOC Terraform provider. An elastic cluster has:

- a coordinator (node size, node count, disk volume, configuration);
- a default warehouse;
- a list of named warehouses, each with its own compute nodes, disks, distribution policy,
  idle-suspend interval, expected state, configuration and auto-scaling policy.

The model covers four parts of `celerdatabyoc/resource_elastic_cluster_v2.go`:

- **Field checks** (module `FieldValidators`, `validators.dfy`). The schema checks for a
  warehouse name, an idle interval, a disk count and the query port.
- **Plan check** (module `PlanCheck`, `plan_check.dfy`). `customizeEl2Diff` is the check run
  on every planned create or update before anything is sent. A create is a plan whose
  cluster id is empty; it has no prior configuration. The check stops at the first rule
  that fails:
  - the coordinator instance type exists;
  - a multi-AZ network has at least 3 coordinators;
  - `specify_az` is only set together with its policy;
  - for an existing cluster, the coordinator architecture does not change;
  - for an existing cluster, the coordinator volume does not shrink;
  - if the default warehouse changed (always the case on create): its instance type
    exists and has the coordinator's architecture, an instance-store type has no volume
    configuration, and, for an existing cluster, it does not switch disk type;
  - if the named warehouses changed (likewise always on create): their names are unique
    after trimming, and then each one meets the same rules as the default warehouse.
- **Update sequencing** (modules `Remote`, `WarehouseOps`, `ClusterUpdate` and
  `UpdateProperties`). An update of a cluster runs in this order:
  1. It refuses changes to immutable fields.
  2. It waits for the cluster to settle.
  3. It changes the coordinator: idle suspension, free-tier unlock, scale up, scale out or in,
     volume, configuration.
  4. It updates the default warehouse.
  5. It reconciles the named warehouses by name: it updates those kept, creates those added,
     then releases those removed.

  The update of one warehouse is a fixed plan of nine stages: distribution, size, count,
  volume, idle, resume, configuration, suspend, auto-scaling. A warehouse creation is one call
  followed by its settings.
- **Unlock and state helpers.** `elasticClusterV2NeedUnlock` and `IsAllRunning`.

The control plane is the class `Remote.ControlPlane`:

- It keeps the calls issued so far in `trace`.
- It answers each call through a fixed function `respond`. The answer is success with an id,
  a failed call, a failed wait, or an abnormal end.
- The imperative methods issue calls one at a time and stop at the first failure, as the Go
  code does with `return diags`.
- Each method is proved against a specification function that returns a `Run`: the calls
  made, in order, and the diagnostic the run stopped with.

The properties are proved about those functions. They include:

- calls are made in order;
- every call is justified by a change;
- every change gets its call;
- a creation or release happens exactly for a name that was added or removed;
- rejected volume changes issue no volume call;
- nothing is called before the up-front checks pass;
- an update to the same configuration makes no calls.

## Model

| member | source | states |
|---|---|---|
| FieldValidators.WarehouseNameError | celerdatabyoc/resource_elastic_cluster_v2.go:223-233 | A name is accepted exactly when it is non-empty, is not the default warehouse's name and has no '-'. Each of the three errors is reported exactly in its own case. |
| FieldValidators.IdleIntervalError | celerdatabyoc/resource_elastic_cluster_v2.go:308-322 | An idle interval is accepted exactly when it is 0 or lies within [15, 999999]. The same rule applies to the cluster (lines 437-451). |
| FieldValidators.VolNumberError | celerdatabyoc/resource_elastic_cluster_v2.go:162-174 | A disk count is accepted exactly when it lies within [1, 24]. |
| FieldValidators.QueryPortError | celerdatabyoc/resource_elastic_cluster_v2.go:415-431 | A port is accepted exactly when it lies within [1, 65535] and is not 443. Out of range and 443 each get their own error. |
| FieldValidators.DiskCountInEffectIsAccepted | celerdatabyoc/resource_elastic_cluster_v2.go:155-174 | For every warehouse whose declared disk count (if any) passed its check, the count in effect lies within [1, 24]. A warehouse that omits its volume gets the default of 2 disks. |
| PlanCheck.CustomizeDiff | celerdatabyoc/resource_elastic_cluster_v2.go:504-781 | The imperative check returns the first failing rule as `CheckPlan` defines it. |
| PlanCheck.FindMisplacedAz | celerdatabyoc/resource_elastic_cluster_v2.go:545-554 | The loop over the default and named warehouses finds one exactly when some warehouse sets `specify_az` without the `specify_az` policy. |
| PlanCheck.FindDuplicate | celerdatabyoc/resource_elastic_cluster_v2.go:692-708 | Counting the names and then scanning the counts reports the first name, in list order, that is counted more than once. |
| PlanCheck.ScanVms | celerdatabyoc/resource_elastic_cluster_v2.go:711-759 | The per-warehouse instance-type loop returns the scan that `ScanWarehouses` defines. |
| PlanCheck.CheckDiskTypes | celerdatabyoc/resource_elastic_cluster_v2.go:761-778 | The disk-type loop returns the first warehouse whose recorded disk type differs from its instance type's, as `DiskTypeCheck` defines it. |
| PlanCheck.CheckWarehouseList | celerdatabyoc/resource_elastic_cluster_v2.go:615-686 | The default-warehouse and named-warehouse rules return `WarehouseListCheck`. |
| PlanCheck.ScanStopsAtError | celerdatabyoc/resource_elastic_cluster_v2.go:711-759 | Once a prefix of the list fails, the scan of the whole list reports that same failure. Later warehouses are not examined. |
| PlanCheck.ScanRecordsEveryWarehouse | celerdatabyoc/resource_elastic_cluster_v2.go:711-759 | With unique trimmed names, a successful scan records every warehouse's instance type under its trimmed name. |
| PlanCheck.CountAboveOne | celerdatabyoc/resource_elastic_cluster_v2.go:692-702 | A name is counted more than once exactly when it sits at two positions of the list. |
| PlanCheck.FirstDuplicateIffRepeated | celerdatabyoc/resource_elastic_cluster_v2.go:692-708 | The uniqueness rule reports a name exactly when some name occurs twice, and the name it reports does occur twice. |
| PlanCheck.LaterStagesNeverReportNetworkErrors | celerdatabyoc/resource_elastic_cluster_v2.go:556-781 | The rules after the network rule never report the coordinator-floor or network errors. |
| PlanCheck.MultiAzCoordinatorFloor | celerdatabyoc/resource_elastic_cluster_v2.go:529-543 | On a multi-AZ network, the check fails with the coordinator-floor error exactly when fewer than 3 coordinators are asked for. |
| PlanCheck.NoFloorOutsideMultiAz | celerdatabyoc/resource_elastic_cluster_v2.go:529-543 | On a single-AZ network, or with no network given, the floor error is never reported. |
| PlanCheck.DuplicateNamesRejected | celerdatabyoc/resource_elastic_cluster_v2.go:688-708 | The named warehouses changed (always the case on create) and the earlier rules pass. The check then fails on a duplicate name exactly when some trimmed name occurs twice. |
| PlanCheck.CoordinatorVolumeNeverShrinks | celerdatabyoc/resource_elastic_cluster_v2.go:578-596 | An existing cluster changes its coordinator volume. The check then fails on the volume exactly when the new size in effect (defaults included) is smaller than the old one. |
| PlanCheck.AcceptedPlanIsConsistent | celerdatabyoc/resource_elastic_cluster_v2.go:514-779 | In an accepted plan the coordinator instance type exists. No warehouse sets `specify_az` without its policy. An existing cluster whose coordinator type changes keeps its architecture. A changed default warehouse, and changed named warehouses, have known instance types with the coordinator's architecture, no volume on instance store, and (for an existing cluster) their recorded disk types. Changed named warehouses also have unique trimmed names. On create, both the default and the named warehouses count as changed. |
| PlanCheck.CreateIgnoresPrior | celerdatabyoc/resource_elastic_cluster_v2.go:509-512 | A cluster being created (empty id) has no prior configuration: the check gives the same answer whatever prior is supplied. |
| PlanCheck.AcceptedListIsConsistent | celerdatabyoc/resource_elastic_cluster_v2.go:711-779 | The same guarantees, for any warehouse list the list rules accept. |
| WarehouseOps.VolumeRequestRoundTrip | celerdatabyoc/resource_elastic_cluster_v2.go:2247-2262 | Applying the volume request to the old volume gives the new one exactly when no field is changed to 0. A 0 in the request means "unchanged". |
| WarehouseOps.VolumeRequestCarriesOnlyChanges | celerdatabyoc/resource_elastic_cluster_v2.go:2247-2262 | The volume request targets the warehouse's id. Every non-zero field is a new value that differs from the old one. |
| WarehouseOps.BuildVolumeRequest | celerdatabyoc/resource_elastic_cluster_v2.go:2247-2262 | Filling the request field by field yields `WarehouseVolumeOp`. |
| WarehouseOps.UpdateWarehouse | celerdatabyoc/resource_elastic_cluster_v2.go:2110-2427 | Updating one warehouse appends the calls of `UpdateWarehouseRun` to the trace and returns its diagnostic. |
| WarehouseOps.CreateRequestCarriesWarehouse | celerdatabyoc/resource_elastic_cluster_v2.go:1921-1956 | The creation request carries the warehouse's name, shape and distribution. Its volume is the one in effect: 2 disks of 100 GB unless the warehouse declares its own. |
| WarehouseOps.BuildCreateRequest | celerdatabyoc/resource_elastic_cluster_v2.go:1925-1956 | Starting from the default disks and overwriting them with the declared volume yields `CreateRequestOf`. |
| WarehouseOps.CreateNewWarehouse | celerdatabyoc/resource_elastic_cluster_v2.go:1921-2108 | Creating a warehouse appends the calls of `CreateWarehouseRun` and returns its diagnostic. |
| WarehouseOps.DeleteWarehouse | celerdatabyoc/resource_elastic_cluster_v2.go:2429-2472 | Releasing a warehouse issues one release call. A release that does not succeed is an error. |
| WarehouseOps.StagesRanked | celerdatabyoc/resource_elastic_cluster_v2.go:2110-2427 | The call of update stage k has rank k in the per-warehouse order. |
| WarehouseOps.UpdateIsOrdered | celerdatabyoc/resource_elastic_cluster_v2.go:2110-2427 | Every warehouse update issues its calls in strictly ascending stage order, each kind of call at most once. The order is distribution, size, count, volume, idle, resume, configuration, suspend, auto-scaling. |
| WarehouseOps.StagesJustified | celerdatabyoc/resource_elastic_cluster_v2.go:2110-2427 | Every call in the update plan is justified by a change. |
| WarehouseOps.UpdateCallsAreJustified | celerdatabyoc/resource_elastic_cluster_v2.go:2110-2427 | Every call a warehouse update issues targets the recorded id and carries the new value of a setting that changed. Idle, resume and suspend calls are never made for the default warehouse. Volume calls are made only for allowed changes on non-instance-store disks. |
| WarehouseOps.SuccessfulUpdateCoversChanges | celerdatabyoc/resource_elastic_cluster_v2.go:2110-2427 | An update that succeeds has issued the call for every setting that changed, with its new value. Any volume change it accepted kept the disk count and did not shrink the disks. |
| WarehouseOps.StageIssued | celerdatabyoc/resource_elastic_cluster_v2.go:2110-2427 | On success, the call of every stage of the plan is in the trace. |
| WarehouseOps.VolumeChangeFails | celerdatabyoc/resource_elastic_cluster_v2.go:2239-2246 | A volume change that alters `vol_number` or lowers `vol_size` fails the update. No volume call is issued and no later stage runs. The error is the rejection itself unless an earlier call already failed. |
| WarehouseOps.DefaultWarehouseKeepsItsState | celerdatabyoc/resource_elastic_cluster_v2.go:2312-2386 | Updating the default warehouse never changes its idle interval and never resumes or suspends it. |
| WarehouseOps.UnchangedWarehouseIsNoOp | celerdatabyoc/resource_elastic_cluster_v2.go:2110-2427 | Updating a warehouse to itself makes no calls and succeeds. |
| WarehouseOps.FailedCreationStops | celerdatabyoc/resource_elastic_cluster_v2.go:1958-1996 | A creation call that does not succeed is an error. Nothing is called after it. |
| WarehouseOps.CreatedWarehouseOnlyWarns | celerdatabyoc/resource_elastic_cluster_v2.go:1998-2106 | After a successful creation, every follow-up call configures the warehouse with the id the creation returned. A failure among the follow-ups is only a warning. |
| ClusterUpdate.FirstChanged | celerdatabyoc/resource_elastic_cluster_v2.go:1417-1422 | It returns None exactly when none of the listed fields changed. Otherwise it returns the first listed field, in list order, that changed: every field before it is unchanged. |
| ClusterUpdate.FirstImmutableChange | celerdatabyoc/resource_elastic_cluster_v2.go:1417-1422 | The loop over the immutable fields returns the first one that changed. |
| ClusterUpdate.SettledFailure | celerdatabyoc/resource_elastic_cluster_v2.go:1429-1461 | The cluster can be reconciled exactly when the wait reached a state other than released or abnormal. |
| ClusterUpdate.NeedUnlock | celerdatabyoc/resource_elastic_cluster_v2.go:1405-1414 | The unlock is needed exactly when a free-tier coordinator is resized or rescaled, or when the default or named warehouses change. |
| ClusterUpdate.Names | celerdatabyoc/resource_elastic_cluster_v2.go:1752-1761 | The names of a warehouse list, position by position. |
| ClusterUpdate.BuildNameIndex | celerdatabyoc/resource_elastic_cluster_v2.go:1752-1761 | The loop builds the name-to-warehouse index `NameIndex`. |
| ClusterUpdate.Upsert | celerdatabyoc/resource_elastic_cluster_v2.go:1763-1791 | A warehouse of the new list is updated when its name was known, and created otherwise. |
| ClusterUpdate.Remove | celerdatabyoc/resource_elastic_cluster_v2.go:1793-1806 | An old warehouse whose name is gone is released by its recorded id. |
| ClusterUpdate.RunUpserts | celerdatabyoc/resource_elastic_cluster_v2.go:1763-1791 | The loop over the new list appends the calls of `UpsertsRun` and stops at the first diagnostic. |
| ClusterUpdate.UpsertNext | celerdatabyoc/resource_elastic_cluster_v2.go:1763-1791 | One iteration of that loop extends the trace and the diagnostic from the first i warehouses to the first i+1. |
| ClusterUpdate.RunDeletes | celerdatabyoc/resource_elastic_cluster_v2.go:1793-1806 | The loop over the old list appends the calls of `DeletesRun` and stops at the first diagnostic. |
| ClusterUpdate.ReconcileWarehouses | celerdatabyoc/resource_elastic_cluster_v2.go:1746-1807 | Reconciling the named warehouses makes all updates and creations before any release. Releases are skipped once an update or creation failed. |
| ClusterUpdate.UpdateDefaultWarehouse | celerdatabyoc/resource_elastic_cluster_v2.go:1724-1744 | The default warehouse is updated only when it changed, using its recorded external info. |
| ClusterUpdate.UpdateWarehouseList | celerdatabyoc/resource_elastic_cluster_v2.go:1746-1807 | The named warehouses are reconciled only when the list changed. |
| ClusterUpdate.ApplyChanges | celerdatabyoc/resource_elastic_cluster_v2.go:1463-1807 | It changes the coordinator, then the default warehouse, then the named warehouses, stopping at the first diagnostic. |
| ClusterUpdate.Update | celerdatabyoc/resource_elastic_cluster_v2.go:1416-1807 | The whole update appends the calls of `UpdateClusterRun` and returns its diagnostic. |
| ClusterUpdate.IsAllRunning | celerdatabyoc/resource_elastic_cluster_v2.go:2580-2592 | It returns true exactly when the cluster and every one of its warehouses are running. |
| UpdateProperties.RejectedBeforeAnyCall | celerdatabyoc/resource_elastic_cluster_v2.go:1417-1461 | A change to an immutable field, or a cluster that did not settle in a usable state, is an error before any call is made. |
| UpdateProperties.ChecksPassed | celerdatabyoc/resource_elastic_cluster_v2.go:1417-1461 | Once the up-front checks pass, the update consists of the changes alone. |
| UpdateProperties.ClusterIdleComesFirst | celerdatabyoc/resource_elastic_cluster_v2.go:1463-1476 | A changed cluster idle interval is the first call. A positive interval is sent in milliseconds with the feature on. Otherwise the old interval is sent with the feature off. |
| UpdateProperties.CoordinatorInOrder | celerdatabyoc/resource_elastic_cluster_v2.go:1463-1722 | The coordinator calls strictly ascend through idle, unlock, scale up, scale out or in, volume and configuration. |
| UpdateProperties.UpdateRunRanks | celerdatabyoc/resource_elastic_cluster_v2.go:2110-2427 | A warehouse update only changes warehouses. It never creates or releases one. |
| UpdateProperties.CreateRunRanks | celerdatabyoc/resource_elastic_cluster_v2.go:1921-2108 | A warehouse creation only makes warehouse-level calls. |
| UpdateProperties.UpsertsRanks | celerdatabyoc/resource_elastic_cluster_v2.go:1763-1791 | Updating and creating the new list makes only warehouse-level calls, never a release. |
| UpdateProperties.DeletesRanks | celerdatabyoc/resource_elastic_cluster_v2.go:1793-1806 | Handling the removed warehouses makes only release calls. |
| UpdateProperties.WarehouseRunsInOrder | celerdatabyoc/resource_elastic_cluster_v2.go:1724-1807 | The default-warehouse update makes only warehouse-level calls. The list reconciliation makes warehouse-level calls, then releases. |
| UpdateProperties.UpdateIsInClusterOrder | celerdatabyoc/resource_elastic_cluster_v2.go:1416-1807 | Every cluster update calls the coordinator stages in order, each at most once. Warehouse changes follow, and releases come last: only a release ever follows a release. |
| UpdateProperties.CoordinatorCallsAreJustified | celerdatabyoc/resource_elastic_cluster_v2.go:1463-1722 | Every coordinator call made by an update is for a setting that changed and carries its new value. The unlock is made only when it is needed. |
| UpdateProperties.SuccessfulUpdateCoversCoordinator | celerdatabyoc/resource_elastic_cluster_v2.go:1463-1722 | An update that succeeds has made the coordinator call for every coordinator setting that changed, and the unlock when it is needed. |
| UpdateProperties.CoordinatorScaleChoice | celerdatabyoc/resource_elastic_cluster_v2.go:1586-1630 | On success, the coordinator is scaled out to a count exactly when that count is the new one and is larger than the old. It is scaled in exactly when the new count is smaller. |
| UpdateProperties.NameIndexKeys | celerdatabyoc/resource_elastic_cluster_v2.go:1752-1761 | The index holds a name exactly when the list does. |
| UpdateProperties.AddedNamesAreNew | celerdatabyoc/resource_elastic_cluster_v2.go:1763-1791 | A name is marked for creation exactly when the new list has it and the old index does not. |
| UpdateProperties.RemovedIdsCoverGone | celerdatabyoc/resource_elastic_cluster_v2.go:1793-1806 | Every old warehouse whose name is gone and whose id is recorded is marked for release, and only those are. |
| UpdateProperties.UpsertsNames | celerdatabyoc/resource_elastic_cluster_v2.go:1763-1791 | A successful pass over the new list creates exactly the new names, in list order, and releases nothing. |
| UpdateProperties.DeletesIds | celerdatabyoc/resource_elastic_cluster_v2.go:1793-1806 | A successful pass over the old list releases exactly the recorded ids of the names that are gone, in list order. |
| UpdateProperties.WarehouseChangesMatchDiff | celerdatabyoc/resource_elastic_cluster_v2.go:1746-1807 | A successful change of the named warehouses creates exactly the warehouses whose names are new. It releases exactly the recorded ids of those whose names are gone. |
| UpdateProperties.UpsertsUpdateKept | celerdatabyoc/resource_elastic_cluster_v2.go:1765-1783 | After a successful pass over the new list, every warehouse whose name was known has its external info recorded. Its update succeeded, and that update's calls appear together in the pass's trace. |
| UpdateProperties.KeptWarehousesUpdated | celerdatabyoc/resource_elastic_cluster_v2.go:1746-1807 | A successful change of the named warehouses has updated every warehouse of the new list whose name was in the old list. That update succeeded, and all its calls are in the change's trace, so every call that `WarehouseOps.SuccessfulUpdateCoversChanges` guarantees for that warehouse is made in the change. |
| UpdateProperties.ConvergedUpdateIsNoOp | celerdatabyoc/resource_elastic_cluster_v2.go:1416-1807 | Updating a settled cluster to the configuration it already has makes no calls and succeeds. |

## Left out

- Five steps are not modelled. They run after the cluster idle change and before the free-tier unlock:
  - resuming the cluster (`needResume` and `UpdateClusterState`, lines 1480-1486);
  - LDAP certificates (lines 1488-1501);
  - resource tags (lines 1503-1518);
  - init scripts (lines 1520-1540);
  - ranger certificates (lines 1542-1548).
  A failure in any of them ends the update before any coordinator or warehouse call. The certificate steps return a warning (lines 1497-1500 and 1544-1547). The other three return an error (lines 1483-1485, 1515-1517 and 1537-1539). The model assumes each of these steps is unchanged or succeeds, so its coordinator and warehouse sequence is the source's only on that assumption.
- Suspending the cluster (`needSuspend` and `UpdateClusterState`, lines 1809-1870) runs after the warehouse changes and is not modelled. Neither is `upgradeAMI`. Their helpers are not part of this model.
- The top-level Create, Read and Delete handlers of the resource are not modelled. Neither are the schema's plain attribute checks (`validation.*` helpers) and the password and volume-size validators of the `common` package.
- `VolumeParamVerify` (called at lines 603, 654 and 746) is not modelled. Its rules live outside this file.
- The asynchronous waits (`WaitClusterStateChangeComplete`, infra-action polling) inside `createWarehouse`, `updateWarehouse`, `SuspendWarehouse`, `ResumeWarehouse` and `DeleteWarehouse` are not modelled step by step. Each call's answer, which the control plane's fixed `respond` function gives, already includes how its wait ended (success, failed call, failed wait, abnormal).
- `UpsertClusterConfig` and `UpdateClusterIdleConfig` are not part of this model. A failure in them is modelled as a warning, which still ends the update, as their returned diagnostics do.
- `cluster.DefaultBeVolumeMap` and `cluster.DefaultFeVolumeMap` are not part of this model. They are taken to be two disks of 100 GB (iops 0, throughput 0) and one 150 GB coordinator disk, the defaults `createWarehouse` and the schema use.
- Go map iteration order is random. In the duplicate-name report and the disk-type check, the model takes list order; the model therefore reports one fixed name where the source may report any of the offending names.
- A missing entry in `warehouse_external_info` makes the source panic on a failed type assertion. The model turns it into a `Crash` diagnostic with no call.
- JSON (de)serialisation of external info and auto-scaling policies is not modelled: policies are opaque strings and external info is a record.
- `strings.TrimSpace` is modelled on ASCII white space only.
- WarehouseOps.CreateRequestOf: node counts are unbounded in the model. The source converts `compute_node_count` with `int32(...)` (lines 1949 and 2196), and its only check is `IntAtLeast(1)` (lines 136 and 244). A count of 2^31 or more therefore wraps in the source but not in the model, which assumes node counts fit in int32. The same holds for the scale-num request of `updateWarehouse`. The coordinator count is limited to 1, 3, 5 or 7 (line 69), so its `int32` conversion at lines 1595 and 1607 keeps its value.
- The `int64`/`uint64` conversions of disk sizes and millisecond intervals are not modelled. Converting a Go `int` to `int64` keeps its value on 64-bit platforms. The interval checks keep a millisecond interval between 0 and 999999 * 60000, which fits in both types.
- ClusterUpdate.SettledFailure: when the settle wait ends with the cluster released, the source also clears the resource id (`d.SetId("")`, line 1455) before it returns the not-found error. The model does not model the Terraform state, so only the error is modelled.
- `d.IsNewResource()` is always false inside an update; the conditions that test it are simplified accordingly.
- Request ids (uuid), logging and diagnostic texts are not modelled. Diagnostics are datatypes that carry the failing field or call.
- ControlPlane.Execute: an early `return` becomes a loop guard on the diagnostic, with the same calls and the same result.
