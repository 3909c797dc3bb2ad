/** Reconciling a whole elastic cluster: refusing changes to immutable
    fields, waiting for the cluster to settle, then changing the coordinator
    (idle suspension, free-tier unlock, node size, node count, volume,
    configuration), the default warehouse and finally the named warehouses,
    which are matched by name into updates, creations and releases. */
module ClusterUpdate {
  import opened ClusterModel
  import opened Remote
  import opened WarehouseOps

  // ---------------------------------------------------------------------
  // Immutable fields

  /** The fields that cannot change once the cluster exists. */
  datatype Field =
    | Csp | Region | ClusterName | AdminPassword | DataCredentialId | DeploymentCredentialId | NetworkId | QueryPort

  /** The field's name as the diagnostic reports it. */
  function FieldName(f: Field): string
  {
    match f
    case Csp => "csp"
    case Region => "region"
    case ClusterName => "cluster_name"
    case AdminPassword => "default_admin_password"
    case DataCredentialId => "data_credential_id"
    case DeploymentCredentialId => "deployment_credential_id"
    case NetworkId => "network_id"
    case QueryPort => "query_port"
  }

  /** The immutable fields in the order they are checked. */
  const ImmutableFields: seq<Field> :=
    [Csp, Region, ClusterName, AdminPassword, DataCredentialId, DeploymentCredentialId, NetworkId, QueryPort]

  predicate FieldChanged(prev: ClusterSpec, next: ClusterSpec, f: Field)
  {
    match f
    case Csp => prev.csp != next.csp
    case Region => prev.region != next.region
    case ClusterName => prev.clusterName != next.clusterName
    case AdminPassword => prev.adminPassword != next.adminPassword
    case DataCredentialId => prev.dataCredentialId != next.dataCredentialId
    case DeploymentCredentialId => prev.deploymentCredentialId != next.deploymentCredentialId
    case NetworkId => prev.networkId != next.networkId
    case QueryPort => prev.queryPort != next.queryPort
  }

  /** The first of the fields that changed. */
  function FirstChanged(prev: ClusterSpec, next: ClusterSpec, fields: seq<Field>): (r: Option<Field>)
    ensures r.None? <==> forall i :: 0 <= i < |fields| ==> !FieldChanged(prev, next, fields[i])
    ensures r.Some? ==> exists k :: 0 <= k < |fields| && fields[k] == r.value && FieldChanged(prev, next, r.value)
                                    && forall j :: 0 <= j < k ==> !FieldChanged(prev, next, fields[j])
  {
    if fields == [] then None
    else if FieldChanged(prev, next, fields[0]) then Some(fields[0])
    else
      var rest := FirstChanged(prev, next, fields[1..]);
      assert rest.Some? ==> exists k :: 0 < k < |fields| && fields[k] == rest.value
                                     && forall j :: 0 <= j < k ==> !FieldChanged(prev, next, fields[j]) by {
        if rest.Some? {
          var k :| 0 <= k < |fields[1..]| && fields[1..][k] == rest.value
                   && forall j :: 0 <= j < k ==> !FieldChanged(prev, next, fields[1..][j]);
          assert forall j :: 0 <= j < k + 1 ==> !FieldChanged(prev, next, fields[j]) by {
            forall j | 0 <= j < k + 1 ensures !FieldChanged(prev, next, fields[j]) {
              if j > 0 { assert fields[j] == fields[1..][j - 1]; }
            }
          }
        }
      }
      rest
  }

  method FirstImmutableChange(prev: ClusterSpec, next: ClusterSpec) returns (r: Option<Field>)
    ensures r == FirstChanged(prev, next, ImmutableFields)
  {
    var i := 0;
    while i < |ImmutableFields|
      invariant 0 <= i <= |ImmutableFields|
      invariant FirstChanged(prev, next, ImmutableFields) == FirstChanged(prev, next, ImmutableFields[i..])
    {
      if FieldChanged(prev, next, ImmutableFields[i]) {
        return Some(ImmutableFields[i]);
      }
      assert ImmutableFields[i..][1..] == ImmutableFields[i + 1..];
      i := i + 1;
    }
    return None;
  }

  // ---------------------------------------------------------------------
  // Settling before any change

  /** How the wait for the cluster to leave its transitional states ended. */
  datatype Settled = WaitTimedOut(msg: string) | Reached(state: ClusterState, reason: string)

  /** A settled cluster that cannot be reconciled: the wait failed, the
      cluster is gone, or it is abnormal. */
  function SettledFailure(settled: Settled): (r: Option<Failure>)
    ensures r.None? <==> settled.Reached? && settled.state != Released && settled.state != ClusterState.Abnormal
  {
    match settled
    case WaitTimedOut(msg) => Some(ClusterWaitFailed(msg))
    case Reached(state, reason) =>
      if state == Released then Some(ClusterNotFound)
      else if state == ClusterState.Abnormal then Some(ClusterAbnormal(reason))
      else None
  }

  // ---------------------------------------------------------------------
  // The coordinator

  /** The free tier has to be unlocked before a free-tier cluster's
      coordinator is resized, and before any warehouse changes. */
  function NeedUnlock(prev: ClusterSpec, next: ClusterSpec, freeTier: bool): (r: bool)
    ensures r <==> (freeTier && (prev.coordinatorNodeSize != next.coordinatorNodeSize
                                 || prev.coordinatorNodeCount != next.coordinatorNodeCount))
                   || prev.warehouses != next.warehouses || prev.defaultWarehouse != next.defaultWarehouse
  {
    var result := freeTier && (prev.coordinatorNodeSize != next.coordinatorNodeSize
                               || prev.coordinatorNodeCount != next.coordinatorNodeCount);
    if !result && (prev.warehouses != next.warehouses || prev.defaultWarehouse != next.defaultWarehouse) then true
    else result
  }

  /** A new idle interval is sent when positive; disabling sends the old
      interval with the feature switched off. */
  function ClusterIdleOp(o: int, n: int): Op
  {
    var v := if n > 0 then n else o;
    UpdateClusterIdle(v * MillisPerMinute, n > 0)
  }

  /** More nodes scale out, fewer scale in. */
  function CoordinatorCountStep(o: int, n: int): Step
  {
    if n > o then Call(ScaleOutCoordinator(n), Error)
    else if n < o then Call(ScaleInCoordinator(n), Error)
    else Skip
  }

  /** The coordinator volume request, built from the volumes in effect. */
  function CoordinatorVolumeOp(o: CoordinatorVolume, n: CoordinatorVolume): Op
  {
    ModifyVolume(Coordinator, ChangedOnly(o.volSize, n.volSize), ChangedOnly(o.iops, n.iops),
                 ChangedOnly(o.throughput, n.throughput))
  }

  /** The coordinator stages: idle suspension, free-tier unlock, node size,
      node count, volume, configuration. */
  function CoordinatorSteps(prev: ClusterSpec, next: ClusterSpec, freeTier: bool): seq<Step>
  {
    [When(prev.idleSuspendInterval != next.idleSuspendInterval,
          Call(ClusterIdleOp(prev.idleSuspendInterval, next.idleSuspendInterval), Warning)),
     When(NeedUnlock(prev, next, freeTier), Call(UnlockFreeTier, Error)),
     When(prev.coordinatorNodeSize != next.coordinatorNodeSize, Call(ScaleUpCoordinator(next.coordinatorNodeSize), Error)),
     CoordinatorCountStep(prev.coordinatorNodeCount, next.coordinatorNodeCount),
     When(prev.coordinatorVolume != next.coordinatorVolume,
          Call(CoordinatorVolumeOp(EffectiveCoordinatorVolume(prev.coordinatorVolume),
                                   EffectiveCoordinatorVolume(next.coordinatorVolume)), Error)),
     When(prev.coordinatorConfigs != next.coordinatorConfigs, Call(UpsertConfig(Coordinator, next.coordinatorConfigs), Warning))]
  }

  // ---------------------------------------------------------------------
  // Matching warehouses by name

  function Names(ws: seq<Warehouse>): (r: seq<string>)
    ensures |r| == |ws| && forall i :: 0 <= i < |ws| ==> r[i] == ws[i].name
    decreases |ws|
  {
    if ws == [] then [] else Names(ws[..|ws| - 1]) + [ws[|ws| - 1].name]
  }

  /** Warehouses by name; of two with the same name the later one wins. */
  function NameIndex(ws: seq<Warehouse>): map<string, Warehouse>
    decreases |ws|
  {
    if ws == [] then map[]
    else NameIndex(ws[..|ws| - 1])[ws[|ws| - 1].name := ws[|ws| - 1]]
  }

  method BuildNameIndex(ws: seq<Warehouse>) returns (m: map<string, Warehouse>)
    ensures m == NameIndex(ws)
  {
    m := map[];
    for i := 0 to |ws|
      invariant m == NameIndex(ws[..i])
    {
      assert ws[..i + 1][..i] == ws[..i];
      m := m[ws[i].name := ws[i]];
    }
    assert ws[..|ws|] == ws;
  }

  /** A warehouse of the new list: updated when its name was known, created otherwise. */
  function UpsertRun(oldIndex: map<string, Warehouse>, w: Warehouse, ext: map<string, ExternalInfo>,
                     respond: Op -> Response): Run
  {
    if w.name in oldIndex then
      if w.name in ext then UpdateWarehouseRun(oldIndex[w.name], w, ext[w.name], respond)
      else Stop(Crash, MissingExternalInfo(w.name))
    else CreateWarehouseRun(w, respond)
  }

  function UpsertsRun(oldIndex: map<string, Warehouse>, ws: seq<Warehouse>, ext: map<string, ExternalInfo>,
                      respond: Op -> Response): Run
    decreases |ws|
  {
    if ws == [] then NoCalls
    else Then(UpsertsRun(oldIndex, ws[..|ws| - 1], ext, respond), UpsertRun(oldIndex, ws[|ws| - 1], ext, respond))
  }

  /** A warehouse of the old list: released when its name is gone. */
  function DeleteRun(newIndex: map<string, Warehouse>, w: Warehouse, ext: map<string, ExternalInfo>,
                     respond: Op -> Response): Run
  {
    if w.name in newIndex then NoCalls
    else if w.name in ext then DeleteWarehouseRun(ext[w.name].id, respond)
    else Stop(Crash, MissingExternalInfo(w.name))
  }

  function DeletesRun(newIndex: map<string, Warehouse>, ws: seq<Warehouse>, ext: map<string, ExternalInfo>,
                      respond: Op -> Response): Run
    decreases |ws|
  {
    if ws == [] then NoCalls
    else Then(DeletesRun(newIndex, ws[..|ws| - 1], ext, respond), DeleteRun(newIndex, ws[|ws| - 1], ext, respond))
  }

  /** All updates and creations, in the order of the new list, then all
      releases, in the order of the old list. */
  function WarehouseChangesRun(before: seq<Warehouse>, after: seq<Warehouse>, ext: map<string, ExternalInfo>,
                               respond: Op -> Response): Run
  {
    Then(UpsertsRun(NameIndex(before), after, ext, respond), DeletesRun(NameIndex(after), before, ext, respond))
  }

  method Upsert(api: ControlPlane, oldIndex: map<string, Warehouse>, w: Warehouse, ext: map<string, ExternalInfo>)
    returns (d: Option<Diag>)
    modifies api
    ensures api.trace == old(api.trace) + UpsertRun(oldIndex, w, ext, api.respond).trace
    ensures d == UpsertRun(oldIndex, w, ext, api.respond).diag
  {
    if w.name in oldIndex {
      if w.name in ext {
        d := UpdateWarehouse(api, oldIndex[w.name], w, ext[w.name]);
      } else {
        d := Some(Diag(Crash, MissingExternalInfo(w.name)));
      }
    } else {
      d := CreateNewWarehouse(api, w);
    }
  }

  method Remove(api: ControlPlane, newIndex: map<string, Warehouse>, w: Warehouse, ext: map<string, ExternalInfo>)
    returns (d: Option<Diag>)
    modifies api
    ensures api.trace == old(api.trace) + DeleteRun(newIndex, w, ext, api.respond).trace
    ensures d == DeleteRun(newIndex, w, ext, api.respond).diag
  {
    d := None;
    if w.name !in newIndex {
      if w.name in ext {
        d := DeleteWarehouse(api, ext[w.name].id);
      } else {
        d := Some(Diag(Crash, MissingExternalInfo(w.name)));
      }
    }
  }

  lemma UpsertsExtend(oldIndex: map<string, Warehouse>, ws: seq<Warehouse>, i: nat, ext: map<string, ExternalInfo>,
                      respond: Op -> Response)
    requires i < |ws|
    ensures UpsertsRun(oldIndex, ws[..i + 1], ext, respond)
            == Then(UpsertsRun(oldIndex, ws[..i], ext, respond), UpsertRun(oldIndex, ws[i], ext, respond))
  {
    assert ws[..i + 1][..i] == ws[..i];
  }

  method RunUpserts(api: ControlPlane, oldIndex: map<string, Warehouse>, ws: seq<Warehouse>,
                    ext: map<string, ExternalInfo>) returns (d: Option<Diag>)
    modifies api
    ensures api.trace == old(api.trace) + UpsertsRun(oldIndex, ws, ext, api.respond).trace
    ensures d == UpsertsRun(oldIndex, ws, ext, api.respond).diag
  {
    d := None;
    for i := 0 to |ws|
      invariant api.trace == old(api.trace) + UpsertsRun(oldIndex, ws[..i], ext, api.respond).trace
      invariant d == UpsertsRun(oldIndex, ws[..i], ext, api.respond).diag
    {
      d := UpsertNext(api, oldIndex, ws, i, ext, d, old(api.trace));
    }
    assert ws[..|ws|] == ws;
  }

  method UpsertNext(api: ControlPlane, oldIndex: map<string, Warehouse>, ws: seq<Warehouse>, i: nat,
                    ext: map<string, ExternalInfo>, d0: Option<Diag>, ghost start: seq<Op>) returns (d: Option<Diag>)
    requires i < |ws|
    requires api.trace == start + UpsertsRun(oldIndex, ws[..i], ext, api.respond).trace
    requires d0 == UpsertsRun(oldIndex, ws[..i], ext, api.respond).diag
    modifies api
    ensures api.trace == start + UpsertsRun(oldIndex, ws[..i + 1], ext, api.respond).trace
    ensures d == UpsertsRun(oldIndex, ws[..i + 1], ext, api.respond).diag
  {
    UpsertsExtend(oldIndex, ws, i, ext, api.respond);
    d := d0;
    if d.None? {
      d := Upsert(api, oldIndex, ws[i], ext);
    }
  }

  method RunDeletes(api: ControlPlane, newIndex: map<string, Warehouse>, ws: seq<Warehouse>,
                    ext: map<string, ExternalInfo>) returns (d: Option<Diag>)
    modifies api
    ensures api.trace == old(api.trace) + DeletesRun(newIndex, ws, ext, api.respond).trace
    ensures d == DeletesRun(newIndex, ws, ext, api.respond).diag
  {
    d := None;
    for i := 0 to |ws|
      invariant api.trace == old(api.trace) + DeletesRun(newIndex, ws[..i], ext, api.respond).trace
      invariant d == DeletesRun(newIndex, ws[..i], ext, api.respond).diag
    {
      assert ws[..i + 1][..i] == ws[..i];
      if d.None? {
        d := Remove(api, newIndex, ws[i], ext);
      }
    }
    assert ws[..|ws|] == ws;
  }

  /** Matches the old and the new named warehouses by name and reconciles
      them; once a warehouse fails, nothing further is issued. */
  method ReconcileWarehouses(api: ControlPlane, before: seq<Warehouse>, after: seq<Warehouse>,
                             ext: map<string, ExternalInfo>) returns (d: Option<Diag>)
    modifies api
    ensures api.trace == old(api.trace) + WarehouseChangesRun(before, after, ext, api.respond).trace
    ensures d == WarehouseChangesRun(before, after, ext, api.respond).diag
  {
    var oldIndex := BuildNameIndex(before);
    var newIndex := BuildNameIndex(after);
    ghost var start := api.trace;
    d := RunUpserts(api, oldIndex, after, ext);
    if d.None? {
      ghost var mid := api.trace;
      d := RunDeletes(api, newIndex, before, ext);
      ThenAppends(start, mid, api.trace, UpsertsRun(oldIndex, after, ext, api.respond),
                  DeletesRun(newIndex, before, ext, api.respond));
    }
  }

  // ---------------------------------------------------------------------
  // The whole update

  function DefaultWarehouseRun(prev: ClusterSpec, next: ClusterSpec, ext: map<string, ExternalInfo>,
                               respond: Op -> Response): Run
  {
    if prev.defaultWarehouse == next.defaultWarehouse then NoCalls
    else if DefaultWarehouseName !in ext then Stop(Crash, MissingExternalInfo(DefaultWarehouseName))
    else UpdateWarehouseRun(prev.defaultWarehouse, next.defaultWarehouse, ext[DefaultWarehouseName], respond)
  }

  function WarehouseListRun(prev: ClusterSpec, next: ClusterSpec, ext: map<string, ExternalInfo>,
                            respond: Op -> Response): Run
  {
    if prev.warehouses == next.warehouses then NoCalls
    else WarehouseChangesRun(prev.warehouses, next.warehouses, ext, respond)
  }

  /** Everything after the up-front checks. */
  function ChangesRun(prev: ClusterSpec, next: ClusterSpec, ext: map<string, ExternalInfo>, freeTier: bool,
                      respond: Op -> Response): Run
  {
    Then(Then(RunSteps(CoordinatorSteps(prev, next, freeTier), respond), DefaultWarehouseRun(prev, next, ext, respond)),
         WarehouseListRun(prev, next, ext, respond))
  }

  function UpdateClusterRun(prev: ClusterSpec, next: ClusterSpec, ext: map<string, ExternalInfo>, freeTier: bool,
                            settled: Settled, respond: Op -> Response): Run
  {
    var field := FirstChanged(prev, next, ImmutableFields);
    var failure := SettledFailure(settled);
    if field.Some? then Stop(Error, ImmutableField(FieldName(field.value)))
    else if failure.Some? then Stop(Error, failure.value)
    else ChangesRun(prev, next, ext, freeTier, respond)
  }

  method UpdateDefaultWarehouse(api: ControlPlane, prev: ClusterSpec, next: ClusterSpec, ext: map<string, ExternalInfo>)
    returns (d: Option<Diag>)
    modifies api
    ensures api.trace == old(api.trace) + DefaultWarehouseRun(prev, next, ext, api.respond).trace
    ensures d == DefaultWarehouseRun(prev, next, ext, api.respond).diag
  {
    d := None;
    if prev.defaultWarehouse != next.defaultWarehouse {
      if DefaultWarehouseName !in ext {
        d := Some(Diag(Crash, MissingExternalInfo(DefaultWarehouseName)));
      } else {
        d := UpdateWarehouse(api, prev.defaultWarehouse, next.defaultWarehouse, ext[DefaultWarehouseName]);
      }
    }
  }

  method UpdateWarehouseList(api: ControlPlane, prev: ClusterSpec, next: ClusterSpec, ext: map<string, ExternalInfo>)
    returns (d: Option<Diag>)
    modifies api
    ensures api.trace == old(api.trace) + WarehouseListRun(prev, next, ext, api.respond).trace
    ensures d == WarehouseListRun(prev, next, ext, api.respond).diag
  {
    d := None;
    if prev.warehouses != next.warehouses {
      d := ReconcileWarehouses(api, prev.warehouses, next.warehouses, ext);
    }
  }

  method ApplyChanges(api: ControlPlane, prev: ClusterSpec, next: ClusterSpec, ext: map<string, ExternalInfo>,
                      freeTier: bool) returns (d: Option<Diag>)
    modifies api
    ensures api.trace == old(api.trace) + ChangesRun(prev, next, ext, freeTier, api.respond).trace
    ensures d == ChangesRun(prev, next, ext, freeTier, api.respond).diag
  {
    ghost var coordinator := RunSteps(CoordinatorSteps(prev, next, freeTier), api.respond);
    ghost var defaultWarehouse := DefaultWarehouseRun(prev, next, ext, api.respond);
    ghost var named := WarehouseListRun(prev, next, ext, api.respond);
    assert ChangesRun(prev, next, ext, freeTier, api.respond) == Then(Then(coordinator, defaultWarehouse), named);
    ghost var start := api.trace;
    d := api.Execute(CoordinatorSteps(prev, next, freeTier));
    if d.None? {
      ghost var afterCoordinator := api.trace;
      d := UpdateDefaultWarehouse(api, prev, next, ext);
      ThenAppends(start, afterCoordinator, api.trace, coordinator, defaultWarehouse);
      if d.None? {
        ghost var afterDefault := api.trace;
        d := UpdateWarehouseList(api, prev, next, ext);
        ThenAppends(start, afterDefault, api.trace, Then(coordinator, defaultWarehouse), named);
      }
    }
  }

  method Update(api: ControlPlane, prev: ClusterSpec, next: ClusterSpec, ext: map<string, ExternalInfo>,
                freeTier: bool, settled: Settled) returns (d: Option<Diag>)
    modifies api
    ensures api.trace == old(api.trace) + UpdateClusterRun(prev, next, ext, freeTier, settled, api.respond).trace
    ensures d == UpdateClusterRun(prev, next, ext, freeTier, settled, api.respond).diag
  {
    var field := FirstImmutableChange(prev, next);
    if field.Some? {
      return Some(Diag(Error, ImmutableField(FieldName(field.value))));
    }
    var failure := SettledFailure(settled);
    if failure.Some? {
      return Some(Diag(Error, failure.value));
    }
    d := ApplyChanges(api, prev, next, ext, freeTier);
  }

  // ---------------------------------------------------------------------
  // All running

  /** The cluster and every one of its warehouses are running. */
  predicate AllRunning(c: ObservedCluster)
  {
    c.state == Running && forall i :: 0 <= i < |c.warehouses| ==> c.warehouses[i].state == Running
  }

  method IsAllRunning(c: ObservedCluster) returns (r: bool)
    ensures r <==> AllRunning(c)
  {
    if c.state != Running {
      return false;
    }
    for i := 0 to |c.warehouses|
      invariant forall k :: 0 <= k < i ==> c.warehouses[k].state == Running
    {
      if c.warehouses[i].state != Running {
        return false;
      }
    }
    return true;
  }
}
