/** Changing, creating and releasing one warehouse. An update is a fixed plan
    of calls decided by comparing the old and the new warehouse: distribution,
    node size, node count, volume, idle suspension, resume, custom
    configuration, suspend and auto-scaling, in that order. A creation is one
    call followed by settings on the warehouse it created. */
module WarehouseOps {
  import opened ClusterModel
  import opened Remote

  /** The distribution changes when the policy does, or when the policy is
      specify_az and the zone does. */
  predicate DistributionChanged(o: Warehouse, n: Warehouse)
  {
    o.distributionPolicy != n.distributionPolicy
    || (n.distributionPolicy == SpecifyAz && o.specifyAz != n.specifyAz)
  }

  /** A field of a volume request: the new value when it changed, 0 ("not
      changed") otherwise. */
  function ChangedOnly(o: int, n: int): int
  {
    if n != o then n else 0
  }

  /** How a volume request acts on a field: 0 keeps the current value. */
  function ApplyField(current: int, requested: int): int
  {
    if requested == 0 then current else requested
  }

  /** The volume request for a warehouse's compute nodes. */
  function WarehouseVolumeOp(id: string, o: VolumeConfig, n: VolumeConfig): Op
  {
    ModifyVolume(WarehouseTarget(id), ChangedOnly(o.volSize, n.volSize), ChangedOnly(o.iops, n.iops),
                 ChangedOnly(o.throughput, n.throughput))
  }

  /** The volume a ModifyVolume request leaves behind (the disk count is not part of it). */
  function ApplyVolume(v: VolumeConfig, op: Op): VolumeConfig
    requires op.ModifyVolume?
  {
    VolumeConfig(v.volNumber, ApplyField(v.volSize, op.volSize), ApplyField(v.iops, op.iops),
                 ApplyField(v.throughput, op.throughput))
  }

  /** The request reproduces the new volume exactly when no field is changed
      to 0, which the request cannot express. */
  lemma VolumeRequestRoundTrip(id: string, o: VolumeConfig, n: VolumeConfig)
    requires o.volNumber == n.volNumber
    ensures ApplyVolume(o, WarehouseVolumeOp(id, o, n)) == n
            <==> (n.volSize == o.volSize || n.volSize != 0)
                 && (n.iops == o.iops || n.iops != 0)
                 && (n.throughput == o.throughput || n.throughput != 0)
  {
  }

  /** The request names only the fields that changed. */
  lemma VolumeRequestCarriesOnlyChanges(id: string, o: VolumeConfig, n: VolumeConfig)
    ensures var op := WarehouseVolumeOp(id, o, n);
            && op.target == WarehouseTarget(id)
            && (op.volSize != 0 ==> op.volSize == n.volSize != o.volSize)
            && (op.iops != 0 ==> op.iops == n.iops != o.iops)
            && (op.throughput != 0 ==> op.throughput == n.throughput != o.throughput)
  {
  }

  /** The volume request, built field by field. */
  method BuildVolumeRequest(id: string, o: VolumeConfig, n: VolumeConfig) returns (op: Op)
    ensures op == WarehouseVolumeOp(id, o, n)
  {
    var volSize, iops, throughput := 0, 0, 0;
    if n.volSize != o.volSize {
      volSize := n.volSize;
    }
    if n.iops != o.iops {
      iops := n.iops;
    }
    if n.throughput != o.throughput {
      throughput := n.throughput;
    }
    op := ModifyVolume(WarehouseTarget(id), volSize, iops, throughput);
  }

  // ---------------------------------------------------------------------
  // The stages of an update, each at most one step

  function DistributionStep(o: Warehouse, n: Warehouse, id: string): Step
  {
    When(DistributionChanged(o, n), Call(ChangeDistribution(id, n.distributionPolicy, n.specifyAz), Error))
  }

  function SizeStep(o: Warehouse, n: Warehouse, id: string): Step
  {
    When(o.computeNodeSize != n.computeNodeSize, Call(ScaleWarehouseSize(id, n.computeNodeSize), Error))
  }

  function CountStep(o: Warehouse, n: Warehouse, id: string): Step
  {
    When(o.computeNodeCount != n.computeNodeCount, Call(ScaleWarehouseNum(id, n.computeNodeCount), Error))
  }

  /** A volume change of a warehouse on network disks: the disk count is
      fixed and the disk size never shrinks. Instance-store disks are left alone. */
  function VolumeStep(o: Warehouse, n: Warehouse, ext: ExternalInfo): Step
  {
    var ov := EffectiveVolume(o.volume);
    var nv := EffectiveVolume(n.volume);
    if ext.isInstanceStore || ov == nv then Skip
    else if ov.volNumber != nv.volNumber then Halt(Error, VolNumberImmutable)
    else if ov.volSize > nv.volSize then Halt(Error, VolSizeDecrease)
    else Call(WarehouseVolumeOp(ext.id, ov, nv), Error)
  }

  /** Idle suspension of a named warehouse: the new interval in milliseconds,
      enabled when it is positive. */
  function IdleStep(o: Warehouse, n: Warehouse, ext: ExternalInfo): Step
  {
    When(!ext.isDefault && o.idleSuspendInterval != n.idleSuspendInterval,
         Call(UpdateWarehouseIdle(ext.id, n.idleSuspendInterval * MillisPerMinute, n.idleSuspendInterval > 0), Warning))
  }

  /** The expected state of a named warehouse changed to the given one. */
  predicate StateChangedTo(o: Warehouse, n: Warehouse, ext: ExternalInfo, state: string)
  {
    !ext.isDefault && o.expectedState != n.expectedState && n.expectedState == state
  }

  function ResumeStep(o: Warehouse, n: Warehouse, ext: ExternalInfo): Step
  {
    When(StateChangedTo(o, n, ext, StateRunning), Call(ResumeWarehouse(ext.id), Error))
  }

  function ConfigStep(o: Warehouse, n: Warehouse, id: string): Step
  {
    When(o.configs != n.configs, Call(UpsertConfig(WarehouseTarget(id), n.configs), Warning))
  }

  function SuspendStep(o: Warehouse, n: Warehouse, ext: ExternalInfo): Step
  {
    When(StateChangedTo(o, n, ext, StateSuspended), Call(SuspendWarehouse(ext.id), Warning))
  }

  /** A changed auto-scaling policy is saved when present and deleted when removed. */
  function AutoScalingStep(o: Warehouse, n: Warehouse, id: string): Step
  {
    if o.autoScalingPolicy == n.autoScalingPolicy then Skip
    else if |n.autoScalingPolicy| > 0 then Call(SaveAutoScaling(id, n.autoScalingPolicy), Error)
    else Call(DeleteAutoScaling(id), Warning)
  }

  /** The plan that turns warehouse o into warehouse n, one stage per setting. */
  function UpdatePlan(o: Warehouse, n: Warehouse, ext: ExternalInfo): seq<Step>
  {
    [DistributionStep(o, n, ext.id), SizeStep(o, n, ext.id), CountStep(o, n, ext.id), VolumeStep(o, n, ext),
     IdleStep(o, n, ext), ResumeStep(o, n, ext), ConfigStep(o, n, ext.id), SuspendStep(o, n, ext),
     AutoScalingStep(o, n, ext.id)]
  }

  function UpdateWarehouseRun(o: Warehouse, n: Warehouse, ext: ExternalInfo, respond: Op -> Response): Run
  {
    RunSteps(UpdatePlan(o, n, ext), respond)
  }

  method UpdateWarehouse(api: ControlPlane, o: Warehouse, n: Warehouse, ext: ExternalInfo) returns (d: Option<Diag>)
    modifies api
    ensures api.trace == old(api.trace) + UpdateWarehouseRun(o, n, ext, api.respond).trace
    ensures d == UpdateWarehouseRun(o, n, ext, api.respond).diag
  {
    d := api.Execute(UpdatePlan(o, n, ext));
  }

  // ---------------------------------------------------------------------
  // Creating and releasing

  /** The request that creates warehouse w: two disks of 100 GB unless the
      warehouse declares its volume. */
  function CreateRequestOf(w: Warehouse): CreateRequest
  {
    var v := EffectiveVolume(w.volume);
    CreateRequest(w.name, w.computeNodeSize, w.computeNodeCount, v.volSize, v.volNumber, v.iops, v.throughput,
                  w.distributionPolicy, w.specifyAz)
  }

  /** The creation request carries the warehouse's shape and the volume in
      effect for it, default disks included. */
  lemma CreateRequestCarriesWarehouse(w: Warehouse)
    ensures var r := CreateRequestOf(w);
            && VolumeConfig(r.volumeNum, r.volumeSizeGB, r.iops, r.throughput) == EffectiveVolume(w.volume)
            && r.name == w.name && r.vmCate == w.computeNodeSize && r.vmNum == w.computeNodeCount
            && r.distributionPolicy == w.distributionPolicy && r.specifyAz == w.specifyAz
  {
  }

  /** The creation request, starting from the default disks and overwriting them. */
  method BuildCreateRequest(w: Warehouse) returns (req: CreateRequest)
    ensures req == CreateRequestOf(w)
  {
    var diskNumber, perDiskSize, iops, throughput := 2, 100, 0, 0;
    if w.volume.Some? {
      diskNumber := w.volume.value.volNumber;
      perDiskSize := w.volume.value.volSize;
      iops := w.volume.value.iops;
      throughput := w.volume.value.throughput;
    }
    req := CreateRequest(w.name, w.computeNodeSize, w.computeNodeCount, perDiskSize, diskNumber, iops, throughput,
                         w.distributionPolicy, w.specifyAz);
  }

  /** The settings applied to a freshly created warehouse, in order: its
      auto-scaling policy, its configuration, suspension and idle
      suspension. None of their failures undoes the creation, so each is
      only a warning. */
  function AfterCreatePlan(w: Warehouse, id: string): seq<Step>
  {
    [When(|w.autoScalingPolicy| > 0, Call(SaveAutoScaling(id, w.autoScalingPolicy), Warning)),
     When(|w.configs| > 0, Call(UpsertConfig(WarehouseTarget(id), w.configs), Warning)),
     When(w.expectedState == StateSuspended, Call(SuspendWarehouse(id), Warning)),
     When(w.idleSuspendInterval > 0, Call(UpdateWarehouseIdle(id, w.idleSuspendInterval * MillisPerMinute, true), Warning))]
  }

  function CreateWarehouseRun(w: Warehouse, respond: Op -> Response): Run
  {
    var create := CreateWarehouse(CreateRequestOf(w));
    var answer := respond(create);
    if answer.Done? then Then(Issue(create, Error, respond), RunSteps(AfterCreatePlan(w, answer.id), respond))
    else Issue(create, Error, respond)
  }

  method CreateNewWarehouse(api: ControlPlane, w: Warehouse) returns (d: Option<Diag>)
    modifies api
    ensures api.trace == old(api.trace) + CreateWarehouseRun(w, api.respond).trace
    ensures d == CreateWarehouseRun(w, api.respond).diag
  {
    var req := BuildCreateRequest(w);
    var answer := api.Call(CreateWarehouse(req));
    if answer.Done? {
      d := api.Execute(AfterCreatePlan(w, answer.id));
    } else {
      d := Some(Diag(Error, RemoteFailure(CreateWarehouse(req), answer)));
    }
  }

  function DeleteWarehouseRun(id: string, respond: Op -> Response): Run
  {
    Issue(ReleaseWarehouse(id), Error, respond)
  }

  method DeleteWarehouse(api: ControlPlane, id: string) returns (d: Option<Diag>)
    modifies api
    ensures api.trace == old(api.trace) + DeleteWarehouseRun(id, api.respond).trace
    ensures d == DeleteWarehouseRun(id, api.respond).diag
  {
    d := api.Perform(ReleaseWarehouse(id), Error);
  }

  // ---------------------------------------------------------------------
  // Properties of the update plan

  /** The position of a call in the per-warehouse order. */
  function UpdateRank(op: Op): int
  {
    match op
    case ChangeDistribution(_, _, _) => 0
    case ScaleWarehouseSize(_, _) => 1
    case ScaleWarehouseNum(_, _) => 2
    case ModifyVolume(_, _, _, _) => 3
    case UpdateWarehouseIdle(_, _, _) => 4
    case ResumeWarehouse(_) => 5
    case UpsertConfig(_, _) => 6
    case SuspendWarehouse(_) => 7
    case SaveAutoScaling(_, _) => 8
    case DeleteAutoScaling(_) => 8
    case _ => 9
  }

  /** Strictly ascending in the per-warehouse order: each kind of change at
      most once, and never one before a change that precedes it. */
  predicate InUpdateOrder(ops: seq<Op>)
  {
    forall i, j :: 0 <= i < j < |ops| ==> UpdateRank(ops[i]) < UpdateRank(ops[j])
  }

  /** The call of stage k has rank k. */
  lemma StagesRanked(o: Warehouse, n: Warehouse, ext: ExternalInfo)
    ensures forall k :: 0 <= k < |UpdatePlan(o, n, ext)| && UpdatePlan(o, n, ext)[k].Call? ==>
              UpdateRank(UpdatePlan(o, n, ext)[k].op) == k
  {
  }

  /** Every update issues its calls in the fixed per-warehouse order:
      distribution, size, count, volume, idle, resume, configuration,
      suspend, auto-scaling. */
  lemma UpdateIsOrdered(o: Warehouse, n: Warehouse, ext: ExternalInfo, respond: Op -> Response)
    ensures InUpdateOrder(UpdateWarehouseRun(o, n, ext, respond).trace)
  {
    var plan := UpdatePlan(o, n, ext);
    StagesRanked(o, n, ext);
    CallOpsAscend(plan, UpdateRank);
    RunIssuesPlanPrefix(plan, respond);
  }

  /** A call the update may issue for warehouse o to n: it targets the
      warehouse's recorded id and carries the new value of a setting that
      changed. */
  predicate Justified(o: Warehouse, n: Warehouse, ext: ExternalInfo, op: Op)
  {
    match op
    case ChangeDistribution(id, policy, az) =>
      id == ext.id && DistributionChanged(o, n) && policy == n.distributionPolicy && az == n.specifyAz
    case ScaleWarehouseSize(id, vmCate) =>
      id == ext.id && o.computeNodeSize != n.computeNodeSize && vmCate == n.computeNodeSize
    case ScaleWarehouseNum(id, vmNum) =>
      id == ext.id && o.computeNodeCount != n.computeNodeCount && vmNum == n.computeNodeCount
    case ModifyVolume(target, _, _, _) =>
      var ov := EffectiveVolume(o.volume);
      var nv := EffectiveVolume(n.volume);
      target == WarehouseTarget(ext.id) && !ext.isInstanceStore && ov != nv
      && ov.volNumber == nv.volNumber && ov.volSize <= nv.volSize
      && op == WarehouseVolumeOp(ext.id, ov, nv)
    case UpdateWarehouseIdle(id, intervalMs, enable) =>
      id == ext.id && !ext.isDefault && o.idleSuspendInterval != n.idleSuspendInterval
      && intervalMs == n.idleSuspendInterval * MillisPerMinute && enable == (n.idleSuspendInterval > 0)
    case ResumeWarehouse(id) => id == ext.id && StateChangedTo(o, n, ext, StateRunning)
    case UpsertConfig(target, configs) =>
      target == WarehouseTarget(ext.id) && o.configs != n.configs && configs == n.configs
    case SuspendWarehouse(id) => id == ext.id && StateChangedTo(o, n, ext, StateSuspended)
    case SaveAutoScaling(id, policy) =>
      id == ext.id && o.autoScalingPolicy != n.autoScalingPolicy && policy == n.autoScalingPolicy && |policy| > 0
    case DeleteAutoScaling(id) =>
      id == ext.id && o.autoScalingPolicy != n.autoScalingPolicy && |n.autoScalingPolicy| == 0
    case _ => false
  }

  /** Every call of the plan is justified. */
  lemma StagesJustified(o: Warehouse, n: Warehouse, ext: ExternalInfo)
    ensures forall k :: 0 <= k < |UpdatePlan(o, n, ext)| && UpdatePlan(o, n, ext)[k].Call? ==>
              Justified(o, n, ext, UpdatePlan(o, n, ext)[k].op)
  {
  }

  /** Every call an update issues is justified by a change from o to n:
      nothing is called for a setting that did not change. */
  lemma UpdateCallsAreJustified(o: Warehouse, n: Warehouse, ext: ExternalInfo, respond: Op -> Response)
    ensures forall op :: op in UpdateWarehouseRun(o, n, ext, respond).trace ==> Justified(o, n, ext, op)
  {
    var plan := UpdatePlan(o, n, ext);
    StagesJustified(o, n, ext);
    CallOpsSatisfy(plan, op => Justified(o, n, ext, op));
    RunIssuesPlanPrefix(plan, respond);
  }

  /** The volume configuration in effect differs, on disks that can be changed. */
  predicate VolumeChanged(o: Warehouse, n: Warehouse, ext: ExternalInfo)
  {
    !ext.isInstanceStore && EffectiveVolume(o.volume) != EffectiveVolume(n.volume)
  }

  /** A volume change that keeps the disk count and does not shrink the disks. */
  predicate VolumeChangeAllowed(o: Warehouse, n: Warehouse)
  {
    EffectiveVolume(o.volume).volNumber == EffectiveVolume(n.volume).volNumber
    && EffectiveVolume(o.volume).volSize <= EffectiveVolume(n.volume).volSize
  }

  /** An update that succeeds has issued the call for every setting that
      changed, with the new value; a volume change it accepted was allowed. */
  lemma SuccessfulUpdateCoversChanges(o: Warehouse, n: Warehouse, ext: ExternalInfo, respond: Op -> Response)
    requires UpdateWarehouseRun(o, n, ext, respond).diag.None?
    ensures var t := UpdateWarehouseRun(o, n, ext, respond).trace;
            && (DistributionChanged(o, n) ==> ChangeDistribution(ext.id, n.distributionPolicy, n.specifyAz) in t)
            && (o.computeNodeSize != n.computeNodeSize ==> ScaleWarehouseSize(ext.id, n.computeNodeSize) in t)
            && (o.computeNodeCount != n.computeNodeCount ==> ScaleWarehouseNum(ext.id, n.computeNodeCount) in t)
            && (VolumeChanged(o, n, ext) ==>
                  (&& VolumeChangeAllowed(o, n)
                   && WarehouseVolumeOp(ext.id, EffectiveVolume(o.volume), EffectiveVolume(n.volume)) in t))
            && (!ext.isDefault && o.idleSuspendInterval != n.idleSuspendInterval ==>
                  UpdateWarehouseIdle(ext.id, n.idleSuspendInterval * MillisPerMinute, n.idleSuspendInterval > 0) in t)
            && (StateChangedTo(o, n, ext, StateRunning) ==> ResumeWarehouse(ext.id) in t)
            && (o.configs != n.configs ==> UpsertConfig(WarehouseTarget(ext.id), n.configs) in t)
            && (StateChangedTo(o, n, ext, StateSuspended) ==> SuspendWarehouse(ext.id) in t)
            && (o.autoScalingPolicy != n.autoScalingPolicy && |n.autoScalingPolicy| > 0 ==>
                  SaveAutoScaling(ext.id, n.autoScalingPolicy) in t)
            && (o.autoScalingPolicy != n.autoScalingPolicy && |n.autoScalingPolicy| == 0 ==>
                  DeleteAutoScaling(ext.id) in t)
  {
    var plan := UpdatePlan(o, n, ext);
    if VolumeChanged(o, n, ext) && !VolumeChangeAllowed(o, n) {
      HaltedPlanFails(plan, 3, respond);
      assert false;
    }
    if plan[0].Call? { StageIssued(o, n, ext, respond, 0); }
    if plan[1].Call? { StageIssued(o, n, ext, respond, 1); }
    if plan[2].Call? { StageIssued(o, n, ext, respond, 2); }
    if plan[3].Call? { StageIssued(o, n, ext, respond, 3); }
    if plan[4].Call? { StageIssued(o, n, ext, respond, 4); }
    if plan[5].Call? { StageIssued(o, n, ext, respond, 5); }
    if plan[6].Call? { StageIssued(o, n, ext, respond, 6); }
    if plan[7].Call? { StageIssued(o, n, ext, respond, 7); }
    if plan[8].Call? { StageIssued(o, n, ext, respond, 8); }
  }

  /** The call of a stage is among those a successful update issued. */
  lemma StageIssued(o: Warehouse, n: Warehouse, ext: ExternalInfo, respond: Op -> Response, k: nat)
    requires UpdateWarehouseRun(o, n, ext, respond).diag.None?
    requires k < |UpdatePlan(o, n, ext)| && UpdatePlan(o, n, ext)[k].Call?
    ensures UpdatePlan(o, n, ext)[k].op in UpdateWarehouseRun(o, n, ext, respond).trace
  {
    RunIssuesPlanPrefix(UpdatePlan(o, n, ext), respond);
    CallHeld(UpdatePlan(o, n, ext), k);
  }

  /** A volume change that alters the disk count or shrinks the disks fails
      the update: it ends with a diagnostic, no volume request is issued, and
      nothing after the volume stage is attempted. The diagnostic is the
      rejection itself unless an earlier resize call already failed. */
  lemma VolumeChangeFails(o: Warehouse, n: Warehouse, ext: ExternalInfo, respond: Op -> Response)
    requires VolumeChanged(o, n, ext) && !VolumeChangeAllowed(o, n)
    ensures var r := UpdateWarehouseRun(o, n, ext, respond);
            && r.diag.Some?
            && (r.diag.value.failure.RemoteFailure?
                || r.diag.value == Diag(Error, if EffectiveVolume(o.volume).volNumber != EffectiveVolume(n.volume).volNumber
                                               then VolNumberImmutable else VolSizeDecrease))
            && forall i :: 0 <= i < |r.trace| ==> UpdateRank(r.trace[i]) < 3
  {
    var plan := UpdatePlan(o, n, ext);
    StopsAtHalt(plan, 3, respond);
    CallsFailRemotely(plan[..3], respond);
    StagesRanked(o, n, ext);
    CallOpsSatisfy(plan[..3], op => UpdateRank(op) < 3);
  }

  /** The default warehouse is never suspended, resumed or given an idle
      interval of its own by an update. */
  lemma DefaultWarehouseKeepsItsState(o: Warehouse, n: Warehouse, ext: ExternalInfo, respond: Op -> Response)
    requires ext.isDefault
    ensures forall op :: op in UpdateWarehouseRun(o, n, ext, respond).trace ==>
              !op.UpdateWarehouseIdle? && !op.ResumeWarehouse? && !op.SuspendWarehouse?
  {
    UpdateCallsAreJustified(o, n, ext, respond);
  }

  /** Updating a warehouse to itself calls nothing. */
  lemma UnchangedWarehouseIsNoOp(w: Warehouse, ext: ExternalInfo, respond: Op -> Response)
    ensures UpdateWarehouseRun(w, w, ext, respond) == NoCalls
  {
    SkippedPlanIsNoOp(UpdatePlan(w, w, ext), respond);
  }

  // ---------------------------------------------------------------------
  // Properties of creation

  /** A call that configures the warehouse with the given id. */
  predicate ConfiguresWarehouse(op: Op, id: string)
  {
    match op
    case SaveAutoScaling(warehouseId, _) => warehouseId == id
    case UpsertConfig(target, _) => target == WarehouseTarget(id)
    case SuspendWarehouse(warehouseId) => warehouseId == id
    case UpdateWarehouseIdle(warehouseId, _, enable) => warehouseId == id && enable
    case _ => false
  }

  /** A failed creation call is an error and nothing follows it. */
  lemma FailedCreationStops(w: Warehouse, respond: Op -> Response)
    requires !respond(CreateWarehouse(CreateRequestOf(w))).Done?
    ensures CreateWarehouseRun(w, respond).trace == [CreateWarehouse(CreateRequestOf(w))]
    ensures CreateWarehouseRun(w, respond).diag
            == Some(Diag(Error, RemoteFailure(CreateWarehouse(CreateRequestOf(w)), respond(CreateWarehouse(CreateRequestOf(w))))))
  {
  }

  /** Once the warehouse exists, the follow-up calls configure that very
      warehouse (the id the creation returned), and a failure among them is
      only a warning. */
  lemma CreatedWarehouseOnlyWarns(w: Warehouse, respond: Op -> Response)
    requires respond(CreateWarehouse(CreateRequestOf(w))).Done?
    ensures var r := CreateWarehouseRun(w, respond);
            var id := respond(CreateWarehouse(CreateRequestOf(w))).id;
            && |r.trace| >= 1 && r.trace[0] == CreateWarehouse(CreateRequestOf(w))
            && (forall i :: 1 <= i < |r.trace| ==> ConfiguresWarehouse(r.trace[i], id))
            && (r.diag.Some? ==> r.diag.value.severity == Warning)
  {
    var id := respond(CreateWarehouse(CreateRequestOf(w))).id;
    var plan := AfterCreatePlan(w, id);
    UniformSeverity(plan, Warning, respond);
    CallOpsSatisfy(plan, op => ConfiguresWarehouse(op, id));
    RunIssuesPlanPrefix(plan, respond);
  }
}
