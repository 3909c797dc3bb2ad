/** The check run on every planned create or update before anything is sent to
    the control plane (customizeEl2Diff). It compares the desired
    configuration with the prior one and with what the control plane reports
    about instance types and the network, and returns the first violated rule.
    The rules, in order: the coordinator instance type exists; a multi-AZ
    network has at least 3 coordinators; specify_az is only given with the
    specify_az policy; the coordinator architecture does not change; the
    coordinator volume does not shrink; then, for the default warehouse and for
    the named warehouses when they change (always, on create), names are
    unique, every instance type exists and has the coordinator's
    architecture, instance-store types carry no volume configuration, and no
    warehouse switches between instance-store and network disks. */
module PlanCheck {
  import opened ClusterModel

  /** Answer of the control plane to a query for one instance type. */
  datatype VmLookup = QueryFailed(msg: string) | NotExists | Found(info: VmInfo)

  /** Answer of the control plane to a query for one network. */
  datatype NetworkLookup = NetworkFailed(msg: string) | NetworkFound(multiAz: bool)

  /** The queries the check makes: coordinator instance types, compute
      instance types and networks. */
  datatype Lookups = Lookups(
    coordinatorVm: string -> VmLookup,
    computeVm: string -> VmLookup,
    network: string -> NetworkLookup)

  datatype PlanError =
    | VmQueryFailed(vmCate: string, msg: string)
    | VmNotExists(vmCate: string)
    | NetworkQueryFailed(msg: string)
    | TooFewCoordinators
    | SpecifyAzWithoutPolicy
    | CoordinatorArchChanged(oldVmCate: string, newVmCate: string)
    | CoordinatorVolumeDecrease
    | WarehouseArchMismatch(name: string, expected: string, found: string)
    | InstanceStoreVolume(vmCate: string, name: string)
    | DiskTypeChanged(name: string, expectInstanceStore: bool)
    | DuplicateWarehouseName(name: string)

  /** What the check sees: the cluster id (empty while the cluster is not
      created yet), the prior and the desired configuration, and the
      persisted external records by warehouse name. */
  datatype PlanInput = PlanInput(
    clusterId: string,
    prior: ClusterSpec,
    desired: ClusterSpec,
    externalInfo: map<string, ExternalInfo>)

  predicate IsNewCluster(input: PlanInput)
  {
    |input.clusterId| == 0
  }

  /** A cluster being created has no prior configuration, so its default
      warehouse always counts as changed; otherwise it changed when it
      differs from the prior one. */
  predicate DefaultWarehouseChanged(input: PlanInput)
  {
    IsNewCluster(input) || input.prior.defaultWarehouse != input.desired.defaultWarehouse
  }

  /** The same for the named warehouses. On create an empty list passes
      every list rule, so counting it as changed decides nothing. */
  predicate NamedWarehousesChanged(input: PlanInput)
  {
    IsNewCluster(input) || input.prior.warehouses != input.desired.warehouses
  }

  function AllWarehouses(s: ClusterSpec): seq<Warehouse>
  {
    [s.defaultWarehouse] + s.warehouses
  }

  function TrimmedNames(ws: seq<Warehouse>): (r: seq<string>)
    ensures |r| == |ws| && forall i :: 0 <= i < |ws| ==> r[i] == Trim(ws[i].name)
  {
    seq(|ws|, i requires 0 <= i < |ws| => Trim(ws[i].name))
  }

  predicate HasDuplicate(names: seq<string>)
  {
    exists i, j :: 0 <= i < j < |names| && names[i] == names[j]
  }

  // ---------------------------------------------------------------------
  // The rules, one function each

  function NetworkCheck(desired: ClusterSpec, network: string -> NetworkLookup): Option<PlanError>
  {
    if |desired.networkId| == 0 then None
    else match network(desired.networkId)
      case NetworkFailed(m) => Some(NetworkQueryFailed(m))
      case NetworkFound(multiAz) =>
        if multiAz && desired.coordinatorNodeCount < 3 then Some(TooFewCoordinators) else None
  }

  predicate MisplacedAz(w: Warehouse)
  {
    w.distributionPolicy != SpecifyAz && |w.specifyAz| > 0
  }

  predicate AnyMisplacedAz(ws: seq<Warehouse>)
  {
    exists i :: 0 <= i < |ws| && MisplacedAz(ws[i])
  }

  function CoordinatorArchCheck(input: PlanInput, feArch: string, coordinatorVm: string -> VmLookup): Option<PlanError>
  {
    var oldCate := input.prior.coordinatorNodeSize;
    var newCate := input.desired.coordinatorNodeSize;
    if oldCate == newCate || IsNewCluster(input) then None
    else match coordinatorVm(oldCate)
      case QueryFailed(m) => Some(VmQueryFailed(oldCate, m))
      case NotExists => Some(VmNotExists(oldCate))
      case Found(o) => if feArch != o.arch then Some(CoordinatorArchChanged(oldCate, newCate)) else None
  }

  function CoordinatorVolumeCheck(input: PlanInput): Option<PlanError>
  {
    if input.prior.coordinatorVolume == input.desired.coordinatorVolume || IsNewCluster(input) then None
    else if EffectiveCoordinatorVolume(input.desired.coordinatorVolume).volSize
            < EffectiveCoordinatorVolume(input.prior.coordinatorVolume).volSize
    then Some(CoordinatorVolumeDecrease)
    else None
  }

  /** The instance-type rules for one warehouse, given the answer for its type. */
  function WarehouseVmError(w: Warehouse, feArch: string, answer: VmLookup): Option<PlanError>
  {
    match answer
    case QueryFailed(m) => Some(VmQueryFailed(w.computeNodeSize, m))
    case NotExists => Some(VmNotExists(w.computeNodeSize))
    case Found(v) =>
      if v.arch != feArch then Some(WarehouseArchMismatch(Trim(w.name), feArch, v.arch))
      else if v.isInstanceStore && w.volume.Some? then Some(InstanceStoreVolume(w.computeNodeSize, Trim(w.name)))
      else None
  }

  /** The kinds of error the instance-type rules of a warehouse report. */
  predicate IsInstanceTypeError(e: PlanError)
  {
    e.VmQueryFailed? || e.VmNotExists? || e.WarehouseArchMismatch? || e.InstanceStoreVolume?
  }

  /** Result of scanning a warehouse list: the first error, or the instance
      type information by trimmed name. */
  datatype VmScan = VmScan(error: Option<PlanError>, vms: map<string, VmInfo>)

  function ScanWarehouses(ws: seq<Warehouse>, feArch: string, computeVm: string -> VmLookup): (r: VmScan)
    ensures r.error.None? ==>
      forall i :: 0 <= i < |ws| ==> WarehouseVmError(ws[i], feArch, computeVm(ws[i].computeNodeSize)).None?
    ensures r.error.Some? ==> IsInstanceTypeError(r.error.value)
    decreases |ws|
  {
    if ws == [] then VmScan(None, map[])
    else
      var prev := ScanWarehouses(ws[..|ws| - 1], feArch, computeVm);
      var w := ws[|ws| - 1];
      if prev.error.Some? then prev
      else
        var e := WarehouseVmError(w, feArch, computeVm(w.computeNodeSize));
        if e.Some? then VmScan(e, prev.vms)
        else VmScan(None, prev.vms[Trim(w.name) := computeVm(w.computeNodeSize).info])
  }

  /** The first name whose persisted disk type differs from the type of its
      new instance type. */
  function DiskTypeCheck(names: seq<string>, vms: map<string, VmInfo>, ext: map<string, ExternalInfo>): (r: Option<PlanError>)
    ensures r.None? <==> forall i :: 0 <= i < |names| && names[i] in ext && names[i] in vms ==>
      ext[names[i]].isInstanceStore == vms[names[i]].isInstanceStore
    ensures r.Some? ==>
      (&& r.value.DiskTypeChanged? && r.value.name in names && r.value.name in ext
       && r.value.name in vms && r.value.expectInstanceStore == ext[r.value.name].isInstanceStore
       && ext[r.value.name].isInstanceStore != vms[r.value.name].isInstanceStore)
    decreases |names|
  {
    if names == [] then None
    else
      var n := names[0];
      if n in ext && n in vms && ext[n].isInstanceStore != vms[n].isInstanceStore
      then Some(DiskTypeChanged(n, ext[n].isInstanceStore))
      else DiskTypeCheck(names[1..], vms, ext)
  }

  /** The first name, in list order, that occurs more than once. */
  function FirstDuplicateFrom(names: seq<string>, from: nat): Option<string>
    requires from <= |names|
    decreases |names| - from
  {
    if from == |names| then None
    else if multiset(names)[names[from]] > 1 then Some(names[from])
    else FirstDuplicateFrom(names, from + 1)
  }

  function FirstDuplicate(names: seq<string>): Option<string>
  {
    FirstDuplicateFrom(names, 0)
  }

  /** Instance types and disk types of one warehouse list. */
  function WarehouseListCheck(input: PlanInput, ws: seq<Warehouse>, feArch: string, computeVm: string -> VmLookup): Option<PlanError>
  {
    var scan := ScanWarehouses(ws, feArch, computeVm);
    if scan.error.Some? then scan.error
    else if !IsNewCluster(input) then DiskTypeCheck(TrimmedNames(ws), scan.vms, input.externalInfo)
    else None
  }

  function DefaultWarehouseCheck(input: PlanInput, feArch: string, computeVm: string -> VmLookup): Option<PlanError>
  {
    if !DefaultWarehouseChanged(input) then None
    else WarehouseListCheck(input, [input.desired.defaultWarehouse], feArch, computeVm)
  }

  function NamedWarehousesCheck(input: PlanInput, feArch: string, computeVm: string -> VmLookup): Option<PlanError>
  {
    if !NamedWarehousesChanged(input) then None
    else
      var dup := FirstDuplicate(TrimmedNames(input.desired.warehouses));
      if dup.Some? then Some(DuplicateWarehouseName(dup.value))
      else WarehouseListCheck(input, input.desired.warehouses, feArch, computeVm)
  }

  /** The whole check: the first rule that fails, or None. */
  function CheckPlan(input: PlanInput, lk: Lookups): Option<PlanError>
  {
    var feCate := input.desired.coordinatorNodeSize;
    match lk.coordinatorVm(feCate)
    case QueryFailed(m) => Some(VmQueryFailed(feCate, m))
    case NotExists => Some(VmNotExists(feCate))
    case Found(feVm) =>
      var netErr := NetworkCheck(input.desired, lk.network);
      if netErr.Some? then netErr
      else if AnyMisplacedAz(AllWarehouses(input.desired)) then Some(SpecifyAzWithoutPolicy)
      else
        var archErr := CoordinatorArchCheck(input, feVm.arch, lk.coordinatorVm);
        if archErr.Some? then archErr
        else
          var volErr := CoordinatorVolumeCheck(input);
          if volErr.Some? then volErr
          else
            var defaultErr := DefaultWarehouseCheck(input, feVm.arch, lk.computeVm);
            if defaultErr.Some? then defaultErr
            else NamedWarehousesCheck(input, feVm.arch, lk.computeVm)
  }

  // ---------------------------------------------------------------------
  // The check as the source runs it: loops over the warehouse lists that
  // fill a count map and an instance-type map.

  method CustomizeDiff(input: PlanInput, lk: Lookups) returns (r: Option<PlanError>)
    ensures r == CheckPlan(input, lk)
  {
    var feCate := input.desired.coordinatorNodeSize;
    var feAnswer := lk.coordinatorVm(feCate);
    if feAnswer.QueryFailed? {
      return Some(VmQueryFailed(feCate, feAnswer.msg));
    }
    if feAnswer.NotExists? {
      return Some(VmNotExists(feCate));
    }
    var feArch := feAnswer.info.arch;

    r := NetworkCheck(input.desired, lk.network);
    if r.Some? {
      return;
    }

    var misplaced := FindMisplacedAz(AllWarehouses(input.desired));
    if misplaced {
      return Some(SpecifyAzWithoutPolicy);
    }

    r := CoordinatorArchCheck(input, feArch, lk.coordinatorVm);
    if r.Some? {
      return;
    }
    r := CoordinatorVolumeCheck(input);
    if r.Some? {
      return;
    }

    if DefaultWarehouseChanged(input) {
      r := CheckWarehouseList(input, [input.desired.defaultWarehouse], feArch, lk.computeVm);
      if r.Some? {
        return;
      }
    }

    if NamedWarehousesChanged(input) {
      var dup := FindDuplicate(TrimmedNames(input.desired.warehouses));
      if dup.Some? {
        return Some(DuplicateWarehouseName(dup.value));
      }
      r := CheckWarehouseList(input, input.desired.warehouses, feArch, lk.computeVm);
    }
  }

  method FindMisplacedAz(ws: seq<Warehouse>) returns (found: bool)
    ensures found <==> AnyMisplacedAz(ws)
  {
    for i := 0 to |ws|
      invariant forall k :: 0 <= k < i ==> !MisplacedAz(ws[k])
    {
      if MisplacedAz(ws[i]) {
        return true;
      }
    }
    return false;
  }

  /** Counts every name in a map, then reports the first name in list order
      whose count exceeds one. */
  method FindDuplicate(names: seq<string>) returns (dup: Option<string>)
    ensures dup == FirstDuplicate(names)
  {
    var counts: map<string, int> := map[];
    for i := 0 to |names|
      invariant forall n :: n in counts <==> n in names[..i]
      invariant forall n :: n in counts ==> counts[n] == multiset(names[..i])[n]
    {
      assert names[..i + 1] == names[..i] + [names[i]];
      if names[i] in counts {
        counts := counts[names[i] := counts[names[i]] + 1];
      } else {
        counts := counts[names[i] := 1];
      }
    }
    assert names[..|names|] == names;
    for i := 0 to |names|
      invariant FirstDuplicateFrom(names, i) == FirstDuplicate(names)
    {
      if counts[names[i]] > 1 {
        return Some(names[i]);
      }
    }
    return None;
  }

  method ScanVms(ws: seq<Warehouse>, feArch: string, computeVm: string -> VmLookup) returns (scan: VmScan)
    ensures scan == ScanWarehouses(ws, feArch, computeVm)
  {
    var vms: map<string, VmInfo> := map[];
    for i := 0 to |ws|
      invariant ScanWarehouses(ws[..i], feArch, computeVm) == VmScan(None, vms)
    {
      assert ws[..i + 1][..i] == ws[..i];
      var w := ws[i];
      var answer := computeVm(w.computeNodeSize);
      var e := WarehouseVmError(w, feArch, answer);
      if e.Some? {
        assert ws[..i + 1][..i + 1] == ws[..i + 1];
        ScanStopsAtError(ws, i + 1, feArch, computeVm);
        return VmScan(e, vms);
      }
      vms := vms[Trim(w.name) := answer.info];
    }
    assert ws[..|ws|] == ws;
    return VmScan(None, vms);
  }

  method CheckDiskTypes(names: seq<string>, vms: map<string, VmInfo>, ext: map<string, ExternalInfo>)
    returns (r: Option<PlanError>)
    ensures r == DiskTypeCheck(names, vms, ext)
  {
    for i := 0 to |names|
      invariant DiskTypeCheck(names[i..], vms, ext) == DiskTypeCheck(names, vms, ext)
    {
      var n := names[i];
      if n in ext && n in vms && ext[n].isInstanceStore != vms[n].isInstanceStore {
        return Some(DiskTypeChanged(n, ext[n].isInstanceStore));
      }
      assert names[i..][1..] == names[i + 1..];
    }
    return None;
  }

  method CheckWarehouseList(input: PlanInput, ws: seq<Warehouse>, feArch: string, computeVm: string -> VmLookup)
    returns (r: Option<PlanError>)
    ensures r == WarehouseListCheck(input, ws, feArch, computeVm)
  {
    var scan := ScanVms(ws, feArch, computeVm);
    if scan.error.Some? {
      return scan.error;
    }
    r := None;
    if !IsNewCluster(input) {
      r := CheckDiskTypes(TrimmedNames(ws), scan.vms, input.externalInfo);
    }
  }

  /** Once a prefix of the list fails, the scan of the whole list reports that failure. */
  lemma {:induction false} ScanStopsAtError(ws: seq<Warehouse>, k: nat, feArch: string, computeVm: string -> VmLookup)
    requires 0 < k <= |ws|
    requires ScanWarehouses(ws[..k], feArch, computeVm).error.Some?
    ensures ScanWarehouses(ws, feArch, computeVm) == ScanWarehouses(ws[..k], feArch, computeVm)
    decreases |ws| - k
  {
    if k < |ws| {
      assert ws[..k + 1][..k] == ws[..k];
      ScanStopsAtError(ws, k + 1, feArch, computeVm);
    } else {
      assert ws[..k] == ws;
    }
  }

  /** With unique trimmed names, a successful scan records every warehouse's
      instance type under its trimmed name. */
  lemma {:induction false} ScanRecordsEveryWarehouse(ws: seq<Warehouse>, feArch: string, computeVm: string -> VmLookup)
    requires !HasDuplicate(TrimmedNames(ws))
    requires ScanWarehouses(ws, feArch, computeVm).error.None?
    ensures forall i :: 0 <= i < |ws| ==>
      && computeVm(ws[i].computeNodeSize).Found?
      && Trim(ws[i].name) in ScanWarehouses(ws, feArch, computeVm).vms
      && ScanWarehouses(ws, feArch, computeVm).vms[Trim(ws[i].name)] == computeVm(ws[i].computeNodeSize).info
    decreases |ws|
  {
    if ws != [] {
      var n := |ws| - 1;
      var init := ws[..n];
      var names := TrimmedNames(ws);
      assert !HasDuplicate(TrimmedNames(init)) by {
        forall i, j | 0 <= i < j < n
          ensures TrimmedNames(init)[i] != TrimmedNames(init)[j]
        {
          assert TrimmedNames(init)[i] == names[i] && TrimmedNames(init)[j] == names[j];
        }
      }
      ScanRecordsEveryWarehouse(init, feArch, computeVm);
      var prev := ScanWarehouses(init, feArch, computeVm).vms;
      var vms := ScanWarehouses(ws, feArch, computeVm).vms;
      assert vms == prev[Trim(ws[n].name) := computeVm(ws[n].computeNodeSize).info];
      forall i | 0 <= i < |ws|
        ensures computeVm(ws[i].computeNodeSize).Found?
        ensures Trim(ws[i].name) in vms && vms[Trim(ws[i].name)] == computeVm(ws[i].computeNodeSize).info
      {
        if i < n {
          assert ws[i] == init[i];
          var key := Trim(init[i].name);
          assert key in prev && prev[key] == computeVm(init[i].computeNodeSize).info;
          assert names[i] != names[n];
          assert key != Trim(ws[n].name);
          assert vms[key] == prev[key];
        } else {
          assert WarehouseVmError(ws[n], feArch, computeVm(ws[n].computeNodeSize)).None?;
        }
      }
    }
  }

  // ---------------------------------------------------------------------
  // Properties of the check

  /** A name counts more than once exactly when it sits at two positions. */
  lemma {:induction false} CountAboveOne(s: seq<string>, x: string)
    ensures multiset(s)[x] > 1 <==> exists i, j :: 0 <= i < j < |s| && s[i] == x && s[j] == x
    decreases |s|
  {
    if s != [] {
      var t, y := s[..|s| - 1], s[|s| - 1];
      assert s == t + [y];
      CountAboveOne(t, x);
      if exists i, j :: 0 <= i < j < |s| && s[i] == x && s[j] == x {
        var i, j :| 0 <= i < j < |s| && s[i] == x && s[j] == x;
        if j < |t| {
          assert t[i] == x && t[j] == x;
        } else {
          assert t[i] == x;
          assert x in multiset(t);
        }
      }
      if multiset(s)[x] > 1 {
        if y == x {
          assert x in multiset(t);
          var i :| 0 <= i < |t| && t[i] == x;
          assert s[i] == x && s[|t|] == x;
        } else {
          var i, j :| 0 <= i < j < |t| && t[i] == x && t[j] == x;
          assert s[i] == x && s[j] == x;
        }
      }
    }
  }

  lemma {:induction false} FirstDuplicateFromFinds(names: seq<string>, from: nat)
    requires from <= |names|
    ensures FirstDuplicateFrom(names, from).Some? <==>
      exists i :: from <= i < |names| && multiset(names)[names[i]] > 1
    ensures FirstDuplicateFrom(names, from).Some? ==> multiset(names)[FirstDuplicateFrom(names, from).value] > 1
    decreases |names| - from
  {
    if from < |names| {
      FirstDuplicateFromFinds(names, from + 1);
    }
  }

  /** The uniqueness rule reports a name exactly when some name occurs twice,
      and the name it reports occurs twice. */
  lemma {:induction false} FirstDuplicateIffRepeated(names: seq<string>)
    ensures FirstDuplicate(names).Some? <==> HasDuplicate(names)
    ensures FirstDuplicate(names).Some? ==>
      exists i, j :: 0 <= i < j < |names| && names[i] == FirstDuplicate(names).value && names[j] == names[i]
  {
    FirstDuplicateFromFinds(names, 0);
    if HasDuplicate(names) {
      var i, j :| 0 <= i < j < |names| && names[i] == names[j];
      CountAboveOne(names, names[i]);
    }
    if FirstDuplicate(names).Some? {
      var i :| 0 <= i < |names| && multiset(names)[names[i]] > 1;
      CountAboveOne(names, names[i]);
      CountAboveOne(names, FirstDuplicate(names).value);
    }
  }

  /** The errors the stages after the network rule can report. */
  lemma {:induction false} LaterStagesNeverReportNetworkErrors(input: PlanInput, feArch: string, lk: Lookups)
    ensures var e := CoordinatorArchCheck(input, feArch, lk.coordinatorVm);
      e.Some? ==> e.value.VmQueryFailed? || e.value.VmNotExists? || e.value.CoordinatorArchChanged?
    ensures var e := DefaultWarehouseCheck(input, feArch, lk.computeVm);
      e.Some? ==> IsInstanceTypeError(e.value) || e.value.DiskTypeChanged?
    ensures var e := NamedWarehousesCheck(input, feArch, lk.computeVm);
      e.Some? ==> IsInstanceTypeError(e.value) || e.value.DiskTypeChanged? || e.value.DuplicateWarehouseName?
  {
  }

  /** On a multi-AZ network the check fails with the coordinator floor error
      exactly when fewer than 3 coordinator nodes are asked for. */
  lemma MultiAzCoordinatorFloor(input: PlanInput, lk: Lookups)
    requires lk.coordinatorVm(input.desired.coordinatorNodeSize).Found?
    requires |input.desired.networkId| > 0
    requires lk.network(input.desired.networkId) == NetworkFound(true)
    ensures CheckPlan(input, lk) == Some(TooFewCoordinators) <==> input.desired.coordinatorNodeCount < 3
  {
    var feArch := lk.coordinatorVm(input.desired.coordinatorNodeSize).info.arch;
    LaterStagesNeverReportNetworkErrors(input, feArch, lk);
  }

  /** On a single-AZ network, or with no network given, the floor never applies. */
  lemma NoFloorOutsideMultiAz(input: PlanInput, lk: Lookups)
    requires |input.desired.networkId| == 0 || lk.network(input.desired.networkId) == NetworkFound(false)
    ensures CheckPlan(input, lk) != Some(TooFewCoordinators)
  {
    var fe := lk.coordinatorVm(input.desired.coordinatorNodeSize);
    if fe.Found? {
      LaterStagesNeverReportNetworkErrors(input, fe.info.arch, lk);
    }
  }

  /** Every rule before the named-warehouse rules passes. */
  predicate EarlierRulesPass(input: PlanInput, lk: Lookups)
  {
    var fe := lk.coordinatorVm(input.desired.coordinatorNodeSize);
    && fe.Found?
    && NetworkCheck(input.desired, lk.network).None?
    && !AnyMisplacedAz(AllWarehouses(input.desired))
    && CoordinatorArchCheck(input, fe.info.arch, lk.coordinatorVm).None?
    && CoordinatorVolumeCheck(input).None?
    && DefaultWarehouseCheck(input, fe.info.arch, lk.computeVm).None?
  }

  /** When the named warehouses change and the earlier rules pass, the check
      fails on a duplicate name exactly when some trimmed name occurs twice. */
  lemma DuplicateNamesRejected(input: PlanInput, lk: Lookups)
    requires EarlierRulesPass(input, lk)
    requires NamedWarehousesChanged(input)
    ensures (CheckPlan(input, lk).Some? && CheckPlan(input, lk).value.DuplicateWarehouseName?)
      <==> HasDuplicate(TrimmedNames(input.desired.warehouses))
  {
    FirstDuplicateIffRepeated(TrimmedNames(input.desired.warehouses));
  }

  /** For an existing cluster whose coordinator volume changes, and with the
      earlier rules passing, the check fails on the volume exactly when the
      new size is smaller than the old one. */
  lemma CoordinatorVolumeNeverShrinks(input: PlanInput, lk: Lookups)
    requires lk.coordinatorVm(input.desired.coordinatorNodeSize).Found?
    requires NetworkCheck(input.desired, lk.network).None?
    requires !AnyMisplacedAz(AllWarehouses(input.desired))
    requires CoordinatorArchCheck(input, lk.coordinatorVm(input.desired.coordinatorNodeSize).info.arch, lk.coordinatorVm).None?
    requires !IsNewCluster(input) && input.prior.coordinatorVolume != input.desired.coordinatorVolume
    ensures CheckPlan(input, lk) == Some(CoordinatorVolumeDecrease) <==>
      EffectiveCoordinatorVolume(input.desired.coordinatorVolume).volSize
        < EffectiveCoordinatorVolume(input.prior.coordinatorVolume).volSize
  {
    var feArch := lk.coordinatorVm(input.desired.coordinatorNodeSize).info.arch;
    LaterStagesNeverReportNetworkErrors(input, feArch, lk);
  }

  /** What an accepted warehouse list guarantees: every instance type is known
      and has the coordinator's architecture, no instance-store type carries
      a volume configuration, and for an existing cluster every warehouse
      keeps its persisted disk type. */
  predicate ConsistentWarehouses(input: PlanInput, ws: seq<Warehouse>, feArch: string, computeVm: string -> VmLookup)
  {
    && (forall w :: w in ws ==>
          var vm := computeVm(w.computeNodeSize);
          vm.Found? && vm.info.arch == feArch && !(vm.info.isInstanceStore && w.volume.Some?))
    && (!IsNewCluster(input) ==> forall w :: w in ws && Trim(w.name) in input.externalInfo ==>
          input.externalInfo[Trim(w.name)].isInstanceStore == computeVm(w.computeNodeSize).info.isInstanceStore)
  }

  /** What an accepted plan guarantees: the coordinator instance type is
      known; no warehouse sets specify_az without its policy; an existing
      cluster whose coordinator type changes keeps its architecture; a
      changed default warehouse, and changed named warehouses, are
      consistent (on create both always count as changed); and changed
      named warehouses have unique trimmed names. */
  lemma AcceptedPlanIsConsistent(input: PlanInput, lk: Lookups)
    requires CheckPlan(input, lk).None?
    ensures lk.coordinatorVm(input.desired.coordinatorNodeSize).Found?
    ensures !AnyMisplacedAz(AllWarehouses(input.desired))
    ensures !IsNewCluster(input) && input.prior.coordinatorNodeSize != input.desired.coordinatorNodeSize ==>
      && lk.coordinatorVm(input.prior.coordinatorNodeSize).Found?
      && lk.coordinatorVm(input.prior.coordinatorNodeSize).info.arch
         == lk.coordinatorVm(input.desired.coordinatorNodeSize).info.arch
    ensures DefaultWarehouseChanged(input) ==>
      ConsistentWarehouses(input, [input.desired.defaultWarehouse],
                           lk.coordinatorVm(input.desired.coordinatorNodeSize).info.arch, lk.computeVm)
    ensures NamedWarehousesChanged(input) ==>
      && !HasDuplicate(TrimmedNames(input.desired.warehouses))
      && ConsistentWarehouses(input, input.desired.warehouses,
                              lk.coordinatorVm(input.desired.coordinatorNodeSize).info.arch, lk.computeVm)
  {
    var feArch := lk.coordinatorVm(input.desired.coordinatorNodeSize).info.arch;
    if DefaultWarehouseChanged(input) {
      assert DefaultWarehouseCheck(input, feArch, lk.computeVm).None?;
      AcceptedListIsConsistent(input, [input.desired.defaultWarehouse], feArch, lk.computeVm);
    }
    if NamedWarehousesChanged(input) {
      assert NamedWarehousesCheck(input, feArch, lk.computeVm).None?;
      FirstDuplicateIffRepeated(TrimmedNames(input.desired.warehouses));
      AcceptedListIsConsistent(input, input.desired.warehouses, feArch, lk.computeVm);
    }
  }

  /** A cluster being created has no prior configuration: the check's
      answer is the same whatever prior is given. */
  lemma CreateIgnoresPrior(input: PlanInput, prior: ClusterSpec, lk: Lookups)
    requires IsNewCluster(input)
    ensures CheckPlan(input.(prior := prior), lk) == CheckPlan(input, lk)
  {
  }

  lemma {:induction false} AcceptedListIsConsistent(input: PlanInput, ws: seq<Warehouse>, feArch: string, computeVm: string -> VmLookup)
    requires !HasDuplicate(TrimmedNames(ws))
    requires WarehouseListCheck(input, ws, feArch, computeVm).None?
    ensures ConsistentWarehouses(input, ws, feArch, computeVm)
  {
    var scan := ScanWarehouses(ws, feArch, computeVm);
    assert scan.error.None?;
    forall w | w in ws
      ensures var vm := computeVm(w.computeNodeSize);
        vm.Found? && vm.info.arch == feArch && !(vm.info.isInstanceStore && w.volume.Some?)
    {
      var i :| 0 <= i < |ws| && ws[i] == w;
      assert WarehouseVmError(ws[i], feArch, computeVm(ws[i].computeNodeSize)).None?;
    }
    if !IsNewCluster(input) {
      ScanRecordsEveryWarehouse(ws, feArch, computeVm);
      var names := TrimmedNames(ws);
      assert DiskTypeCheck(names, scan.vms, input.externalInfo).None?;
      forall w | w in ws && Trim(w.name) in input.externalInfo
        ensures input.externalInfo[Trim(w.name)].isInstanceStore == computeVm(w.computeNodeSize).info.isInstanceStore
      {
        var i :| 0 <= i < |ws| && ws[i] == w;
        assert names[i] == Trim(w.name);
        assert names[i] in scan.vms;
      }
    }
  }
}
