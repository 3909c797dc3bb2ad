/** What a whole cluster update promises: nothing is called before the
    up-front checks pass; the coordinator is changed stage by stage before
    any warehouse, and releases come last; a successful update creates
    exactly the warehouses whose names are new, releases exactly those
    whose names are gone, and updates every warehouse whose name is kept;
    and an update to the same configuration calls nothing. */
module UpdateProperties {
  import opened ClusterModel
  import opened Remote
  import opened WarehouseOps
  import opened ClusterUpdate

  // ---------------------------------------------------------------------
  // Up-front checks

  /** The cluster has settled in a state it can be changed in. */
  predicate Settles(settled: Settled)
  {
    settled.Reached? && settled.state != Released && settled.state != ClusterState.Abnormal
  }

  predicate NoImmutableChange(prev: ClusterSpec, next: ClusterSpec)
  {
    forall i :: 0 <= i < |ImmutableFields| ==> !FieldChanged(prev, next, ImmutableFields[i])
  }

  /** A change to an immutable field, or a cluster that did not settle in a
      usable state, is an error before anything is called. */
  lemma RejectedBeforeAnyCall(prev: ClusterSpec, next: ClusterSpec, ext: map<string, ExternalInfo>, freeTier: bool,
                              settled: Settled, respond: Op -> Response)
    requires !NoImmutableChange(prev, next) || !Settles(settled)
    ensures var r := UpdateClusterRun(prev, next, ext, freeTier, settled, respond);
            r.trace == [] && r.diag.Some? && r.diag.value.severity == Error
  {
  }

  /** Past the up-front checks, the update is the changes themselves. */
  lemma ChecksPassed(prev: ClusterSpec, next: ClusterSpec, ext: map<string, ExternalInfo>, freeTier: bool,
                     settled: Settled, respond: Op -> Response)
    requires NoImmutableChange(prev, next) && Settles(settled)
    ensures UpdateClusterRun(prev, next, ext, freeTier, settled, respond) == ChangesRun(prev, next, ext, freeTier, respond)
  {
  }

  // ---------------------------------------------------------------------
  // Idle suspension of the cluster

  /** A changed idle interval is the first call: a positive interval is
      sent, in milliseconds, with the feature on; otherwise the old interval
      is sent with the feature off. */
  lemma ClusterIdleComesFirst(prev: ClusterSpec, next: ClusterSpec, ext: map<string, ExternalInfo>, freeTier: bool,
                              settled: Settled, respond: Op -> Response)
    requires NoImmutableChange(prev, next) && Settles(settled)
    requires prev.idleSuspendInterval != next.idleSuspendInterval
    ensures var t := UpdateClusterRun(prev, next, ext, freeTier, settled, respond).trace;
            && |t| > 0
            && (next.idleSuspendInterval > 0 ==>
                  t[0] == UpdateClusterIdle(next.idleSuspendInterval * MillisPerMinute, true))
            && (next.idleSuspendInterval <= 0 ==>
                  t[0] == UpdateClusterIdle(prev.idleSuspendInterval * MillisPerMinute, false))
  {
    ChecksPassed(prev, next, ext, freeTier, settled, respond);
    FirstCallFirst(CoordinatorSteps(prev, next, freeTier), respond);
  }

  // ---------------------------------------------------------------------
  // Order of the calls

  /** Where a call falls in a cluster update: the coordinator stages in
      their order, then changes to warehouses, then releases. */
  function ClusterRank(op: Op): int
  {
    match op
    case UpdateClusterIdle(_, _) => 0
    case UnlockFreeTier => 1
    case ScaleUpCoordinator(_) => 2
    case ScaleOutCoordinator(_) => 3
    case ScaleInCoordinator(_) => 3
    case ModifyVolume(target, _, _, _) => if target == Coordinator then 4 else 6
    case UpsertConfig(target, _) => if target == Coordinator then 5 else 6
    case ReleaseWarehouse(_) => 7
    case _ => 6
  }

  /** Coordinator calls strictly ascend; warehouse calls and releases may repeat. */
  predicate RankBefore(a: int, b: int)
  {
    a < b || (a == b && a >= 6)
  }

  predicate InClusterOrder(ops: seq<Op>)
  {
    forall i, j :: 0 <= i < j < |ops| ==> RankBefore(ClusterRank(ops[i]), ClusterRank(ops[j]))
  }

  predicate RanksWithin(ops: seq<Op>, lo: int, hi: int)
  {
    forall i :: 0 <= i < |ops| ==> lo <= ClusterRank(ops[i]) <= hi
  }

  /** Two runs in order, the first below the second, stay in order. */
  lemma ThenInOrder(r1: Run, r2: Run, lo: int, k: int, hi: int)
    requires lo <= k <= hi && k >= 6
    requires InClusterOrder(r1.trace) && RanksWithin(r1.trace, lo, k)
    requires InClusterOrder(r2.trace) && RanksWithin(r2.trace, k, hi)
    ensures InClusterOrder(Then(r1, r2).trace) && RanksWithin(Then(r1, r2).trace, lo, hi)
  {
    if r1.diag.None? {
      var a, b := r1.trace, r2.trace;
      forall i, j | 0 <= i < j < |a + b|
        ensures RankBefore(ClusterRank((a + b)[i]), ClusterRank((a + b)[j]))
      {
        if j >= |a| {
          assert (a + b)[j] == b[j - |a|];
          if i >= |a| {
            assert (a + b)[i] == b[i - |a|];
          }
        }
      }
      forall i | 0 <= i < |a + b|
        ensures lo <= ClusterRank((a + b)[i]) <= hi
      {
        if i >= |a| {
          assert (a + b)[i] == b[i - |a|];
        }
      }
    }
  }

  /** The coordinator stage k calls with rank k. */
  lemma CoordinatorStagesRanked(prev: ClusterSpec, next: ClusterSpec, freeTier: bool)
    ensures var steps := CoordinatorSteps(prev, next, freeTier);
            forall k :: 0 <= k < |steps| && steps[k].Call? ==> ClusterRank(steps[k].op) == k
  {
  }

  lemma CoordinatorInOrder(prev: ClusterSpec, next: ClusterSpec, freeTier: bool, respond: Op -> Response)
    ensures var t := RunSteps(CoordinatorSteps(prev, next, freeTier), respond).trace;
            InClusterOrder(t) && RanksWithin(t, 0, 5)
  {
    var steps := CoordinatorSteps(prev, next, freeTier);
    CoordinatorStagesRanked(prev, next, freeTier);
    CallOpsAscend(steps, ClusterRank);
    CallOpsSatisfy(steps, op => 0 <= ClusterRank(op) <= 5);
    RunIssuesPlanPrefix(steps, respond);
  }

  /** A justified warehouse call changes a warehouse; it neither creates nor releases one. */
  lemma JustifiedRank(o: Warehouse, n: Warehouse, ext: ExternalInfo, op: Op)
    requires Justified(o, n, ext, op)
    ensures ClusterRank(op) == 6 && !op.CreateWarehouse?
  {
  }

  lemma UpdateRunRanks(o: Warehouse, n: Warehouse, ext: ExternalInfo, respond: Op -> Response)
    ensures var t := UpdateWarehouseRun(o, n, ext, respond).trace;
            RanksWithin(t, 6, 6) && forall i :: 0 <= i < |t| ==> !t[i].CreateWarehouse?
  {
    var t := UpdateWarehouseRun(o, n, ext, respond).trace;
    UpdateCallsAreJustified(o, n, ext, respond);
    forall i | 0 <= i < |t|
      ensures ClusterRank(t[i]) == 6 && !t[i].CreateWarehouse?
    {
      JustifiedRank(o, n, ext, t[i]);
    }
  }

  lemma CreateRunRanks(w: Warehouse, respond: Op -> Response)
    ensures RanksWithin(CreateWarehouseRun(w, respond).trace, 6, 6)
  {
    if respond(CreateWarehouse(CreateRequestOf(w))).Done? {
      CreatedWarehouseOnlyWarns(w, respond);
    } else {
      FailedCreationStops(w, respond);
    }
  }

  lemma UpsertRanks(oldIndex: map<string, Warehouse>, w: Warehouse, ext: map<string, ExternalInfo>,
                    respond: Op -> Response)
    ensures RanksWithin(UpsertRun(oldIndex, w, ext, respond).trace, 6, 6)
  {
    if w.name in oldIndex {
      if w.name in ext {
        UpdateRunRanks(oldIndex[w.name], w, ext[w.name], respond);
      }
    } else {
      CreateRunRanks(w, respond);
    }
  }

  /** Runs whose calls all have rank k, one after the other. */
  lemma ThenSameRank(r1: Run, r2: Run, k: int)
    requires k >= 6 && RanksWithin(r1.trace, k, k) && RanksWithin(r2.trace, k, k)
    ensures RanksWithin(Then(r1, r2).trace, k, k)
  {
    if r1.diag.None? {
      forall i | 0 <= i < |r1.trace + r2.trace|
        ensures ClusterRank((r1.trace + r2.trace)[i]) == k
      {
        if i >= |r1.trace| {
          assert (r1.trace + r2.trace)[i] == r2.trace[i - |r1.trace|];
        }
      }
    }
  }

  lemma {:induction false} UpsertsRanks(oldIndex: map<string, Warehouse>, ws: seq<Warehouse>,
                                        ext: map<string, ExternalInfo>, respond: Op -> Response)
    ensures RanksWithin(UpsertsRun(oldIndex, ws, ext, respond).trace, 6, 6)
    decreases |ws|
  {
    if ws != [] {
      UpsertsRanks(oldIndex, ws[..|ws| - 1], ext, respond);
      UpsertRanks(oldIndex, ws[|ws| - 1], ext, respond);
      ThenSameRank(UpsertsRun(oldIndex, ws[..|ws| - 1], ext, respond), UpsertRun(oldIndex, ws[|ws| - 1], ext, respond), 6);
    }
  }

  lemma {:induction false} DeletesRanks(newIndex: map<string, Warehouse>, ws: seq<Warehouse>,
                                        ext: map<string, ExternalInfo>, respond: Op -> Response)
    ensures RanksWithin(DeletesRun(newIndex, ws, ext, respond).trace, 7, 7)
    decreases |ws|
  {
    if ws != [] {
      DeletesRanks(newIndex, ws[..|ws| - 1], ext, respond);
      ThenSameRank(DeletesRun(newIndex, ws[..|ws| - 1], ext, respond), DeleteRun(newIndex, ws[|ws| - 1], ext, respond), 7);
    }
  }

  /** Calls of a single rank from 6 up are in order. */
  lemma SameRankInOrder(ops: seq<Op>, k: int)
    requires k >= 6 && RanksWithin(ops, k, k)
    ensures InClusterOrder(ops)
  {
  }

  lemma WarehouseRunsInOrder(prev: ClusterSpec, next: ClusterSpec, ext: map<string, ExternalInfo>, respond: Op -> Response)
    ensures var d := DefaultWarehouseRun(prev, next, ext, respond).trace;
            InClusterOrder(d) && RanksWithin(d, 6, 6)
    ensures var l := WarehouseListRun(prev, next, ext, respond).trace;
            InClusterOrder(l) && RanksWithin(l, 6, 7)
  {
    if prev.defaultWarehouse != next.defaultWarehouse && DefaultWarehouseName in ext {
      UpdateRunRanks(prev.defaultWarehouse, next.defaultWarehouse, ext[DefaultWarehouseName], respond);
    }
    SameRankInOrder(DefaultWarehouseRun(prev, next, ext, respond).trace, 6);
    if prev.warehouses != next.warehouses {
      var upserts := UpsertsRun(NameIndex(prev.warehouses), next.warehouses, ext, respond);
      var deletes := DeletesRun(NameIndex(next.warehouses), prev.warehouses, ext, respond);
      UpsertsRanks(NameIndex(prev.warehouses), next.warehouses, ext, respond);
      DeletesRanks(NameIndex(next.warehouses), prev.warehouses, ext, respond);
      SameRankInOrder(upserts.trace, 6);
      SameRankInOrder(deletes.trace, 7);
      ThenInOrder(upserts, deletes, 6, 6, 7);
    }
  }

  /** An update calls the coordinator stages in order, each at most once,
      then changes warehouses, and releases warehouses last: no call
      follows a release except another release. */
  lemma UpdateIsInClusterOrder(prev: ClusterSpec, next: ClusterSpec, ext: map<string, ExternalInfo>, freeTier: bool,
                               settled: Settled, respond: Op -> Response)
    ensures InClusterOrder(UpdateClusterRun(prev, next, ext, freeTier, settled, respond).trace)
  {
    if NoImmutableChange(prev, next) && Settles(settled) {
      ChecksPassed(prev, next, ext, freeTier, settled, respond);
      var c := RunSteps(CoordinatorSteps(prev, next, freeTier), respond);
      var d := DefaultWarehouseRun(prev, next, ext, respond);
      var l := WarehouseListRun(prev, next, ext, respond);
      CoordinatorInOrder(prev, next, freeTier, respond);
      WarehouseRunsInOrder(prev, next, ext, respond);
      ThenInOrder(c, d, 0, 6, 6);
      ThenInOrder(Then(c, d), l, 0, 6, 7);
    } else {
      RejectedBeforeAnyCall(prev, next, ext, freeTier, settled, respond);
    }
  }

  // ---------------------------------------------------------------------
  // The coordinator

  /** A call the update may make about the coordinator: only for a setting
      that changed, carrying its new value. Calls about warehouses are not
      constrained here. */
  predicate CoordinatorCallJustified(prev: ClusterSpec, next: ClusterSpec, freeTier: bool, op: Op)
  {
    match op
    case UpdateClusterIdle(_, _) =>
      prev.idleSuspendInterval != next.idleSuspendInterval
      && op == ClusterIdleOp(prev.idleSuspendInterval, next.idleSuspendInterval)
    case UnlockFreeTier => NeedUnlock(prev, next, freeTier)
    case ScaleUpCoordinator(size) => prev.coordinatorNodeSize != next.coordinatorNodeSize && size == next.coordinatorNodeSize
    case ScaleOutCoordinator(count) => count == next.coordinatorNodeCount && next.coordinatorNodeCount > prev.coordinatorNodeCount
    case ScaleInCoordinator(count) => count == next.coordinatorNodeCount && next.coordinatorNodeCount < prev.coordinatorNodeCount
    case ModifyVolume(target, _, _, _) =>
      target == Coordinator ==>
        (&& prev.coordinatorVolume != next.coordinatorVolume
         && op == CoordinatorVolumeOp(EffectiveCoordinatorVolume(prev.coordinatorVolume),
                                      EffectiveCoordinatorVolume(next.coordinatorVolume)))
    case UpsertConfig(target, configs) =>
      target == Coordinator ==> prev.coordinatorConfigs != next.coordinatorConfigs && configs == next.coordinatorConfigs
    case _ => true
  }

  lemma CoordinatorStagesJustified(prev: ClusterSpec, next: ClusterSpec, freeTier: bool)
    ensures var steps := CoordinatorSteps(prev, next, freeTier);
            forall k :: 0 <= k < |steps| && steps[k].Call? ==> CoordinatorCallJustified(prev, next, freeTier, steps[k].op)
  {
  }

  /** Every coordinator call an update makes is justified by a change. */
  lemma CoordinatorCallsAreJustified(prev: ClusterSpec, next: ClusterSpec, ext: map<string, ExternalInfo>, freeTier: bool,
                                     settled: Settled, respond: Op -> Response)
    ensures var t := UpdateClusterRun(prev, next, ext, freeTier, settled, respond).trace;
            forall i :: 0 <= i < |t| ==> CoordinatorCallJustified(prev, next, freeTier, t[i])
  {
    if NoImmutableChange(prev, next) && Settles(settled) {
      ChecksPassed(prev, next, ext, freeTier, settled, respond);
      var steps := CoordinatorSteps(prev, next, freeTier);
      var c := RunSteps(steps, respond);
      var d := DefaultWarehouseRun(prev, next, ext, respond);
      var l := WarehouseListRun(prev, next, ext, respond);
      CoordinatorStagesJustified(prev, next, freeTier);
      CallOpsSatisfy(steps, op => CoordinatorCallJustified(prev, next, freeTier, op));
      RunIssuesPlanPrefix(steps, respond);
      WarehouseRunsInOrder(prev, next, ext, respond);
      var t := Then(Then(c, d), l).trace;
      forall i | 0 <= i < |t|
        ensures CoordinatorCallJustified(prev, next, freeTier, t[i])
      {
        if i >= |c.trace| {
          ThenPart(c, d, l, i);
        }
      }
    } else {
      RejectedBeforeAnyCall(prev, next, ext, freeTier, settled, respond);
    }
  }

  /** A call of the chained runs past the first run's calls comes from the later runs. */
  lemma ThenPart(c: Run, d: Run, l: Run, i: int)
    requires RanksWithin(d.trace, 6, 6) && RanksWithin(l.trace, 6, 7)
    requires |c.trace| <= i < |Then(Then(c, d), l).trace|
    ensures ClusterRank(Then(Then(c, d), l).trace[i]) >= 6
  {
    var cd := Then(c, d);
    if c.diag.None? {
      if i < |cd.trace| {
        assert cd.trace[i] == d.trace[i - |c.trace|];
      } else {
        assert Then(cd, l).trace[i] == l.trace[i - |cd.trace|];
      }
    }
  }

  /** An update that succeeds has made the coordinator call for every
      coordinator setting that changed. */
  lemma SuccessfulUpdateCoversCoordinator(prev: ClusterSpec, next: ClusterSpec, ext: map<string, ExternalInfo>,
                                          freeTier: bool, settled: Settled, respond: Op -> Response)
    requires UpdateClusterRun(prev, next, ext, freeTier, settled, respond).diag.None?
    ensures var t := UpdateClusterRun(prev, next, ext, freeTier, settled, respond).trace;
            && (prev.idleSuspendInterval != next.idleSuspendInterval ==>
                  ClusterIdleOp(prev.idleSuspendInterval, next.idleSuspendInterval) in t)
            && (NeedUnlock(prev, next, freeTier) ==> UnlockFreeTier in t)
            && (prev.coordinatorNodeSize != next.coordinatorNodeSize ==> ScaleUpCoordinator(next.coordinatorNodeSize) in t)
            && (next.coordinatorNodeCount > prev.coordinatorNodeCount ==> ScaleOutCoordinator(next.coordinatorNodeCount) in t)
            && (next.coordinatorNodeCount < prev.coordinatorNodeCount ==> ScaleInCoordinator(next.coordinatorNodeCount) in t)
            && (prev.coordinatorVolume != next.coordinatorVolume ==>
                  CoordinatorVolumeOp(EffectiveCoordinatorVolume(prev.coordinatorVolume),
                                      EffectiveCoordinatorVolume(next.coordinatorVolume)) in t)
            && (prev.coordinatorConfigs != next.coordinatorConfigs ==> UpsertConfig(Coordinator, next.coordinatorConfigs) in t)
  {
    if !(NoImmutableChange(prev, next) && Settles(settled)) {
      RejectedBeforeAnyCall(prev, next, ext, freeTier, settled, respond);
      assert false;
    }
    ChecksPassed(prev, next, ext, freeTier, settled, respond);
    var steps := CoordinatorSteps(prev, next, freeTier);
    var c := RunSteps(steps, respond);
    RunIssuesPlanPrefix(steps, respond);
    assert c.trace <= UpdateClusterRun(prev, next, ext, freeTier, settled, respond).trace;
    if steps[0].Call? { CallHeld(steps, 0); }
    if steps[1].Call? { CallHeld(steps, 1); }
    if steps[2].Call? { CallHeld(steps, 2); }
    if steps[3].Call? { CallHeld(steps, 3); }
    if steps[4].Call? { CallHeld(steps, 4); }
    if steps[5].Call? { CallHeld(steps, 5); }
  }

  /** On success the coordinator is scaled out to the new count exactly
      when the count grows, and scaled in exactly when it shrinks. */
  lemma CoordinatorScaleChoice(prev: ClusterSpec, next: ClusterSpec, ext: map<string, ExternalInfo>, freeTier: bool,
                               settled: Settled, respond: Op -> Response, count: int)
    requires UpdateClusterRun(prev, next, ext, freeTier, settled, respond).diag.None?
    ensures var t := UpdateClusterRun(prev, next, ext, freeTier, settled, respond).trace;
            && (ScaleOutCoordinator(count) in t <==> count == next.coordinatorNodeCount > prev.coordinatorNodeCount)
            && (ScaleInCoordinator(count) in t <==> count == next.coordinatorNodeCount < prev.coordinatorNodeCount)
  {
    SuccessfulUpdateCoversCoordinator(prev, next, ext, freeTier, settled, respond);
    CoordinatorCallsAreJustified(prev, next, ext, freeTier, settled, respond);
  }

  // ---------------------------------------------------------------------
  // Matching warehouses by name

  /** The warehouse index holds exactly the names of the list. */
  lemma {:induction false} NameIndexKeys(ws: seq<Warehouse>)
    ensures forall name :: name in NameIndex(ws) <==> name in Names(ws)
    decreases |ws|
  {
    if ws != [] {
      NameIndexKeys(ws[..|ws| - 1]);
    }
  }

  /** The names of the warehouses a sequence of calls creates, in order. */
  function CreatedNames(t: seq<Op>): seq<string>
    decreases |t|
  {
    if t == [] then []
    else CreatedNames(t[..|t| - 1]) + (if t[|t| - 1].CreateWarehouse? then [t[|t| - 1].request.name] else [])
  }

  /** The ids of the warehouses a sequence of calls releases, in order. */
  function ReleasedIds(t: seq<Op>): seq<string>
    decreases |t|
  {
    if t == [] then []
    else ReleasedIds(t[..|t| - 1]) + (if t[|t| - 1].ReleaseWarehouse? then [t[|t| - 1].warehouseId] else [])
  }

  /** The names of the new list not known before: the warehouses to create. */
  function AddedNames(ws: seq<Warehouse>, oldIndex: map<string, Warehouse>): seq<string>
    decreases |ws|
  {
    if ws == [] then []
    else AddedNames(ws[..|ws| - 1], oldIndex) + (if ws[|ws| - 1].name in oldIndex then [] else [ws[|ws| - 1].name])
  }

  /** The recorded ids of the old warehouses whose names are gone: the ones to release. */
  function RemovedIds(ws: seq<Warehouse>, newIndex: map<string, Warehouse>, ext: map<string, ExternalInfo>): seq<string>
    decreases |ws|
  {
    if ws == [] then []
    else RemovedIds(ws[..|ws| - 1], newIndex, ext)
         + (if ws[|ws| - 1].name !in newIndex && ws[|ws| - 1].name in ext then [ext[ws[|ws| - 1].name].id] else [])
  }

  /** A name is to be created exactly when the new list has it and the old one does not. */
  lemma {:induction false} AddedNamesAreNew(ws: seq<Warehouse>, oldIndex: map<string, Warehouse>)
    ensures forall name :: name in AddedNames(ws, oldIndex) <==> name in Names(ws) && name !in oldIndex
    decreases |ws|
  {
    if ws != [] {
      AddedNamesAreNew(ws[..|ws| - 1], oldIndex);
    }
  }

  /** Every old warehouse whose name is gone and whose id is recorded is to be released. */
  lemma {:induction false} RemovedIdsCoverGone(ws: seq<Warehouse>, newIndex: map<string, Warehouse>,
                                               ext: map<string, ExternalInfo>)
    ensures forall i :: 0 <= i < |ws| && ws[i].name !in newIndex && ws[i].name in ext ==>
              ext[ws[i].name].id in RemovedIds(ws, newIndex, ext)
    ensures forall id :: id in RemovedIds(ws, newIndex, ext) ==>
              exists i :: 0 <= i < |ws| && ws[i].name !in newIndex && ws[i].name in ext && ext[ws[i].name].id == id
    decreases |ws|
  {
    if ws != [] {
      var init := ws[..|ws| - 1];
      RemovedIdsCoverGone(init, newIndex, ext);
      forall id | id in RemovedIds(ws, newIndex, ext)
        ensures exists i :: 0 <= i < |ws| && ws[i].name !in newIndex && ws[i].name in ext && ext[ws[i].name].id == id
      {
        if id in RemovedIds(init, newIndex, ext) {
          var i :| 0 <= i < |init| && init[i].name !in newIndex && init[i].name in ext && ext[init[i].name].id == id;
          assert ws[i] == init[i];
        } else {
          assert ws[|ws| - 1].name !in newIndex && ws[|ws| - 1].name in ext && ext[ws[|ws| - 1].name].id == id;
        }
      }
    }
  }

  lemma {:induction false} CreatedNamesAppend(a: seq<Op>, b: seq<Op>)
    ensures CreatedNames(a + b) == CreatedNames(a) + CreatedNames(b)
    decreases |b|
  {
    if b == [] {
      assert a + b == a;
    } else {
      assert (a + b)[..|a + b| - 1] == a + b[..|b| - 1];
      CreatedNamesAppend(a, b[..|b| - 1]);
    }
  }

  lemma {:induction false} ReleasedIdsAppend(a: seq<Op>, b: seq<Op>)
    ensures ReleasedIds(a + b) == ReleasedIds(a) + ReleasedIds(b)
    decreases |b|
  {
    if b == [] {
      assert a + b == a;
    } else {
      assert (a + b)[..|a + b| - 1] == a + b[..|b| - 1];
      ReleasedIdsAppend(a, b[..|b| - 1]);
    }
  }

  /** Calls that neither create nor release name nothing created or released. */
  lemma {:induction false} NoCreatesNoReleases(t: seq<Op>)
    requires forall i :: 0 <= i < |t| ==> !t[i].CreateWarehouse? && !t[i].ReleaseWarehouse?
    ensures CreatedNames(t) == [] && ReleasedIds(t) == []
    decreases |t|
  {
    if t != [] {
      NoCreatesNoReleases(t[..|t| - 1]);
    }
  }

  /** Releases only name nothing created. */
  lemma {:induction false} ReleasesCreateNothing(t: seq<Op>)
    requires RanksWithin(t, 7, 7)
    ensures CreatedNames(t) == []
    decreases |t|
  {
    if t != [] {
      ReleasesCreateNothing(t[..|t| - 1]);
    }
  }

  /** A successful creation creates the warehouse's name and releases nothing. */
  lemma CreationNames(w: Warehouse, respond: Op -> Response)
    requires CreateWarehouseRun(w, respond).diag.None?
    ensures CreatedNames(CreateWarehouseRun(w, respond).trace) == [w.name]
    ensures ReleasedIds(CreateWarehouseRun(w, respond).trace) == []
  {
    var t := CreateWarehouseRun(w, respond).trace;
    var create := CreateWarehouse(CreateRequestOf(w));
    CreatedWarehouseOnlyWarns(w, respond);
    var rest := t[1..];
    assert t == [create] + rest;
    NoCreatesNoReleases(rest);
    CreatedNamesAppend([create], rest);
    ReleasedIdsAppend([create], rest);
    assert [create][..0] == [];
  }

  lemma UpsertNames(oldIndex: map<string, Warehouse>, w: Warehouse, ext: map<string, ExternalInfo>,
                    respond: Op -> Response)
    requires UpsertRun(oldIndex, w, ext, respond).diag.None?
    ensures CreatedNames(UpsertRun(oldIndex, w, ext, respond).trace) == if w.name in oldIndex then [] else [w.name]
    ensures ReleasedIds(UpsertRun(oldIndex, w, ext, respond).trace) == []
  {
    if w.name in oldIndex {
      var t := UpdateWarehouseRun(oldIndex[w.name], w, ext[w.name], respond).trace;
      UpdateRunRanks(oldIndex[w.name], w, ext[w.name], respond);
      NoCreatesNoReleases(t);
    } else {
      CreationNames(w, respond);
    }
  }

  /** Updating and creating the new list, when it succeeds, creates exactly
      the new names, in list order, and releases nothing. */
  lemma {:induction false} UpsertsNames(oldIndex: map<string, Warehouse>, ws: seq<Warehouse>,
                                        ext: map<string, ExternalInfo>, respond: Op -> Response)
    requires UpsertsRun(oldIndex, ws, ext, respond).diag.None?
    ensures CreatedNames(UpsertsRun(oldIndex, ws, ext, respond).trace) == AddedNames(ws, oldIndex)
    ensures ReleasedIds(UpsertsRun(oldIndex, ws, ext, respond).trace) == []
    decreases |ws|
  {
    if ws != [] {
      var init := UpsertsRun(oldIndex, ws[..|ws| - 1], ext, respond);
      var last := UpsertRun(oldIndex, ws[|ws| - 1], ext, respond);
      UpsertsNames(oldIndex, ws[..|ws| - 1], ext, respond);
      UpsertNames(oldIndex, ws[|ws| - 1], ext, respond);
      CreatedNamesAppend(init.trace, last.trace);
      ReleasedIdsAppend(init.trace, last.trace);
    }
  }

  /** Releasing the old list, when it succeeds, releases exactly the
      recorded ids of the names that are gone, in list order. */
  lemma {:induction false} DeletesIds(newIndex: map<string, Warehouse>, ws: seq<Warehouse>,
                                      ext: map<string, ExternalInfo>, respond: Op -> Response)
    requires DeletesRun(newIndex, ws, ext, respond).diag.None?
    ensures ReleasedIds(DeletesRun(newIndex, ws, ext, respond).trace) == RemovedIds(ws, newIndex, ext)
    decreases |ws|
  {
    if ws != [] {
      var init := DeletesRun(newIndex, ws[..|ws| - 1], ext, respond);
      var last := DeleteRun(newIndex, ws[|ws| - 1], ext, respond);
      DeletesIds(newIndex, ws[..|ws| - 1], ext, respond);
      ReleasedIdsAppend(init.trace, last.trace);
      if last.trace != [] {
        assert last.trace == [ReleaseWarehouse(ext[ws[|ws| - 1].name].id)];
        assert [ReleaseWarehouse(ext[ws[|ws| - 1].name].id)][..0] == [];
      }
    }
  }

  /** A successful change of the warehouse list creates exactly the
      warehouses whose names are new and releases exactly the recorded ids
      of those whose names are gone. */
  lemma WarehouseChangesMatchDiff(before: seq<Warehouse>, after: seq<Warehouse>, ext: map<string, ExternalInfo>,
                                  respond: Op -> Response)
    requires WarehouseChangesRun(before, after, ext, respond).diag.None?
    ensures var t := WarehouseChangesRun(before, after, ext, respond).trace;
            && CreatedNames(t) == AddedNames(after, NameIndex(before))
            && ReleasedIds(t) == RemovedIds(before, NameIndex(after), ext)
  {
    var upserts := UpsertsRun(NameIndex(before), after, ext, respond);
    var deletes := DeletesRun(NameIndex(after), before, ext, respond);
    UpsertsNames(NameIndex(before), after, ext, respond);
    DeletesIds(NameIndex(after), before, ext, respond);
    DeletesRanks(NameIndex(after), before, ext, respond);
    ReleasesCreateNothing(deletes.trace);
    CreatedNamesAppend(upserts.trace, deletes.trace);
    ReleasedIdsAppend(upserts.trace, deletes.trace);
  }

  /** The calls of part occur, one after the other, in whole from position i. */
  predicate InfixAt(part: seq<Op>, whole: seq<Op>, i: int)
  {
    0 <= i <= |whole| - |part| && whole[i..i + |part|] == part
  }

  ghost predicate Infix(part: seq<Op>, whole: seq<Op>)
  {
    exists i :: InfixAt(part, whole, i)
  }

  /** In a successful pass over the new list, the warehouse at position k
      whose name was known has been updated with its recorded external
      info, and that update succeeded with its calls issued together. */
  lemma {:induction false} UpsertsUpdateKept(oldIndex: map<string, Warehouse>, ws: seq<Warehouse>,
                                             ext: map<string, ExternalInfo>, respond: Op -> Response, k: nat)
    requires k < |ws| && ws[k].name in oldIndex
    requires UpsertsRun(oldIndex, ws, ext, respond).diag.None?
    ensures ws[k].name in ext
    ensures var u := UpdateWarehouseRun(oldIndex[ws[k].name], ws[k], ext[ws[k].name], respond);
            u.diag.None? && Infix(u.trace, UpsertsRun(oldIndex, ws, ext, respond).trace)
    decreases |ws|
  {
    var prev := UpsertsRun(oldIndex, ws[..|ws| - 1], ext, respond);
    var last := UpsertRun(oldIndex, ws[|ws| - 1], ext, respond);
    var whole := UpsertsRun(oldIndex, ws, ext, respond).trace;
    assert prev.diag.None? && whole == prev.trace + last.trace;
    if k == |ws| - 1 {
      var u := UpdateWarehouseRun(oldIndex[ws[k].name], ws[k], ext[ws[k].name], respond);
      assert InfixAt(u.trace, whole, |prev.trace|);
    } else {
      assert ws[..|ws| - 1][k] == ws[k];
      UpsertsUpdateKept(oldIndex, ws[..|ws| - 1], ext, respond, k);
      var u := UpdateWarehouseRun(oldIndex[ws[k].name], ws[k], ext[ws[k].name], respond);
      var i :| InfixAt(u.trace, prev.trace, i);
      assert whole[i..i + |u.trace|] == prev.trace[i..i + |u.trace|];
      assert InfixAt(u.trace, whole, i);
    }
  }

  /** A successful change of the warehouse list has updated every warehouse
      of the new list whose name was in the old one: its external info is
      recorded, its update succeeded, and every call of that update is in
      the list's trace, so what `SuccessfulUpdateCoversChanges` promises of
      one warehouse holds in the whole change. */
  lemma KeptWarehousesUpdated(before: seq<Warehouse>, after: seq<Warehouse>, ext: map<string, ExternalInfo>,
                              respond: Op -> Response, w: Warehouse)
    requires WarehouseChangesRun(before, after, ext, respond).diag.None?
    requires w in after && w.name in NameIndex(before)
    ensures w.name in ext
    ensures var u := UpdateWarehouseRun(NameIndex(before)[w.name], w, ext[w.name], respond);
            var t := WarehouseChangesRun(before, after, ext, respond).trace;
            && u.diag.None?
            && Infix(u.trace, t)
            && forall op :: op in u.trace ==> op in t
  {
    var k :| 0 <= k < |after| && after[k] == w;
    var upserts := UpsertsRun(NameIndex(before), after, ext, respond);
    UpsertsUpdateKept(NameIndex(before), after, ext, respond, k);
    var u := UpdateWarehouseRun(NameIndex(before)[w.name], w, ext[w.name], respond);
    var i :| InfixAt(u.trace, upserts.trace, i);
    InfixInThen(u.trace, upserts, DeletesRun(NameIndex(after), before, ext, respond), i);
  }

  /** Calls found in a successful first run are found, at the same place,
      in its chaining with a second run. */
  lemma InfixInThen(part: seq<Op>, r1: Run, r2: Run, i: int)
    requires r1.diag.None? && InfixAt(part, r1.trace, i)
    ensures InfixAt(part, Then(r1, r2).trace, i)
    ensures forall op :: op in part ==> op in Then(r1, r2).trace
  {
    var t := Then(r1, r2).trace;
    assert t[i..i + |part|] == r1.trace[i..i + |part|];
    forall op | op in part
      ensures op in t
    {
      var j :| 0 <= j < |part| && part[j] == op;
      assert t[i + j] == op;
    }
  }

  // ---------------------------------------------------------------------
  // Nothing to do

  /** Updating a settled cluster to the configuration it has calls nothing. */
  lemma ConvergedUpdateIsNoOp(spec: ClusterSpec, ext: map<string, ExternalInfo>, freeTier: bool, settled: Settled,
                              respond: Op -> Response)
    requires Settles(settled)
    ensures UpdateClusterRun(spec, spec, ext, freeTier, settled, respond) == NoCalls
  {
    ChecksPassed(spec, spec, ext, freeTier, settled, respond);
    SkippedPlanIsNoOp(CoordinatorSteps(spec, spec, freeTier), respond);
  }
}
