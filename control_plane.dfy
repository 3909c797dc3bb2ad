/** The remote control plane as reconciliation sees it: the mutating calls it
    issues, the answer each call ends with once its action has been awaited,
    and the log of calls issued so far. A run of calls stops at the first call
    that does not succeed; the diagnostic it then reports says how severe the
    failure is. */
module Remote {
  import opened ClusterModel

  /** Whose volume or custom configuration a call changes. */
  datatype Target = Coordinator | WarehouseTarget(id: string)

  /** The request that creates a named warehouse. */
  datatype CreateRequest = CreateRequest(
    name: string,
    vmCate: string,
    vmNum: int,
    volumeSizeGB: int,
    volumeNum: int,
    iops: int,
    throughput: int,
    distributionPolicy: string,
    specifyAz: string)

  /** The mutating calls. In ModifyVolume a field of 0 means "not changed". */
  datatype Op =
    | UpdateClusterIdle(intervalMs: int, enable: bool)
    | UnlockFreeTier
    | ScaleUpCoordinator(vmCategory: string)
    | ScaleOutCoordinator(expectNum: int)
    | ScaleInCoordinator(expectNum: int)
    | ModifyVolume(target: Target, volSize: int, iops: int, throughput: int)
    | UpsertConfig(target: Target, configs: map<string, string>)
    | ChangeDistribution(warehouseId: string, policy: string, specifyAz: string)
    | ScaleWarehouseSize(warehouseId: string, vmCate: string)
    | ScaleWarehouseNum(warehouseId: string, vmNum: int)
    | UpdateWarehouseIdle(warehouseId: string, intervalMs: int, enable: bool)
    | ResumeWarehouse(warehouseId: string)
    | SuspendWarehouse(warehouseId: string)
    | SaveAutoScaling(warehouseId: string, policy: string)
    | DeleteAutoScaling(warehouseId: string)
    | CreateWarehouse(request: CreateRequest)
    | ReleaseWarehouse(warehouseId: string)

  /** How a call ends once its action, if any, has been awaited: success
      (carrying the id of a created entity), a failed call, a failed or timed
      out wait, or a terminal abnormal/failed state with its reason. */
  datatype Response = Done(id: string) | CallFailed(msg: string) | WaitFailed(msg: string) | Abnormal(reason: string)

  datatype Severity = Warning | Error | Crash

  datatype Failure =
    | RemoteFailure(op: Op, response: Response)
    | VolNumberImmutable
    | VolSizeDecrease
    | MissingExternalInfo(name: string)
    | ImmutableField(field: string)
    | ClusterWaitFailed(msg: string)
    | ClusterNotFound
    | ClusterAbnormal(reason: string)

  datatype Diag = Diag(severity: Severity, failure: Failure)

  /** The calls a run issued, in order, and the diagnostic it stopped with. */
  datatype Run = Run(trace: seq<Op>, diag: Option<Diag>)

  const NoCalls: Run := Run([], None)

  /** A run that stops before issuing anything. */
  function Stop(severity: Severity, failure: Failure): Run
  {
    Run([], Some(Diag(severity, failure)))
  }

  /** One call: it fails with the given severity unless it is answered Done. */
  function Issue(op: Op, severity: Severity, respond: Op -> Response): Run
  {
    var answer := respond(op);
    Run([op], if answer.Done? then None else Some(Diag(severity, RemoteFailure(op, answer))))
  }

  /** First r1; r2 only if r1 ended without a diagnostic. */
  function Then(r1: Run, r2: Run): Run
  {
    if r1.diag.Some? then r1 else Run(r1.trace + r2.trace, r2.diag)
  }

  /** A log extended by a successful run and then by a second run holds their chaining. */
  lemma ThenAppends(start: seq<Op>, mid: seq<Op>, final: seq<Op>, r1: Run, r2: Run)
    requires mid == start + r1.trace && final == mid + r2.trace && r1.diag.None?
    ensures final == start + Then(r1, r2).trace
  {
  }

  /** One stage of a fixed plan: a call, a stop that the plan itself decides
      (a rejected change) without calling anything, or nothing to do. */
  datatype Step = Call(op: Op, severity: Severity) | Halt(severity: Severity, failure: Failure) | Skip

  function StepRun(step: Step, respond: Op -> Response): Run
  {
    match step
    case Call(op, severity) => Issue(op, severity, respond)
    case Halt(severity, failure) => Stop(severity, failure)
    case Skip => NoCalls
  }

  /** The step when the condition holds, nothing otherwise. */
  function When(condition: bool, step: Step): Step
  {
    if condition then step else Skip
  }

  /** The steps in order, stopping at the first that does not succeed. */
  function RunSteps(steps: seq<Step>, respond: Op -> Response): Run
    decreases |steps|
  {
    if steps == [] then NoCalls
    else Then(RunSteps(steps[..|steps| - 1], respond), StepRun(steps[|steps| - 1], respond))
  }

  /** The call a step makes, if any. */
  function StepOps(step: Step): seq<Op>
  {
    if step.Call? then [step.op] else []
  }

  /** The calls a plan holds, in order. */
  function CallOps(steps: seq<Step>): seq<Op>
    decreases |steps|
  {
    if steps == [] then [] else CallOps(steps[..|steps| - 1]) + StepOps(steps[|steps| - 1])
  }

  /** A run issues a prefix of the plan's calls, and all of them when it ends
      without a diagnostic. */
  lemma {:induction false} RunIssuesPlanPrefix(steps: seq<Step>, respond: Op -> Response)
    ensures RunSteps(steps, respond).trace <= CallOps(steps)
    ensures RunSteps(steps, respond).diag.None? ==> RunSteps(steps, respond).trace == CallOps(steps)
    decreases |steps|
  {
    if steps != [] {
      RunIssuesPlanPrefix(steps[..|steps| - 1], respond);
    }
  }

  /** Once a prefix of the plan has failed, the rest of the plan issues nothing. */
  lemma {:induction false} RunStopsAtFailure(steps: seq<Step>, k: nat, respond: Op -> Response)
    requires k <= |steps|
    requires RunSteps(steps[..k], respond).diag.Some?
    ensures RunSteps(steps, respond) == RunSteps(steps[..k], respond)
    decreases |steps| - k
  {
    if k < |steps| {
      var init := steps[..|steps| - 1];
      assert init[..k] == steps[..k];
      RunStopsAtFailure(init, k, respond);
    } else {
      assert steps[..k] == steps;
    }
  }

  /** A plan holding a stop never ends without a diagnostic. */
  lemma {:induction false} HaltedPlanFails(steps: seq<Step>, i: nat, respond: Op -> Response)
    requires i < |steps| && steps[i].Halt?
    ensures RunSteps(steps, respond).diag.Some?
    decreases |steps|
  {
    if i < |steps| - 1 {
      HaltedPlanFails(steps[..|steps| - 1], i, respond);
    }
  }

  /** A run reaching a stop ends there: it ends with the stop's diagnostic
      unless an earlier step already failed, and it has issued only calls of
      the steps before the stop. */
  lemma StopsAtHalt(steps: seq<Step>, k: nat, respond: Op -> Response)
    requires k < |steps| && steps[k].Halt?
    ensures var before := RunSteps(steps[..k], respond);
            && RunSteps(steps, respond).diag
               == (if before.diag.Some? then before.diag else Some(Diag(steps[k].severity, steps[k].failure)))
            && RunSteps(steps, respond).trace <= CallOps(steps[..k])
  {
    assert steps[..k + 1][..k] == steps[..k];
    RunStopsAtFailure(steps, k + 1, respond);
    RunIssuesPlanPrefix(steps[..k], respond);
  }

  /** A plan that starts with a call issues that call first. */
  lemma {:induction false} FirstCallFirst(steps: seq<Step>, respond: Op -> Response)
    requires |steps| > 0 && steps[0].Call?
    ensures |RunSteps(steps, respond).trace| > 0 && RunSteps(steps, respond).trace[0] == steps[0].op
    decreases |steps|
  {
    if |steps| > 1 {
      FirstCallFirst(steps[..|steps| - 1], respond);
    } else {
      assert steps[..0] == [];
    }
  }

  /** When every step of a plan that is not skipped carries the same
      severity, so does its diagnostic. */
  lemma {:induction false} UniformSeverity(steps: seq<Step>, severity: Severity, respond: Op -> Response)
    requires forall i :: 0 <= i < |steps| && !steps[i].Skip? ==> steps[i].severity == severity
    ensures RunSteps(steps, respond).diag.Some? ==> RunSteps(steps, respond).diag.value.severity == severity
    decreases |steps|
  {
    if steps != [] {
      UniformSeverity(steps[..|steps| - 1], severity, respond);
    }
  }

  /** A plan without stops fails only because a call did. */
  lemma {:induction false} CallsFailRemotely(steps: seq<Step>, respond: Op -> Response)
    requires forall i :: 0 <= i < |steps| ==> !steps[i].Halt?
    ensures RunSteps(steps, respond).diag.Some? ==> RunSteps(steps, respond).diag.value.failure.RemoteFailure?
    decreases |steps|
  {
    if steps != [] {
      CallsFailRemotely(steps[..|steps| - 1], respond);
    }
  }

  /** A property every call of a plan has holds of every call it holds. */
  lemma {:induction false} CallOpsSatisfy(steps: seq<Step>, P: Op -> bool)
    requires forall i :: 0 <= i < |steps| && steps[i].Call? ==> P(steps[i].op)
    ensures forall i :: 0 <= i < |CallOps(steps)| ==> P(CallOps(steps)[i])
    decreases |steps|
  {
    if steps != [] {
      CallOpsSatisfy(steps[..|steps| - 1], P);
    }
  }

  /** Every call of a plan is among the calls it holds. */
  lemma {:induction false} CallHeld(steps: seq<Step>, i: nat)
    requires i < |steps| && steps[i].Call?
    ensures steps[i].op in CallOps(steps)
    decreases |steps|
  {
    if i < |steps| - 1 {
      CallHeld(steps[..|steps| - 1], i);
    }
  }

  /** Calls whose ranks ascend along the plan are held in ascending order. */
  lemma {:induction false} CallOpsAscend(steps: seq<Step>, rank: Op -> int)
    requires forall i, j :: 0 <= i < j < |steps| && steps[i].Call? && steps[j].Call? ==>
               rank(steps[i].op) < rank(steps[j].op)
    ensures forall i, j :: 0 <= i < j < |CallOps(steps)| ==> rank(CallOps(steps)[i]) < rank(CallOps(steps)[j])
    decreases |steps|
  {
    if steps != [] {
      var init := steps[..|steps| - 1];
      var last := steps[|steps| - 1];
      CallOpsAscend(init, rank);
      if last.Call? {
        CallOpsSatisfy(init, op => rank(op) < rank(last.op));
      }
    }
  }

  /** When every call succeeds, a plan without stops issues all its calls. */
  lemma {:induction false} PlanCompletes(steps: seq<Step>, respond: Op -> Response)
    requires AllDone(respond)
    requires forall i :: 0 <= i < |steps| ==> !steps[i].Halt?
    ensures RunSteps(steps, respond) == Run(CallOps(steps), None)
    decreases |steps|
  {
    if steps != [] {
      PlanCompletes(steps[..|steps| - 1], respond);
    }
  }

  /** A plan with nothing to do issues nothing. */
  lemma {:induction false} SkippedPlanIsNoOp(steps: seq<Step>, respond: Op -> Response)
    requires forall i :: 0 <= i < |steps| ==> steps[i].Skip?
    ensures RunSteps(steps, respond) == NoCalls
    decreases |steps|
  {
    if steps != [] {
      SkippedPlanIsNoOp(steps[..|steps| - 1], respond);
    }
  }

  /** Every call is answered Done. */
  ghost predicate AllDone(respond: Op -> Response)
  {
    forall op :: respond(op).Done?
  }

  /** The control plane: the calls issued so far and how it answers a call. */
  class ControlPlane {
    var trace: seq<Op>
    const respond: Op -> Response

    constructor (respond: Op -> Response)
      ensures trace == [] && this.respond == respond
    {
      trace := [];
      this.respond := respond;
    }

    /** Issues one call and waits for it to end. */
    method Call(op: Op) returns (answer: Response)
      modifies this
      ensures trace == old(trace) + [op]
      ensures answer == respond(op)
    {
      trace := trace + [op];
      answer := respond(op);
    }

    /** Issues one call and turns a non-successful end into a diagnostic. */
    method Perform(op: Op, severity: Severity) returns (d: Option<Diag>)
      modifies this
      ensures trace == old(trace) + Issue(op, severity, respond).trace
      ensures d == Issue(op, severity, respond).diag
    {
      var answer := Call(op);
      d := if answer.Done? then None else Some(Diag(severity, RemoteFailure(op, answer)));
    }

    /** Carries out a plan step by step and returns at the first step that
        does not succeed. */
    method Execute(steps: seq<Step>) returns (d: Option<Diag>)
      modifies this
      ensures trace == old(trace) + RunSteps(steps, respond).trace
      ensures d == RunSteps(steps, respond).diag
    {
      d := None;
      var i := 0;
      while i < |steps| && d.None?
        invariant 0 <= i <= |steps|
        invariant trace == old(trace) + RunSteps(steps[..i], respond).trace
        invariant d == RunSteps(steps[..i], respond).diag
        decreases |steps| - i
      {
        assert steps[..i + 1][..i] == steps[..i];
        match steps[i] {
          case Call(op, severity) =>
            d := Perform(op, severity);
          case Halt(severity, failure) =>
            d := Some(Diag(severity, failure));
          case Skip =>
        }
        i := i + 1;
      }
      if i < |steps| {
        RunStopsAtFailure(steps, i, respond);
      } else {
        assert steps[..i] == steps;
      }
    }
  }
}
