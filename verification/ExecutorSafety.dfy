/** Every executor step and every cancellation keeps the invariant. */
module ExecutorSafety {
  import opened Wrappers
  import opened Ledger
  import opened Runtime
  import opened Executor
  import opened ExecutorInvariant
  import Kahn

  // ---------- cancellation by a client ----------

  lemma SweepKeepsFrontier(steps: seq<Step>, plan: seq<nat>, i: nat, running: bool)
    requires IsPlan(plan, steps) && Frontier(steps, plan, i)
    ensures IsPlan(plan, Sweep(steps, running)) && Frontier(Sweep(steps, running), plan, i)
  {
  }

  /** Cancelling keeps the frame, and marks the step being worked on. */
  lemma CancelKeepsFrame(f: Frame, record: Record, exec: Exec)
    requires IsPlan(exec.plan, record.steps) && FrameOk(f, record, exec) && !Terminal(record.status)
    ensures IsPlan(exec.plan, CancelRecord(record).steps) && FrameOk(f, CancelRecord(record), exec)
    ensures Busy(f, record, exec) ==> Busy(f, CancelRecord(record), exec)
  {
    SweepKeepsFrontier(record.steps, exec.plan, f.i, true);
  }

  lemma CancelKeepsLocal(record: Record, exec: Exec)
    requires IsPlan(exec.plan, record.steps) && LocalPoint(record, exec) && !Terminal(record.status)
    ensures LocalPoint(CancelRecord(record), exec)
  {
    if !exec.pc.Exited? && !exec.pc.AtFail? { CancelKeepsFrame(exec.pc.frame, record, exec); }
    hide Frontier;
    hide AheadFresh;
  }

  lemma CancelKeepsInv(record: Record, exec: Exec)
    requires Inv(record, exec)
    ensures Inv(CancelRecord(record), exec)
  {
    if !Terminal(record.status) {
      SumAttemptsSame(record.steps, Sweep(record.steps, true));
      if exec.mode == Local { CancelKeepsLocal(record, exec); }
    }
  }

  // ---------- the executor's own steps ----------

  /** `record'` and `exec'` are what one step leaves. */
  ghost predicate Steps(record: Record, exec: Exec, choice: Choice, record': Record, exec': Exec) {
    CanChoose(exec.pc, choice) && StepExec(record, exec, choice) == (record', exec')
  }

  lemma StartKeepsInv(record: Record, exec: Exec, choice: Choice, record': Record, exec': Exec)
    requires Inv(record, exec) && exec.pc.AtStart? && Steps(record, exec, choice, record', exec')
    ensures Inv(record', exec')
  {
  }

  lemma GetEffect(record: Record, exec: Exec, choice: Choice, record': Record, exec': Exec)
    requires exec.pc.AtGet? && Steps(record, exec, choice, record', exec')
    ensures CanChoose(AtGet, choice) && record' == record
    ensures exec' == exec.(mode := if choice.UseExternal? then External else Local, pc := AfterGet(record.steps, choice))
  {
    hide AfterGet;
  }

  lemma SpecsFixGraph(steps: seq<Step>, specs: seq<Spec>)
    requires SameSpecs(steps, specs)
    ensures StepNodes(steps) == SpecNodes(specs)
  {
  }

  /** The order recomputed from the snapshot is the one validated at submission, so
      the "invalid DAG" failure is never taken. */
  lemma PlanIsRecomputed(steps: seq<Step>, exec: Exec, choice: Choice)
    requires SameSpecs(steps, exec.specs) && WellPlanned(exec) && choice.LocalReady?
    ensures AfterGet(steps, choice) == NextPosition(Frame(steps, exec.plan, 0, 0, []))
  {
    SpecsFixGraph(steps, exec.specs);
  }

  lemma FirstFrameOk(record: Record, exec: Exec)
    requires Inv(record, exec) && exec.pc.AtGet?
    ensures FrameOk(Frame(record.steps, exec.plan, 0, 0, []), record, exec)
    ensures |exec.plan| > 0 ==> Busy(Frame(record.steps, exec.plan, 0, 0, []), record, exec)
  {
  }

  lemma FirstPointOk(record: Record, exec: Exec, exec': Exec)
    requires Inv(record, exec) && exec.pc.AtGet?
    requires exec' == exec.(mode := Local, pc := NextPosition(Frame(record.steps, exec.plan, 0, 0, [])))
    ensures Inv(record, exec')
  {
    FirstFrameOk(record, exec);
  }

  lemma OtherPointOk(record: Record, exec: Exec, choice: Choice)
    requires Inv(record, exec) && exec.pc.AtGet? && (choice.UseExternal? || choice.BuildFailed?)
    ensures Inv(record, exec.(mode := if choice.UseExternal? then External else Local, pc := AfterGet(record.steps, choice)))
  {
    hide Kahn.Order;
  }

  lemma GetKeepsInv(record: Record, exec: Exec, choice: Choice, record': Record, exec': Exec)
    requires Inv(record, exec) && WellPlanned(exec) && exec.pc.AtGet? && Steps(record, exec, choice, record', exec')
    ensures Inv(record', exec')
  {
    GetEffect(record, exec, choice, record', exec');
    hide Steps;
    if choice.LocalReady? {
      PlanIsRecomputed(record.steps, exec, choice);
      hide Inv;
      hide AfterGet;
      FirstPointOk(record, exec, exec');
    } else {
      OtherPointOk(record, exec, choice);
    }
  }

  /** Rewriting the step under the frontier disturbs nothing around it. */
  lemma StepWriteKeepsFrame(f: Frame, record: Record, exec: Exec, step: Step)
    requires SameSpecs(record.steps, exec.specs) && IsPlan(exec.plan, record.steps) && FrameOk(f, record, exec)
    requires f.i < |f.order| && step.spec == record.steps[f.order[f.i]].spec && step.attempts <= step.spec.maxRetries + 1
    ensures var after := SetStep(record, f.order[f.i], step);
      && SameSpecs(after.steps, exec.specs) && IsPlan(exec.plan, after.steps) && FrameOk(f, after, exec)
      && (AheadFresh(record.steps, exec.plan, f.i) ==> AheadFresh(after.steps, exec.plan, f.i))
  {
    var p := exec.plan[f.i];
    assert forall j :: 0 <= j < |exec.plan| && j != f.i ==> exec.plan[j] != p;
  }

  lemma StartStepKeepsInv(record: Record, exec: Exec, choice: Choice, record': Record, exec': Exec)
    requires Inv(record, exec) && exec.pc.AtStartStep? && Steps(record, exec, choice, record', exec')
    ensures Inv(record', exec')
  {
    var f := exec.pc.frame;
    var p := f.order[f.i];
    if record.cancelled {
      assert record' == record && exec' == exec.(pc := Exited);
    } else {
      assert record' == SetStep(record, p, StartedStep(record.steps[p]));
      assert exec' == exec.(pc := AtComplete(f.(attempts := f.attempts + 1)));
      StepWriteKeepsFrame(f, record, exec, StartedStep(record.steps[p]));
      SumAttemptsUpdate(record.steps, p, StartedStep(record.steps[p]));
    }
  }

  lemma CompleteKeepsInv(record: Record, exec: Exec, choice: Choice, record': Record, exec': Exec)
    requires Inv(record, exec) && (exec.pc.AtComplete? || exec.pc.Exited? || exec.pc.Died?) && Steps(record, exec, choice, record', exec')
    ensures Inv(record', exec')
  {
  }

  ghost function AfterSuccess(record: Record, exec: Exec): Record
    requires exec.pc.AtSucceedStep?
  {
    var f := exec.pc.frame;
    if f.i < |f.order| && f.order[f.i] < |record.steps|
    then SetStep(record, f.order[f.i], SucceededStep(record.steps[f.order[f.i]], exec.pc.output, exec.pc.usage))
    else record
  }

  ghost function FrameAfterSuccess(exec: Exec): Frame
    requires exec.pc.AtSucceedStep?
  {
    var f := exec.pc.frame;
    if f.i < |f.order| then f.(i := f.i + 1, completed := f.completed + [Finished(f.order[f.i], exec.pc.output)]) else f
  }

  lemma SucceedStepEffect(record: Record, exec: Exec, choice: Choice, record': Record, exec': Exec)
    requires Inv(record, exec) && exec.pc.AtSucceedStep? && Steps(record, exec, choice, record', exec')
    ensures record.cancelled ==> record' == record && exec' == exec.(pc := Exited)
    ensures !record.cancelled ==> record' == AfterSuccess(record, exec) && exec' == exec.(pc := NextPosition(FrameAfterSuccess(exec)))
  {
    hide NextPosition;
    hide SumAttempts;
  }

  /** A cancelled run's executor may leave at any guarded call. */
  lemma CancelledMayExit(record: Record, exec: Exec)
    requires Inv(record, exec) && record.cancelled && exec.mode == Local && exec.pc.AtSucceedStep?
    ensures Inv(record, exec.(pc := Exited))
  {
  }

  lemma SucceededStepFits(record: Record, exec: Exec)
    requires Inv(record, exec) && !record.cancelled && exec.pc.AtSucceedStep?
    ensures exec.mode == Local && Inv(AfterSuccess(record, exec), exec.(pc := NextPosition(FrameAfterSuccess(exec))))
  {
    var f := exec.pc.frame;
    var p := f.order[f.i];
    var step := SucceededStep(record.steps[p], exec.pc.output, exec.pc.usage);
    var g, after := FrameAfterSuccess(exec), AfterSuccess(record, exec);
    StepWriteKeepsFrame(f, record, exec, step);
    SumAttemptsUpdate(record.steps, p, step);
    assert FrameOk(g, after, exec);
    if g.i < |g.order| { assert Fresh(after.steps[g.order[g.i]]) && Busy(g.(attempts := 0), after, exec); }
  }

  lemma SucceedStepKeepsInv(record: Record, exec: Exec, choice: Choice, record': Record, exec': Exec)
    requires Inv(record, exec) && exec.pc.AtSucceedStep? && Steps(record, exec, choice, record', exec')
    ensures Inv(record', exec')
  {
    SucceedStepEffect(record, exec, choice, record', exec');
    if record.cancelled { CancelledMayExit(record, exec); } else { SucceededStepFits(record, exec); }
  }

  lemma FailStepKeepsInv(record: Record, exec: Exec, choice: Choice, record': Record, exec': Exec)
    requires Inv(record, exec) && exec.pc.AtFailStep? && Steps(record, exec, choice, record', exec')
    ensures Inv(record', exec')
  {
    var f := exec.pc.frame;
    var p := f.order[f.i];
    assert MaxRetries(f) == record.steps[p].spec.maxRetries;
    assert exec' == exec.(pc := if f.attempts <= MaxRetries(f) then AtStartStep(f) else AtExhausted(f, exec.pc.error));
    if record.cancelled {
      assert record' == record;
    } else {
      var step := FailedStep(record.steps[p], exec.pc.error);
      assert record' == SetStep(record, p, step);
      StepWriteKeepsFrame(f, record, exec, step);
      SumAttemptsUpdate(record.steps, p, step);
    }
  }

  lemma FailEffect(record: Record, exec: Exec, choice: Choice, record': Record, exec': Exec)
    requires (exec.pc.AtExhausted? || exec.pc.AtFail?) && Steps(record, exec, choice, record', exec')
    ensures exec' == exec.(pc := Exited)
    ensures record' == if record.cancelled then record else FailRecord(record, exec.pc.error)
  {
  }

  lemma SweptTailIsDropped(f: Frame, record: Record, exec: Exec)
    requires IsPlan(exec.plan, record.steps) && Busy(f, record, exec) && !record.cancelled
    requires f.attempts == record.steps[f.order[f.i]].spec.maxRetries + 1 && record.steps[f.order[f.i]].status == Failed
    ensures IsPlan(exec.plan, Sweep(record.steps, false)) && FailedAt(Sweep(record.steps, false), exec.plan, f.i)
    ensures WithinBudget(Sweep(record.steps, false))
  {
  }

  lemma ExhaustedFits(record: Record, exec: Exec)
    requires Inv(record, exec) && exec.pc.AtExhausted? && !record.cancelled
    ensures Inv(FailRecord(record, exec.pc.error), exec.(pc := Exited))
  {
    SumAttemptsSame(record.steps, Sweep(record.steps, false));
    SweptTailIsDropped(exec.pc.frame, record, exec);
  }

  lemma ExhaustedKeepsInv(record: Record, exec: Exec, choice: Choice, record': Record, exec': Exec)
    requires Inv(record, exec) && exec.pc.AtExhausted? && Steps(record, exec, choice, record', exec')
    ensures Inv(record', exec')
  {
    FailEffect(record, exec, choice, record', exec');
    if !record.cancelled { ExhaustedFits(record, exec); }
  }

  lemma EveryPositionPlanned(steps: seq<Step>, plan: seq<nat>, i: nat)
    requires IsPlan(plan, steps) && i == |plan| && Frontier(steps, plan, i)
    ensures AllSucceeded(steps)
  {
    forall p | 0 <= p < |steps| ensures steps[p].status.Succeeded? {
      assert p in plan;
    }
  }

  lemma SucceedKeepsInv(record: Record, exec: Exec, choice: Choice, record': Record, exec': Exec)
    requires Inv(record, exec) && exec.pc.AtSucceed? && Steps(record, exec, choice, record', exec')
    ensures Inv(record', exec')
  {
    EveryPositionPlanned(record.steps, exec.plan, exec.pc.frame.i);
  }

  lemma CancelledFailFits(record: Record, exec: Exec)
    requires Inv(record, exec) && exec.pc.AtFail? && record.cancelled
    ensures Inv(record, exec.(pc := Exited))
  {
    if exec.mode == Local { assert Frontier(record.steps, exec.plan, 0); }
  }

  lemma FailFits(record: Record, exec: Exec)
    requires Inv(record, exec) && exec.pc.AtFail? && !record.cancelled
    ensures Inv(FailRecord(record, exec.pc.error), exec.(pc := Exited))
  {
    SumAttemptsSame(record.steps, Sweep(record.steps, false));
  }

  lemma FailKeepsInv(record: Record, exec: Exec, choice: Choice, record': Record, exec': Exec)
    requires Inv(record, exec) && exec.pc.AtFail? && Steps(record, exec, choice, record', exec')
    ensures Inv(record', exec')
  {
    FailEffect(record, exec, choice, record', exec');
    hide Steps;
    if record.cancelled { CancelledFailFits(record, exec); } else { FailFits(record, exec); }
  }

  lemma RuntimeCallEffect(record: Record, exec: Exec, choice: Choice, record': Record, exec': Exec)
    requires Inv(record, exec) && Steps(record, exec, choice, record', exec')
    requires exec.pc.AtRuntimeSubmit? || exec.pc.AtSetRuntime? || exec.pc.AtPoll?
    ensures exec' == exec.(pc := exec'.pc) && (record' == record || (!record.cancelled && record' == record.(runtimeRunId := record'.runtimeRunId)))
    ensures record'.runtimeRunId != Some("") && exec.mode == External
    ensures match exec'.pc
      case AtFail(_) => true
      case AtSetRuntime(externalId, _, timer) => externalId != "" && timer.interval > 0.0
      case AtSyncGet(_, timer) => timer.interval > 0.0
      case Exited => record.cancelled
      case _ => false
  {
    hide NormalizeStatus;
    hide SyncFrom;
    hide RuntimeFloat;
    hide SumAttempts;
  }

  lemma RuntimeCallKeepsInv(record: Record, exec: Exec, choice: Choice, record': Record, exec': Exec)
    requires Inv(record, exec) && Steps(record, exec, choice, record', exec')
    requires exec.pc.AtRuntimeSubmit? || exec.pc.AtSetRuntime? || exec.pc.AtPoll?
    ensures Inv(record', exec')
  {
    RuntimeCallEffect(record, exec, choice, record', exec');
    hide Steps;
    hide LocalPoint;
    hide UndecidedPoint;
  }

  lemma {:induction false} SyncFromOk(sync: Sync, record: Record, exec: Exec)
    requires |sync.local| == |record.steps| && sync.timer.interval > 0.0
    requires exec.pc == SyncFrom(sync)
    ensures ExternalPoint(record, exec) && !exec.pc.Exited? && !exec.pc.AtStart? && !exec.pc.AtComplete?
    decreases |sync.run.steps| - sync.k
  {
    if sync.k < |sync.run.steps| {
      if exec.pc == SyncFrom(sync.(k := sync.k + 1)) { SyncFromOk(sync.(k := sync.k + 1), record, exec); }
    }
  }

  lemma SyncGetKeepsInv(record: Record, exec: Exec, choice: Choice, record': Record, exec': Exec)
    requires Inv(record, exec) && exec.pc.AtSyncGet? && Steps(record, exec, choice, record', exec')
    ensures Inv(record', exec')
  {
    if exec.pc.run.iterable { SyncFromOk(Sync(record.steps, exec.pc.run, 0, exec.pc.timer), record', exec'); }
  }

  lemma SyncPointOk(record: Record, exec: Exec)
    requires Inv(record, exec) && (exec.pc.AtSyncStart? || exec.pc.AtSyncFinish?)
    ensures SyncOk(exec.pc.sync, record) && exec.mode == External
  {
  }

  /** At most step `p` changes, its description stays and its attempts do not drop. */
  ghost predicate TouchesOnly(record: Record, record': Record, p: nat) {
    || record' == record
    || (!record.cancelled && p < |record.steps| == |record'.steps| && record' == SetStep(record, p, record'.steps[p])
        && record'.steps[p].spec == record.steps[p].spec && record'.steps[p].attempts >= record.steps[p].attempts)
  }

  lemma SyncStartEffect(record: Record, exec: Exec, choice: Choice, record': Record, exec': Exec)
    requires exec.pc.AtSyncStart? && SyncOk(exec.pc.sync, record) && Steps(record, exec, choice, record', exec')
    ensures exec' == exec.(pc := SyncFrom(exec.pc.sync.(k := exec.pc.sync.k + 1))) || exec' == exec.(pc := FinishFrom(exec.pc.sync))
    ensures TouchesOnly(record, record', Target(exec.pc.sync).value.0)
  {
    var p := Target(exec.pc.sync).value.0;
    assert StoreEffect(record, exec.pc) == Apply(record, StartStep(p));
  }

  lemma SyncFinishEffect(record: Record, exec: Exec, choice: Choice, record': Record, exec': Exec)
    requires exec.pc.AtSyncFinish? && SyncOk(exec.pc.sync, record) && Steps(record, exec, choice, record', exec')
    ensures exec' == exec.(pc := SyncFrom(exec.pc.sync.(k := exec.pc.sync.k + 1)))
    ensures TouchesOnly(record, record', Target(exec.pc.sync).value.0)
  {
    var p := Target(exec.pc.sync).value.0;
    var op := NextOp(exec.pc).value;
    assert op.SucceedStep? || op.FailStep?;
    assert op.position == p && StoreEffect(record, exec.pc) == Apply(record, op);
  }

  lemma SyncWriteKeepsInv(record: Record, exec: Exec, record': Record, p: nat)
    requires Inv(record, exec) && exec.mode == External && (exec.pc.AtSyncStart? || exec.pc.AtSyncFinish?)
    requires TouchesOnly(record, record', p)
    ensures Inv(record', exec)
  {
    if record' != record { SumAttemptsUpdate(record.steps, p, record'.steps[p]); }
  }

  lemma SyncFinishNext(record: Record, exec: Exec)
    requires Inv(record, exec) && (exec.pc.AtSyncStart? || exec.pc.AtSyncFinish?)
    ensures SyncOk(exec.pc.sync, record) && Inv(record, exec.(pc := FinishFrom(exec.pc.sync)))
  {
  }

  lemma SyncPassOn(record: Record, exec: Exec)
    requires Inv(record, exec) && (exec.pc.AtSyncStart? || exec.pc.AtSyncFinish?)
    ensures Inv(record, exec.(pc := SyncFrom(exec.pc.sync.(k := exec.pc.sync.k + 1))))
  {
    var sync := exec.pc.sync.(k := exec.pc.sync.k + 1);
    SyncFromOk(sync, record, exec.(pc := SyncFrom(sync)));
  }

  lemma SyncStepKeepsInv(record: Record, exec: Exec, choice: Choice, record': Record, exec': Exec)
    requires Inv(record, exec) && Steps(record, exec, choice, record', exec')
    requires exec.pc.AtSyncStart? || exec.pc.AtSyncFinish?
    ensures Inv(record', exec')
  {
    hide *;
    var sync := exec.pc.sync;
    SyncPointOk(record, exec);
    if exec.pc.AtSyncStart? {
      SyncStartEffect(record, exec, choice, record', exec');
    } else {
      SyncFinishEffect(record, exec, choice, record', exec');
    }
    SyncWriteKeepsInv(record, exec, record', Target(sync).value.0);
    if exec' == exec.(pc := FinishFrom(sync)) {
      SyncFinishNext(record', exec);
    } else {
      SyncPassOn(record', exec);
    }
  }

  lemma ExternalEndEffect(record: Record, exec: Exec, choice: Choice, record': Record, exec': Exec)
    requires Steps(record, exec, choice, record', exec')
    requires exec.pc.AtExternalSucceed? || exec.pc.AtExternalCancel?
    ensures exec' == exec.(pc := Exited)
    ensures record' == if exec.pc.AtExternalCancel? then CancelRecord(record) else if record.cancelled then record
      else record.(status := Succeeded, summary := "execution completed")
  {
  }

  lemma CancelFits(record: Record, exec: Exec)
    requires Inv(record, exec) && exec.pc.AtExternalCancel?
    ensures Inv(CancelRecord(record), exec.(pc := Exited))
  {
    SumAttemptsSame(record.steps, Sweep(record.steps, true));
  }

  lemma ExternalSuccessFits(record: Record, exec: Exec)
    requires Inv(record, exec) && exec.pc.AtExternalSucceed?
    ensures Inv(if record.cancelled then record else record.(status := Succeeded, summary := "execution completed"), exec.(pc := Exited))
  {
  }

  lemma ExternalEndKeepsInv(record: Record, exec: Exec, choice: Choice, record': Record, exec': Exec)
    requires Inv(record, exec) && Steps(record, exec, choice, record', exec')
    requires exec.pc.AtExternalSucceed? || exec.pc.AtExternalCancel?
    ensures Inv(record', exec')
  {
    ExternalEndEffect(record, exec, choice, record', exec');
    hide Steps;
    if exec.pc.AtExternalCancel? { CancelFits(record, exec); } else { ExternalSuccessFits(record, exec); }
  }

  lemma StepKeepsInv(record: Record, exec: Exec, choice: Choice, record': Record, exec': Exec)
    requires Inv(record, exec) && WellPlanned(exec) && Steps(record, exec, choice, record', exec')
    ensures Inv(record', exec')
  {
    hide *;
    match exec.pc
    case AtStart => StartKeepsInv(record, exec, choice, record', exec');
    case AtGet => GetKeepsInv(record, exec, choice, record', exec');
    case AtStartStep(_) => StartStepKeepsInv(record, exec, choice, record', exec');
    case AtComplete(_) => CompleteKeepsInv(record, exec, choice, record', exec');
    case AtSucceedStep(_, _, _) => SucceedStepKeepsInv(record, exec, choice, record', exec');
    case AtFailStep(_, _) => FailStepKeepsInv(record, exec, choice, record', exec');
    case AtExhausted(_, _) => ExhaustedKeepsInv(record, exec, choice, record', exec');
    case AtSucceed(_) => SucceedKeepsInv(record, exec, choice, record', exec');
    case AtFail(_) => FailKeepsInv(record, exec, choice, record', exec');
    case Exited => CompleteKeepsInv(record, exec, choice, record', exec');
    case Died => CompleteKeepsInv(record, exec, choice, record', exec');
    case AtRuntimeSubmit => RuntimeCallKeepsInv(record, exec, choice, record', exec');
    case AtSetRuntime(_, _, _) => RuntimeCallKeepsInv(record, exec, choice, record', exec');
    case AtSyncGet(_, _) => SyncGetKeepsInv(record, exec, choice, record', exec');
    case AtSyncStart(_) => SyncStepKeepsInv(record, exec, choice, record', exec');
    case AtSyncFinish(_) => SyncStepKeepsInv(record, exec, choice, record', exec');
    case AtPoll(_) => RuntimeCallKeepsInv(record, exec, choice, record', exec');
    case AtExternalSucceed => ExternalEndKeepsInv(record, exec, choice, record', exec');
    case AtExternalCancel => ExternalEndKeepsInv(record, exec, choice, record', exec');
  }
}
