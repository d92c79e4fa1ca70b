/** The invariant that ties an executor's program point to the stored record. It is
    what makes the in-memory guards, which look only at the cancelled flag, safe. */
module ExecutorInvariant {
  import opened Wrappers
  import opened Ledger
  import opened Runtime
  import opened Executor
  import Kahn

  // ---------- shapes of a record ----------

  ghost predicate Untouched(step: Step) {
    step.attempts == 0 && (step.status.Queued? || step.status.Cancelled?)
  }

  ghost predicate Fresh(step: Step) {
    step.attempts == 0 && step.status.Queued?
  }

  ghost predicate Dropped(step: Step) {
    step.attempts == 0 && step.status.Cancelled?
  }

  ghost predicate AllUntouched(steps: seq<Step>) {
    forall p :: 0 <= p < |steps| ==> Untouched(steps[p])
  }

  ghost predicate AllFresh(steps: seq<Step>) {
    forall p :: 0 <= p < |steps| ==> Fresh(steps[p])
  }

  ghost predicate AllDropped(steps: seq<Step>) {
    forall p :: 0 <= p < |steps| ==> Dropped(steps[p])
  }

  ghost predicate AllSucceeded(steps: seq<Step>) {
    forall p :: 0 <= p < |steps| ==> steps[p].status.Succeeded?
  }

  ghost predicate NothingOpen(steps: seq<Step>) {
    forall p :: 0 <= p < |steps| ==> !steps[p].status.Queued? && !steps[p].status.Running?
  }

  /** `plan` lists every position of `steps` once. */
  ghost predicate IsPlan(plan: seq<nat>, steps: seq<Step>) {
    Kahn.IsPermutation(plan, |steps|)
  }

  ghost predicate WithinBudget(steps: seq<Step>) {
    forall p :: 0 <= p < |steps| ==> steps[p].attempts <= steps[p].spec.maxRetries + 1
  }

  /** Along the plan: everything before `i` succeeded, everything after is untouched. */
  ghost predicate Frontier(steps: seq<Step>, plan: seq<nat>, i: nat)
    requires IsPlan(plan, steps)
  {
    && i <= |plan|
    && (forall j :: 0 <= j < i ==> steps[plan[j]].status.Succeeded?)
    && (forall j :: i < j < |plan| ==> Untouched(steps[plan[j]]))
    && WithinBudget(steps)
  }

  ghost predicate AheadFresh(steps: seq<Step>, plan: seq<nat>, i: nat)
    requires IsPlan(plan, steps)
  {
    forall j :: i < j < |plan| ==> Fresh(steps[plan[j]])
  }

  /** A local-mode failure: the steps before `i` succeeded, the one at `i` used up
      its attempts, and the rest were dropped without one. */
  ghost predicate FailedAt(steps: seq<Step>, plan: seq<nat>, i: nat)
    requires IsPlan(plan, steps)
  {
    && i < |plan|
    && (forall j :: 0 <= j < i ==> steps[plan[j]].status.Succeeded?)
    && steps[plan[i]].status.Failed? && steps[plan[i]].attempts == steps[plan[i]].spec.maxRetries + 1
    && (forall j :: i < j < |plan| ==> Dropped(steps[plan[j]]))
  }

  /** What a finished local-mode run looks like. */
  ghost predicate LocalOutcome(record: Record, plan: seq<nat>)
    requires IsPlan(plan, record.steps)
  {
    && WithinBudget(record.steps)
    && match record.status
       case Succeeded => AllSucceeded(record.steps)
       case Failed => AllDropped(record.steps) || exists i :: FailedAt(record.steps, plan, i)
       case Cancelled => NothingOpen(record.steps) && exists i :: Frontier(record.steps, plan, i)
       case _ => false
  }

  // ---------- the invariant ----------

  ghost predicate SameSpecs(steps: seq<Step>, specs: seq<Spec>) {
    |steps| == |specs| && forall p :: 0 <= p < |steps| ==> steps[p].spec == specs[p]
  }

  /** The frame is the one the stored record calls for. */
  ghost predicate FrameOk(f: Frame, record: Record, exec: Exec)
    requires IsPlan(exec.plan, record.steps)
  {
    && f.order == exec.plan && SameSpecs(f.steps, exec.specs) && |f.steps| == |record.steps|
    && (forall p :: 0 <= p < |f.steps| ==> f.steps[p].attempts == 0)
    && f.i <= |f.order| && |f.completed| == f.i
    && (forall j :: 0 <= j < f.i ==> f.completed[j] == Finished(exec.plan[j], record.steps[exec.plan[j]].output))
    && Frontier(record.steps, exec.plan, f.i)
  }

  ghost predicate Busy(f: Frame, record: Record, exec: Exec)
    requires IsPlan(exec.plan, record.steps)
  {
    && FrameOk(f, record, exec) && f.i < |f.order|
    && record.steps[f.order[f.i]].attempts == f.attempts
    && (!record.cancelled ==> AheadFresh(record.steps, exec.plan, f.i))
  }

  /** Between `start_step` and the report of its result. */
  ghost predicate Attempted(f: Frame, record: Record, exec: Exec)
    requires IsPlan(exec.plan, record.steps)
  {
    && Busy(f, record, exec) && 1 <= f.attempts
    && record.steps[f.order[f.i]].status == if record.cancelled then Cancelled else Running
  }

  ghost predicate LocalPoint(record: Record, exec: Exec)
    requires IsPlan(exec.plan, record.steps)
  {
    match exec.pc
    case AtStartStep(f) =>
      && Busy(f, record, exec) && f.attempts <= record.steps[f.order[f.i]].spec.maxRetries
      && (!record.cancelled ==> record.steps[f.order[f.i]].status == if f.attempts == 0 then Queued else Failed)
    case AtComplete(f) => Attempted(f, record, exec)
    case AtSucceedStep(f, output, _) => Attempted(f, record, exec) && output != ""
    case AtFailStep(f, _) => Attempted(f, record, exec)
    case AtExhausted(f, _) =>
      && Busy(f, record, exec) && f.attempts == record.steps[f.order[f.i]].spec.maxRetries + 1
      && (!record.cancelled ==> record.steps[f.order[f.i]].status == Failed)
    case AtSucceed(f) => FrameOk(f, record, exec) && f.i == |f.order|
    case AtFail(_) => AllUntouched(record.steps) && (!record.cancelled ==> AllFresh(record.steps))
    case Exited => LocalOutcome(record, exec.plan)
    case _ => false
  }

  ghost predicate SyncOk(sync: Sync, record: Record) {
    |sync.local| == |record.steps| && sync.k < |sync.run.steps| && Target(sync).Some? && sync.timer.interval > 0.0
  }

  ghost predicate ExternalPoint(record: Record, exec: Exec) {
    match exec.pc
    case AtRuntimeSubmit | AtExternalSucceed | AtExternalCancel | AtFail(_) | Died => true
    case AtSetRuntime(externalId, _, timer) => externalId != "" && timer.interval > 0.0
    case AtSyncGet(_, timer) => timer.interval > 0.0
    case AtSyncStart(sync) => SyncOk(sync, record)
    case AtSyncFinish(sync) => SyncOk(sync, record)
    case AtPoll(timer) => timer.interval > 0.0
    case Exited => Terminal(record.status)
    case _ => false
  }

  ghost predicate UndecidedPoint(record: Record, exec: Exec) {
    && AllUntouched(record.steps)
    && match exec.pc
       case AtStart | AtGet => !record.cancelled ==> AllFresh(record.steps)
       case Exited => record.cancelled
       case _ => false
  }

  /** Status of a run that was not cancelled, at each program point. */
  ghost predicate StatusFits(record: Record, exec: Exec) {
    && (record.cancelled <==> record.status == Cancelled)
    && (record.cancelled ==> NothingOpen(record.steps))
    && (!record.cancelled ==>
          if exec.pc.AtStart? then record.status == Queued
          else if exec.pc.Exited? then Terminal(record.status)
          else record.status == Running)
  }

  function SumAttempts(steps: seq<Step>): nat {
    if steps == [] then 0 else steps[|steps| - 1].attempts + SumAttempts(steps[..|steps| - 1])
  }

  ghost predicate Inv(record: Record, exec: Exec) {
    && record.tenant == exec.tenant && record.runtimeRunId != Some("")
    && SameSpecs(record.steps, exec.specs) && IsPlan(exec.plan, record.steps)
    && StatusFits(record, exec)
    && exec.calls + (if exec.pc.AtComplete? then 1 else 0) <= SumAttempts(record.steps)
    && match exec.mode
       case Undecided => UndecidedPoint(record, exec)
       case Local => LocalPoint(record, exec)
       case External => ExternalPoint(record, exec)
  }

  lemma {:induction false} SumAttemptsUpdate(steps: seq<Step>, p: nat, step: Step)
    requires p < |steps|
    ensures SumAttempts(steps[p := step]) + steps[p].attempts == SumAttempts(steps) + step.attempts
  {
    var n := |steps| - 1;
    if p < n {
      assert steps[p := step][..n] == steps[..n][p := step];
      SumAttemptsUpdate(steps[..n], p, step);
    } else {
      assert steps[p := step][..n] == steps[..n];
    }
  }

  lemma {:induction false} SumAttemptsSame(a: seq<Step>, b: seq<Step>)
    requires |a| == |b| && forall p :: 0 <= p < |a| ==> a[p].attempts == b[p].attempts
    ensures SumAttempts(a) == SumAttempts(b)
  {
    if a != [] { SumAttemptsSame(a[..|a| - 1], b[..|b| - 1]); }
  }

  /** What was validated at submission is what the executor recomputes. */
  ghost predicate WellPlanned(exec: Exec) {
    Kahn.Order(SpecNodes(exec.specs)) == Some(exec.plan)
  }
}
