/** What the invariant yields for one step: how a record may change, that the
    executor gets closer to its exit, and what every reachable record looks like. */
module ExecutorProgress {
  import opened Wrappers
  import opened Ledger
  import opened Runtime
  import opened Executor
  import opened ExecutorInvariant
  import opened ExecutorSafety
  import Graph
  import Kahn
  import Simulation

  // ---------- how one step may change a record ----------

  /** A terminal record is frozen, a status only moves forward, and outside external
      mode a succeeded step is frozen for good. */
  ghost predicate Evolves(record: Record, record': Record, external: bool) {
    && record'.id == record.id && record'.tenant == record.tenant
    && record'.project == record.project && record'.task == record.task
    && |record'.steps| == |record.steps|
    && (forall p :: 0 <= p < |record.steps| ==>
          record'.steps[p].spec == record.steps[p].spec && record'.steps[p].attempts >= record.steps[p].attempts)
    && (Terminal(record.status) ==> record' == record)
    && (record'.status == record.status || Rank(record.status) < Rank(record'.status))
    && (!external ==> forall p :: 0 <= p < |record.steps| && record.steps[p].status.Succeeded? ==>
          record'.steps[p] == record.steps[p])
  }

  ghost predicate StepReady(record: Record, p: nat, external: bool) {
    p < |record.steps| && (record.cancelled || (!Terminal(record.status) && (external || !record.steps[p].status.Succeeded?)))
  }

  /** A store call that the record is ready for. */
  ghost predicate Ready(record: Record, op: Op, external: bool) {
    match op
    case Get | RuntimeRunId | ProjectId | Cancel => true
    case SetRuntimeRunId(_) => record.cancelled || !Terminal(record.status)
    case Start => record.cancelled || record.status == Queued
    case Succeed | Fail(_) => record.cancelled || record.status == Running
    case StartStep(p) => StepReady(record, p, external)
    case SucceedStep(p, _, _) => StepReady(record, p, external)
    case FailStep(p, _) => StepReady(record, p, external)
  }

  lemma ReadyEvolves(record: Record, op: Op, external: bool)
    requires Ready(record, op, external) && (record.cancelled <==> record.status == Cancelled)
    ensures Evolves(record, Apply(record, op).0, external)
  {
  }

  /** The invariant makes every store call of the executor a ready one, and one on which
      the two stores agree unless the SQL columns refuse a number. */
  lemma CallsAreReady(record: Record, exec: Exec)
    requires Inv(record, exec) && NextOp(exec.pc).Some?
    ensures Ready(record, NextOp(exec.pc).value, exec.mode == External)
    ensures Simulation.GuardsAgree(record, NextOp(exec.pc).value) <==> !Simulation.NumbersRefused(record, NextOp(exec.pc).value)
  {
  }

  lemma ReadyNeverRaises(record: Record, op: Op, external: bool)
    requires Ready(record, op, external)
    ensures !Apply(record, op).1.Raised?
  {
  }

  lemma StoreEffectOf(record: Record, exec: Exec, choice: Choice, record': Record, exec': Exec)
    requires Steps(record, exec, choice, record', exec')
    ensures record' == if NextOp(exec.pc).Some? then Apply(record, NextOp(exec.pc).value).0 else record
    ensures exec'.specs == exec.specs && exec'.plan == exec.plan && exec'.tenant == exec.tenant && exec'.key == exec.key
    ensures exec'.mode == ChosenMode(exec, choice)
  {
  }

  lemma StepEvolves(record: Record, exec: Exec, choice: Choice, record': Record, exec': Exec)
    requires Inv(record, exec) && Steps(record, exec, choice, record', exec')
    ensures Evolves(record, record', exec.mode == External)
  {
    StoreEffectOf(record, exec, choice, record', exec');
    if NextOp(exec.pc).Some? {
      hide *;
      CallsAreReady(record, exec);
      ReadyEvolves(record, NextOp(exec.pc).value, exec.mode == External);
    }
  }

  lemma CancelEvolves(record: Record, exec: Exec)
    requires Inv(record, exec)
    ensures Evolves(record, CancelRecord(record), exec.mode == External)
  {
    ReadyEvolves(record, Cancel, exec.mode == External);
  }

  // ---------- the executor always exits ----------

  /** Compared lexicographically: the stage of the run; then the polls, or the plan
      positions, left; then attempts or passes; then external entries; then calls. */
  datatype Distance = Distance(stage: nat, polls: nat, passes: nat, entries: nat, calls: nat)

  ghost predicate Closer(a: Distance, b: Distance) {
    || a.stage < b.stage
    || (a.stage == b.stage && (|| a.polls < b.polls
       || (a.polls == b.polls && (|| a.passes < b.passes
          || (a.passes == b.passes && (|| a.entries < b.entries
             || (a.entries == b.entries && a.calls < b.calls)))))))
  }

  function Left(a: nat, b: nat): nat {
    if a < b then b - a else 0
  }

  function TimerBudget(timer: Timer): nat {
    if timer.interval > 0.0 then PollBudget(timer) else 0
  }

  function FrameDistance(f: Frame, calls: nat): Distance {
    Distance(2, Left(f.i, |f.order|), Left(f.attempts, MaxRetries(f) + 1), 0, calls)
  }

  function SyncDistance(sync: Sync, calls: nat): Distance {
    Distance(2, TimerBudget(sync.timer), 1, Left(sync.k, |sync.run.steps|), calls)
  }

  function ToExit(pc: Pc): Distance {
    match pc
    case AtStart => Distance(6, 0, 0, 0, 0)
    case AtGet => Distance(5, 0, 0, 0, 0)
    case AtStartStep(f) => FrameDistance(f, 1)
    case AtComplete(f) => FrameDistance(f, 3)
    case AtSucceedStep(f, _, _) => FrameDistance(f, 2)
    case AtFailStep(f, _) => FrameDistance(f, 2)
    case AtRuntimeSubmit => Distance(4, 0, 0, 0, 0)
    case AtSetRuntime(_, _, _) => Distance(3, 0, 0, 0, 0)
    case AtSyncGet(_, timer) => Distance(2, TimerBudget(timer), 2, 0, 0)
    case AtSyncStart(sync) => SyncDistance(sync, 2)
    case AtSyncFinish(sync) => SyncDistance(sync, 1)
    case AtPoll(timer) => Distance(2, TimerBudget(timer), 0, 0, 0)
    case AtExhausted(_, _) | AtSucceed(_) | AtExternalSucceed | AtExternalCancel | AtFail(_) => Distance(1, 0, 0, 0, 0)
    case Exited | Died => Distance(0, 0, 0, 0, 0)
  }

  lemma {:induction false} PassComesToAnEnd(sync: Sync)
    ensures var d := ToExit(SyncFrom(sync));
      || d.stage <= 1
      || (d.stage == 2 && d.polls == TimerBudget(sync.timer) && d.passes == 0)
      || (d.stage == 2 && d.polls == TimerBudget(sync.timer) && d.passes == 1 && d.entries <= Left(sync.k, |sync.run.steps|))
    decreases |sync.run.steps| - sync.k
  {
    hide Target;
    hide NormalizeStatus;
    hide PollBudget;
    if sync.k < |sync.run.steps| { PassComesToAnEnd(sync.(k := sync.k + 1)); }
  }

  lemma EdgeCloser(record: Record, exec: Exec, choice: Choice, record': Record, exec': Exec)
    requires Steps(record, exec, choice, record', exec')
    requires exec.pc.AtStart? || exec.pc.AtExhausted? || exec.pc.AtSucceed? || exec.pc.AtFail? || exec.pc.AtRuntimeSubmit?
          || exec.pc.AtSetRuntime? || exec.pc.AtExternalSucceed? || exec.pc.AtExternalCancel?
    ensures Closer(ToExit(exec'.pc), ToExit(exec.pc))
  {
    hide StoreEffect;
    hide StartTimer;
  }

  lemma GetCloser(record: Record, exec: Exec, choice: Choice, record': Record, exec': Exec)
    requires exec.pc.AtGet? && Steps(record, exec, choice, record', exec')
    ensures Closer(ToExit(exec'.pc), ToExit(exec.pc))
  {
    hide Kahn.Order;
    assert exec'.pc.AtRuntimeSubmit? || exec'.pc.AtFail? || exec'.pc.AtStartStep? || exec'.pc.AtSucceed? || exec'.pc.Exited?;
  }

  lemma LocalCloser(record: Record, exec: Exec, choice: Choice, record': Record, exec': Exec)
    requires Inv(record, exec) && Steps(record, exec, choice, record', exec')
    requires exec.pc.AtStartStep? || exec.pc.AtComplete? || exec.pc.AtSucceedStep? || exec.pc.AtFailStep?
    ensures Closer(ToExit(exec'.pc), ToExit(exec.pc))
  {
    hide SumAttempts;
    hide StatusFits;
    hide StoreEffect;
    var f := exec.pc.frame;
    assert MaxRetries(f) == record.steps[f.order[f.i]].spec.maxRetries;
  }

  lemma SyncGetEffect(record: Record, exec: Exec, choice: Choice, record': Record, exec': Exec)
    requires exec.pc.AtSyncGet? && Steps(record, exec, choice, record', exec')
    ensures exec'.pc == SyncAll(record.steps, exec.pc.run, exec.pc.timer)
  {
  }

  lemma PassCloser(local: seq<Step>, pc: Pc)
    requires pc.AtSyncGet?
    ensures Closer(ToExit(SyncAll(local, pc.run, pc.timer)), ToExit(pc))
  {
    hide SyncFrom;
    PassComesToAnEnd(Sync(local, pc.run, 0, pc.timer));
  }

  lemma FinishCloser(record: Record, pc: Pc)
    requires pc.AtSyncStart? && SyncOk(pc.sync, record)
    ensures Closer(ToExit(FinishFrom(pc.sync)), ToExit(pc))
  {
  }

  lemma NextEntryCloser(record: Record, pc: Pc)
    requires (pc.AtSyncStart? || pc.AtSyncFinish?) && SyncOk(pc.sync, record)
    ensures Closer(ToExit(SyncFrom(pc.sync.(k := pc.sync.k + 1))), ToExit(pc))
  {
    hide SyncFrom;
    PassComesToAnEnd(pc.sync.(k := pc.sync.k + 1));
  }

  lemma SyncCloser(record: Record, exec: Exec, choice: Choice, record': Record, exec': Exec)
    requires Inv(record, exec) && Steps(record, exec, choice, record', exec')
    requires exec.pc.AtSyncGet? || exec.pc.AtSyncStart? || exec.pc.AtSyncFinish?
    ensures Closer(ToExit(exec'.pc), ToExit(exec.pc))
  {
    hide *;
    if exec.pc.AtSyncGet? {
      SyncGetEffect(record, exec, choice, record', exec');
      PassCloser(record.steps, exec.pc);
    } else {
      SyncPointOk(record, exec);
      if exec.pc.AtSyncStart? {
        SyncStartEffect(record, exec, choice, record', exec');
      } else {
        SyncFinishEffect(record, exec, choice, record', exec');
      }
      if exec' == exec.(pc := FinishFrom(exec.pc.sync)) && exec.pc.AtSyncStart? {
        FinishCloser(record, exec.pc);
      } else {
        NextEntryCloser(record, exec.pc);
      }
    }
  }

  lemma PollCloser(record: Record, exec: Exec, choice: Choice, record': Record, exec': Exec)
    requires Inv(record, exec) && exec.pc.AtPoll? && Steps(record, exec, choice, record', exec')
    ensures Closer(ToExit(exec'.pc), ToExit(exec.pc))
  {
    if choice.checkedAt < exec.pc.timer.deadline { SleepSpendsBudget(exec.pc.timer, choice.checkedAt, choice.wokeAt); }
  }

  /** Every step that is not the exit brings the exit closer. */
  lemma StepsComeCloser(record: Record, exec: Exec, choice: Choice, record': Record, exec': Exec)
    requires Inv(record, exec) && WellPlanned(exec) && Steps(record, exec, choice, record', exec')
    requires !exec.pc.Exited? && !exec.pc.Died?
    ensures Closer(ToExit(exec'.pc), ToExit(exec.pc))
  {
    hide *;
    match exec.pc
    case AtStart => EdgeCloser(record, exec, choice, record', exec');
    case AtGet => GetCloser(record, exec, choice, record', exec');
    case AtStartStep(_) => LocalCloser(record, exec, choice, record', exec');
    case AtComplete(_) => LocalCloser(record, exec, choice, record', exec');
    case AtSucceedStep(_, _, _) => LocalCloser(record, exec, choice, record', exec');
    case AtFailStep(_, _) => LocalCloser(record, exec, choice, record', exec');
    case AtExhausted(_, _) => EdgeCloser(record, exec, choice, record', exec');
    case AtSucceed(_) => EdgeCloser(record, exec, choice, record', exec');
    case AtFail(_) => EdgeCloser(record, exec, choice, record', exec');
    case AtRuntimeSubmit => EdgeCloser(record, exec, choice, record', exec');
    case AtSetRuntime(_, _, _) => EdgeCloser(record, exec, choice, record', exec');
    case AtSyncGet(_, _) => SyncCloser(record, exec, choice, record', exec');
    case AtSyncStart(_) => SyncCloser(record, exec, choice, record', exec');
    case AtSyncFinish(_) => SyncCloser(record, exec, choice, record', exec');
    case AtPoll(_) => PollCloser(record, exec, choice, record', exec');
    case AtExternalSucceed => EdgeCloser(record, exec, choice, record', exec');
    case AtExternalCancel => EdgeCloser(record, exec, choice, record', exec');
    case Exited =>
    case Died =>
  }

  // ---------- what every reachable record looks like ----------

  /** Before a mode is chosen and in local mode, the record has a frontier. */
  lemma HasFrontier(record: Record, exec: Exec) returns (i: nat)
    requires Inv(record, exec) && exec.mode != External
    ensures Frontier(record.steps, exec.plan, i)
  {
    if exec.mode == Local && exec.pc.Exited? {
      if record.status == Failed && !AllDropped(record.steps) {
        i :| FailedAt(record.steps, exec.plan, i);
      } else if record.status == Cancelled {
        i :| Frontier(record.steps, exec.plan, i);
      } else {
        i := if record.status == Succeeded then |exec.plan| else 0;
      }
    } else if exec.mode == Local && !exec.pc.AtFail? {
      i := exec.pc.frame.i;
    } else {
      i := 0;
    }
  }

  lemma AtMostOneRunning(record: Record, exec: Exec, p: nat, q: nat)
    requires Inv(record, exec) && exec.mode != External
    requires p < |record.steps| && q < |record.steps|
    requires record.steps[p].status.Running? && record.steps[q].status.Running?
    ensures p == q
  {
    var i := HasFrontier(record, exec);
    assert p in exec.plan && q in exec.plan;
  }

  lemma PlanListing(exec: Exec) returns (listing: seq<string>)
    requires WellPlanned(exec)
    ensures |listing| == |exec.plan| == |exec.specs|
    ensures forall j :: 0 <= j < |exec.plan| ==> exec.plan[j] < |exec.specs| && listing[j] == exec.specs[exec.plan[j]].nodeId
    ensures Graph.DependenciesFirst(SpecNodes(exec.specs), listing)
  {
    var nodes := SpecNodes(exec.specs);
    Kahn.OrderIsTopological(nodes);
    Kahn.ListingIsDependenciesFirst(nodes, exec.plan);
    listing := Kahn.Listing(nodes, exec.plan);
  }

  /** A step that was ever attempted has all its transitive dependencies succeeded. */
  lemma AttemptedNeedsDependencies(record: Record, exec: Exec, p: nat, walk: seq<string>)
    requires Inv(record, exec) && WellPlanned(exec) && exec.mode != External
    requires p < |record.steps| && record.steps[p].attempts > 0
    requires |walk| >= 2 && Graph.IsWalk(SpecNodes(exec.specs), walk) && walk[0] == record.steps[p].spec.nodeId
    ensures exists q :: 0 <= q < |record.steps| && record.steps[q].spec.nodeId == walk[|walk| - 1]
                     && record.steps[q].status.Succeeded?
  {
    var i := HasFrontier(record, exec);
    assert p in exec.plan;
    var j :| 0 <= j < |exec.plan| && exec.plan[j] == p;
    var nodes := SpecNodes(exec.specs);
    assert j <= i;
    var listing := PlanListing(exec);
    Graph.WalkDescends(nodes, listing, walk, j);
    var m :| 0 <= m < j && listing[m] == walk[|walk| - 1];
    var q := exec.plan[m];
    assert record.steps[q].status.Succeeded?;
  }

  // ---------- provider calls ----------

  /** `"\n\n".join(...)` over the non-empty outputs, as `_complete` builds it. */
  function Join(outputs: seq<string>): string {
    if outputs == [] then ""
    else if outputs[|outputs| - 1] == "" then Join(outputs[..|outputs| - 1])
    else if Join(outputs[..|outputs| - 1]) == "" then outputs[|outputs| - 1]
    else Join(outputs[..|outputs| - 1]) + "\n\n" + outputs[|outputs| - 1]
  }

  predicate AllEmpty(outputs: seq<string>) {
    forall j :: 0 <= j < |outputs| ==> outputs[j] == ""
  }

  lemma {:induction false} JoinEmptyIff(outputs: seq<string>)
    ensures Join(outputs) == "" <==> AllEmpty(outputs)
  {
    if outputs != [] { JoinEmptyIff(outputs[..|outputs| - 1]); }
  }

  /** Empty outputs leave no trace; the others stand in order, a blank line between two. */
  lemma {:induction false} JoinFromFront(outputs: seq<string>)
    requires outputs != []
    ensures Join(outputs) ==
      if outputs[0] == "" then Join(outputs[1..])
      else if AllEmpty(outputs[1..]) then outputs[0]
      else outputs[0] + "\n\n" + Join(outputs[1..])
    decreases |outputs|
  {
    var front, rest, n := outputs[..|outputs| - 1], outputs[1..], |outputs| - 1;
    JoinEmptyIff(front);
    JoinEmptyIff(rest);
    if n > 0 {
      JoinFromFront(front);
      assert front[1..] == rest[..n - 1] && rest[n - 1] == outputs[n];
      JoinEmptyIff(front[1..]);
      if outputs[0] != "" && outputs[n] != "" && !AllEmpty(front[1..]) {
        assert outputs[0] + "\n\n" + Join(front[1..]) + "\n\n" + outputs[n] == outputs[0] + "\n\n" + (Join(front[1..]) + "\n\n" + outputs[n]);
      }
    }
  }

  function OutputsOf(completed: seq<Finished>): seq<string> {
    seq(|completed|, j requires 0 <= j < |completed| => completed[j].output)
  }

  function PriorOutput(completed: seq<Finished>): string {
    Join(OutputsOf(completed))
  }

  /** The stored outputs of the steps at the first `i` positions of the plan. */
  ghost function StoredOutputs(record: Record, plan: seq<nat>, i: nat): seq<string>
    requires IsPlan(plan, record.steps) && i <= |plan|
  {
    seq(i, j requires 0 <= j < i => record.steps[plan[j]].output)
  }

  /** At a provider call, the text passed on is made of the stored outputs of exactly
      the steps that have succeeded, in plan order, and the counters agree. */
  lemma ProviderSeesCompletedSteps(record: Record, exec: Exec)
    requires Inv(record, exec) && exec.pc.AtComplete?
    ensures var f := exec.pc.frame;
      && f.i < |exec.plan|
      && PriorOutput(f.completed) == Join(StoredOutputs(record, exec.plan, f.i))
      && (forall j :: 0 <= j < |exec.plan| ==> (record.steps[exec.plan[j]].status.Succeeded? <==> j < f.i))
      && record.steps[exec.plan[f.i]].attempts == f.attempts <= record.steps[exec.plan[f.i]].spec.maxRetries + 1
  {
    var f := exec.pc.frame;
    assert OutputsOf(f.completed) == StoredOutputs(record, exec.plan, f.i);
  }

  function SumBudget(specs: seq<Spec>): nat {
    if specs == [] then 0 else specs[|specs| - 1].maxRetries + 1 + SumBudget(specs[..|specs| - 1])
  }

  lemma {:induction false} AttemptsWithinBudget(steps: seq<Step>, specs: seq<Spec>)
    requires SameSpecs(steps, specs) && WithinBudget(steps)
    ensures SumAttempts(steps) <= SumBudget(specs)
  {
    if steps != [] { AttemptsWithinBudget(steps[..|steps| - 1], specs[..|specs| - 1]); }
  }

  /** Attempts never exceed `max_retries + 1`, nor provider calls their sum. */
  lemma CallsAreBounded(record: Record, exec: Exec)
    requires Inv(record, exec) && exec.mode != External
    ensures WithinBudget(record.steps)
    ensures exec.calls <= SumBudget(exec.specs)
  {
    var i := HasFrontier(record, exec);
    AttemptsWithinBudget(record.steps, exec.specs);
  }
}
