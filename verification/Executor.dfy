/** `execute_run` as a machine: between two store calls the executor is at a program
    point that holds its local variables; each step makes at most one store call.

    Provider, runtime and clock answers are choices. Choices are restricted only as
    the clients guarantee: completions are never empty, and the clock moves on by each
    sleep. A malformed external answer raises an error nothing catches: the thread dies. */
module Executor {
  import opened Wrappers
  import opened Ledger
  import opened Runtime
  import Kahn

  /** An entry of `completed_steps`. */
  datatype Finished = Finished(position: nat, output: string)

  /** Local variables of the local-mode loop: the snapshot, the order, the index
      into it, the attempt counter and `completed_steps`. */
  datatype Frame = Frame(steps: seq<Step>, order: seq<nat>, i: nat, attempts: nat, completed: seq<Finished>)

  /** Local variables of one `_sync_external_steps` pass, at external entry `k`. */
  datatype Sync = Sync(local: seq<Step>, run: ExternalRun, k: nat, timer: Timer)

  datatype Pc =
    | AtStart
    | AtGet
    | AtStartStep(frame: Frame)
    | AtComplete(frame: Frame)
    | AtSucceedStep(frame: Frame, output: string, usage: Usage)
    | AtFailStep(frame: Frame, error: string)
    | AtExhausted(frame: Frame, error: string)
    | AtSucceed(frame: Frame)
    | AtRuntimeSubmit
    | AtSetRuntime(externalId: string, run: ExternalRun, timer: Timer)
    | AtSyncGet(run: ExternalRun, timer: Timer)
    | AtSyncStart(sync: Sync)
    | AtSyncFinish(sync: Sync)
    | AtPoll(timer: Timer)
    | AtExternalSucceed
    | AtExternalCancel
    | AtFail(error: string)
    | Exited
    | Died

  datatype Answer = Answered(run: ExternalRun) | RuntimeError(error: string)

  datatype Choice =
    | NoChoice
    | LocalReady
    | BuildFailed(error: string)
    | UseExternal
    | Completed(output: string, usage: Usage)
    | ProviderError(error: string)
    | Accepted(externalId: string, run: ExternalRun, now: real, timeoutSetting: Option<real>, pollSetting: Option<real>)
    | SubmitFailed(error: string)
    | Polled(checkedAt: real, wokeAt: real, answer: Answer)

  predicate CanChoose(pc: Pc, choice: Choice) {
    match pc
    case AtGet => choice.LocalReady? || choice.BuildFailed? || choice.UseExternal?
    case AtComplete(_) => (choice.Completed? && choice.output != "") || choice.ProviderError?
    case AtRuntimeSubmit => choice.Accepted? || choice.SubmitFailed?
    case AtPoll(timer) => choice.Polled? && timer.now <= choice.checkedAt && choice.checkedAt + timer.interval <= choice.wokeAt
    case _ => choice.NoChoice?
  }

  // ---------- one pass over an external answer ----------

  /** The local position and status an external entry speaks about, if any. */
  function Target(sync: Sync): Option<(nat, string)>
    requires sync.k < |sync.run.steps|
  {
    match sync.run.steps[sync.k]
    case None => None
    case Some(step) =>
      if step.nodeId.None? then None else
      match FindNode(sync.local, step.nodeId.value)
      case None => None
      case Some(position) => Some((position, NormalizeStatus(step.status)))
  }

  /** The store call that reports an entry's result; its numbers are converted first. */
  function FinishFrom(sync: Sync): Pc
    requires sync.k < |sync.run.steps| && Target(sync).Some?
  {
    if Target(sync).value.1 == "succeeded" && sync.run.steps[sync.k].value.numbers.None? then Died else AtSyncFinish(sync)
  }

  /** An entry whose name cannot be looked up. */
  predicate Unhashable(sync: Sync)
    requires sync.k < |sync.run.steps|
  {
    sync.run.steps[sync.k].Some? && !sync.run.steps[sync.k].value.hashable
  }

  function AfterSync(run: ExternalRun, timer: Timer): Pc {
    var status := NormalizeStatus(run.status);
    if status == "succeeded" then AtExternalSucceed
    else if status == "cancelled" then AtExternalCancel
    else if status == "failed" then AtFail(run.summary)
    else AtPoll(timer)
  }

  /** The next store call of the pass from entry `k` on, or what follows the pass. */
  function SyncFrom(sync: Sync): Pc
    decreases |sync.run.steps| - sync.k
  {
    if sync.k >= |sync.run.steps| then AfterSync(sync.run, sync.timer)
    else if Unhashable(sync) then Died else
    match Target(sync)
    case None => SyncFrom(sync.(k := sync.k + 1))
    case Some((position, status)) =>
      if status in ["running", "succeeded", "failed"] && sync.local[position].status == Queued then AtSyncStart(sync)
      else if status in ["succeeded", "failed"] then FinishFrom(sync)
      else SyncFrom(sync.(k := sync.k + 1))
  }

  /** The whole pass. */
  function SyncAll(local: seq<Step>, run: ExternalRun, timer: Timer): Pc {
    if run.iterable then SyncFrom(Sync(local, run, 0, timer)) else Died
  }

  // ---------- the machine ----------

  /** The store call made at a program point. */
  function NextOp(pc: Pc): Option<Op> {
    match pc
    case AtStart => Some(Start)
    case AtGet => Some(Get)
    case AtStartStep(f) => if f.i < |f.order| then Some(StartStep(f.order[f.i])) else None
    case AtComplete(_) => None
    case AtSucceedStep(f, output, usage) => if f.i < |f.order| then Some(SucceedStep(f.order[f.i], output, usage)) else None
    case AtFailStep(f, error) => if f.i < |f.order| then Some(FailStep(f.order[f.i], error)) else None
    case AtExhausted(_, error) => Some(Fail(error))
    case AtSucceed(_) => Some(Succeed)
    case AtRuntimeSubmit => None
    case AtSetRuntime(externalId, _, _) => Some(SetRuntimeRunId(externalId))
    case AtSyncGet(_, _) => Some(Get)
    case AtSyncStart(sync) =>
      if sync.k < |sync.run.steps| && Target(sync).Some? then Some(StartStep(Target(sync).value.0)) else None
    case AtSyncFinish(sync) =>
      if sync.k < |sync.run.steps| && Target(sync).Some? then
        var (position, status) := Target(sync).value;
        var step := sync.run.steps[sync.k].value;
        Some(if status == "succeeded" then SucceedStep(position, step.output, OrElse(step.numbers, Usage(0, 0, 0))) else FailStep(position, step.error))
      else None
    case AtPoll(_) => None
    case AtExternalSucceed => Some(Succeed)
    case AtExternalCancel => Some(Cancel)
    case AtFail(error) => Some(Fail(error))
    case Exited | Died => None
  }

  /** The head of the `for position in order` loop. */
  function NextPosition(f: Frame): Pc {
    if f.i < |f.order|
    then AtStartStep(f.(attempts := if f.order[f.i] < |f.steps| then f.steps[f.order[f.i]].attempts else 0))
    else AtSucceed(f)
  }

  function MaxRetries(f: Frame): nat {
    if f.i < |f.order| && f.order[f.i] < |f.steps| then f.steps[f.order[f.i]].spec.maxRetries else 0
  }

  /** After `get`: choose the mode, build the executor, recompute the order. */
  ghost function AfterGet(steps: seq<Step>, choice: Choice): Pc {
    match choice
    case UseExternal => AtRuntimeSubmit
    case BuildFailed(error) => AtFail(error)
    case _ =>
      match Kahn.Order(StepNodes(steps))
      case None => AtFail("invalid DAG: duplicate, unknown, or cyclic dependency")
      case Some(order) => NextPosition(Frame(steps, order, 0, 0, []))
  }

  function AfterPoll(timer: Timer, choice: Choice): Pc
    requires choice.Polled?
  {
    if choice.checkedAt >= timer.deadline then AtFail("external agent runtime polling timed out")
    else match choice.answer
      case RuntimeError(error) => AtFail(error)
      case Answered(run) => AtSyncGet(run, timer.(now := choice.wokeAt))
  }

  /** Where the executor goes, given the store's reply and the choice. */
  ghost function Advance(pc: Pc, reply: Reply, choice: Choice): Pc
    requires CanChoose(pc, choice)
  {
    match pc
    case AtStart => if reply == Ack(true) then AtGet else Exited
    case AtGet =>
      if reply.Shown? && reply.snapshot.Some? then AfterGet(reply.snapshot.value.steps, choice) else Exited
    case AtStartStep(f) => if reply == Ack(true) then AtComplete(f.(attempts := f.attempts + 1)) else Exited
    case AtComplete(f) =>
      (match choice
       case Completed(output, usage) => AtSucceedStep(f, output, usage)
       case ProviderError(error) => AtFailStep(f, error))
    case AtSucceedStep(f, output, _) =>
      if reply == Ack(true) && f.i < |f.order|
      then NextPosition(f.(i := f.i + 1, completed := f.completed + [Finished(f.order[f.i], output)]))
      else Exited
    case AtFailStep(f, error) => if f.attempts <= MaxRetries(f) then AtStartStep(f) else AtExhausted(f, error)
    case AtRuntimeSubmit =>
      (match choice
       case Accepted(externalId, run, now, timeoutSetting, pollSetting) =>
         if externalId == "" then AtFail("external agent runtime response did not include a run id")
         else AtSetRuntime(externalId, run, StartTimer(now, timeoutSetting, pollSetting))
       case SubmitFailed(error) => AtFail(error))
    case AtSetRuntime(_, run, timer) => if reply == Ack(true) then AtSyncGet(run, timer) else Exited
    case AtSyncGet(run, timer) =>
      if reply.Shown? && reply.snapshot.Some?
      then SyncAll(reply.snapshot.value.steps, run, timer) else AfterSync(run, timer)
    case AtSyncStart(sync) =>
      if reply == Ack(true) && sync.k < |sync.run.steps| && Target(sync).Some? && Target(sync).value.1 != "running"
      then FinishFrom(sync) else SyncFrom(sync.(k := sync.k + 1))
    case AtSyncFinish(sync) => SyncFrom(sync.(k := sync.k + 1))
    case AtPoll(timer) => AfterPoll(timer, choice)
    case AtExhausted(_, _) | AtSucceed(_) | AtExternalSucceed | AtExternalCancel | AtFail(_) | Exited => Exited
    case Died => Died
  }

  /** The thread makes no more calls. */
  predicate Ended(pc: Pc) {
    pc.Exited? || pc.Died?
  }

  datatype Mode = Undecided | Local | External

  /** One executor thread. `specs` and `plan` are what was validated when the run was
      submitted; `calls` counts provider calls; a crashed executor never steps again. */
  datatype Exec = Exec(tenant: Tenant, key: Key, specs: seq<Spec>, plan: seq<nat>,
                       mode: Mode, pc: Pc, calls: nat, crashed: bool)

  function NewExec(tenant: Tenant, key: Key, specs: seq<Spec>, plan: seq<nat>): Exec {
    Exec(tenant, key, specs, plan, Undecided, AtStart, 0, false)
  }

  function ChosenMode(exec: Exec, choice: Choice): Mode {
    if !exec.pc.AtGet? then exec.mode else if choice.UseExternal? then External else Local
  }

  function StoreEffect(record: Record, pc: Pc): (Record, Reply) {
    var op := NextOp(pc);
    if op.Some? then Apply(record, op.value) else (record, Ack(true))
  }

  ghost function AdvanceExec(exec: Exec, reply: Reply, choice: Choice): Exec
    requires CanChoose(exec.pc, choice)
  {
    exec.(pc := Advance(exec.pc, reply, choice), mode := ChosenMode(exec, choice),
          calls := if exec.pc.AtComplete? then exec.calls + 1 else exec.calls)
  }

  ghost function StepExec(record: Record, exec: Exec, choice: Choice): (Record, Exec)
    requires CanChoose(exec.pc, choice)
  {
    var (after, reply) := StoreEffect(record, exec.pc);
    (after, AdvanceExec(exec, reply, choice))
  }
}
