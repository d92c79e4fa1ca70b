/** `execute_run`, `_execute_external_run` and `_sync_external_steps` as the loops they
    are, over a record that the API may cancel before any store call. The loops follow
    the executor machine call by call, so they end where the machine ends. */
module ExecuteRun {
  import opened Wrappers
  import opened Ledger
  import opened Runtime
  import opened Executor
  import opened ExecutorInvariant
  import opened ExecutorDeath
  import opened ThreadHistory
  import ExternalOutcome
  import ExternalSteps
  import LocalOutputs
  import Graph
  import Kahn

  /** The nodes `_topological_order` reads from a snapshot. */
  method NodesOf(steps: seq<Step>) returns (nodes: seq<Graph.Node>)
    ensures nodes == StepNodes(steps)
  {
    nodes := seq(|steps|, i requires 0 <= i < |steps| => Graph.Node(steps[i].spec.nodeId, steps[i].spec.dependsOn));
  }

  /** The `positions` dictionary: a later step of the same name wins. */
  method IndexSteps(steps: seq<Step>) returns (positions: map<string, nat>)
    ensures forall name :: FindNode(steps, name) == if name in positions then Some(positions[name]) else None
  {
    positions := map[];
    for i := 0 to |steps|
      invariant forall name :: FindNode(steps[..i], name) == if name in positions then Some(positions[name]) else None
    {
      positions := positions[steps[i].spec.nodeId := i];
      assert steps[..i + 1][..i] == steps[..i];
    }
    assert steps[..|steps|] == steps;
  }

  /** A step taken on the record as it is, or as a cancellation leaves it. */
  lemma Stepped(log: seq<Moment>, record: Record, exec: Exec, before: Record, choice: Choice)
    requires History(log, record, exec) && !Ended(exec.pc) && CanChoose(exec.pc, choice)
    requires before == record || before == CancelRecord(record)
    ensures History(log + [Moment(before, exec, choice)], StepExec(before, exec, choice).0, StepExec(before, exec, choice).1)
  {
    hide StepExec;
    hide CancelRecord;
    hide History;
    hide CanChoose;
    if before != record { HistoryCancelled(log, record, exec); }
    var (record', exec') := StepExec(before, exec, choice);
    HistoryGrows(log, before, exec, choice, record', exec');
  }

  class Thread {
    var record: Record
    ghost var exec: Exec
    ghost var log: seq<Moment>

    ghost predicate Valid()
      reads this
    {
      History(log, record, exec)
    }

    /** A thread for a run that `submit_run` just created. */
    constructor (created: Record, ghost thread: Exec)
      requires Inv(created, thread) && WellPlanned(thread) && thread.pc == AtStart && created.runtimeRunId.None?
      ensures Valid() && record == created && exec == thread && log == []
    {
      record, exec, log := created, thread, [];
    }

    /** One store call, before which an API request may cancel the run. */
    method Call(op: Op, ghost choice: Choice) returns (reply: Reply)
      requires Valid() && NextOp(exec.pc) == Some(op) && CanChoose(exec.pc, choice)
      modifies this
      ensures Valid() && exec == AdvanceExec(old(exec), reply, choice)
      ensures reply == Apply(old(record), op).1 || reply == Apply(CancelRecord(old(record)), op).1
      ensures log == old(log) + [Moment(old(record), old(exec), choice)]
           || log == old(log) + [Moment(CancelRecord(old(record)), old(exec), choice)]
    {
      hide History;
      hide Apply;
      hide CancelRecord;
      hide Advance;
      var cancelled: bool := *;
      ghost var was, thread, past := record, exec, log;
      if cancelled { record := CancelRecord(record); }
      Stepped(past, was, thread, record, choice);
      log := log + [Moment(record, exec, choice)];
      var (after, answer) := Apply(record, op);
      record, reply := after, answer;
      exec := AdvanceExec(exec, reply, choice);
    }

    /** The thread moves on without the store: a provider, the runtime, the clock. */
    ghost method Move(choice: Choice)
      requires Valid() && NextOp(exec.pc).None? && !Ended(exec.pc) && CanChoose(exec.pc, choice)
      modifies this`exec, this`log
      ensures Valid() && exec == AdvanceExec(old(exec), Ack(true), choice) && log == old(log) + [Moment(record, old(exec), choice)]
    {
      hide History;
      hide Advance;
      Stepped(log, record, exec, record, choice);
      log := log + [Moment(record, exec, choice)];
      exec := AdvanceExec(exec, Ack(true), choice);
    }

    // ---------- the outside world ----------

    method ChooseMode() returns (choice: Choice)
      ensures CanChoose(AtGet, choice)
    {
      var external: bool, failure: Option<string> := *, *;
      choice := if external then UseExternal else if failure.Some? then BuildFailed(failure.value) else LocalReady;
    }

    /** `_complete`; the clients raise or return a completion with a text. */
    method Complete(ghost f: Frame) returns (choice: Choice)
      ensures CanChoose(AtComplete(f), choice)
    {
      var output: string, usage: Usage, error: string := *, *, *;
      choice := if output == "" then ProviderError(error) else Completed(output, usage);
    }

    method SubmitToRuntime() returns (choice: Choice)
      ensures CanChoose(AtRuntimeSubmit, choice)
    {
      var answer: Option<(string, ExternalRun)>, error: string := *, *;
      var now: real, timeoutSetting: Option<real>, pollSetting: Option<real> := *, *, *;
      choice := if answer.None? then SubmitFailed(error)
                else Accepted(answer.value.0, answer.value.1, now, timeoutSetting, pollSetting);
    }

    /** Look at the clock, sleep for the interval, ask the runtime. */
    method Poll(timer: Timer) returns (choice: Choice)
      ensures choice.Polled? && CanChoose(AtPoll(timer), choice)
    {
      var checkedAt: real, wokeAt: real, answer: Answer := *, *, *;
      if checkedAt < timer.now { checkedAt := timer.now; }
      if wokeAt < checkedAt + timer.interval { wokeAt := checkedAt + timer.interval; }
      choice := Polled(checkedAt, wokeAt, answer);
    }

    // ---------- external execution ----------

    /** One entry of the external answer that names a local step. */
    method SyncStep(local: seq<Step>, run: ExternalRun, k: nat, timer: Timer, position: nat) returns (raised: bool)
      requires Valid() && k < |run.steps| && exec.pc == SyncFrom(Sync(local, run, k, timer))
      requires run.steps[k].Some? && run.steps[k].value.nodeId.Some? && run.steps[k].value.hashable
      requires FindNode(local, run.steps[k].value.nodeId.value) == Some(position)
      modifies this
      ensures Valid() && exec.pc == if raised then Died else SyncFrom(Sync(local, run, k + 1, timer))
      ensures raised ==> Faulty(run.steps[k])
    {
      hide Valid;
      hide Apply;
      hide AfterSync;
      hide FindNode;
      hide NormalizeStatus;
      var step := run.steps[k].value;
      var status := NormalizeStatus(step.status);
      assert Target(Sync(local, run, k, timer)) == Some((position, status));
      if status in ["running", "succeeded", "failed"] && local[position].status == Queued {
        var reply := Call(StartStep(position), NoChoice);
        if reply != Ack(true) { return false; }
      }
      raised := false;
      if status == "succeeded" {
        if step.numbers.None? { return true; }
        var reply := Call(SucceedStep(position, step.output, step.numbers.value), NoChoice);
      } else if status == "failed" {
        var reply := Call(FailStep(position, step.error), NoChoice);
      }
    }

    /** `_sync_external_steps`, which raises on a malformed answer. */
    method SyncSteps(run: ExternalRun, timer: Timer) returns (raised: bool)
      requires Valid() && exec.pc == AtSyncGet(run, timer)
      modifies this
      ensures Valid() && exec.pc == if raised then Died else AfterSync(run, timer)
      ensures raised ==> !run.iterable || exists k :: 0 <= k < |run.steps| && Faulty(run.steps[k])
    {
      hide Valid;
      hide Apply;
      hide AfterSync;
      var reply := Call(Get, NoChoice);
      if !reply.Shown? || reply.snapshot.None? { return false; }
      var local := reply.snapshot.value.steps;
      var positions := IndexSteps(local);
      if !run.iterable { return true; }
      for k := 0 to |run.steps|
        invariant Valid() && exec.pc == SyncFrom(Sync(local, run, k, timer))
      {
        if run.steps[k].None? { continue; }
        var step := run.steps[k].value;
        if !step.hashable { return true; }
        if step.nodeId.None? || step.nodeId.value !in positions { continue; }
        raised := SyncStep(local, run, k, timer, positions[step.nodeId.value]);
        if raised { return; }
      }
      raised := false;
    }

    /** A terminal answer of the runtime ends the run. */
    method ReportEnd(run: ExternalRun, ghost timer: Timer) returns (ended: bool)
      requires Valid() && exec.pc == AfterSync(run, timer)
      modifies this
      ensures Valid() && exec.pc == if ended then Exited else AtPoll(timer)
    {
      hide Valid;
      hide Apply;
      var status := NormalizeStatus(run.status);
      ended := status in ["succeeded", "failed", "cancelled"];
      if status == "succeeded" {
        var reply := Call(Succeed, NoChoice);
      } else if status == "cancelled" {
        var reply := Call(Cancel, NoChoice);
      } else if status == "failed" {
        var reply := Call(Fail(run.summary), NoChoice);
      }
    }

    /** The end of the polling loop: the next answer, or None when the thread has given up. */
    method NextAnswer(timer: Timer) returns (next: Option<(ExternalRun, Timer)>)
      requires Valid() && exec.pc == AtPoll(timer) && timer.interval > 0.0
      modifies this
      ensures Valid()
      ensures next.None? ==> exec.pc == Exited
      ensures next.Some? ==> exec.pc == AtSyncGet(next.value.0, next.value.1)
      ensures next.Some? ==> next.value.1.interval > 0.0 && PollBudget(next.value.1) < PollBudget(timer)
    {
      hide Valid;
      hide Apply;
      var polled := Poll(timer);
      Move(polled);
      if polled.checkedAt >= timer.deadline {
        var reply := Call(Fail("external agent runtime polling timed out"), NoChoice);
        return None;
      }
      if polled.answer.RuntimeError? {
        var reply := Call(Fail(polled.answer.error), NoChoice);
        return None;
      }
      SleepSpendsBudget(timer, polled.checkedAt, polled.wokeAt);
      hide PollBudget;
      return Some((polled.answer.run, timer.(now := polled.wokeAt)));
    }

    /** The polling loop. */
    method PollToEnd(first: ExternalRun, started: Timer) returns (raised: bool)
      requires Valid() && exec.pc == AtSyncGet(first, started) && started.interval > 0.0
      modifies this
      ensures Valid() && exec.pc == if raised then Died else Exited
    {
      hide Valid;
      hide Apply;
      hide SyncFrom;
      hide AfterSync;
      hide PollBudget;
      var run, timer := first, started;
      while true
        invariant Valid() && exec.pc == AtSyncGet(run, timer) && timer.interval > 0.0
        decreases PollBudget(timer)
      {
        raised := SyncSteps(run, timer);
        if raised { return; }
        var ended := ReportEnd(run, timer);
        if ended { return; }
        var next := NextAnswer(timer);
        if next.None? { return; }
        run, timer := next.value.0, next.value.1;
      }
    }

    method RegisterAndPoll(externalId: string, first: ExternalRun, started: Timer) returns (raised: bool)
      requires Valid() && exec.pc == AtSetRuntime(externalId, first, started) && started.interval > 0.0
      modifies this
      ensures Valid() && exec.pc == if raised then Died else Exited
    {
      hide Valid;
      hide Apply;
      raised := false;
      var reply := Call(SetRuntimeRunId(externalId), NoChoice);
      if reply == Ack(true) { raised := PollToEnd(first, started); }
    }

    /** `_execute_external_run`. */
    method ExecuteExternal() returns (raised: bool)
      requires Valid() && exec.pc == AtRuntimeSubmit
      modifies this
      ensures Valid() && exec.pc == if raised then Died else Exited
    {
      hide Valid;
      hide Apply;
      hide StartTimer;
      hide RuntimeFloat;
      var submitted := SubmitToRuntime();
      Move(submitted);
      raised := false;
      if submitted.SubmitFailed? {
        var reply := Call(Fail(submitted.error), NoChoice);
      } else if submitted.externalId == "" {
        var reply := Call(Fail("external agent runtime response did not include a run id"), NoChoice);
      } else {
        raised := RegisterAndPoll(submitted.externalId, submitted.run,
                                  StartTimer(submitted.now, submitted.timeoutSetting, submitted.pollSetting));
      }
    }

    // ---------- local execution ----------

    /** The retry loop of one step: its output, or None when the thread has exited. */
    method ExecuteStep(steps: seq<Step>, order: seq<nat>, i: nat, completed: seq<Finished>) returns (output: Option<string>, attempts: nat)
      requires Valid() && i < |order| && order[i] < |steps|
      requires exec.pc == NextPosition(Frame(steps, order, i, 0, completed))
      modifies this
      ensures Valid()
      ensures output.None? ==> exec.pc == Exited
      ensures output.Some? ==>
        exec.pc == NextPosition(Frame(steps, order, i + 1, attempts, completed + [Finished(order[i], output.value)]))
    {
      hide Valid;
      hide Apply;
      hide AfterSync;
      hide AfterPoll;
      hide AfterGet;
      hide SyncFrom;
      hide FinishFrom;
      hide Target;
      var position := order[i];
      var maxRetries := steps[position].spec.maxRetries;
      attempts := steps[position].attempts;
      while true
        invariant Valid() && exec.pc == AtStartStep(Frame(steps, order, i, attempts, completed))
        decreases maxRetries - attempts
      {
        var reply := Call(StartStep(position), NoChoice);
        if reply != Ack(true) { return None, attempts; }
        attempts := attempts + 1;
        var choice := Complete(Frame(steps, order, i, attempts, completed));
        Move(choice);
        if choice.ProviderError? {
          reply := Call(FailStep(position, choice.error), NoChoice);
          if attempts <= maxRetries { continue; }
          reply := Call(Fail(choice.error), NoChoice);
          return None, attempts;
        }
        reply := Call(SucceedStep(position, choice.output, choice.usage), NoChoice);
        if reply != Ack(true) { return None, attempts; }
        return Some(choice.output), attempts;
      }
    }

    /** The steps one after the other, in the given order. */
    method ExecuteInOrder(steps: seq<Step>, order: seq<nat>)
      requires Valid() && exec.pc == NextPosition(Frame(steps, order, 0, 0, []))
      requires forall i :: 0 <= i < |order| ==> order[i] < |steps|
      modifies this
      ensures Valid() && exec.pc == Exited
    {
      hide Valid;
      hide Apply;
      var completed: seq<Finished>, attempts: nat := [], 0;
      for i := 0 to |order|
        invariant Valid() && exec.pc == NextPosition(Frame(steps, order, i, attempts, completed))
      {
        var output: Option<string>;
        output, attempts := ExecuteStep(steps, order, i, completed);
        if output.None? { return; }
        completed := completed + [Finished(order[i], output.value)];
      }
      var reply := Call(Succeed, NoChoice);
    }

    method ExecuteLocal(steps: seq<Step>)
      requires Valid() && exec.pc == AfterGet(steps, LocalReady)
      modifies this
      ensures Valid() && exec.pc == Exited
    {
      hide Valid;
      hide Apply;
      var nodes := NodesOf(steps);
      var order := Kahn.TopologicalOrder(nodes);
      if order.None? {
        var reply := Call(Fail("invalid DAG: duplicate, unknown, or cyclic dependency"), NoChoice);
        return;
      }
      Kahn.OrderIsTopological(nodes);
      hide Kahn.Order;
      forall i | 0 <= i < |order.value| ensures order.value[i] < |steps| {
        assert order.value[i] in order.value;
      }
      ExecuteInOrder(steps, order.value);
    }

    // ---------- the whole thread ----------

    method RunToExit() returns (raised: bool)
      requires Valid() && exec.pc == AtStart
      modifies this
      ensures Valid() && exec.pc == if raised then Died else Exited
    {
      hide Valid;
      hide Apply;
      hide Kahn.Order;
      var reply := Call(Start, NoChoice);
      if reply != Ack(true) { return false; }
      var choice := ChooseMode();
      reply := Call(Get, choice);
      if !reply.Shown? || reply.snapshot.None? { return false; }
      var steps := reply.snapshot.value.steps;
      raised := false;
      if choice.UseExternal? {
        raised := ExecuteExternal();
      } else if choice.BuildFailed? {
        reply := Call(Fail(choice.error), NoChoice);
      } else {
        ExecuteLocal(steps);
      }
    }

    lemma Outcome()
      requires Valid() && Ended(exec.pc)
      ensures exec.pc.Died? <==> Killed(log)
      ensures Terminal(record.status) <==> record.cancelled || !Killed(log)
      ensures Killed(log) ==> exec.mode == External
      ensures exec.mode == Local ==> LocalOutcome(record, exec.plan)
    {
      HistoryIsSound(log, record, exec);
      DeadIffKilled(log, record, exec);
      EndedIsTerminalIff(record, exec);
      hide Killed;
      hide History;
    }

    lemma Stored()
      requires Valid()
      ensures exec.mode == Local ==> LocalOutputs.AllStoreAnswers(log, record) && LocalOutputs.FailureIsReported(log, record)
      ensures exec.mode == External ==> ExternalSteps.AllStoreReports(log, record)
      ensures exec.mode == External && exec.pc.Exited? && ExternalOutcome.Uncancelled(log) ==> ExternalOutcome.EndsAs(log, record)
    {
      if exec.mode == Local { LocalOutputs.StoredIsAnswered(log, record, exec); }
      if exec.mode == External { ExternalSteps.StoredIsReported(log, record, exec); }
      if exec.mode == External && exec.pc.Exited? && ExternalOutcome.Uncancelled(log) { ExternalOutcome.ExternalOutcome(log, record, exec); }
      hide *;
    }

    /** `execute_run`: it always comes to an end. It raises if and only if one of its
        steps read a record and an answer that kill it, in external mode, and the run is
        terminal at the end unless that happened to a run nobody cancelled. In local mode
        it ends with every step succeeded, or failed at one exhausted step, or nothing
        left open, and the steps hold the provider's answers. In external mode they hold
        what the runtime reported, and the run ends as its last answer says. */
    method Execute() returns (raised: bool)
      requires Valid() && exec.pc == AtStart
      modifies this
      ensures Valid() && exec.pc == if raised then Died else Exited
      ensures History(log, record, exec) && (raised <==> Killed(log))
      ensures Terminal(record.status) <==> record.cancelled || !Killed(log)
      ensures raised ==> exec.mode == External
      ensures exec.mode == Local ==> LocalOutcome(record, exec.plan)
      ensures exec.mode == Local ==> LocalOutputs.AllStoreAnswers(log, record) && LocalOutputs.FailureIsReported(log, record)
      ensures exec.mode == External ==> ExternalSteps.AllStoreReports(log, record)
      ensures exec.mode == External && !raised && ExternalOutcome.Uncancelled(log) ==> ExternalOutcome.EndsAs(log, record)
    {
      hide Killed;
      hide History;
      hide Inv;
      hide LocalOutputs.AllStoreAnswers;
      hide LocalOutputs.FailureIsReported;
      hide ExternalSteps.AllStoreReports;
      hide ExternalOutcome.Uncancelled;
      hide ExternalOutcome.EndsAs;
      raised := RunToExit();
      Outcome();
      Stored();
    }
  }
}
