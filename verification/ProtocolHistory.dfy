/** The steps of each thread in a run of the system are a history of it; what holds of
    every history holds of every reachable state of every interleaving. */
module ProtocolHistory {
  import opened Wrappers
  import opened Ledger
  import opened Executor
  import opened ExecutorInvariant
  import opened ExecutorDeath
  import opened ThreadHistory
  import opened Protocol
  import opened ProtocolSafety
  import opened ProtocolRuns
  import ExecutorSafety
  import ExternalOutcome
  import ExternalAttempts
  import ExternalSteps
  import LocalOutputs
  import Kahn

  ghost function OwnStep(s: MemSys, event: Event, id: RunId): seq<Moment> {
    if event.ExecStep? && event.id == id && id in s.mem.runs && id in s.threads.execs
    then [Moment(s.mem.runs[id], s.threads.execs[id], event.choice)] else []
  }

  /** The steps the run's own thread took in the first `n` events. */
  ghost function OwnSteps(states: seq<MemSys>, events: seq<Event>, n: nat, id: RunId): seq<Moment>
    requires n <= |events| && n <= |states|
  {
    if n == 0 then []
    else OwnSteps(states, events, n - 1, id) + OwnStep(states[n - 1], events[n - 1], id)
  }

  /** The thread, whether or not its process is alive. */
  ghost function ThreadOf(s: MemSys, id: RunId): Exec
    requires id in s.threads.execs
  {
    s.threads.execs[id].(crashed := false)
  }

  lemma RunsEvolveKnown(states: seq<MemSys>, events: seq<Event>, m: nat, n: nat, id: RunId)
    requires MemRun(states, events) && m <= n <= |events| && id in states[m].threads.execs
    ensures id in states[n].threads.execs
  {
    SameRuns(states, events, m, id);
    RunsEvolve(states, events, m, n, id);
  }

  lemma {:induction false} NoStepsBefore(states: seq<MemSys>, events: seq<Event>, m: nat, n: nat, id: RunId)
    requires MemRun(states, events) && m <= n <= |events| && |states| == |events| + 1 && id !in states[n].threads.execs
    ensures OwnSteps(states, events, m, id) == []
    decreases m
  {
    if m > 0 {
      NoStepsBefore(states, events, m - 1, n, id);
      if id in states[m - 1].threads.execs { RunsEvolveKnown(states, events, m - 1, n, id); }
    }
    hide MemRun;
  }

  lemma AliveIsItself(s: MemSys, event: Event)
    requires MemEnabled(s, event) && event.ExecStep?
    ensures event.id in s.threads.execs && ThreadOf(s, event.id) == s.threads.execs[event.id] && !Ended(s.threads.execs[event.id].pc)
  {
  }

  lemma StepsNotCrashed(record: Record, exec: Exec, choice: Choice, record': Record, exec': Exec)
    requires ExecutorSafety.Steps(record, exec, choice, record', exec') && !exec.crashed
    ensures !exec'.crashed
  {
    hide StoreEffect;
    hide Advance;
  }

  lemma ReplacedOwn(s: MemSys, id: RunId, record: Record, exec: Exec)
    ensures var s' := Replaced(s, id, record, exec);
      && id in s'.mem.runs && s'.mem.runs[id] == record && id in s'.threads.execs
      && s'.threads.execs[id] == exec && (!exec.crashed ==> ThreadOf(s', id) == exec)
  {
  }

  lemma OwnStepGrows(s: MemSys, event: Event, id: RunId, log: seq<Moment>)
    requires SysInv(s) && MemEnabled(s, event) && event.ExecStep? && event.id == id && id in s.mem.runs && id in s.threads.execs
    requires History(log, s.mem.runs[id], ThreadOf(s, id))
    ensures id in MemNext(s, event).mem.runs && id in MemNext(s, event).threads.execs
    ensures History(log + OwnStep(s, event, id), MemNext(s, event).mem.runs[id], ThreadOf(MemNext(s, event), id))
  {
    assert OwnStep(s, event, id) == [Moment(s.mem.runs[id], s.threads.execs[id], event.choice)];
    hide *;
    ExecStepEffect(s, event);
    ExecEnabled(s, event);
    AliveIsItself(s, event);
    var (record', exec') := StepExec(s.mem.runs[id], s.threads.execs[id], event.choice);
    StepKnown(s.mem.runs[id], s.threads.execs[id], event.choice, record', exec');
    StepsNotCrashed(s.mem.runs[id], s.threads.execs[id], event.choice, record', exec');
    HistoryGrows(log, s.mem.runs[id], s.threads.execs[id], event.choice, record', exec');
    ReplacedOwn(s, id, record', exec');
  }

  /** Events that are no step of the thread leave it, and its record but for a cancellation. */
  lemma OtherEvents(s: MemSys, event: Event, id: RunId)
    requires SysInv(s) && MemEnabled(s, event) && id in s.mem.runs && id in s.threads.execs && !(event.ExecStep? && event.id == id)
    ensures id in MemNext(s, event).mem.runs && id in MemNext(s, event).threads.execs
    ensures MemNext(s, event).mem.runs[id] == s.mem.runs[id] || MemNext(s, event).mem.runs[id] == CancelRecord(s.mem.runs[id])
    ensures ThreadOf(MemNext(s, event), id) == ThreadOf(s, id)
  {
    match event {
      case ApiSubmit(_, _, _, _, _, _) => SubmitEffect(s, event); hide MemNext; hide Kahn.Order;
      case ApiCall(_, _, _) => ApiCallEffect(s, event); hide MemNext;
      case ExecStep(_, _) => ExecStepEffect(s, event); hide MemNext; hide StepExec;
      case Crash(_) =>
    }
    hide SysInv;
  }

  lemma OtherEventKeeps(s: MemSys, event: Event, id: RunId, log: seq<Moment>)
    requires SysInv(s) && MemEnabled(s, event) && id in s.mem.runs && id in s.threads.execs && !(event.ExecStep? && event.id == id)
    requires History(log, s.mem.runs[id], ThreadOf(s, id))
    ensures id in MemNext(s, event).mem.runs && id in MemNext(s, event).threads.execs
    ensures History(log + OwnStep(s, event, id), MemNext(s, event).mem.runs[id], ThreadOf(MemNext(s, event), id))
  {
    OtherEvents(s, event, id);
    HistoryCancelled(log, s.mem.runs[id], ThreadOf(s, id));
    assert log + [] == log;
    hide MemNext;
    hide History;
    hide SysInv;
  }

  lemma OnlySubmitAdds(s: MemSys, event: Event, id: RunId)
    requires MemEnabled(s, event) && id !in s.threads.execs && id in MemNext(s, event).threads.execs
    ensures event.ApiSubmit?
  {
    hide MemCall;
    hide AdvanceExec;
  }

  lemma NewBorn(s: MemSys, event: Event, id: RunId)
    requires SysInv(s) && MemEnabled(s, event) && id !in s.threads.execs && id in MemNext(s, event).threads.execs
    ensures id in MemNext(s, event).mem.runs && MemNext(s, event).mem.runs[id].runtimeRunId.None?
    ensures MemNext(s, event).threads.execs[id].pc == AtStart
  {
    OnlySubmitAdds(s, event, id);
    SubmitEffect(s, event);
    hide MemNext;
    hide SysInv;
    hide Kahn.Order;
  }

  lemma CrashChangesNothing(record: Record, exec: Exec)
    requires Inv(record, exec) && WellPlanned(exec)
    ensures Inv(record, exec.(crashed := false)) && WellPlanned(exec.(crashed := false))
  {
  }

  lemma BornWithHistory(s: MemSys, event: Event, id: RunId)
    requires SysInv(s) && MemEnabled(s, event) && id !in s.threads.execs && id in MemNext(s, event).threads.execs
    ensures id in MemNext(s, event).mem.runs
    ensures History([], MemNext(s, event).mem.runs[id], ThreadOf(MemNext(s, event), id))
  {
    StepIsGood(s, event);
    GoodParts(s, MemNext(s, event));
    OwnRun(MemNext(s, event), id);
    hide *;
    NewBorn(s, event, id);
    CrashChangesNothing(MemNext(s, event).mem.runs[id], MemNext(s, event).threads.execs[id]);
    StartOfHistory(MemNext(s, event).mem.runs[id], ThreadOf(MemNext(s, event), id));
  }

  lemma OwnStepsOne(states: seq<MemSys>, events: seq<Event>, n: nat, id: RunId)
    requires n < |events| && n < |states|
    ensures OwnSteps(states, events, n + 1, id) == OwnSteps(states, events, n, id) + OwnStep(states[n], events[n], id)
  {
  }

  lemma OneEvent(s: MemSys, event: Event, id: RunId, log: seq<Moment>)
    requires SysInv(s) && MemEnabled(s, event) && id in s.mem.runs && id in s.threads.execs
    requires History(log, s.mem.runs[id], ThreadOf(s, id))
    ensures id in MemNext(s, event).mem.runs && id in MemNext(s, event).threads.execs
    ensures History(log + OwnStep(s, event, id), MemNext(s, event).mem.runs[id], ThreadOf(MemNext(s, event), id))
  {
    hide *;
    if event.ExecStep? && event.id == id { OwnStepGrows(s, event, id, log); } else { OtherEventKeeps(s, event, id, log); }
  }

  lemma NotItsOwn(s: MemSys, event: Event, id: RunId)
    requires id !in s.threads.execs
    ensures OwnStep(s, event, id) == []
  {
  }

  /** The steps of a thread are a history of it, up to every state. */
  lemma {:induction false} OwnStepsAreHistory(states: seq<MemSys>, events: seq<Event>, n: nat, id: RunId)
    requires Reached(states, events, n, id)
    ensures |states| == |events| + 1
    ensures History(OwnSteps(states, events, n, id), states[n].mem.runs[id], ThreadOf(states[n], id))
    decreases n
  {
    hide *;
    ReachedParts(states, events, n, id);
    RunStep(states, events, n - 1);
    RunKeepsInv(states, events, n - 1);
    OwnStepsOne(states, events, n - 1, id);
    if id in states[n - 1].threads.execs {
      ReachedParts(states, events, n - 1, id);
      OwnStepsAreHistory(states, events, n - 1, id);
      OneEvent(states[n - 1], events[n - 1], id, OwnSteps(states, events, n - 1, id));
    } else {
      NoStepsBefore(states, events, n - 1, n - 1, id);
      NotItsOwn(states[n - 1], events[n - 1], id);
      BornWithHistory(states[n - 1], events[n - 1], id);
    }
  }

  // ---------- what holds of every run ----------

  lemma ThreadHas(states: seq<MemSys>, events: seq<Event>, n: nat, id: RunId)
    requires Reached(states, events, n, id)
    ensures ThreadOf(states[n], id).pc == states[n].threads.execs[id].pc && ThreadOf(states[n], id).mode == states[n].threads.execs[id].mode
  {
  }

  /** A thread is dead exactly when one of its steps so far killed it. */
  lemma DeadThreadWasKilled(states: seq<MemSys>, events: seq<Event>, n: nat, id: RunId)
    requires Reached(states, events, n, id)
    ensures |states| == |events| + 1
    ensures states[n].threads.execs[id].pc.Died? <==> Killed(OwnSteps(states, events, n, id))
  {
    OwnStepsAreHistory(states, events, n, id);
    DeadIffKilled(OwnSteps(states, events, n, id), states[n].mem.runs[id], ThreadOf(states[n], id));
    ThreadHas(states, events, n, id);
    hide *;
  }

  /** A thread that makes no more calls leaves its run terminal if and only if the run was
      cancelled or no step of the thread read a record and an answer that kill it. */
  lemma EndedThreadIsTerminalIff(states: seq<MemSys>, events: seq<Event>, n: nat, id: RunId)
    requires Reached(states, events, n, id) && Ended(states[n].threads.execs[id].pc)
    ensures |states| == |events| + 1
    ensures Terminal(states[n].mem.runs[id].status) <==> states[n].mem.runs[id].cancelled || !Killed(OwnSteps(states, events, n, id))
    ensures states[n].threads.execs[id].mode != External ==> Terminal(states[n].mem.runs[id].status)
  {
    DeadThreadWasKilled(states, events, n, id);
    ReachedIsOk(states, events, n, id);
    EndedIsTerminalIff(states[n].mem.runs[id], states[n].threads.execs[id]);
    DeadMode(states[n].mem.runs[id], states[n].threads.execs[id]);
    hide Killed;
    hide Inv;
    hide MemRun;
  }

  /** An external thread that has left, its run cancelled by no request, leaves the run as
      the runtime's last answer says, or failed for want of one. */
  lemma ExternalRunsEndAsTold(states: seq<MemSys>, events: seq<Event>, n: nat, id: RunId)
    requires Reached(states, events, n, id)
    requires states[n].threads.execs[id].mode == External && states[n].threads.execs[id].pc.Exited?
    ensures |states| == |events| + 1
    ensures var log := OwnSteps(states, events, n, id);
      ExternalOutcome.Uncancelled(log) ==> ExternalOutcome.EndsAs(log, states[n].mem.runs[id])
  {
    OwnStepsAreHistory(states, events, n, id);
    ThreadHas(states, events, n, id);
    var log := OwnSteps(states, events, n, id);
    hide *;
    if ExternalOutcome.Uncancelled(log) { ExternalOutcome.ExternalOutcome(log, states[n].mem.runs[id], ThreadOf(states[n], id)); }
  }

  /** In local mode every step stores the provider's own last answer to it, and a failed
      run says which error failed it. */
  lemma LocalStepsStoreAnswers(states: seq<MemSys>, events: seq<Event>, n: nat, id: RunId)
    requires Reached(states, events, n, id) && states[n].threads.execs[id].mode == Local
    ensures |states| == |events| + 1
    ensures var log := OwnSteps(states, events, n, id);
      LocalOutputs.AllStoreAnswers(log, states[n].mem.runs[id]) && LocalOutputs.FailureIsReported(log, states[n].mem.runs[id])
  {
    OwnStepsAreHistory(states, events, n, id);
    ThreadHas(states, events, n, id);
    hide *;
    LocalOutputs.StoredIsAnswered(OwnSteps(states, events, n, id), states[n].mem.runs[id], ThreadOf(states[n], id));
  }

  /** In external mode every step stores what the last entry that reported on it said, and
      the run id stored is the one the runtime gave. */
  lemma ExternalStepsStoreReports(states: seq<MemSys>, events: seq<Event>, n: nat, id: RunId)
    requires Reached(states, events, n, id) && states[n].threads.execs[id].mode == External
    ensures |states| == |events| + 1
    ensures var log := OwnSteps(states, events, n, id);
      ExternalSteps.AllStoreReports(log, states[n].mem.runs[id]) && ExternalOutcome.RuntimeIdOk(log, states[n].mem.runs[id])
  {
    OwnStepsAreHistory(states, events, n, id);
    ThreadHas(states, events, n, id);
    hide *;
    ExternalSteps.StoredIsReported(OwnSteps(states, events, n, id), states[n].mem.runs[id], ThreadOf(states[n], id));
    ExternalOutcome.RuntimeIdIsAccepted(OwnSteps(states, events, n, id), states[n].mem.runs[id], ThreadOf(states[n], id));
  }

  /** Between two polls of a run that is not cancelled, every step an entry of the last
      answer names is as that entry reports it, if the answer names none twice. */
  lemma PassedAnswersAreApplied(states: seq<MemSys>, events: seq<Event>, n: nat, id: RunId)
    requires Reached(states, events, n, id) && states[n].threads.execs[id].mode == External
    requires states[n].threads.execs[id].pc.AtPoll? && !states[n].mem.runs[id].cancelled
    ensures |states| == |events| + 1
    ensures var answer := ExternalOutcome.LastAnswer(OwnSteps(states, events, n, id));
      answer.Some? && (!ExternalAttempts.NamesTwice(answer.value) ==>
        ExternalSteps.AppliedUpTo(states[n].mem.runs[id], answer.value, |answer.value.steps|))
  {
    OwnStepsAreHistory(states, events, n, id);
    ThreadHas(states, events, n, id);
    hide *;
    ExternalSteps.PassIsApplied(OwnSteps(states, events, n, id), states[n].mem.runs[id], ThreadOf(states[n], id));
  }

  /** Outside local mode every step was attempted at most once if and only if no failed
      step was started again, which takes an answer that names it twice. */
  lemma AttemptedOnceIff(states: seq<MemSys>, events: seq<Event>, n: nat, id: RunId)
    requires Reached(states, events, n, id) && states[n].threads.execs[id].mode != Local
    ensures |states| == |events| + 1
    ensures var log := OwnSteps(states, events, n, id);
      && (ExternalAttempts.AllOnce(states[n].mem.runs[id]) <==> !ExternalAttempts.Restarted(log))
      && (!ExternalAttempts.ReadsTwiceNamed(log) ==> ExternalAttempts.AllOnce(states[n].mem.runs[id]))
  {
    OwnStepsAreHistory(states, events, n, id);
    ThreadHas(states, events, n, id);
    var log := OwnSteps(states, events, n, id);
    hide *;
    ExternalAttempts.OnceIffNoRestart(log, states[n].mem.runs[id], ThreadOf(states[n], id));
    if !ExternalAttempts.ReadsTwiceNamed(log) { ExternalAttempts.OnceUnlessNamedTwice(log, states[n].mem.runs[id], ThreadOf(states[n], id)); }
  }
}
