/** What holds of the executor threads in every reachable state of every interleaving. */
module ProtocolRuns {
  import opened Wrappers
  import opened Ledger
  import opened Executor
  import opened ExecutorInvariant
  import opened ExecutorProgress
  import opened ExecutorDeath
  import opened Protocol
  import opened ProtocolSafety
  import ExecutorSafety
  import Kahn

  ghost predicate Reached(states: seq<MemSys>, events: seq<Event>, n: nat, id: RunId) {
    MemRun(states, events) && n <= |events| && id in states[n].mem.runs && id in states[n].threads.execs
  }

  lemma ReachedIsOk(states: seq<MemSys>, events: seq<Event>, n: nat, id: RunId)
    requires Reached(states, events, n, id)
    ensures Inv(states[n].mem.runs[id], states[n].threads.execs[id]) && WellPlanned(states[n].threads.execs[id])
  {
    RunKeepsInv(states, events, n);
    OwnRun(states[n], id);
  }

  /** Outside external mode at most one step of a run is running at any time. */
  lemma AtMostOneStepRuns(states: seq<MemSys>, events: seq<Event>, n: nat, id: RunId, p: nat, q: nat)
    requires Reached(states, events, n, id) && states[n].threads.execs[id].mode != External
    requires var steps := states[n].mem.runs[id].steps;
      p < |steps| && q < |steps| && steps[p].status.Running? && steps[q].status.Running?
    ensures p == q
  {
    ReachedIsOk(states, events, n, id);
    AtMostOneRunning(states[n].mem.runs[id], states[n].threads.execs[id], p, q);
  }

  /** Outside external mode no step is attempted more than `max_retries + 1` times, and
      the provider is called at most as often as those limits add up to. */
  lemma WorkIsBounded(states: seq<MemSys>, events: seq<Event>, n: nat, id: RunId)
    requires Reached(states, events, n, id) && states[n].threads.execs[id].mode != External
    ensures forall p :: 0 <= p < |states[n].mem.runs[id].steps| ==>
      states[n].mem.runs[id].steps[p].attempts <= states[n].mem.runs[id].steps[p].spec.maxRetries + 1
    ensures states[n].threads.execs[id].calls <= SumBudget(states[n].threads.execs[id].specs)
  {
    ReachedIsOk(states, events, n, id);
    CallsAreBounded(states[n].mem.runs[id], states[n].threads.execs[id]);
  }

  /** Whenever a thread is about to call the provider, the text it passes on is joined
      from the stored outputs of exactly the steps that have succeeded, in execution
      order, and its attempt counter is the stored one. */
  lemma ProviderSeesWhatCompleted(states: seq<MemSys>, events: seq<Event>, n: nat, id: RunId)
    requires Reached(states, events, n, id) && states[n].threads.execs[id].pc.AtComplete?
    ensures var record, exec := states[n].mem.runs[id], states[n].threads.execs[id];
      var f := exec.pc.frame;
      && IsPlan(exec.plan, record.steps) && f.i < |exec.plan|
      && PriorOutput(f.completed) == Join(StoredOutputs(record, exec.plan, f.i))
      && (forall j :: 0 <= j < |exec.plan| ==> (record.steps[exec.plan[j]].status.Succeeded? <==> j < f.i))
      && record.steps[exec.plan[f.i]].attempts == f.attempts
  {
    ReachedIsOk(states, events, n, id);
    ProviderSeesCompletedSteps(states[n].mem.runs[id], states[n].threads.execs[id]);
  }

  lemma ExecAlive(s: MemSys, event: Event)
    requires MemEnabled(s, event) && event.ExecStep?
    ensures event.id in s.threads.execs
    ensures !s.threads.execs[event.id].pc.Exited? && !s.threads.execs[event.id].pc.Died?
  {
  }

  lemma ReplacedThread(s: MemSys, id: RunId, record: Record, exec: Exec)
    ensures id in Replaced(s, id, record, exec).threads.execs && Replaced(s, id, record, exec).threads.execs[id] == exec
  {
  }

  lemma OwnStepCloser(s: MemSys, event: Event, id: RunId)
    requires SysInv(s) && MemEnabled(s, event) && event.ExecStep? && event.id == id && id in s.mem.runs && id in s.threads.execs
    requires Inv(s.mem.runs[id], s.threads.execs[id]) && WellPlanned(s.threads.execs[id])
    ensures id in MemNext(s, event).threads.execs
    ensures Closer(ToExit(MemNext(s, event).threads.execs[id].pc), ToExit(s.threads.execs[id].pc))
  {
    hide *;
    ExecStepEffect(s, event);
    ExecEnabled(s, event);
    ExecAlive(s, event);
    var (record', exec') := StepExec(s.mem.runs[id], s.threads.execs[id], event.choice);
    StepKnown(s.mem.runs[id], s.threads.execs[id], event.choice, record', exec');
    StepsComeCloser(s.mem.runs[id], s.threads.execs[id], event.choice, record', exec');
    ReplacedThread(s, id, record', exec');
  }

  lemma OthersKeepPoint(s: MemSys, event: Event, id: RunId)
    requires MemEnabled(s, event) && id in s.threads.execs && !(event.ExecStep? && event.id == id)
    ensures id in MemNext(s, event).threads.execs && MemNext(s, event).threads.execs[id].pc == s.threads.execs[id].pc
  {
    hide AdvanceExec;
    hide Apply;
    hide Kahn.Order;
    hide RequestFits;
  }

  /** Every event brings the run's own thread closer to its exit or leaves it where it
      is; its own steps always bring it closer, so it takes finitely many of them. */
  lemma ThreadsComeCloser(states: seq<MemSys>, events: seq<Event>, n: nat, id: RunId)
    requires Reached(states, events, n, id) && n < |events|
    ensures id in states[n + 1].threads.execs
    ensures var before, after := states[n].threads.execs[id].pc, states[n + 1].threads.execs[id].pc;
      if events[n].ExecStep? && events[n].id == id then Closer(ToExit(after), ToExit(before)) else after == before
  {
    ReachedIsOk(states, events, n, id);
    RunStep(states, events, n);
    RunKeepsInv(states, events, n);
    if events[n].ExecStep? && events[n].id == id {
      OwnStepCloser(states[n], events[n], id);
    } else {
      OthersKeepPoint(states[n], events[n], id);
    }
    hide *;
  }

  /** The order a thread computes from its snapshot is the one its submission was
      validated with: it never reports an invalid DAG. */
  lemma NoInvalidDag(states: seq<MemSys>, events: seq<Event>, n: nat, id: RunId)
    requires Reached(states, events, n, id)
    ensures Kahn.Order(StepNodes(states[n].mem.runs[id].steps)) == Some(states[n].threads.execs[id].plan)
  {
    ReachedIsOk(states, events, n, id);
    ExecutorSafety.SpecsFixGraph(states[n].mem.runs[id].steps, states[n].threads.execs[id].specs);
  }

  // ---------- how a thread dies ----------

  /** At event `n` the run's thread takes a step whose record and answer kill it. */
  ghost predicate KilledAt(states: seq<MemSys>, events: seq<Event>, n: nat, id: RunId)
    requires n < |events| && n < |states|
  {
    && events[n].ExecStep? && events[n].id == id && id in states[n].mem.runs && id in states[n].threads.execs
    && Kills(states[n].mem.runs[id], states[n].threads.execs[id].pc)
  }

  lemma OwnStepDiesIff(s: MemSys, event: Event, id: RunId)
    requires SysInv(s) && MemEnabled(s, event) && event.ExecStep? && event.id == id && id in s.mem.runs && id in s.threads.execs
    requires Inv(s.mem.runs[id], s.threads.execs[id]) && id in MemNext(s, event).threads.execs
    ensures MemNext(s, event).threads.execs[id].pc.Died? <==> Kills(s.mem.runs[id], s.threads.execs[id].pc)
    ensures Kills(s.mem.runs[id], s.threads.execs[id].pc) ==> s.threads.execs[id].mode == External
  {
    hide *;
    ExecStepEffect(s, event);
    ExecEnabled(s, event);
    ExecAlive(s, event);
    var (record', exec') := StepExec(s.mem.runs[id], s.threads.execs[id], event.choice);
    StepKnown(s.mem.runs[id], s.threads.execs[id], event.choice, record', exec');
    ReplacedThread(s, id, record', exec');
    StepKillsIff(s.mem.runs[id], s.threads.execs[id], event.choice, record', exec');
  }

  /** In every interleaving a thread dies at an event if and only if that is a step of
      its own whose record and answer kill it, which happens in external mode only. */
  lemma ThreadDiesIff(states: seq<MemSys>, events: seq<Event>, n: nat, id: RunId)
    requires Reached(states, events, n, id) && n < |events| && !states[n].threads.execs[id].pc.Died?
    ensures id in states[n + 1].threads.execs
    ensures states[n + 1].threads.execs[id].pc.Died? <==> KilledAt(states, events, n, id)
    ensures KilledAt(states, events, n, id) ==> states[n].threads.execs[id].mode == External
  {
    ReachedIsOk(states, events, n, id);
    ThreadsComeCloser(states, events, n, id);
    RunStep(states, events, n);
    RunKeepsInv(states, events, n);
    hide Inv;
    hide SysInv;
    hide Kills;
    hide MemNext;
    if events[n].ExecStep? && events[n].id == id { OwnStepDiesIff(states[n], events[n], id); }
  }

  lemma SameRuns(states: seq<MemSys>, events: seq<Event>, n: nat, id: RunId)
    requires MemRun(states, events) && n <= |events|
    ensures id in states[n].mem.runs <==> id in states[n].threads.execs
  {
    RunKeepsInv(states, events, n);
  }

  lemma ReachedParts(states: seq<MemSys>, events: seq<Event>, n: nat, id: RunId)
    requires Reached(states, events, n, id)
    ensures 0 < n <= |events| && |states| == |events| + 1 && MemRun(states, events)
    ensures id in states[n].mem.runs && id in states[n].threads.execs
    ensures id in states[n - 1].threads.execs ==> Reached(states, events, n - 1, id)
  {
    SameRuns(states, events, n - 1, id);
  }
}
