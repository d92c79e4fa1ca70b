/** What the provider is asked on behalf of an AgentRun, from its spec through the
    submission and the stored steps to the call. */
module ProviderRequests {
  import opened Wrappers
  import opened Ledger
  import opened Executor
  import opened ExecutorInvariant
  import opened ExecutorProgress
  import opened Protocol
  import opened ProtocolSafety
  import opened ProtocolRuns
  import opened Specs
  import opened Submission
  import Kahn

  /** A call of the provider; None stands for an option that is left out. */
  datatype Request = Request(task: string, node: string, prior: string, model: Option<string>, maxTokens: Option<nat>)

  /** `_complete`: neither the prompt nor the role of the step is passed on. */
  function RequestFor(task: string, step: Step, completed: seq<Finished>): Request {
    Request(task, step.spec.nodeId, PriorOutput(completed),
            if step.spec.model == "" then None else Some(step.spec.model),
            if step.spec.maxTokens == 0 then None else Some(step.spec.maxTokens))
  }

  /** The step stored for node `p` of an AgentRun: its own prompt and role or, without
      them, the task and the agent's role; the agent's model and token limit; and one
      retry less than the attempts allowed. Without a DAG there is one node, "main". */
  lemma StoredSpecs(spec: RunSpec, agent: AgentSpec)
    ensures var specs := SpecsOf(RequestSpecs(ProjectNodes(spec, agent)));
      if spec.dag.None? || spec.dag.value == [] then
        specs == [Spec("main", spec.task, agent.role, [], 0, agent.model, agent.maxTokens)]
      else
        var dag := spec.dag.value;
        && |specs| == |dag|
        && forall p :: 0 <= p < |dag| ==>
             specs[p] == Spec(dag[p].name, if dag[p].prompt == "" then spec.task else dag[p].prompt,
                              if dag[p].role == "" then agent.role else dag[p].role, dag[p].dependsOn,
                              if spec.maxAttempts > 1 then spec.maxAttempts - 1 else 0, agent.model, agent.maxTokens)
  {
    var nodes := ProjectNodes(spec, agent);
    var specs := SpecsOf(RequestSpecs(nodes));
    assert |specs| == |nodes|;
    forall p | 0 <= p < |nodes| ensures specs[p] == NormalizeSpec(NodeSpec(nodes[p])) {
    }
  }

  lemma FrameSpecs(record: Record, exec: Exec)
    requires Inv(record, exec) && exec.pc.AtComplete?
    ensures var f := exec.pc.frame;
      f.i < |exec.plan| && exec.plan[f.i] < |f.steps| == |exec.specs| && f.steps[exec.plan[f.i]].spec == exec.specs[exec.plan[f.i]]
  {
    hide SumAttempts;
  }

  lemma CreatedTask(s: MemSys, event: Event, id: RunId)
    requires SysInv(s) && MemEnabled(s, event) && event.ApiSubmit?
    requires var reply := MemCall(s, event).1; reply.Submitted? && reply.created && reply.run.id == id
    ensures id in MemNext(s, event).mem.runs && MemNext(s, event).mem.runs[id].task == event.task
  {
    hide RequestFits;
    hide Kahn.Order;
  }

  lemma TaskIsKept(states: seq<MemSys>, events: seq<Event>, i: nat, j: nat, id: RunId)
    requires MemRun(states, events) && i < j <= |events| && events[i].ApiSubmit?
    requires var reply := MemCall(states[i], events[i]).1; reply.Submitted? && reply.created && reply.run.id == id
    ensures id in states[j].mem.runs && states[j].mem.runs[id].task == events[i].task
  {
    RunKeepsInv(states, events, i);
    RunKeepsInv(states, events, i + 1);
    RunStep(states, events, i);
    CreatedTask(states[i], events[i], id);
    SameRuns(states, events, i + 1, id);
    RunsEvolve(states, events, i + 1, j, id);
    hide SysInv;
    hide MemNext;
    hide MemCall;
  }

  /** The request for node `p` of the AgentRun, after these outputs. */
  function Asked(task: string, spec: RunSpec, agent: AgentSpec, p: nat, outputs: seq<string>): Request {
    var dag := OrElse(spec.dag, []);
    Request(task, if p < |dag| then dag[p].name else "main", Join(outputs),
            if agent.model == "" then None else Some(agent.model), if agent.maxTokens == 0 then None else Some(agent.maxTokens))
  }

  lemma StepIsAsked(step: Step, completed: seq<Finished>, task: string, spec: RunSpec, agent: AgentSpec, p: nat, outputs: seq<string>)
    requires p < |SpecsOf(RequestSpecs(ProjectNodes(spec, agent)))| && step.spec == SpecsOf(RequestSpecs(ProjectNodes(spec, agent)))[p]
    requires PriorOutput(completed) == Join(outputs)
    ensures RequestFor(task, step, completed) == Asked(task, spec, agent, p, outputs)
  {
    StoredSpecs(spec, agent);
    hide PriorOutput;
    hide Join;
    hide ProjectNodes;
    hide RequestSpecs;
    hide SpecsOf;
  }

  /** Whenever the thread of a run created for an AgentRun calls the provider, it asks for
      the node whose turn it is, with the stored task, the outputs of the steps completed
      before it in order, and the agent's model and token limit. */
  lemma ProviderIsAskedFor(states: seq<MemSys>, events: seq<Event>, i: nat, j: nat, id: RunId, spec: RunSpec, agent: AgentSpec)
    requires MemRun(states, events) && i < j <= |events|
    requires events[i].ApiSubmit? && events[i].nodes == ProjectNodes(spec, agent)
    requires var reply := MemCall(states[i], events[i]).1; reply.Submitted? && reply.created && reply.run.id == id
    ensures id in states[j].mem.runs && id in states[j].threads.execs && states[j].mem.runs[id].task == events[i].task
    ensures states[j].threads.execs[id].pc.AtComplete? ==>
      var record, exec := states[j].mem.runs[id], states[j].threads.execs[id];
      var f := exec.pc.frame;
      && IsPlan(exec.plan, record.steps) && f.i < |exec.plan| && exec.plan[f.i] < |f.steps|
      && RequestFor(record.task, f.steps[exec.plan[f.i]], f.completed) ==
           Asked(events[i].task, spec, agent, exec.plan[f.i], StoredOutputs(record, exec.plan, f.i))
  {
    CreatedSpecs(states, events, i, j, id);
    TaskIsKept(states, events, i, j, id);
    var record, exec := states[j].mem.runs[id], states[j].threads.execs[id];
    if exec.pc.AtComplete? {
      var f := exec.pc.frame;
      ReachedIsOk(states, events, j, id);
      ProviderSeesWhatCompleted(states, events, j, id);
      FrameSpecs(record, exec);
      StepIsAsked(f.steps[exec.plan[f.i]], f.completed, record.task, spec, agent, exec.plan[f.i], StoredOutputs(record, exec.plan, f.i));
    }
    hide MemRun;
    hide MemCall;
    hide MemNext;
    hide Inv;
    hide PriorOutput;
    hide Join;
    hide ProjectNodes;
    hide RequestSpecs;
    hide SpecsOf;
    hide RequestFor;
    hide Asked;
  }
}
