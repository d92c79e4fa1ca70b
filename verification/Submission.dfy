/** How the operator turns an AgentRun into a submission, and that the two checks of
    its DAG, written in two languages, agree. */
module Submission {
  import opened Wrappers
  import opened Graph
  import opened Ledger
  import opened Specs
  import Kahn
  import Dfs
  import Protocol
  import Executor
  import ExecutorInvariant
  import ProtocolSafety
  import ProtocolRuns
  import ProtocolHistory
  import ExternalAttempts

  /** JSON leaves empty texts and zero numbers out of a request. */
  function OmitEmpty(text: string): Option<string> {
    if text == "" then None else Some(text)
  }

  function OmitZero(n: nat): Option<nat> {
    if n == 0 then None else Some(n)
  }

  function ProjectNode(spec: RunSpec, agent: AgentSpec, node: DagNode): Protocol.RunNode {
    Protocol.RunNode(node.name, if node.prompt == "" then spec.task else node.prompt,
                     OmitEmpty(if node.role == "" then agent.role else node.role), OmitEmpty(agent.model),
                     OmitZero(agent.maxTokens), node.dependsOn,
                     if spec.maxAttempts > 1 then Some(spec.maxAttempts - 1) else None)
  }

  function MainNode(spec: RunSpec, agent: AgentSpec): Protocol.RunNode {
    Protocol.RunNode("main", spec.task, OmitEmpty(agent.role), OmitEmpty(agent.model), OmitZero(agent.maxTokens), [], None)
  }

  /** The nodes of the submission. */
  function ProjectNodes(spec: RunSpec, agent: AgentSpec): (nodes: seq<Protocol.RunNode>)
    ensures nodes != []
  {
    if spec.dag.None? || spec.dag.value == [] then [MainNode(spec, agent)]
    else seq(|spec.dag.value|, i requires 0 <= i < |spec.dag.value| => ProjectNode(spec, agent, spec.dag.value[i]))
  }

  /** The loop of `reconcileSubmit` that builds the nodes. */
  method BuildNodes(spec: RunSpec, agent: AgentSpec) returns (nodes: seq<Protocol.RunNode>)
    ensures nodes == ProjectNodes(spec, agent)
  {
    nodes := [];
    if spec.dag.Some? {
      var dag := spec.dag.value;
      for i := 0 to |dag|
        invariant |nodes| == i && forall j :: 0 <= j < i ==> nodes[j] == ProjectNode(spec, agent, dag[j])
      {
        var prompt := dag[i].prompt;
        if prompt == "" { prompt := spec.task; }
        var role := dag[i].role;
        if role == "" { role := agent.role; }
        var maxRetries: Option<nat> := None;
        if spec.maxAttempts > 1 { maxRetries := Some(spec.maxAttempts - 1); }
        nodes := nodes + [Protocol.RunNode(dag[i].name, prompt, OmitEmpty(role), OmitEmpty(agent.model),
                                           OmitZero(agent.maxTokens), dag[i].dependsOn, maxRetries)];
      }
    }
    if |nodes| == 0 {
      nodes := [Protocol.RunNode("main", spec.task, OmitEmpty(agent.role), OmitEmpty(agent.model),
                                 OmitZero(agent.maxTokens), [], None)];
    }
  }

  // ---------- the two checks agree ----------

  /** On every node list, `validateDAG` accepts if and only if `_topological_order`
      returns an order, whatever order Go ranges over its maps. */
  method BothChecksAgree(nodes: seq<Node>) returns (error: Option<Dfs.DagError>, order: Option<seq<nat>>)
    ensures error.None? <==> order.Some?
    ensures order.Some? <==> Valid(nodes)
    ensures order.Some? ==> Kahn.IsTopological(nodes, order.value)
    ensures error.Some? ==> Dfs.Explains(nodes, error.value)
  {
    error := Dfs.ValidateDag(Some(nodes));
    order := Kahn.TopologicalOrder(nodes);
    Kahn.OrderIffValid(nodes);
    if order.Some? { Kahn.OrderIsTopological(nodes); }
  }

  /** The graph the backend checks is the one the operator checked. */
  lemma SubmittedGraph(spec: RunSpec, agent: AgentSpec)
    ensures RawNodes(Protocol.RequestSpecs(ProjectNodes(spec, agent))) ==
      if spec.dag.None? || spec.dag.value == [] then [Node("main", [])] else DagNodes(spec.dag.value)
  {
    var raws := Protocol.RequestSpecs(ProjectNodes(spec, agent));
    forall i | 0 <= i < |raws|
      ensures raws[i] == Protocol.NodeSpec(ProjectNodes(spec, agent)[i])
    {
    }
  }

  lemma SingleNodeIsValid(name: string)
    ensures Valid([Node(name, [])])
  {
    var nodes := [Node(name, [])];
    assert Names(nodes) == {name} by { assert nodes[0].name == name; }
    ListingRefutesCycles(nodes, [name]);
  }

  lemma EmptyGraphIsValid()
    ensures Valid([])
  {
    ListingRefutesCycles([], []);
  }

  /** The backend accepts the graph of a submission exactly when `validateDAG` does. */
  lemma AcceptedIffAccepted(spec: RunSpec, agent: AgentSpec)
    ensures Kahn.Order(RawNodes(Protocol.RequestSpecs(ProjectNodes(spec, agent)))).Some? <==>
      (SpecDag(spec).None? || Valid(SpecDag(spec).value))
  {
    SubmittedGraph(spec, agent);
    var nodes := RawNodes(Protocol.RequestSpecs(ProjectNodes(spec, agent)));
    Kahn.OrderIffValid(nodes);
    if spec.dag.None? || spec.dag.value == [] {
      assert nodes == [Node("main", [])];
      SingleNodeIsValid("main");
      if spec.dag.Some? { EmptyGraphIsValid(); assert SpecDag(spec).value == []; }
    }
  }

  // ---------- limits ----------

  /** What the custom resource definition admits. */
  predicate Admitted(spec: RunSpec) {
    && 1 <= |spec.task| <= 8000 && spec.maxAttempts <= 5 && |spec.idempotencyKey| <= 128
    && (spec.dag.Some? ==> |spec.dag.value| <= 64 && forall i :: 0 <= i < |spec.dag.value| ==> 1 <= |spec.dag.value[i].name| <= 64)
  }

  /** What the backend's request model demands beyond that. */
  predicate WithinRequest(spec: RunSpec, agent: AgentSpec) {
    && agent.maxTokens <= 32768
    && (spec.dag.Some? ==> |spec.dag.value| <= 32 && forall i :: 0 <= i < |spec.dag.value| ==> |spec.dag.value[i].name| <= 63)
  }

  /** An admitted AgentRun's submission is within the limits of a request if and only if it
      has at most 32 nodes with names of at most 63 characters, and its agent's token limit
      is at most 32768. */
  lemma AdmittedFitsIff(spec: RunSpec, agent: AgentSpec, project: Option<string>, key: Key)
    requires Admitted(spec) && 1 <= |key| <= 128 && |OrElse(project, "")| <= 128
    ensures Protocol.RequestFits(spec.task, project, key, ProjectNodes(spec, agent)) <==> WithinRequest(spec, agent)
  {
    var nodes := ProjectNodes(spec, agent);
    if spec.dag.Some? && spec.dag.value != [] {
      var dag := spec.dag.value;
      forall i | 0 <= i < |nodes| ensures Protocol.NodeFits(nodes[i]) <==> |dag[i].name| <= 63 && agent.maxTokens <= 32768 {
        assert nodes[i] == ProjectNode(spec, agent, dag[i]);
      }
      assert agent.maxTokens > 32768 ==> !Protocol.NodeFits(nodes[0]);
    } else {
      assert nodes == [MainNode(spec, agent)];
      assert Protocol.NodeFits(nodes[0]) <==> agent.maxTokens <= 32768;
    }
  }

  /** The definition admits a name one character too long for the request. */
  lemma LongNameIsRefused(agent: AgentSpec)
    ensures var name := seq(64, _ => 'a');
      var spec := RunSpec("agent", "task", Some([DagNode(name, "", [], "")]), 1, 0, "k", false);
      Admitted(spec) && !Protocol.RequestFits(spec.task, None, "k", ProjectNodes(spec, agent))
  {
    var spec := RunSpec("agent", "task", Some([DagNode(seq(64, _ => 'a'), "", [], "")]), 1, 0, "k", false);
    AdmittedFitsIff(spec, agent, None, "k");
    assert |spec.dag.value[0].name| == 64;
    hide Protocol.RequestFits;
  }

  // ---------- retries ----------

  /** What `MaxAttempts` lets a node attempt. */
  function AttemptLimit(spec: RunSpec): nat {
    if spec.maxAttempts > 1 then spec.maxAttempts else 1
  }

  /** A projected node may be attempted `AttemptLimit` times, but a run without a DAG
      gets its one attempt only. */
  lemma RetriesWithinPolicy(spec: RunSpec, agent: AgentSpec)
    ensures var specs := Protocol.SpecsOf(Protocol.RequestSpecs(ProjectNodes(spec, agent)));
      && (forall i :: 0 <= i < |specs| ==> specs[i].maxRetries + 1 <= AttemptLimit(spec))
      && (spec.dag.None? || spec.dag.value == [] ==> |specs| == 1 && specs[0].maxRetries == 0)
      && (spec.dag.Some? && spec.dag.value != [] ==> forall i :: 0 <= i < |specs| ==> specs[i].maxRetries + 1 == AttemptLimit(spec))
  {
    var nodes := ProjectNodes(spec, agent);
    var specs := Protocol.SpecsOf(Protocol.RequestSpecs(nodes));
    forall i | 0 <= i < |specs| ensures specs[i] == NormalizeSpec(Protocol.NodeSpec(nodes[i])) {
    }
  }

  lemma StepsWithinPolicy(spec: RunSpec, agent: AgentSpec, steps: seq<Step>)
    requires ExecutorInvariant.SameSpecs(steps, Protocol.SpecsOf(Protocol.RequestSpecs(ProjectNodes(spec, agent))))
    requires ExecutorInvariant.WithinBudget(steps)
    ensures forall p :: 0 <= p < |steps| ==> steps[p].attempts <= AttemptLimit(spec)
  {
    RetriesWithinPolicy(spec, agent);
  }

  lemma CreatedBy(s: Protocol.MemSys, event: Protocol.Event, id: RunId)
    requires Protocol.MemEnabled(s, event) && event.ApiSubmit?
    requires var reply := Protocol.MemCall(s, event).1;
      reply.Submitted? && reply.created && reply.run.id == id
    ensures id in Protocol.MemNext(s, event).threads.execs
    ensures Protocol.MemNext(s, event).threads.execs[id].specs == Protocol.SpecsOf(Protocol.RequestSpecs(event.nodes))
  {
    hide Protocol.RequestFits;
    hide Kahn.Order;
  }

  /** The executor of a run created for this AgentRun keeps the steps it was given. */
  lemma CreatedSpecs(states: seq<Protocol.MemSys>, events: seq<Protocol.Event>, i: nat, j: nat, id: RunId)
    requires Protocol.MemRun(states, events) && i < j <= |events| && events[i].ApiSubmit?
    requires var reply := Protocol.MemCall(states[i], events[i]).1;
      reply.Submitted? && reply.created && reply.run.id == id
    ensures id in states[j].mem.runs && id in states[j].threads.execs
    ensures states[j].threads.execs[id].specs == Protocol.SpecsOf(Protocol.RequestSpecs(events[i].nodes))
  {
    ProtocolSafety.RunKeepsInv(states, events, i);
    ProtocolSafety.RunKeepsInv(states, events, i + 1);
    ProtocolSafety.RunStep(states, events, i);
    CreatedBy(states[i], events[i], id);
    ProtocolSafety.OwnRun(states[i + 1], id);
    ProtocolSafety.RunsEvolve(states, events, i + 1, j, id);
  }

  /** In every interleaving no step of a run created for an AgentRun is ever attempted
      more often than its `MaxAttempts` lets it, outside external mode. There every step
      is attempted at most once if and only if no failed step was started again, which
      takes an answer that names a step twice. */
  lemma AttemptsWithinPolicy(states: seq<Protocol.MemSys>, events: seq<Protocol.Event>, i: nat, j: nat, id: RunId,
                             spec: RunSpec, agent: AgentSpec)
    requires Protocol.MemRun(states, events) && i < j <= |events|
    requires events[i].ApiSubmit? && events[i].nodes == ProjectNodes(spec, agent)
    requires var reply := Protocol.MemCall(states[i], events[i]).1;
      reply.Submitted? && reply.created && reply.run.id == id
    ensures id in states[j].mem.runs && id in states[j].threads.execs
    ensures states[j].threads.execs[id].mode != Executor.External || !ExternalAttempts.ReadsTwiceNamed(ProtocolHistory.OwnSteps(states, events, j, id)) ==>
      forall p :: 0 <= p < |states[j].mem.runs[id].steps| ==> states[j].mem.runs[id].steps[p].attempts <= AttemptLimit(spec)
    ensures states[j].threads.execs[id].mode == Executor.External ==>
      (ExternalAttempts.AllOnce(states[j].mem.runs[id]) <==> !ExternalAttempts.Restarted(ProtocolHistory.OwnSteps(states, events, j, id)))
  {
    CreatedSpecs(states, events, i, j, id);
    if states[j].threads.execs[id].mode != Executor.External {
      ProtocolRuns.ReachedIsOk(states, events, j, id);
      ProtocolRuns.WorkIsBounded(states, events, j, id);
      StepsWithinPolicy(spec, agent, states[j].mem.runs[id].steps);
    } else {
      ProtocolHistory.AttemptedOnceIff(states, events, j, id);
    }
    hide Protocol.MemNext;
    hide Protocol.MemCall;
    hide ExecutorInvariant.Inv;
    hide ExternalAttempts.Restarted;
    hide ExternalAttempts.ReadsTwiceNamed;
    hide ProtocolHistory.OwnSteps;
  }
}
