/** Nothing is submitted that was not approved: over every interleaving of the three
    controllers, on stale copies, with specs and labels edited and objects recreated. */
module GovernanceSafety {
  import opened Wrappers
  import opened Status
  import opened Specs
  import opened Graph
  import opened Governance

  // ---------- the invariant ----------

  /** A stored version is numbered, and judged only for generations it has had. */
  predicate Numbered<S>(versions: seq<Stored<S>>, v: nat)
    requires v < |versions|
  {
    versions[v].version == v && versions[v].status.observedGeneration <= versions[v].generation
  }

  ghost predicate IsVersion<S>(versions: seq<Stored<S>>, copy: Stored<S>) {
    copy.version < |versions| && versions[copy.version] == copy
  }

  /** A copy that differs from the stored version in its status only. */
  ghost predicate IsEdited<S>(versions: seq<Stored<S>>, copy: Stored<S>) {
    copy.version < |versions| && copy == versions[copy.version].(status := copy.status)
  }

  ghost predicate PolicyOk(policy: Policy) {
    policy.status.on && policy.status.observedGeneration == policy.generation ==> SoundPolicy(policy.spec)
  }

  predicate Approved(w: World, spec: AgentSpec) {
    exists j :: 0 <= j < |w.approvals| && w.approvals[j].spec == spec
  }

  predicate AgentOk(w: World, agent: Agent) {
    agent.status.on && agent.status.observedGeneration == agent.generation ==> Approved(w, agent.spec)
  }

  /** An approval was given against a stored policy of the tenant, active for its own
      generation, sound, and permitting the model and every tool. */
  ghost predicate ApprovalOk(w: World, a: Approval) {
    && IsVersion(VersionsOf(w.policies, a.spec.policyRef), a.policy) && UpToDate(a.policy)
    && a.policy.tenantLabel == w.ns.tenantLabel && w.ns.tenantLabel in w.ns.uuids
    && SoundPolicy(a.policy.spec) && Permits(a.policy.spec, a.spec) && WellFormed(w.ns.uuids, a.spec)
  }

  ghost predicate HandedOk(w: World, h: Handed) {
    h.tenant == w.ns.tenantLabel && Approved(w, h.agent) && (SpecDag(h.run).None? || Valid(SpecDag(h.run).value))
  }

  ghost predicate WorkerOk(w: World, worker: Worker) {
    match worker
    case Idle => true
    case JudgingPolicy(name, policy) => IsVersion(VersionsOf(w.policies, name), policy)
    case WritingPolicy(name, policy) =>
      IsEdited(VersionsOf(w.policies, name), policy) && policy.status.observedGeneration == policy.generation && PolicyOk(policy)
    case JudgingAgent(name, agent) => IsVersion(VersionsOf(w.agents, name), agent)
    case WritingAgent(name, agent) =>
      IsEdited(VersionsOf(w.agents, name), agent) && agent.status.observedGeneration == agent.generation && AgentOk(w, agent)
    case Submitting(run, agent) => HandedOk(w, Handed(w.ns.tenantLabel, run, agent.spec))
  }

  ghost predicate PoliciesOk(versions: seq<Policy>) {
    forall v: nat {:trigger Numbered(versions, v)} :: v < |versions| ==> Numbered(versions, v) && PolicyOk(versions[v])
  }

  predicate AgentsOk(w: World, versions: seq<Agent>) {
    forall v: nat {:trigger Numbered(versions, v)} :: v < |versions| ==> Numbered(versions, v) && AgentOk(w, versions[v])
  }

  ghost predicate WorldInv(w: World) {
    && (forall name {:trigger VersionsOf(w.policies, name)} :: PoliciesOk(VersionsOf(w.policies, name)))
    && (forall name {:trigger VersionsOf(w.agents, name)} :: AgentsOk(w, VersionsOf(w.agents, name)))
    && (forall a {:trigger ApprovalOk(w, a)} :: a in w.approvals ==> ApprovalOk(w, a))
    && (forall k {:trigger WorkerOk(w, w.workers[k])} :: k in w.workers ==> WorkerOk(w, w.workers[k]))
    && (forall h {:trigger HandedOk(w, h)} :: h in w.handed ==> HandedOk(w, h))
  }

  /** Versions and approvals are only added. */
  ghost predicate Grows(w: World, w': World) {
    && w'.ns == w.ns && w.approvals <= w'.approvals
    && (forall name {:trigger VersionsOf(w'.policies, name)} :: VersionsOf(w.policies, name) <= VersionsOf(w'.policies, name))
    && (forall name {:trigger VersionsOf(w'.agents, name)} :: VersionsOf(w.agents, name) <= VersionsOf(w'.agents, name))
  }

  lemma ApprovedStays(w: World, w': World, spec: AgentSpec)
    requires w.approvals <= w'.approvals && Approved(w, spec)
    ensures Approved(w', spec)
  {
    var j :| 0 <= j < |w.approvals| && w.approvals[j].spec == spec;
    assert w'.approvals[j] == w.approvals[j];
  }

  lemma WorkerStays(w: World, w': World, worker: Worker)
    requires Grows(w, w') && WorkerOk(w, worker)
    ensures WorkerOk(w', worker)
  {
    match worker
    case Idle =>
    case JudgingPolicy(name, _) => assert VersionsOf(w.policies, name) <= VersionsOf(w'.policies, name);
    case WritingPolicy(name, _) => assert VersionsOf(w.policies, name) <= VersionsOf(w'.policies, name);
    case JudgingAgent(name, _) => assert VersionsOf(w.agents, name) <= VersionsOf(w'.agents, name);
    case WritingAgent(name, agent) =>
      assert VersionsOf(w.agents, name) <= VersionsOf(w'.agents, name);
      if agent.status.on { ApprovedStays(w, w', agent.spec); }
    case Submitting(_, agent) => ApprovedStays(w, w', agent.spec);
  }

  lemma AgentsStay(w: World, w': World, versions: seq<Agent>)
    requires w.approvals <= w'.approvals && AgentsOk(w, versions)
    ensures AgentsOk(w', versions)
  {
    forall v: nat | v < |versions| ensures Numbered(versions, v) && AgentOk(w', versions[v]) {
      assert Numbered(versions, v);
      if Approved(w, versions[v].spec) { ApprovedStays(w, w', versions[v].spec); }
    }
  }

  // ---------- versions ----------

  lemma {:induction false} ChangeKeepsPolicies(versions: seq<Policy>, change: Change<PolicySpec>)
    requires PoliciesOk(versions) && CanChange(versions, change)
    ensures PoliciesOk(Changed(versions, change)) && versions <= Changed(versions, change)
  {
    var changed := Changed(versions, change);
    if versions != [] { assert Numbered(versions, |versions| - 1); }
    forall v: nat | v < |changed| ensures Numbered(changed, v) && PolicyOk(changed[v]) {
      if v < |versions| { assert Numbered(versions, v); }
    }
  }

  lemma ChangeKeepsAgents(w: World, versions: seq<Agent>, change: Change<AgentSpec>)
    requires AgentsOk(w, versions) && CanChange(versions, change)
    ensures AgentsOk(w, Changed(versions, change)) && versions <= Changed(versions, change)
  {
    var changed := Changed(versions, change);
    if versions != [] { assert Numbered(versions, |versions| - 1); }
    forall v: nat | v < |changed| ensures Numbered(changed, v) && AgentOk(w, changed[v]) {
      if v < |versions| { assert Numbered(versions, v); }
    }
  }

  /** A status judged on the current version is sound for the spec it is written to. */
  lemma WriteKeepsPolicies(versions: seq<Policy>, copy: Policy)
    requires PoliciesOk(versions) && IsEdited(versions, copy) && copy.status.observedGeneration == copy.generation && PolicyOk(copy)
    ensures PoliciesOk(WriteStatus(versions, copy)) && versions <= WriteStatus(versions, copy)
  {
    var written := WriteStatus(versions, copy);
    forall v: nat | v < |written| ensures Numbered(written, v) && PolicyOk(written[v]) {
      if v < |versions| { assert Numbered(versions, v); }
    }
  }

  lemma WriteKeepsAgents(w: World, versions: seq<Agent>, copy: Agent)
    requires AgentsOk(w, versions) && IsEdited(versions, copy) && copy.status.observedGeneration == copy.generation && AgentOk(w, copy)
    ensures AgentsOk(w, WriteStatus(versions, copy)) && versions <= WriteStatus(versions, copy)
  {
    var written := WriteStatus(versions, copy);
    forall v: nat | v < |written| ensures Numbered(written, v) && AgentOk(w, written[v]) {
      if v < |versions| { assert Numbered(versions, v); }
    }
  }

  // ---------- worlds ----------

  /** The parts of the invariant about what is added, given the growth. */
  lemma GrowKeepsInv(w: World, w': World, k: Option<nat>)
    requires WorldInv(w) && Grows(w, w')
    requires forall name {:trigger VersionsOf(w'.policies, name)} :: PoliciesOk(VersionsOf(w'.policies, name))
    requires forall name {:trigger VersionsOf(w'.agents, name)} :: AgentsOk(w', VersionsOf(w'.agents, name))
    requires forall a {:trigger a in w'.approvals} :: a in w'.approvals ==> a in w.approvals || ApprovalOk(w', a)
    requires forall h {:trigger h in w'.handed} :: h in w'.handed ==> h in w.handed || HandedOk(w', h)
    requires forall i {:trigger i in w'.workers} :: i in w'.workers && k != Some(i) ==> i in w.workers && w'.workers[i] == w.workers[i]
    requires k.Some? && k.value in w'.workers ==> WorkerOk(w', w'.workers[k.value])
    ensures WorldInv(w')
  {
    hide PoliciesOk;
    hide AgentsOk;
    hide SoundPolicy;
    hide Permits;
    hide WellFormed;
    forall a | a in w'.approvals ensures ApprovalOk(w', a) {
      if a in w.approvals {
        assert ApprovalOk(w, a);
        assert VersionsOf(w.policies, a.spec.policyRef) <= VersionsOf(w'.policies, a.spec.policyRef);
      }
    }
    forall h | h in w'.handed ensures HandedOk(w', h) {
      if h in w.handed { assert HandedOk(w, h); ApprovedStays(w, w', h.agent); }
    }
    forall i | i in w'.workers ensures WorkerOk(w', w'.workers[i]) {
      if k != Some(i) { assert WorkerOk(w, w.workers[i]); WorkerStays(w, w', w.workers[i]); }
    }
  }

  lemma SameVersions(w: World, w': World)
    requires WorldInv(w) && w'.policies == w.policies && w'.agents == w.agents && w'.ns == w.ns && w.approvals <= w'.approvals
    ensures Grows(w, w')
    ensures forall name {:trigger VersionsOf(w'.policies, name)} :: PoliciesOk(VersionsOf(w'.policies, name))
    ensures forall name {:trigger VersionsOf(w'.agents, name)} :: AgentsOk(w', VersionsOf(w'.agents, name))
  {
    forall name ensures AgentsOk(w', VersionsOf(w'.agents, name)) { AgentsStay(w, w', VersionsOf(w.agents, name)); }
  }

  lemma SetWorkerKeepsInv(w: World, k: nat, worker: Worker)
    requires WorldInv(w) && WorkerOk(w, worker)
    ensures Grows(w, SetWorker(w, k, worker)) && WorldInv(SetWorker(w, k, worker))
  {
    var w' := SetWorker(w, k, worker);
    SameVersions(w, w');
    WorkerStays(w, w', worker);
    GrowKeepsInv(w, w', Some(k));
  }

  lemma PutPolicies(w: World, name: string, versions: seq<Policy>)
    requires WorldInv(w) && PoliciesOk(versions) && VersionsOf(w.policies, name) <= versions
    ensures Grows(w, w.(policies := w.policies[name := versions])) && WorldInv(w.(policies := w.policies[name := versions]))
  {
    var w' := w.(policies := w.policies[name := versions]);
    hide PoliciesOk;
    forall n ensures VersionsOf(w'.policies, n) == if n == name then versions else VersionsOf(w.policies, n) {
    }
    forall n ensures AgentsOk(w', VersionsOf(w'.agents, n)) { AgentsStay(w, w', VersionsOf(w.agents, n)); }
    hide AgentsOk;
    GrowKeepsInv(w, w', None);
  }

  lemma PutAgents(w: World, name: string, versions: seq<Agent>)
    requires WorldInv(w) && AgentsOk(w, versions) && VersionsOf(w.agents, name) <= versions
    ensures Grows(w, w.(agents := w.agents[name := versions])) && WorldInv(w.(agents := w.agents[name := versions]))
  {
    var w' := w.(agents := w.agents[name := versions]);
    forall n ensures VersionsOf(w'.agents, n) == if n == name then versions else VersionsOf(w.agents, n) {
    }
    AgentsStay(w, w', versions);
    forall n ensures AgentsOk(w', VersionsOf(w'.agents, n)) { AgentsStay(w, w', if n == name then versions else VersionsOf(w.agents, n)); }
    hide AgentsOk;
    hide PoliciesOk;
    GrowKeepsInv(w, w', None);
  }

  // ---------- moves ----------

  lemma ReadKeepsInv(w: World, m: Move)
    requires WorldInv(w) && CanMove(w, m) && (m.ReadPolicy? || m.ReadAgent?)
    ensures Grows(w, Apply(w, m)) && WorldInv(Apply(w, m))
  {
    if m.ReadPolicy? {
      var versions := VersionsOf(w.policies, m.name);
      assert PoliciesOk(versions) && Numbered(versions, m.v);
      SetWorkerKeepsInv(w, m.k, JudgingPolicy(m.name, versions[m.v]));
    } else {
      var versions := VersionsOf(w.agents, m.name);
      assert AgentsOk(w, versions) && Numbered(versions, m.v);
      SetWorkerKeepsInv(w, m.k, JudgingAgent(m.name, versions[m.v]));
    }
  }

  lemma JudgePolicyKeepsInv(w: World, m: Move)
    requires WorldInv(w) && CanMove(w, m) && m.JudgePolicy?
    ensures Grows(w, Apply(w, m)) && WorldInv(Apply(w, m))
  {
    assert WorkerOk(w, w.workers[m.k]);
    hide SetCondition;
    SetWorkerKeepsInv(w, m.k, Apply(w, m).workers[m.k]);
  }

  /** What a validation that finds the Agent ready has established. */
  lemma ReadyIsApproval(w: World, agent: Agent, v: nat, nsRead: bool)
    requires WorldInv(w) && v < |VersionsOf(w.policies, agent.spec.policyRef)|
    requires AgentIsReady(NsSeen(w, nsRead), agent.tenantLabel, agent.spec, Some(VersionsOf(w.policies, agent.spec.policyRef)[v]))
    ensures ApprovalOk(w, Approval(agent.spec, VersionsOf(w.policies, agent.spec.policyRef)[v]))
  {
    var versions := VersionsOf(w.policies, agent.spec.policyRef);
    assert PoliciesOk(versions) && Numbered(versions, v);
  }

  lemma ApproveKeepsInv(w: World, a: Approval)
    requires WorldInv(w) && ApprovalOk(w, a)
    ensures Grows(w, w.(approvals := w.approvals + [a])) && WorldInv(w.(approvals := w.approvals + [a]))
    ensures Approved(w.(approvals := w.approvals + [a]), a.spec)
  {
    var w' := w.(approvals := w.approvals + [a]);
    assert w'.approvals[|w.approvals|] == a;
    SameVersions(w, w');
    GrowKeepsInv(w, w', None);
  }

  lemma GrowsTransitive(a: World, b: World, c: World)
    requires Grows(a, b) && Grows(b, c)
    ensures Grows(a, c)
  {
    forall name ensures VersionsOf(a.policies, name) <= VersionsOf(c.policies, name) {
      assert VersionsOf(a.policies, name) <= VersionsOf(b.policies, name) <= VersionsOf(c.policies, name);
    }
    forall name ensures VersionsOf(a.agents, name) <= VersionsOf(c.agents, name) {
      assert VersionsOf(a.agents, name) <= VersionsOf(b.agents, name) <= VersionsOf(c.agents, name);
    }
  }

  lemma JudgeAgentKeepsInv(w: World, m: Move)
    requires WorldInv(w) && CanMove(w, m) && m.JudgeAgent?
    ensures Grows(w, Apply(w, m)) && WorldInv(Apply(w, m))
  {
    var agent := w.workers[m.k].agent;
    assert WorkerOk(w, w.workers[m.k]);
    var versions := VersionsOf(w.policies, agent.spec.policyRef);
    var policy := if m.policyRead.Some? then Some(versions[m.policyRead.value]) else None;
    var ready := AgentIsReady(NsSeen(w, m.nsRead), agent.tenantLabel, agent.spec, policy);
    var w1 := w.(approvals := if ready then w.approvals + [Approval(agent.spec, policy.value)] else w.approvals);
    if ready {
      ReadyIsApproval(w, agent, m.policyRead.value, m.nsRead);
      ApproveKeepsInv(w, Approval(agent.spec, policy.value));
    }
    hide SetCondition;
    hide AgentIsReady;
    WorkerStays(w, w1, w.workers[m.k]);
    SetWorkerKeepsInv(w1, m.k, Apply(w, m).workers[m.k]);
    GrowsTransitive(w, w1, Apply(w, m));
  }

  lemma WriteKeepsInv(w: World, m: Move)
    requires WorldInv(w) && CanMove(w, m) && (m.WritePolicy? || m.WriteAgent?)
    ensures Grows(w, Apply(w, m)) && WorldInv(Apply(w, m))
  {
    var worker := w.workers[m.k];
    assert WorkerOk(w, worker);
    if !m.reached {
      SetWorkerKeepsInv(w, m.k, Idle);
    } else if m.WritePolicy? {
      var versions := VersionsOf(w.policies, worker.name);
      assert PoliciesOk(versions);
      WriteKeepsPolicies(versions, worker.policy);
      PutPolicies(w, worker.name, WriteStatus(versions, worker.policy));
      var w1 := w.(policies := w.policies[worker.name := WriteStatus(versions, worker.policy)]);
      SetWorkerKeepsInv(w1, m.k, Idle);
      GrowsTransitive(w, w1, Apply(w, m));
    } else {
      var versions := VersionsOf(w.agents, worker.name);
      assert AgentsOk(w, versions);
      WriteKeepsAgents(w, versions, worker.agent);
      PutAgents(w, worker.name, WriteStatus(versions, worker.agent));
      var w1 := w.(agents := w.agents[worker.name := WriteStatus(versions, worker.agent)]);
      SetWorkerKeepsInv(w1, m.k, Idle);
      GrowsTransitive(w, w1, Apply(w, m));
    }
  }

  lemma UserKeepsInv(w: World, m: Move)
    requires WorldInv(w) && CanMove(w, m) && (m.ChangePolicy? || m.ChangeAgent?)
    ensures Grows(w, Apply(w, m)) && WorldInv(Apply(w, m))
  {
    if m.ChangePolicy? {
      var versions := VersionsOf(w.policies, m.name);
      assert PoliciesOk(versions);
      ChangeKeepsPolicies(versions, m.policyChange);
      PutPolicies(w, m.name, Changed(versions, m.policyChange));
    } else {
      var versions := VersionsOf(w.agents, m.name);
      assert AgentsOk(w, versions);
      ChangeKeepsAgents(w, versions, m.agentChange);
      PutAgents(w, m.name, Changed(versions, m.agentChange));
    }
  }

  /** A ready Agent's spec has been approved, whatever has changed since. */
  lemma CheckRunKeepsInv(w: World, m: Move)
    requires WorldInv(w) && CanMove(w, m) && m.CheckRun?
    ensures Grows(w, Apply(w, m)) && WorldInv(Apply(w, m))
  {
    var versions := VersionsOf(w.agents, m.run.agentRef);
    assert AgentsOk(w, versions) && Numbered(versions, m.v);
    SetWorkerKeepsInv(w, m.k, Apply(w, m).workers[m.k]);
  }

  lemma SubmitRunKeepsInv(w: World, m: Move)
    requires WorldInv(w) && CanMove(w, m) && m.SubmitRun?
    ensures Grows(w, Apply(w, m)) && WorldInv(Apply(w, m))
  {
    assert WorkerOk(w, w.workers[m.k]);
    var w' := Apply(w, m);
    SameVersions(w, w');
    ApprovedStays(w, w', w.workers[m.k].agent.spec);
    GrowKeepsInv(w, w', Some(m.k));
  }

  lemma AbandonKeepsInv(w: World, m: Move)
    requires WorldInv(w) && CanMove(w, m) && m.Abandon?
    ensures Grows(w, Apply(w, m)) && WorldInv(Apply(w, m))
  {
    SetWorkerKeepsInv(w, m.k, Idle);
  }

  lemma MoveKeepsInv(w: World, m: Move)
    requires WorldInv(w) && CanMove(w, m)
    ensures Grows(w, Apply(w, m)) && WorldInv(Apply(w, m))
  {
    hide *;
    match m
    case ChangePolicy(_, _) => UserKeepsInv(w, m);
    case ChangeAgent(_, _) => UserKeepsInv(w, m);
    case ReadPolicy(_, _, _) => ReadKeepsInv(w, m);
    case JudgePolicy(_, _, _) => JudgePolicyKeepsInv(w, m);
    case WritePolicy(_, _) => WriteKeepsInv(w, m);
    case ReadAgent(_, _, _) => ReadKeepsInv(w, m);
    case JudgeAgent(_, _, _, _) => JudgeAgentKeepsInv(w, m);
    case WriteAgent(_, _) => WriteKeepsInv(w, m);
    case CheckRun(_, _, _, _, _) => CheckRunKeepsInv(w, m);
    case SubmitRun(_) => SubmitRunKeepsInv(w, m);
    case Abandon(_) => AbandonKeepsInv(w, m);
  }

  // ---------- runs ----------

  predicate Empty(w: World) {
    w.policies == map[] && w.agents == map[] && w.workers == map[] && w.approvals == [] && w.handed == []
  }

  ghost predicate Steps(w: World, m: Move, w': World) {
    CanMove(w, m) && w' == Apply(w, m)
  }

  ghost predicate GovernedRun(worlds: seq<World>, moves: seq<Move>) {
    && |worlds| == |moves| + 1 && Empty(worlds[0])
    && forall n :: 0 <= n < |moves| ==> Steps(worlds[n], moves[n], worlds[n + 1])
  }

  lemma {:induction false} RunKeepsInv(worlds: seq<World>, moves: seq<Move>, n: nat)
    requires GovernedRun(worlds, moves) && n < |worlds|
    ensures WorldInv(worlds[n]) && worlds[n].ns == worlds[0].ns
  {
    if n > 0 {
      RunKeepsInv(worlds, moves, n - 1);
      assert Steps(worlds[n - 1], moves[n - 1], worlds[n]);
      MoveKeepsInv(worlds[n - 1], moves[n - 1]);
    }
  }

  /** Every submission's agent spec was, at some earlier moment, found ready against a
      stored policy of the same tenant that was active for its own generation, requires
      default-deny egress, is versioned and free of duplicates, and lists the model and
      every tool. Its tenant is the namespace's and its DAG is valid. */
  lemma SubmissionsAreGoverned(worlds: seq<World>, moves: seq<Move>, n: nat) returns (a: Approval)
    requires GovernedRun(worlds, moves) && n < |moves| && moves[n].SubmitRun?
    ensures |worlds[n + 1].handed| == |worlds[n].handed| + 1
    ensures var h, w := worlds[n + 1].handed[|worlds[n].handed|], worlds[n];
      && a in w.approvals && a.spec == h.agent
      && IsVersion(VersionsOf(w.policies, h.agent.policyRef), a.policy) && UpToDate(a.policy)
      && a.policy.tenantLabel == h.tenant == w.ns.tenantLabel
      && ModelRef(h.agent) in a.policy.spec.allowedModels
      && (forall t :: 0 <= t < |h.agent.tools| ==> h.agent.tools[t] in a.policy.spec.allowedTools)
      && !HasDuplicates(a.policy.spec.allowedModels) && !HasDuplicates(a.policy.spec.allowedTools)
      && a.policy.spec.defaultDenyEgress && a.policy.spec.policyVersion != ""
      && h.agent.projectId in w.ns.uuids
      && (SpecDag(h.run).None? || Valid(SpecDag(h.run).value))
  {
    RunKeepsInv(worlds, moves, n);
    var w := worlds[n];
    assert Steps(w, moves[n], worlds[n + 1]);
    assert WorkerOk(w, w.workers[moves[n].k]);
    var j :| 0 <= j < |w.approvals| && w.approvals[j].spec == w.workers[moves[n].k].agent.spec;
    a := w.approvals[j];
    assert ApprovalOk(w, a);
  }

  /** Approvals come from validations: each was given by a `JudgeAgent` move, before which
      the Agent was unapproved or approved by an earlier one. */
  lemma {:induction false} ApprovalsAreValidations(worlds: seq<World>, moves: seq<Move>, n: nat, a: Approval) returns (i: nat)
    requires GovernedRun(worlds, moves) && n < |worlds| && a in worlds[n].approvals
    ensures i < n && moves[i].JudgeAgent? && moves[i].policyRead.Some?
    ensures var w, m := worlds[i], moves[i];
      && m.k in w.workers && w.workers[m.k].JudgingAgent? && w.workers[m.k].agent.spec == a.spec
      && m.policyRead.value < |VersionsOf(w.policies, a.spec.policyRef)| && VersionsOf(w.policies, a.spec.policyRef)[m.policyRead.value] == a.policy
      && AgentIsReady(NsSeen(w, m.nsRead), w.workers[m.k].agent.tenantLabel, a.spec, Some(a.policy))
  {
    assert n > 0;
    assert Steps(worlds[n - 1], moves[n - 1], worlds[n]);
    if a in worlds[n - 1].approvals {
      i := ApprovalsAreValidations(worlds, moves, n - 1, a);
    } else {
      i := n - 1;
    }
  }

  // ---------- what a controller concludes it writes ----------

  /** A judgement of a policy is about to be written as it was made. */
  lemma PolicyJudgementIsWritten(w: World, m: Move)
    requires CanMove(w, m) && m.JudgePolicy?
    ensures m.k in w.workers && w.workers[m.k].JudgingPolicy? && m.k in Apply(w, m).workers && Apply(w, m).workers[m.k].WritingPolicy?
    ensures var ns, policy, judged := NsSeen(w, m.nsRead), w.workers[m.k].policy, Apply(w, m).workers[m.k].policy;
      && judged == policy.(status := judged.status) && judged.status.observedGeneration == policy.generation
      && (judged.status.on <==> forall i: nat :: PolicyRequirement(i, ns, policy.tenantLabel, policy.spec))
      && FindCondition(judged.status.conditions, OtherType("Active")).Some?
      && FindCondition(judged.status.conditions, OtherType("Active")).value.status == (if judged.status.on then True else False)
  {
    var ns, policy := NsSeen(w, m.nsRead), w.workers[m.k].policy;
    PolicyReasonIsMissed(ns, policy.tenantLabel, policy.spec);
    var on := TenantIdFor(ns, policy.tenantLabel).Some? && SoundPolicy(policy.spec);
    SetThenFind(policy.status.conditions, Condition(OtherType("Active"), if on then True else False, OtherReason("Active"), m.message, policy.generation),
                OtherType("Active"));
    hide PolicyRequirement;
    hide SoundPolicy;
    hide TenantIdFor;
    hide SetCondition;
    hide FindCondition;
  }

  /** So is a judgement of an Agent, which is approved exactly when it meets them all. */
  lemma AgentJudgementIsWritten(w: World, m: Move)
    requires CanMove(w, m) && m.JudgeAgent?
    ensures m.k in w.workers && w.workers[m.k].JudgingAgent? && m.k in Apply(w, m).workers && Apply(w, m).workers[m.k].WritingAgent?
    ensures var agent, judged := w.workers[m.k].agent, Apply(w, m).workers[m.k].agent;
      var versions := VersionsOf(w.policies, agent.spec.policyRef);
      && (m.policyRead.Some? ==> m.policyRead.value < |versions|)
      && var policy := if m.policyRead.Some? then Some(versions[m.policyRead.value]) else None;
         && judged == agent.(status := judged.status) && judged.status.observedGeneration == agent.generation
         && (judged.status.on <==> forall i: nat :: AgentRequirement(i, NsSeen(w, m.nsRead), agent.tenantLabel, agent.spec, policy))
         && (judged.status.on <==> |Apply(w, m).approvals| == |w.approvals| + 1)
         && FindCondition(judged.status.conditions, Ready).Some?
         && FindCondition(judged.status.conditions, Ready).value.status == (if judged.status.on then True else False)
  {
    var agent := w.workers[m.k].agent;
    var policy := if m.policyRead.Some? then Some(VersionsOf(w.policies, agent.spec.policyRef)[m.policyRead.value]) else None;
    AgentReasonIsMissed(NsSeen(w, m.nsRead), agent.tenantLabel, agent.spec, policy);
    var on := AgentIsReady(NsSeen(w, m.nsRead), agent.tenantLabel, agent.spec, policy);
    SetThenFind(agent.status.conditions, Condition(Ready, if on then True else False, OtherReason("Ready"), m.message, agent.generation), Ready);
    hide AgentRequirement;
    hide AgentIsReady;
    hide SetCondition;
    hide FindCondition;
    hide VersionsOf;
  }

  /** A run is handed over exactly when its namespace binds it and the agent, the agent is
      ready for its generation and the DAG is valid. */
  lemma CheckedRunIsSubmittedIff(w: World, m: Move)
    requires CanMove(w, m) && m.CheckRun?
    ensures m.run.agentRef in w.agents && m.v < |w.agents[m.run.agentRef]| && m.k in Apply(w, m).workers
    ensures var agent := w.agents[m.run.agentRef][m.v];
      CanMove(Apply(w, m), SubmitRun(m.k)) <==>
        && m.nsRead && w.ns.tenantLabel in w.ns.uuids && m.runLabel == w.ns.tenantLabel && agent.tenantLabel == w.ns.tenantLabel
        && agent.present && agent.status.on && agent.status.observedGeneration == agent.generation
        && (m.run.dag.Some? ==> Valid(DagNodes(m.run.dag.value)))
  {
    hide Valid;
  }
}
