/** The readiness chain of one namespace: TenantPolicies become active, Agents become
    ready against them, AgentRuns are submitted for ready Agents. The three controllers'
    decisions, their loops, and the status they overwrite. */
module Governance {
  import opened Wrappers
  import opened Status
  import opened Specs
  import opened Graph

  /** The namespace's own tenant label, fixed by its administrator; which texts parse as
      UUIDs is a parameter. */
  datatype Namespace = Namespace(tenantLabel: string, uuids: set<string>)

  datatype PolicySpec = PolicySpec(allowedTools: seq<string>, allowedModels: seq<string>, defaultDenyEgress: bool, policyVersion: string)

  /** The status of a TenantPolicy (`on` is Active) or of an Agent (`on` is Ready). */
  datatype Readiness = Readiness(on: bool, observedGeneration: nat, conditions: seq<Condition>)

  const UNJUDGED := Readiness(false, 0, [])

  /** A stored version of an object; a deleted object leaves a version that is not present. */
  datatype Stored<S> = Stored(version: nat, generation: nat, tenantLabel: string, spec: S, status: Readiness, present: bool)

  type Policy = Stored<PolicySpec>

  type Agent = Stored<AgentSpec>

  /** On, and judged for the generation it has now. */
  predicate UpToDate<S>(stored: Stored<S>) {
    stored.present && stored.status.on && stored.status.observedGeneration == stored.generation
  }

  // ---------- tenant binding ----------

  /** `tenantIDFor`: the namespace's label, if it is a UUID the object repeats. */
  function TenantIdFor(ns: Option<Namespace>, tenantLabel: string): Option<string> {
    if ns.None? || ns.value.tenantLabel !in ns.value.uuids || tenantLabel != ns.value.tenantLabel then None
    else Some(ns.value.tenantLabel)
  }

  // ---------- policies ----------

  datatype PolicyReason =
    | InvalidBinding | PolicyVersionRequired | NoAllowedModels | DuplicateAllowlistEntry | DefaultDenyRequired | PolicyActive

  ghost predicate HasDuplicates(values: seq<string>) {
    exists i, j :: 0 <= i < j < |values| && values[i] == values[j]
  }

  ghost predicate SoundPolicy(spec: PolicySpec) {
    && spec.policyVersion != "" && spec.allowedModels != [] && spec.defaultDenyEgress
    && !HasDuplicates(spec.allowedModels) && !HasDuplicates(spec.allowedTools)
  }

  /** `hasDuplicates`. */
  method FindDuplicate(values: seq<string>) returns (found: bool)
    ensures found <==> HasDuplicates(values)
  {
    var seen: set<string> := {};
    for i := 0 to |values|
      invariant forall value :: value in seen <==> value in values[..i]
      invariant !HasDuplicates(values[..i])
    {
      if values[i] in seen {
        var j :| 0 <= j < i && values[j] == values[i];
        return true;
      }
      seen := seen + {values[i]};
    }
    assert values[..|values|] == values;
    found := false;
  }

  /** The first requirement a policy misses. */
  ghost function PolicyVerdict(ns: Option<Namespace>, tenantLabel: string, spec: PolicySpec): PolicyReason {
    if TenantIdFor(ns, tenantLabel).None? then InvalidBinding
    else if spec.policyVersion == "" then PolicyVersionRequired
    else if spec.allowedModels == [] then NoAllowedModels
    else if HasDuplicates(spec.allowedModels) || HasDuplicates(spec.allowedTools) then DuplicateAllowlistEntry
    else if !spec.defaultDenyEgress then DefaultDenyRequired
    else PolicyActive
  }

  /** The requirements on a policy, in the order they are checked. */
  ghost predicate PolicyRequirement(i: nat, ns: Option<Namespace>, tenantLabel: string, spec: PolicySpec) {
    && (i == 0 ==> ns.Some? && ns.value.tenantLabel in ns.value.uuids && tenantLabel == ns.value.tenantLabel)
    && (i == 1 ==> spec.policyVersion != "")
    && (i == 2 ==> |spec.allowedModels| > 0)
    && (i == 3 ==> !HasDuplicates(spec.allowedModels) && !HasDuplicates(spec.allowedTools))
    && (i == 4 ==> spec.defaultDenyEgress)
  }

  /** The requirement a reason reports as missed; none is number 5. */
  function PolicyReasonNumber(reason: PolicyReason): nat {
    match reason
    case InvalidBinding => 0
    case PolicyVersionRequired => 1
    case NoAllowedModels => 2
    case DuplicateAllowlistEntry => 3
    case DefaultDenyRequired => 4
    case PolicyActive => 5
  }

  lemma PolicyReasonIsMissed(ns: Option<Namespace>, tenantLabel: string, spec: PolicySpec)
    ensures var number := PolicyReasonNumber(PolicyVerdict(ns, tenantLabel, spec));
      && (forall i: nat :: i < number ==> PolicyRequirement(i, ns, tenantLabel, spec))
      && if TenantIdFor(ns, tenantLabel).Some? && SoundPolicy(spec) then forall i: nat :: PolicyRequirement(i, ns, tenantLabel, spec)
         else !PolicyRequirement(number, ns, tenantLabel, spec)
  {
    hide HasDuplicates;
  }

  /** `validateTenantPolicy`. */
  method ValidateTenantPolicy(ns: Option<Namespace>, tenantLabel: string, spec: PolicySpec) returns (active: bool, reason: PolicyReason)
    ensures active <==> TenantIdFor(ns, tenantLabel).Some? && SoundPolicy(spec)
    ensures reason == PolicyVerdict(ns, tenantLabel, spec)
    ensures active <==> forall i: nat :: PolicyRequirement(i, ns, tenantLabel, spec)
    ensures forall i: nat :: i < PolicyReasonNumber(reason) ==> PolicyRequirement(i, ns, tenantLabel, spec)
    ensures !active ==> !PolicyRequirement(PolicyReasonNumber(reason), ns, tenantLabel, spec)
  {
    PolicyReasonIsMissed(ns, tenantLabel, spec);
    hide PolicyRequirement;
    hide PolicyReasonNumber;
    if TenantIdFor(ns, tenantLabel).None? { return false, InvalidBinding; }
    if spec.policyVersion == "" { return false, PolicyVersionRequired; }
    if |spec.allowedModels| == 0 { return false, NoAllowedModels; }
    var duplicate := FindDuplicate(spec.allowedModels);
    if !duplicate { duplicate := FindDuplicate(spec.allowedTools); }
    if duplicate { return false, DuplicateAllowlistEntry; }
    if !spec.defaultDenyEgress { return false, DefaultDenyRequired; }
    return true, PolicyActive;
  }

  // ---------- agents ----------

  datatype AgentReason =
    | InvalidTenantBinding | InvalidProjectId | RuntimeClassRequired | PolicyRequired | PolicyNotFound
    | TenantMismatch | PolicyNotActive | ModelDenied | ToolDenied(tool: string) | AgentReady

  function ModelRef(spec: AgentSpec): string {
    spec.providerRef + "/" + spec.model
  }

  predicate Permits(policy: PolicySpec, spec: AgentSpec) {
    ModelRef(spec) in policy.allowedModels && forall t :: 0 <= t < |spec.tools| ==> spec.tools[t] in policy.allowedTools
  }

  predicate WellFormed(uuids: set<string>, spec: AgentSpec) {
    spec.projectId in uuids && (spec.sandboxMode == "required" ==> spec.runtimeClassName != "") && spec.policyRef != ""
  }

  /** What makes an Agent ready: a binding, a well-formed spec, and a policy of the same
      tenant, active for its generation, that permits the model and every tool. */
  predicate AgentIsReady(ns: Option<Namespace>, tenantLabel: string, spec: AgentSpec, policy: Option<Policy>) {
    && TenantIdFor(ns, tenantLabel).Some? && WellFormed(ns.value.uuids, spec)
    && policy.Some? && policy.value.tenantLabel == tenantLabel
    && UpToDate(policy.value) && Permits(policy.value.spec, spec)
  }

  /** `allowed`. */
  method Allowed(values: seq<string>, candidate: string) returns (found: bool)
    ensures found <==> candidate in values
  {
    for i := 0 to |values|
      invariant candidate !in values[..i]
    {
      if values[i] == candidate { return true; }
    }
    found := false;
  }

  function ToolVerdict(allowedTools: seq<string>, tools: seq<string>): AgentReason {
    if tools == [] then AgentReady
    else if tools[0] !in allowedTools then ToolDenied(tools[0])
    else ToolVerdict(allowedTools, tools[1..])
  }

  /** The first requirement an Agent misses. */
  function AgentVerdict(ns: Option<Namespace>, tenantLabel: string, spec: AgentSpec, policy: Option<Policy>): AgentReason {
    if TenantIdFor(ns, tenantLabel).None? then InvalidTenantBinding
    else if spec.projectId !in ns.value.uuids then InvalidProjectId
    else if spec.sandboxMode == "required" && spec.runtimeClassName == "" then RuntimeClassRequired
    else if spec.policyRef == "" then PolicyRequired
    else if policy.None? || !policy.value.present then PolicyNotFound
    else if policy.value.tenantLabel != tenantLabel then TenantMismatch
    else if !UpToDate(policy.value) then PolicyNotActive
    else if ModelRef(spec) !in policy.value.spec.allowedModels then ModelDenied
    else ToolVerdict(policy.value.spec.allowedTools, spec.tools)
  }

  /** The requirements on an Agent, in the order they are checked. */
  predicate AgentRequirement(i: nat, ns: Option<Namespace>, tenantLabel: string, spec: AgentSpec, policy: Option<Policy>) {
    && (i == 0 ==> ns.Some? && ns.value.tenantLabel in ns.value.uuids && tenantLabel == ns.value.tenantLabel)
    && (i == 1 ==> ns.Some? && spec.projectId in ns.value.uuids)
    && (i == 2 ==> spec.sandboxMode == "required" ==> spec.runtimeClassName != "")
    && (i == 3 ==> spec.policyRef != "")
    && (i == 4 ==> policy.Some? && policy.value.present)
    && (i == 5 ==> policy.Some? && policy.value.tenantLabel == tenantLabel)
    && (i == 6 ==> policy.Some? && policy.value.present && policy.value.status.on && policy.value.status.observedGeneration == policy.value.generation)
    && (i == 7 ==> policy.Some? && spec.providerRef + "/" + spec.model in policy.value.spec.allowedModels)
    && (i == 8 ==> policy.Some? && forall t :: 0 <= t < |spec.tools| ==> spec.tools[t] in policy.value.spec.allowedTools)
  }

  /** The requirement a reason reports as missed; none is number 9. */
  function AgentReasonNumber(reason: AgentReason): nat {
    match reason
    case InvalidTenantBinding => 0
    case InvalidProjectId => 1
    case RuntimeClassRequired => 2
    case PolicyRequired => 3
    case PolicyNotFound => 4
    case TenantMismatch => 5
    case PolicyNotActive => 6
    case ModelDenied => 7
    case ToolDenied(_) => 8
    case AgentReady => 9
  }

  /** The reported tool is the first one denied. */
  lemma {:induction false} DeniedTool(allowedTools: seq<string>, tools: seq<string>)
    ensures ToolVerdict(allowedTools, tools).AgentReady? || ToolVerdict(allowedTools, tools).ToolDenied?
    ensures ToolVerdict(allowedTools, tools).AgentReady? <==> forall t :: 0 <= t < |tools| ==> tools[t] in allowedTools
    ensures ToolVerdict(allowedTools, tools).ToolDenied? ==>
      var tool := ToolVerdict(allowedTools, tools).tool;
      tool !in allowedTools && exists t :: 0 <= t < |tools| && tools[t] == tool && forall u :: 0 <= u < t ==> tools[u] in allowedTools
  {
    if tools != [] && tools[0] in allowedTools {
      DeniedTool(allowedTools, tools[1..]);
      if ToolVerdict(allowedTools, tools).ToolDenied? {
        var t :| 0 <= t < |tools| - 1 && tools[1..][t] == ToolVerdict(allowedTools, tools).tool && forall u :: 0 <= u < t ==> tools[1..][u] in allowedTools;
        assert tools[t + 1] == ToolVerdict(allowedTools, tools).tool;
        assert forall u :: 0 < u < t + 1 ==> tools[u] == tools[1..][u - 1];
      }
    }
  }

  lemma AgentReasonIsMissed(ns: Option<Namespace>, tenantLabel: string, spec: AgentSpec, policy: Option<Policy>)
    ensures var number := AgentReasonNumber(AgentVerdict(ns, tenantLabel, spec, policy));
      && (forall i: nat :: i < number ==> AgentRequirement(i, ns, tenantLabel, spec, policy))
      && if AgentIsReady(ns, tenantLabel, spec, policy) then forall i: nat :: AgentRequirement(i, ns, tenantLabel, spec, policy)
         else !AgentRequirement(number, ns, tenantLabel, spec, policy)
  {
    if policy.Some? { DeniedTool(policy.value.spec.allowedTools, spec.tools); }
    hide ToolVerdict;
  }

  /** `AgentReconciler.validate`; `policy` is what the lookup of `policyRef` returned. */
  method ValidateAgent(ns: Option<Namespace>, tenantLabel: string, spec: AgentSpec, policy: Option<Policy>)
    returns (ready: bool, reason: AgentReason)
    ensures ready <==> AgentIsReady(ns, tenantLabel, spec, policy)
    ensures reason == AgentVerdict(ns, tenantLabel, spec, policy)
    ensures ready <==> forall i: nat :: AgentRequirement(i, ns, tenantLabel, spec, policy)
    ensures forall i: nat :: i < AgentReasonNumber(reason) ==> AgentRequirement(i, ns, tenantLabel, spec, policy)
    ensures !ready ==> !AgentRequirement(AgentReasonNumber(reason), ns, tenantLabel, spec, policy)
  {
    AgentReasonIsMissed(ns, tenantLabel, spec, policy);
    hide AgentRequirement;
    hide AgentReasonNumber;
    var tenant := TenantIdFor(ns, tenantLabel);
    if tenant.None? { return false, InvalidTenantBinding; }
    if spec.projectId !in ns.value.uuids { return false, InvalidProjectId; }
    if spec.sandboxMode == "required" && spec.runtimeClassName == "" { return false, RuntimeClassRequired; }
    if spec.policyRef == "" { return false, PolicyRequired; }
    if policy.None? || !policy.value.present { return false, PolicyNotFound; }
    if policy.value.tenantLabel != tenant.value { return false, TenantMismatch; }
    if !policy.value.status.on || policy.value.status.observedGeneration != policy.value.generation { return false, PolicyNotActive; }
    var modelAllowed := Allowed(policy.value.spec.allowedModels, ModelRef(spec));
    if !modelAllowed { return false, ModelDenied; }
    for t := 0 to |spec.tools|
      invariant forall u :: 0 <= u < t ==> spec.tools[u] in policy.value.spec.allowedTools
      invariant ToolVerdict(policy.value.spec.allowedTools, spec.tools) == ToolVerdict(policy.value.spec.allowedTools, spec.tools[t..])
    {
      var toolAllowed := Allowed(policy.value.spec.allowedTools, spec.tools[t]);
      if !toolAllowed { return false, ToolDenied(spec.tools[t]); }
      assert spec.tools[t..][1..] == spec.tools[t + 1..];
    }
    return true, AgentReady;
  }

  // ---------- the status both reconcilers overwrite ----------

  /** The verdict written for a generation. */
  function Judged(status: Readiness, kind: ConditionType, on: bool, reason: Reason, message: Message, generation: nat): Readiness {
    Readiness(on, generation,
              SetCondition(status.conditions, Condition(kind, if on then True else False, reason, message, generation)))
  }

  class ReadinessObject {
    var on: bool
    var observedGeneration: nat
    var conditions: seq<Condition>

    ghost function Value(): Readiness
      reads this
    {
      Readiness(on, observedGeneration, conditions)
    }

    constructor (status: Readiness)
      ensures Value() == status
    {
      on, observedGeneration, conditions := status.on, status.observedGeneration, status.conditions;
    }

    /** The second half of both `Reconcile`s: overwrite, and report whether a write is due. */
    method Record(kind: ConditionType, verdict: bool, reason: Reason, message: Message, generation: nat) returns (changed: bool)
      modifies this
      ensures Value() == Judged(old(Value()), kind, verdict, reason, message, generation)
      ensures changed <==> Value() != old(Value())
      ensures on == verdict && observedGeneration == generation
      ensures FindCondition(conditions, kind) == Some(Condition(kind, if verdict then True else False, reason, message, generation))
    {
      SetThenFind(conditions, Condition(kind, if verdict then True else False, reason, message, generation), kind);
      hide SetCondition;
      hide FindCondition;
      var onBefore, generationBefore, conditionsBefore := on, observedGeneration, conditions;
      on := verdict;
      observedGeneration := generation;
      var conditionStatus := False;
      if verdict { conditionStatus := True; }
      conditions := SetCondition(conditions, Condition(kind, conditionStatus, reason, message, generation));
      changed := on != onBefore || observedGeneration != generationBefore || conditions != conditionsBefore;
    }
  }

  // ---------- the controllers as a machine ----------

  /** A validation that found an Agent's spec ready, and the policy it was held against. */
  datatype Approval = Approval(spec: AgentSpec, policy: Policy)

  /** What an AgentRun was submitted with. */
  datatype Handed = Handed(tenant: string, run: RunSpec, agent: AgentSpec)

  datatype Worker =
    | Idle
    | JudgingPolicy(name: string, policy: Policy)
    | WritingPolicy(name: string, policy: Policy)
    | JudgingAgent(name: string, agent: Agent)
    | WritingAgent(name: string, agent: Agent)
    | Submitting(run: RunSpec, agent: Agent)

  /** Every name's stored versions, the last one current; and a record of what happened. */
  datatype World = World(ns: Namespace, policies: map<string, seq<Policy>>, agents: map<string, seq<Agent>>,
                         workers: map<nat, Worker>, approvals: seq<Approval>, handed: seq<Handed>)

  datatype Change<S> = Create(tenantLabel: string, spec: S) | EditSpec(spec: S) | EditLabel(tenantLabel: string) | Remove

  datatype Move =
    | ChangePolicy(name: string, policyChange: Change<PolicySpec>)
    | ChangeAgent(name: string, agentChange: Change<AgentSpec>)
    | ReadPolicy(k: nat, name: string, v: nat)
    | JudgePolicy(k: nat, nsRead: bool, message: Message)
    | WritePolicy(k: nat, reached: bool)
    | ReadAgent(k: nat, name: string, v: nat)
    | JudgeAgent(k: nat, nsRead: bool, policyRead: Option<nat>, message: Message)
    | WriteAgent(k: nat, reached: bool)
    | CheckRun(k: nat, nsRead: bool, runLabel: string, run: RunSpec, v: nat)
    | SubmitRun(k: nat)
    | Abandon(k: nat)

  function VersionsOf<S>(objects: map<string, seq<Stored<S>>>, name: string): seq<Stored<S>> {
    if name in objects then objects[name] else []
  }

  predicate Exists<S>(versions: seq<Stored<S>>) {
    versions != [] && versions[|versions| - 1].present
  }

  /** What the API server allows: a status arrives only through a controller, a spec edit
      raises the generation, a label edit does not, a recreated object starts afresh. */
  predicate CanChange<S>(versions: seq<Stored<S>>, change: Change<S>) {
    if change.Create? then !Exists(versions) else Exists(versions)
  }

  function Changed<S>(versions: seq<Stored<S>>, change: Change<S>): seq<Stored<S>>
    requires CanChange(versions, change)
  {
    var n := |versions|;
    match change
    case Create(tenantLabel, spec) => versions + [Stored(n, 1, tenantLabel, spec, UNJUDGED, true)]
    case EditSpec(spec) => versions + [versions[n - 1].(version := n, spec := spec, generation := versions[n - 1].generation + 1)]
    case EditLabel(tenantLabel) => versions + [versions[n - 1].(version := n, tenantLabel := tenantLabel)]
    case Remove => versions + [versions[n - 1].(version := n, present := false)]
  }

  /** A status write: compare-and-set on the version the copy was read at. */
  function WriteStatus<S>(versions: seq<Stored<S>>, copy: Stored<S>): seq<Stored<S>> {
    if Exists(versions) && copy.version == |versions| - 1
    then versions + [versions[|versions| - 1].(version := |versions|, status := copy.status)] else versions
  }

  predicate IsCopy<S>(versions: seq<Stored<S>>, v: nat) {
    v < |versions| && versions[v].present
  }

  function NsSeen(w: World, read: bool): Option<Namespace> {
    if read then Some(w.ns) else None
  }

  /** `validateReferences`. */
  ghost predicate ReferencesValid(ns: Option<Namespace>, runLabel: string, run: RunSpec, agent: Agent) {
    && TenantIdFor(ns, runLabel).Some? && agent.tenantLabel == runLabel && UpToDate(agent)
    && (SpecDag(run).None? || Valid(SpecDag(run).value))
  }

  predicate Free(w: World, k: nat) {
    k in w.workers ==> w.workers[k].Idle?
  }

  predicate CanMove(w: World, m: Move) {
    match m
    case ChangePolicy(name, change) => CanChange(VersionsOf(w.policies, name), change)
    case ChangeAgent(name, change) => CanChange(VersionsOf(w.agents, name), change)
    case ReadPolicy(k, name, v) => Free(w, k) && IsCopy(VersionsOf(w.policies, name), v)
    case JudgePolicy(k, _, _) => k in w.workers && w.workers[k].JudgingPolicy?
    case WritePolicy(k, _) => k in w.workers && w.workers[k].WritingPolicy?
    case ReadAgent(k, name, v) => Free(w, k) && IsCopy(VersionsOf(w.agents, name), v)
    case JudgeAgent(k, _, policyRead, _) =>
      k in w.workers && w.workers[k].JudgingAgent?
      && (policyRead.Some? ==> policyRead.value < |VersionsOf(w.policies, w.workers[k].agent.spec.policyRef)|)
    case WriteAgent(k, _) => k in w.workers && w.workers[k].WritingAgent?
    case CheckRun(k, _, _, run, v) => Free(w, k) && IsCopy(VersionsOf(w.agents, run.agentRef), v)
    case SubmitRun(k) => k in w.workers && w.workers[k].Submitting?
    case Abandon(k) => k in w.workers
  }

  function SetWorker(w: World, k: nat, worker: Worker): World {
    w.(workers := w.workers[k := worker])
  }

  ghost function JudgedPolicy(ns: Option<Namespace>, policy: Policy, message: Message): Policy {
    policy.(status := Judged(policy.status, OtherType("Active"), TenantIdFor(ns, policy.tenantLabel).Some? && SoundPolicy(policy.spec),
                             OtherReason("Active"), message, policy.generation))
  }

  ghost function JudgedAgent(ns: Option<Namespace>, agent: Agent, policy: Option<Policy>, message: Message): Agent {
    agent.(status := Judged(agent.status, Ready, AgentIsReady(ns, agent.tenantLabel, agent.spec, policy),
                            OtherReason("Ready"), message, agent.generation))
  }

  ghost function Apply(w: World, m: Move): World
    requires CanMove(w, m)
  {
    match m
    case ChangePolicy(name, change) => w.(policies := w.policies[name := Changed(VersionsOf(w.policies, name), change)])
    case ChangeAgent(name, change) => w.(agents := w.agents[name := Changed(VersionsOf(w.agents, name), change)])
    case ReadPolicy(k, name, v) => SetWorker(w, k, JudgingPolicy(name, w.policies[name][v]))
    case JudgePolicy(k, nsRead, message) =>
      var worker := w.workers[k];
      SetWorker(w, k, WritingPolicy(worker.name, JudgedPolicy(NsSeen(w, nsRead), worker.policy, message)))
    case WritePolicy(k, reached) =>
      var worker := w.workers[k];
      var next := if reached then w.(policies := w.policies[worker.name := WriteStatus(VersionsOf(w.policies, worker.name), worker.policy)]) else w;
      SetWorker(next, k, Idle)
    case ReadAgent(k, name, v) => SetWorker(w, k, JudgingAgent(name, w.agents[name][v]))
    case JudgeAgent(k, nsRead, policyRead, message) =>
      var worker := w.workers[k];
      var policy := if policyRead.Some? then Some(VersionsOf(w.policies, worker.agent.spec.policyRef)[policyRead.value]) else None;
      var ready := AgentIsReady(NsSeen(w, nsRead), worker.agent.tenantLabel, worker.agent.spec, policy);
      SetWorker(w.(approvals := if ready then w.approvals + [Approval(worker.agent.spec, policy.value)] else w.approvals), k,
                WritingAgent(worker.name, JudgedAgent(NsSeen(w, nsRead), worker.agent, policy, message)))
    case WriteAgent(k, reached) =>
      var worker := w.workers[k];
      var next := if reached then w.(agents := w.agents[worker.name := WriteStatus(VersionsOf(w.agents, worker.name), worker.agent)]) else w;
      SetWorker(next, k, Idle)
    case CheckRun(k, nsRead, runLabel, run, v) =>
      var agent := w.agents[run.agentRef][v];
      SetWorker(w, k, if ReferencesValid(NsSeen(w, nsRead), runLabel, run, agent) then Submitting(run, agent) else Idle)
    case SubmitRun(k) =>
      SetWorker(w.(handed := w.handed + [Handed(w.ns.tenantLabel, w.workers[k].run, w.workers[k].agent.spec)]), k, Idle)
    case Abandon(k) => SetWorker(w, k, Idle)
  }
}
