/** The run ledger: records, the operations a store offers on them, and what the
    in-memory store answers. Timestamps are not part of the model. */
module Ledger {
  import opened Wrappers
  import Graph

  type Tenant = string

  type Key = string

  type RunId = string

  datatype Status = Queued | Running | Succeeded | Failed | Cancelled

  predicate Terminal(status: Status) {
    status.Succeeded? || status.Failed? || status.Cancelled?
  }

  /** How far a run has got. */
  function Rank(status: Status): nat {
    match status
    case Queued => 0
    case Running => 1
    case _ => 2
  }

  datatype Spec = Spec(nodeId: string, prompt: string, role: string, dependsOn: seq<string>,
                       maxRetries: nat, model: string, maxTokens: nat)

  datatype Usage = Usage(latencyMs: int, inputTokens: int, outputTokens: int)

  datatype Step = Step(spec: Spec, attempts: nat, status: Status, output: string, error: string, usage: Usage)

  datatype Record = Record(id: RunId, tenant: Tenant, project: Option<string>, task: string,
                           status: Status, summary: string, cancelled: bool,
                           runtimeRunId: Option<string>, steps: seq<Step>)

  /** What a store shows of a record. */
  datatype Snapshot = Snapshot(id: RunId, status: Status, summary: string, steps: seq<Step>)

  function SnapshotOf(record: Record): Snapshot {
    Snapshot(record.id, record.status, record.summary, record.steps)
  }

  // ---------- step specifications ----------

  /** A caller's step description; None stands for an absent or null entry. */
  datatype RawSpec =
    | Named(name: string)
    | Described(nodeId: string, prompt: Option<string>, role: Option<string>, dependsOn: Option<seq<string>>,
                maxRetries: Option<nat>, model: Option<string>, maxTokens: Option<nat>)

  function OrElse<T>(o: Option<T>, default: T): T {
    if o.Some? then o.value else default
  }

  function NormalizeSpec(raw: RawSpec): Spec {
    match raw
    case Named(name) => Spec(name, "", "", [], 0, "", 0)
    case Described(nodeId, prompt, role, dependsOn, maxRetries, model, maxTokens) =>
      Spec(nodeId, OrElse(prompt, ""), OrElse(role, ""), OrElse(dependsOn, []),
           OrElse(maxRetries, 0), OrElse(model, ""), OrElse(maxTokens, 0))
  }

  function RawNode(raw: RawSpec): Graph.Node {
    match raw
    case Named(name) => Graph.Node(name, [])
    case Described(nodeId, _, _, dependsOn, _, _, _) => Graph.Node(nodeId, OrElse(dependsOn, []))
  }

  /** The dependency graph a list of raw specifications describes. */
  function RawNodes(raws: seq<RawSpec>): seq<Graph.Node> {
    seq(|raws|, i requires 0 <= i < |raws| => RawNode(raws[i]))
  }

  function StepNodes(steps: seq<Step>): seq<Graph.Node> {
    seq(|steps|, i requires 0 <= i < |steps| => Graph.Node(steps[i].spec.nodeId, steps[i].spec.dependsOn))
  }

  function SpecNodes(specs: seq<Spec>): seq<Graph.Node> {
    seq(|specs|, i requires 0 <= i < |specs| => Graph.Node(specs[i].nodeId, specs[i].dependsOn))
  }

  function NewStep(spec: Spec): Step {
    Step(spec, 0, Queued, "", "", Usage(0, 0, 0))
  }

  function NewSteps(raws: seq<RawSpec>): seq<Step> {
    seq(|raws|, i requires 0 <= i < |raws| => NewStep(NormalizeSpec(raws[i])))
  }

  function NewRecord(id: RunId, tenant: Tenant, project: Option<string>, task: string, steps: seq<Step>): Record {
    Record(id, tenant, project, task, Queued, "queued for execution", false, None, steps)
  }

  /** Normalising, storing and snapshotting keep every name and dependency. */
  lemma NormalizingKeepsGraph(raws: seq<RawSpec>)
    ensures StepNodes(NewSteps(raws)) == RawNodes(raws)
  {
    forall i | 0 <= i < |raws| ensures StepNodes(NewSteps(raws))[i] == RawNodes(raws)[i] {
      assert NewSteps(raws)[i].spec == NormalizeSpec(raws[i]);
    }
  }

  // ---------- operations on one record ----------

  datatype Op =
    | Get
    | RuntimeRunId
    | ProjectId
    | SetRuntimeRunId(runtimeRunId: string)
    | Cancel
    | Start
    | StartStep(position: nat)
    | SucceedStep(position: nat, output: string, usage: Usage)
    | FailStep(position: nat, error: string)
    | Succeed
    | Fail(error: string)

  datatype Reply =
    | Submitted(run: Snapshot, created: bool)
    | Shown(snapshot: Option<Snapshot>)
    | Text(text: Option<string>)
    | Ack(ok: bool)
    | Raised  // a Python exception escapes to the caller

  function MockOutput(nodeId: string): string {
    "mock execution completed step " + nodeId
  }

  function SweepStep(step: Step, running: bool): Step {
    if step.status.Queued? || (running && step.status.Running?) then step.(status := Cancelled) else step
  }

  /** Cancels queued steps, and running ones too if asked. */
  function Sweep(steps: seq<Step>, running: bool): (swept: seq<Step>)
    ensures |swept| == |steps|
  {
    seq(|steps|, i requires 0 <= i < |steps| => SweepStep(steps[i], running))
  }

  function CancelRecord(record: Record): Record {
    if Terminal(record.status) then record
    else record.(cancelled := true, status := Cancelled, summary := "cancelled by API request",
                 steps := Sweep(record.steps, true))
  }

  function FailRecord(record: Record, error: string): Record {
    record.(status := Failed, summary := error, steps := Sweep(record.steps, false))
  }

  function StartedStep(step: Step): Step {
    step.(status := Running, attempts := step.attempts + 1, error := "")
  }

  function SucceededStep(step: Step, output: string, usage: Usage): Step {
    step.(status := Succeeded, usage := usage,
          output := if output == "" then MockOutput(step.spec.nodeId) else output)
  }

  function FailedStep(step: Step, error: string): Step {
    step.(status := Failed, error := error)
  }

  /** The in-memory store's one guard. */
  function Guarded(record: Record, changed: Record): (Record, Reply) {
    if record.cancelled then (record, Ack(false)) else (changed, Ack(true))
  }

  function SetStep(record: Record, position: nat, step: Step): Record
    requires position < |record.steps|
  {
    record.(steps := record.steps[position := step])
  }

  /** What the in-memory store does to a record the caller's tenant owns. */
  function Apply(record: Record, op: Op): (Record, Reply) {
    match op
    case Get => (record, Shown(Some(SnapshotOf(record))))
    case RuntimeRunId => (record, Text(record.runtimeRunId))
    case ProjectId => (record, Text(record.project))
    case Cancel => (CancelRecord(record), Shown(Some(SnapshotOf(CancelRecord(record)))))
    case SetRuntimeRunId(id) => Guarded(record, record.(runtimeRunId := Some(id)))
    case Start => Guarded(record, record.(status := Running, summary := "execution running"))
    case Succeed => Guarded(record, record.(status := Succeeded, summary := "execution completed"))
    case Fail(error) => Guarded(record, FailRecord(record, error))
    case StartStep(position) =>
      if record.cancelled then (record, Ack(false))
      else if position >= |record.steps| then (record, Raised)
      else if record.steps[position].status.Queued? || record.steps[position].status.Failed?
      then (SetStep(record, position, StartedStep(record.steps[position])), Ack(true))
      else (record, Ack(false))
    case SucceedStep(position, output, usage) =>
      if record.cancelled then (record, Ack(false))
      else if position >= |record.steps| then (record, Raised)
      else (SetStep(record, position, SucceededStep(record.steps[position], output, usage)), Ack(true))
    case FailStep(position, error) =>
      if record.cancelled then (record, Ack(false))
      else if position >= |record.steps| then (record, Raised)
      else (SetStep(record, position, FailedStep(record.steps[position], error)), Ack(true))
  }

  /** The answer when the run is unknown or belongs to another tenant. */
  function Missing(op: Op): Reply {
    match op
    case Get | Cancel => Shown(None)
    case RuntimeRunId | ProjectId => Text(None)
    case _ => Ack(false)
  }

  // ---------- the whole in-memory store ----------

  datatype Mem = Mem(runs: map<RunId, Record>, idempotency: map<(Tenant, Key), RunId>)

  /** A store call; `newId` is the identifier uuid4 would supply. */
  datatype Call =
    | Submit(tenant: Tenant, task: string, project: Option<string>, key: Key, raws: seq<RawSpec>, newId: RunId)
    | On(tenant: Tenant, id: RunId, op: Op)

  predicate Owns(runs: map<RunId, Record>, tenant: Tenant, id: RunId) {
    id in runs && runs[id].tenant == tenant
  }

  function MemApply(s: Mem, call: Call): (Mem, Reply) {
    match call
    case On(tenant, id, op) =>
      if Owns(s.runs, tenant, id)
      then var (record, reply) := Apply(s.runs[id], op); (s.(runs := s.runs[id := record]), reply)
      else (s, Missing(op))
    case Submit(tenant, task, project, key, raws, newId) =>
      if (tenant, key) in s.idempotency && s.idempotency[(tenant, key)] != ""
      then
        var id := s.idempotency[(tenant, key)];
        (s, if id in s.runs then Submitted(SnapshotOf(s.runs[id]), false) else Raised)
      else
        var record := NewRecord(newId, tenant, project, task, NewSteps(raws));
        (Mem(s.runs[newId := record], s.idempotency[(tenant, key) := newId]), Submitted(SnapshotOf(record), true))
  }

  /** Every idempotency key leads to a run of its tenant, under a non-empty identifier. */
  ghost predicate KeysLead(mem: Mem) {
    forall k {:trigger mem.idempotency[k]} :: k in mem.idempotency ==>
      mem.idempotency[k] != "" && Owns(mem.runs, k.0, mem.idempotency[k])
  }

  lemma ApplyKeepsIdentity(record: Record, op: Op)
    ensures var after := Apply(record, op).0;
      after.id == record.id && after.tenant == record.tenant && after.project == record.project && after.task == record.task
  {
  }

  // ---------- what the guards give on their own, and what they do not ----------

  /** Once the cancelled flag is set, no operation changes anything any more. */
  lemma CancelledIsFrozen(record: Record, op: Op)
    requires record.cancelled && record.status == Cancelled
    ensures Apply(record, op).0 == record
  {
  }

  /** In-memory `start`, `succeed` and `fail` look only at the cancelled flag: a
      terminal status survives an operation exactly when the flag is set or the
      operation is not one that writes a different status. */
  lemma TerminalKeptIff(record: Record, op: Op)
    requires Terminal(record.status) && (record.cancelled <==> record.status == Cancelled)
    ensures Apply(record, op).0.status == record.status <==>
      record.cancelled || !(op.Start? || (op.Succeed? && record.status.Failed?) || (op.Fail? && record.status.Succeeded?))
  {
  }

  /** A failure drops the queued steps only; a cancellation drops the running ones, too. */
  lemma EndsDropSteps(record: Record, error: string, p: nat)
    requires !record.cancelled && !Terminal(record.status) && p < |record.steps|
    ensures var failed, cancelled, step := Apply(record, Fail(error)).0, Apply(record, Cancel).0, record.steps[p];
      && failed.status == Failed && failed.summary == error && !failed.cancelled
      && cancelled.status == Cancelled && cancelled.cancelled
      && |failed.steps| == |cancelled.steps| == |record.steps|
      && failed.steps[p] == (if step.status.Queued? then step.(status := Cancelled) else step)
      && cancelled.steps[p] == (if step.status.Queued? || step.status.Running? then step.(status := Cancelled) else step)
  {
  }

  /** A call sequence outside the protocol that resurrects a failed run. */
  lemma TerminalNotAbsorbing(record: Record)
    requires record.status == Running && !record.cancelled
    ensures Apply(Apply(record, Fail("boom")).0, Succeed).0.status == Succeeded
  {
  }
}
