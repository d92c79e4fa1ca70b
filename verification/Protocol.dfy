/** The backend as a whole: a store, the API handlers and one executor thread per
    created run, interleaved one store call at a time, over either store. */
module Protocol {
  import opened Wrappers
  import opened Ledger
  import opened Executor
  import Graph
  import Kahn
  import opened Database

  // ---------- requests ----------

  /** A node of a submission request. */
  datatype RunNode = RunNode(name: string, prompt: string, role: Option<string>, model: Option<string>,
                             maxTokens: Option<nat>, dependsOn: seq<string>, maxRetries: Option<nat>)

  function NodeSpec(node: RunNode): RawSpec {
    Described(node.name, Some(node.prompt), Some(OrElse(node.role, "")), Some(node.dependsOn),
              Some(OrElse(node.maxRetries, 0)), node.model, Some(OrElse(node.maxTokens, 0)))
  }

  /** The step specifications `submit_run` builds; a request without nodes gets one step. */
  function RequestSpecs(nodes: seq<RunNode>): seq<RawSpec> {
    if nodes == [] then [Described("run", None, None, Some([]), Some(0), None, None)]
    else seq(|nodes|, i requires 0 <= i < |nodes| => NodeSpec(nodes[i]))
  }

  predicate NodeFits(node: RunNode) {
    1 <= |node.name| <= 63 && 1 <= OrElse(node.maxTokens, 1) <= 32768 && OrElse(node.maxRetries, 0) <= 5
  }

  /** The limits of the request's fields; a request beyond them is refused. */
  predicate RequestFits(task: string, project: Option<string>, key: Key, nodes: seq<RunNode>) {
    && 1 <= |task| <= 16_000 && |nodes| <= 32 && |OrElse(project, "")| <= 128 && 1 <= |key| <= 255
    && forall i :: 0 <= i < |nodes| ==> NodeFits(nodes[i])
  }

  // ---------- threads ----------

  /** `spawned` lists every thread ever started, in order. */
  datatype Threads = Threads(execs: map<RunId, Exec>, spawned: seq<RunId>)

  datatype Event =
    | ApiSubmit(tenant: Tenant, task: string, project: Option<string>, key: Key, nodes: seq<RunNode>, newId: RunId)
    | ApiCall(tenant: Tenant, id: RunId, op: Op)
    | ExecStep(id: RunId, choice: Choice)
    | Crash(id: RunId)

  /** The interleavings: identifiers are fresh, clients only read or cancel, and a
      thread steps while it lives, with choices its clients allow. */
  predicate Enabled(runs: set<RunId>, t: Threads, event: Event) {
    match event
    case ApiSubmit(_, _, _, _, _, newId) => newId != "" && newId !in runs && newId !in t.execs
    case ApiCall(_, _, op) => op.Get? || op.RuntimeRunId? || op.ProjectId? || op.Cancel?
    case ExecStep(id, choice) => id in t.execs && !t.execs[id].crashed && !Ended(t.execs[id].pc) && CanChoose(t.execs[id].pc, choice)
    case Crash(id) => id in t.execs
  }

  /** The store call an event makes; a refused request makes none. */
  ghost function CallOf(t: Threads, event: Event): Option<Call> {
    match event
    case ApiSubmit(tenant, task, project, key, nodes, newId) =>
      if tenant == "" || !RequestFits(task, project, key, nodes) || Kahn.Order(RawNodes(RequestSpecs(nodes))).None? then None
      else Some(Submit(tenant, task, project, key, RequestSpecs(nodes), newId))
    case ApiCall(tenant, id, op) => if tenant == "" then None else Some(On(tenant, id, op))
    case ExecStep(id, _) =>
      if id in t.execs && NextOp(t.execs[id].pc).Some?
      then Some(On(t.execs[id].tenant, id, NextOp(t.execs[id].pc).value)) else None
    case Crash(_) => None
  }

  function SpecsOf(raws: seq<RawSpec>): seq<Spec> {
    seq(|raws|, i requires 0 <= i < |raws| => NormalizeSpec(raws[i]))
  }

  /** What the threads do with the store's reply: `submit_run` starts one exactly when
      the store reports a creation; an executor dies of an error the store raises. */
  ghost function React(runs: set<RunId>, t: Threads, event: Event, reply: Reply): Threads
    requires Enabled(runs, t, event)
  {
    match event
    case ApiSubmit(tenant, _, _, key, nodes, _) =>
      if !reply.Submitted? || !reply.created then t else
      var order := Kahn.Order(RawNodes(RequestSpecs(nodes)));
      var exec := NewExec(tenant, key, SpecsOf(RequestSpecs(nodes)), OrElse(order, []));
      Threads(t.execs[reply.run.id := exec], t.spawned + [reply.run.id])
    case ApiCall(_, _, _) => t
    case ExecStep(id, choice) =>
      t.(execs := t.execs[id := if reply.Raised? then t.execs[id].(crashed := true) else AdvanceExec(t.execs[id], reply, choice)])
    case Crash(id) => t.(execs := t.execs[id := t.execs[id].(crashed := true)])
  }

  // ---------- the two systems ----------

  datatype MemSys = MemSys(mem: Mem, threads: Threads)

  datatype PgSys = PgSys(db: Db, uuids: Uuids, threads: Threads)

  const NO_THREADS := Threads(map[], [])

  const INIT_MEM := MemSys(Mem(map[], map[]), NO_THREADS)

  function InitPg(uuids: Uuids): PgSys {
    PgSys(Db(map[], map[]), uuids, NO_THREADS)
  }

  predicate MemEnabled(s: MemSys, event: Event) {
    Enabled(s.mem.runs.Keys, s.threads, event)
  }

  /** New identifiers come from uuid4 in their shown form. */
  predicate PgEnabled(s: PgSys, event: Event) {
    Enabled(s.db.runs.Keys, s.threads, event) && (event.ApiSubmit? ==> Canonical(s.uuids, event.newId))
  }

  ghost function MemCall(s: MemSys, event: Event): (Mem, Reply) {
    var call := CallOf(s.threads, event);
    if call.Some? then MemApply(s.mem, call.value) else (s.mem, Ack(true))
  }

  ghost function MemNext(s: MemSys, event: Event): MemSys
    requires MemEnabled(s, event)
  {
    var (mem, reply) := MemCall(s, event);
    MemSys(mem, React(s.mem.runs.Keys, s.threads, event, reply))
  }

  ghost function PgCall(s: PgSys, event: Event): (Db, Reply) {
    var call := CallOf(s.threads, event);
    if call.Some? then PgReceive(s.db, s.uuids, call.value) else (s.db, Ack(true))
  }

  ghost function PgNext(s: PgSys, event: Event): PgSys
    requires PgEnabled(s, event)
  {
    var (db, reply) := PgCall(s, event);
    PgSys(db, s.uuids, React(s.db.runs.Keys, s.threads, event, reply))
  }

  /** A run of the system over the in-memory store. */
  ghost predicate MemRun(states: seq<MemSys>, events: seq<Event>) {
    && |states| == |events| + 1 && states[0] == INIT_MEM
    && forall i :: 0 <= i < |events| ==> MemEnabled(states[i], events[i]) && states[i + 1] == MemNext(states[i], events[i])
  }
}
