/** `PostgresRunStore`: two tables, a unique index on (tenant, idempotency key) and
    the SQL statements the store issues, each a guarded update of rows. Every
    method runs in one transaction and is taken as one atomic step; a row its columns
    refuse raises and rolls it back. */
module Database {
  import opened Wrappers
  import opened Ledger

  datatype RunRow = RunRow(tenant: Tenant, project: Option<string>, key: Key, task: string, status: Status,
                           summary: string, cancelled: bool, runtimeRunId: Option<string>)

  datatype StepRow = StepRow(tenant: Tenant, step: Step)

  /** The rows of both tables that carry one run id; every statement but the
      insertion of a run selects by run id. */
  datatype RunTables = RunTables(run: RunRow, steps: map<nat, StepRow>)

  datatype Db = Db(runs: map<RunId, RunTables>, byKey: map<(Tenant, Key), RunId>)

  // ---------- columns ----------

  const SMALLINT_MAX := 32767

  const INTEGER_MAX := 2147483647

  predicate Fits(n: int) {
    0 <= n <= INTEGER_MAX
  }

  predicate UsageFits(usage: Usage) {
    Fits(usage.latencyMs) && Fits(usage.inputTokens) && Fits(usage.outputTokens)
  }

  /** The rows of a new run's steps. */
  predicate StepsFit(steps: seq<Step>) {
    && |steps| <= SMALLINT_MAX + 1
    && forall p :: 0 <= p < |steps| ==> steps[p].spec.maxRetries <= 5 && Fits(steps[p].spec.maxTokens)
  }

  /** The texts PostgreSQL reads as a uuid, each with the form in which it shows it. */
  type Uuids = map<string, RunId>

  predicate Canonical(uuids: Uuids, id: RunId) {
    id in uuids && uuids[id] == id
  }

  // ---------- queries ----------

  predicate HasRun(db: Db, tenant: Tenant, id: RunId) {
    id in db.runs && db.runs[id].run.tenant == tenant
  }

  /** The EXISTS condition of the step updates. */
  predicate Live(t: RunTables, tenant: Tenant) {
    t.run.tenant == tenant && !t.run.cancelled
  }

  predicate HasStep(t: RunTables, tenant: Tenant, position: nat) {
    position in t.steps && t.steps[position].tenant == tenant
  }

  /** A text column read with Python's `x if x else None`. */
  function Truthy(text: Option<string>): Option<string> {
    if text == Some("") then None else text
  }

  ghost predicate IsMin(m: nat, s: set<nat>) {
    m in s && forall x :: x in s ==> m <= x
  }

  lemma {:induction false} MinExists(s: set<nat>)
    requires s != {}
    ensures exists m :: IsMin(m, s)
    decreases |s|
  {
    var x :| x in s;
    if s == {x} {
      assert IsMin(x, s);
    } else {
      MinExists(s - {x});
      var m :| IsMin(m, s - {x});
      assert forall y :: y in s ==> y == x || y in s - {x};
      assert IsMin(m, s) || IsMin(x, s);
    }
  }

  /** ORDER BY position. */
  ghost function Ascending(s: set<nat>): seq<nat>
    decreases |s|
  {
    if s == {} then [] else
      MinExists(s);
      var m :| IsMin(m, s);
      [m] + Ascending(s - {m})
  }

  ghost function SelectSteps(t: RunTables, tenant: Tenant): seq<Step> {
    var positions := Ascending(set p | p in t.steps && t.steps[p].tenant == tenant);
    seq(|positions|, i requires 0 <= i < |positions| =>
      if positions[i] in t.steps then t.steps[positions[i]].step else NewStep(Spec("", "", "", [], 0, "", 0)))
  }

  ghost function LoadRun(t: RunTables, tenant: Tenant, id: RunId): Snapshot {
    Snapshot(id, t.run.status, t.run.summary, SelectSteps(t, tenant))
  }

  /** `_load`. */
  ghost function Load(db: Db, tenant: Tenant, id: RunId): Option<Snapshot> {
    if HasRun(db, tenant, id) then Some(LoadRun(db.runs[id], tenant, id)) else None
  }

  // ---------- statements ----------

  function UpdateRun(t: RunTables, row: RunRow): RunTables {
    t.(run := row)
  }

  function UpdateStep(t: RunTables, position: nat, step: Step): RunTables
    requires position in t.steps
  {
    t.(steps := t.steps[position := t.steps[position].(step := step)])
  }

  /** UPDATE agent_run_steps SET status = 'cancelled' over the steps of one run. */
  function SweepRows(t: RunTables, tenant: Tenant, running: bool): RunTables {
    t.(steps := map p | p in t.steps ::
      if t.steps[p].tenant == tenant then t.steps[p].(step := SweepStep(t.steps[p].step, running)) else t.steps[p])
  }

  function InsertedRun(tenant: Tenant, task: string, project: Option<string>, key: Key, steps: seq<Step>): RunTables {
    RunTables(RunRow(tenant, project, key, task, Queued, "queued for execution", false, None),
              map p: nat | p < |steps| :: StepRow(tenant, steps[p]))
  }

  // ---------- the store's calls ----------

  /** A call on the rows of one run; a tenant that does not own them matches none. */
  ghost function PgOn(t: RunTables, tenant: Tenant, id: RunId, op: Op): (RunTables, Reply) {
    var owned := t.run.tenant == tenant;
    match op
    case Get => (t, Shown(if owned then Some(LoadRun(t, tenant, id)) else None))
    case RuntimeRunId => (t, Text(if owned then Truthy(t.run.runtimeRunId) else None))
    case ProjectId => (t, Text(if owned then Truthy(t.run.project) else None))
    case SetRuntimeRunId(runtimeRunId) =>
      if Live(t, tenant) then (UpdateRun(t, t.run.(runtimeRunId := Some(runtimeRunId))), Ack(true)) else (t, Ack(false))
    case Cancel =>
      if owned && !Terminal(t.run.status) then
        var row := t.run.(cancelled := true, status := Cancelled, summary := "cancelled by API request");
        var after := SweepRows(UpdateRun(t, row), tenant, true);
        (after, Shown(Some(LoadRun(after, tenant, id))))
      else (t, Shown(if owned then Some(LoadRun(t, tenant, id)) else None))
    case Start =>
      if Live(t, tenant) && t.run.status == Queued
      then (UpdateRun(t, t.run.(status := Running, summary := "execution running")), Ack(true)) else (t, Ack(false))
    case StartStep(position) =>
      if HasStep(t, tenant, position) && Live(t, tenant) && t.steps[position].step.status in {Queued, Failed}
      then
        if t.steps[position].step.attempts >= SMALLINT_MAX then (t, Raised)
        else (UpdateStep(t, position, StartedStep(t.steps[position].step)), Ack(true))
      else (t, Ack(false))
    case SucceedStep(position, output, usage) =>
      if output == "" && !HasStep(t, tenant, position) then (t, Raised)
      else if HasStep(t, tenant, position) && Live(t, tenant)
      then
        if !UsageFits(usage) then (t, Raised)
        else (UpdateStep(t, position, SucceededStep(t.steps[position].step, output, usage)), Ack(true))
      else (t, Ack(false))
    case FailStep(position, error) =>
      if HasStep(t, tenant, position) && Live(t, tenant)
      then (UpdateStep(t, position, FailedStep(t.steps[position].step, error)), Ack(true)) else (t, Ack(false))
    case Succeed =>
      if Live(t, tenant) && t.run.status == Running
      then (UpdateRun(t, t.run.(status := Succeeded, summary := "execution completed")), Ack(true)) else (t, Ack(false))
    case Fail(error) =>
      if Live(t, tenant) && t.run.status == Running
      then (SweepRows(UpdateRun(t, t.run.(status := Failed, summary := error)), tenant, false), Ack(true))
      else (t, Ack(false))
  }

  ghost function PgApply(db: Db, call: Call): (Db, Reply) {
    match call
    case On(tenant, id, op) =>
      if id in db.runs
      then var (t, reply) := PgOn(db.runs[id], tenant, id, op); (db.(runs := db.runs[id := t]), reply)
      else (db, if op.SucceedStep? && op.output == "" then Raised else Missing(op))
    case Submit(tenant, task, project, key, raws, newId) =>
      if (tenant, key) in db.byKey then
        var loaded := Load(db, tenant, db.byKey[(tenant, key)]);
        (db, if loaded.Some? then Submitted(loaded.value, false) else Raised)
      else if newId in db.runs || !StepsFit(NewSteps(raws)) then (db, Raised)
      else
        var t := InsertedRun(tenant, task, project, key, NewSteps(raws));
        (Db(db.runs[newId := t], db.byKey[(tenant, key) := newId]), Submitted(LoadRun(t, tenant, newId), true))
  }

  /** A call with the id as the client spelled it. */
  ghost function PgReceive(db: Db, uuids: Uuids, call: Call): (Db, Reply) {
    match call
    case On(tenant, id, op) => if id in uuids then PgApply(db, On(tenant, uuids[id], op)) else (db, Raised)
    case Submit(_, _, _, _, _, _) => PgApply(db, call)
  }

  // ---------- how tables represent a ledger ----------

  ghost predicate RowMatches(row: RunRow, record: Record) {
    && row.tenant == record.tenant && row.project == record.project && row.task == record.task
    && row.status == record.status && row.summary == record.summary
    && row.cancelled == record.cancelled && row.runtimeRunId == record.runtimeRunId
  }

  ghost predicate RunRepresented(t: RunTables, id: RunId, record: Record) {
    && record.id == id && RowMatches(t.run, record)
    && (forall p :: p in t.steps <==> 0 <= p < |record.steps|)
    && forall p :: 0 <= p < |record.steps| ==> t.steps[p] == StepRow(record.tenant, record.steps[p])
  }

  /** The key column of a run is the one the unique index finds it by. */
  ghost predicate KeyColumn(db: Db, id: RunId)
    requires id in db.runs
  {
    var key := (db.runs[id].run.tenant, db.runs[id].run.key);
    key in db.byKey && db.byKey[key] == id
  }

  ghost predicate Represents(db: Db, mem: Mem) {
    && db.byKey == mem.idempotency
    && db.runs.Keys == mem.runs.Keys
    && (forall id {:trigger RunRepresented(db.runs[id], id, mem.runs[id])} ::
          id in mem.runs ==> RunRepresented(db.runs[id], id, mem.runs[id]))
    && KeysLead(mem)
    && (forall id {:trigger KeyColumn(db, id)} :: id in db.runs ==> KeyColumn(db, id))
  }

  lemma {:induction false} AscendingRange(s: set<nat>, lo: nat, n: nat)
    requires lo <= n && forall p: nat :: p in s <==> lo <= p < n
    ensures |Ascending(s)| == n - lo && forall i :: 0 <= i < n - lo ==> Ascending(s)[i] == lo + i
    decreases n - lo
  {
    if lo < n {
      assert lo in s;
      MinExists(s);
      assert forall m :: IsMin(m, s) ==> m == lo;
      AscendingRange(s - {lo}, lo + 1, n);
    } else {
      assert s == {};
    }
  }

  lemma LoadAgrees(t: RunTables, id: RunId, record: Record)
    requires RunRepresented(t, id, record)
    ensures LoadRun(t, record.tenant, id) == SnapshotOf(record)
  {
    var positions := set p | p in t.steps && t.steps[p].tenant == record.tenant;
    AscendingRange(positions, 0, |record.steps|);
    assert SelectSteps(t, record.tenant) == record.steps;
  }
}
