/** Tenant non-interference of the PostgreSQL store: every statement filters by tenant,
    as long as the rows of a run's steps carry the tenant of the run. */
module PostgresIsolation {
  import opened Wrappers
  import opened Ledger
  import opened Database
  import opened TenantIsolation

  /** What the tables hold for one tenant. */
  ghost function RowsOf(db: Db, tenant: Tenant): Db {
    Db(map id | id in db.runs && db.runs[id].run.tenant == tenant :: db.runs[id],
       map k | k in db.byKey && k.0 == tenant :: db.byKey[k])
  }

  predicate StepsOwned(t: RunTables) {
    forall p :: p in t.steps ==> t.steps[p].tenant == t.run.tenant
  }

  ghost predicate AllOwned(db: Db) {
    forall id :: id in db.runs ==> StepsOwned(db.runs[id])
  }

  // ---------- the rows of one run ----------

  lemma OwnCallKeepsOwner(t: RunTables, tenant: Tenant, id: RunId, op: Op)
    requires StepsOwned(t)
    ensures StepsOwned(PgOn(t, tenant, id, op).0) && PgOn(t, tenant, id, op).0.run.tenant == t.run.tenant
  {
    hide SelectSteps;
  }

  lemma ForeignCallMisses(t: RunTables, tenant: Tenant, id: RunId, op: Op)
    requires StepsOwned(t) && t.run.tenant != tenant
    ensures PgOn(t, tenant, id, op) == (t, if op.SucceedStep? && op.output == "" then Raised else Missing(op))
  {
    hide SelectSteps;
  }

  // ---------- one call ----------

  lemma RunUpdate(db: Db, tenant: Tenant, id: RunId, t: RunTables)
    requires id in db.runs ==> db.runs[id].run.tenant == t.run.tenant
    ensures RowsOf(db.(runs := db.runs[id := t]), tenant) ==
      if t.run.tenant == tenant then RowsOf(db, tenant).(runs := RowsOf(db, tenant).runs[id := t]) else RowsOf(db, tenant)
  {
  }

  lemma KeyUpdate(db: Db, tenant: Tenant, k: (Tenant, Key), id: RunId)
    ensures RowsOf(db.(byKey := db.byKey[k := id]), tenant) ==
      if k.0 == tenant then RowsOf(db, tenant).(byKey := RowsOf(db, tenant).byKey[k := id]) else RowsOf(db, tenant)
  {
  }

  /** A call on one run. */
  lemma OnSeparates(db: Db, caller: Tenant, id: RunId, op: Op, tenant: Tenant)
    requires AllOwned(db)
    ensures var call := On(caller, id, op);
      var (after, reply) := PgApply(db, call);
      && AllOwned(after) && after.runs.Keys == db.runs.Keys
      && if caller == tenant then (RowsOf(after, tenant), reply) == PgApply(RowsOf(db, tenant), call) else RowsOf(after, tenant) == RowsOf(db, tenant)
  {
    if id in db.runs {
      var t := db.runs[id];
      var after := PgOn(t, caller, id, op).0;
      OwnCallKeepsOwner(t, caller, id, op);
      RunUpdate(db, tenant, id, after);
      if t.run.tenant != caller {
        ForeignCallMisses(t, caller, id, op);
        assert db.runs[id := t] == db.runs;
      }
    }
    hide PgOn;
  }

  lemma NewRowsOwned(tenant: Tenant, task: string, project: Option<string>, key: Key, steps: seq<Step>)
    ensures StepsOwned(InsertedRun(tenant, task, project, key, steps))
  {
  }

  /** A submission. */
  lemma SubmitSeparates(db: Db, call: Call, tenant: Tenant)
    requires AllOwned(db) && call.Submit? && call.newId !in db.runs
    ensures var (after, reply) := PgApply(db, call);
      && AllOwned(after) && after.runs.Keys <= db.runs.Keys + {call.newId}
      && if call.tenant == tenant then (RowsOf(after, tenant), reply) == PgApply(RowsOf(db, tenant), call) else RowsOf(after, tenant) == RowsOf(db, tenant)
  {
    hide LoadRun;
    hide StepsFit;
    var k := (call.tenant, call.key);
    var t := InsertedRun(call.tenant, call.task, call.project, call.key, NewSteps(call.raws));
    NewRowsOwned(call.tenant, call.task, call.project, call.key, NewSteps(call.raws));
    hide InsertedRun;
    if k !in db.byKey && StepsFit(NewSteps(call.raws)) {
      assert t.run.tenant == call.tenant;
      RunUpdate(db, tenant, call.newId, t);
      KeyUpdate(db.(runs := db.runs[call.newId := t]), tenant, k, call.newId);
    }
  }

  /** A call as it arrives, its id in the client's spelling: another tenant's leaves a
      tenant's rows alone, its own depends on and yields its rows only. */
  lemma ReceivedSeparates(db: Db, uuids: Uuids, call: Call, tenant: Tenant)
    requires AllOwned(db) && FreshFor(db.runs.Keys, call)
    ensures var (after, reply) := PgReceive(db, uuids, call);
      && AllOwned(after) && after.runs.Keys <= db.runs.Keys + (if call.Submit? then {call.newId} else {})
      && if call.tenant == tenant then (RowsOf(after, tenant), reply) == PgReceive(RowsOf(db, tenant), uuids, call)
         else RowsOf(after, tenant) == RowsOf(db, tenant)
  {
    if call.Submit? {
      SubmitSeparates(db, call, tenant);
    } else if call.id in uuids {
      OnSeparates(db, call.tenant, uuids[call.id], call.op, tenant);
    }
    hide PgApply;
    hide AllOwned;
    hide RowsOf;
  }

  /** Over PostgreSQL too, deleting every other tenant's calls leaves a tenant's replies
      and rows alone. */
  lemma PostgresNonInterference(db: Db, uuids: Uuids, calls: seq<Call>, tenant: Tenant)
    requires AllOwned(db) && FreshIds(db.runs.Keys, calls)
    ensures var receive := (d: Db, call: Call) => PgReceive(d, uuids, call);
      && |RunAll(receive, db, calls).1| == |calls|
      && RowsOf(RunAll(receive, db, calls).0, tenant) == RunAll(receive, RowsOf(db, tenant), Only(calls, tenant)).0
      && RepliesTo(calls, RunAll(receive, db, calls).1, tenant) == RunAll(receive, RowsOf(db, tenant), Only(calls, tenant)).1
  {
    var receive := (d: Db, call: Call) => PgReceive(d, uuids, call);
    var used: Db -> set<RunId> := (d: Db) => d.runs.Keys;
    hide PgReceive;
    hide AllOwned;
    hide RowsOf;
    forall d: Db, call: Call | AllOwned(d) && FreshFor(d.runs.Keys, call)
      ensures AllOwned(receive(d, call).0)
      ensures receive(d, call).0.runs.Keys <= d.runs.Keys + (if call.Submit? then {call.newId} else {})
      ensures forall t :: if call.tenant == t
        then receive(d, call).1 == receive(RowsOf(d, t), call).1 && RowsOf(receive(d, call).0, t) == receive(RowsOf(d, t), call).0
        else RowsOf(receive(d, call).0, t) == RowsOf(d, t)
    {
      ReceivedSeparates(d, uuids, call, call.tenant);
      forall t { ReceivedSeparates(d, uuids, call, t); }
    }
    assert Separates(receive, RowsOf, used, AllOwned);
    SeparateRuns(receive, RowsOf, used, AllOwned, db, calls, tenant);
  }

  /** Tables that represent a ledger are like that. */
  lemma RepresentedIsOwned(db: Db, mem: Mem)
    requires Represents(db, mem)
    ensures AllOwned(db)
  {
    forall id | id in db.runs ensures StepsOwned(db.runs[id]) {
      assert RunRepresented(db.runs[id], id, mem.runs[id]);
    }
  }
}
