/** The two stores side by side: exactly when one call on one run gets the same
    answer from both, and that agreeing calls keep the tables in step. */
module Simulation {
  import opened Wrappers
  import opened Ledger
  import opened Database

  /** An attempt too many for its column. */
  predicate AttemptsRefused(record: Record, op: Op)
    requires op.StartStep?
  {
    && !record.cancelled && op.position < |record.steps| && record.steps[op.position].status in {Queued, Failed}
    && record.steps[op.position].attempts >= SMALLINT_MAX
  }

  /** Usage numbers that do not fit their columns. */
  predicate UsageRefused(record: Record, op: Op)
    requires op.SucceedStep?
  {
    !record.cancelled && op.position < |record.steps| && !UsageFits(op.usage)
  }

  /** The condition, on the record alone, under which the stores answer alike. The
      in-memory guards look at the cancelled flag only, the SQL ones at the status
      too; the SQL reads turn empty text into None; a bad step position raises in
      different situations; and the SQL columns refuse some numbers. */
  predicate GuardsAgree(record: Record, op: Op) {
    match op
    case Get | Cancel | SetRuntimeRunId(_) => true
    case RuntimeRunId => record.runtimeRunId != Some("")
    case ProjectId => record.project != Some("")
    case Start => record.cancelled || record.status == Queued
    case Succeed | Fail(_) => record.cancelled || record.status == Running
    case StartStep(position) => record.cancelled || (position < |record.steps| && !AttemptsRefused(record, op))
    case FailStep(position, _) => record.cancelled || position < |record.steps|
    case SucceedStep(position, output, _) =>
      if position < |record.steps| then !UsageRefused(record, op) else record.cancelled <==> output != ""
  }

  predicate NumbersRefused(record: Record, op: Op) {
    if op.StartStep? then AttemptsRefused(record, op) else op.SucceedStep? && UsageRefused(record, op)
  }

  ghost predicate AgreeIff(t: RunTables, id: RunId, record: Record, op: Op) {
    && (PgOn(t, record.tenant, id, op).1 == Apply(record, op).1 <==> GuardsAgree(record, op))
    && (PgOn(t, record.tenant, id, op).1.Raised? ==> PgOn(t, record.tenant, id, op).0 == t)
    && (GuardsAgree(record, op) ==> RunRepresented(PgOn(t, record.tenant, id, op).0, id, Apply(record, op).0))
  }

  /** The sweep of the rows is the sweep of the steps. */
  lemma SweepIsRepresented(t: RunTables, id: RunId, record: Record, running: bool)
    requires RunRepresented(t, id, record)
    ensures RunRepresented(SweepRows(t, record.tenant, running), id, record.(steps := Sweep(record.steps, running)))
  {
  }

  lemma CancelAgrees(t: RunTables, id: RunId, record: Record)
    requires RunRepresented(t, id, record)
    ensures AgreeIff(t, id, record, Cancel)
  {
    LoadAgrees(t, id, record);
    if !Terminal(record.status) {
      var row := t.run.(cancelled := true, status := Cancelled, summary := "cancelled by API request");
      var marked := record.(cancelled := true, status := Cancelled, summary := "cancelled by API request");
      SweepIsRepresented(UpdateRun(t, row), id, marked, true);
      LoadAgrees(SweepRows(UpdateRun(t, row), record.tenant, true), id, CancelRecord(record));
    }
    hide SweepRows;
    hide Sweep;
    hide LoadRun;
  }

  lemma FailAgrees(t: RunTables, id: RunId, record: Record, error: string)
    requires RunRepresented(t, id, record)
    ensures AgreeIff(t, id, record, Fail(error))
  {
    var row, marked := t.run.(status := Failed, summary := error), record.(status := Failed, summary := error);
    SweepIsRepresented(UpdateRun(t, row), id, marked, false);
    hide SweepRows;
    hide Sweep;
  }

  lemma StepsAgree(t: RunTables, id: RunId, record: Record, op: Op)
    requires RunRepresented(t, id, record) && (op.StartStep? || op.SucceedStep? || op.FailStep?)
    ensures AgreeIff(t, id, record, op)
  {
    assert HasStep(t, record.tenant, op.position) <==> op.position < |record.steps|;
  }

  /** On the rows of a run its tenant owns, the two stores give the same answer if
      and only if the guards agree, and then the rows still represent the record. */
  lemma RunAgreesIff(t: RunTables, id: RunId, record: Record, op: Op)
    requires RunRepresented(t, id, record)
    ensures AgreeIff(t, id, record, op)
  {
    match op
    case Cancel => CancelAgrees(t, id, record);
    case Fail(error) => FailAgrees(t, id, record, error);
    case StartStep(_) => StepsAgree(t, id, record, op);
    case SucceedStep(_, _, _) => StepsAgree(t, id, record, op);
    case FailStep(_, _) => StepsAgree(t, id, record, op);
    case _ => LoadAgrees(t, id, record);
  }

  ghost predicate SameReply(db: Db, mem: Mem, call: Call) {
    PgApply(db, call).1 == MemApply(mem, call).1
  }

  ghost predicate StillRepresents(db: Db, mem: Mem, call: Call) {
    Represents(PgApply(db, call).0, MemApply(mem, call).0)
  }

  lemma PgOnKeepsKey(t: RunTables, tenant: Tenant, id: RunId, op: Op)
    ensures PgOn(t, tenant, id, op).0.run.key == t.run.key
  {
  }

  lemma RunReplaced(db: Db, mem: Mem, id: RunId, t: RunTables, record: Record)
    requires Represents(db, mem) && id in mem.runs
    requires RunRepresented(t, id, record) && record.tenant == mem.runs[id].tenant && t.run.key == db.runs[id].run.key
    ensures Represents(db.(runs := db.runs[id := t]), mem.(runs := mem.runs[id := record]))
  {
    var db', mem' := db.(runs := db.runs[id := t]), mem.(runs := mem.runs[id := record]);
    forall other | other in mem'.runs ensures RunRepresented(db'.runs[other], other, mem'.runs[other]) {
      if other != id { assert RunRepresented(db.runs[other], other, mem.runs[other]); }
    }
    assert RunRepresented(db.runs[id], id, mem.runs[id]);
    forall other | other in db'.runs ensures KeyColumn(db', other) { assert KeyColumn(db, other); }
  }

  lemma OwnedAgreesIff(db: Db, mem: Mem, tenant: Tenant, id: RunId, op: Op)
    requires Represents(db, mem) && Owns(mem.runs, tenant, id)
    ensures SameReply(db, mem, On(tenant, id, op)) <==> GuardsAgree(mem.runs[id], op)
    ensures GuardsAgree(mem.runs[id], op) ==> StillRepresents(db, mem, On(tenant, id, op))
    ensures PgApply(db, On(tenant, id, op)).1.Raised? ==> PgApply(db, On(tenant, id, op)).0 == db
  {
    assert RunRepresented(db.runs[id], id, mem.runs[id]);
    RunAgreesIff(db.runs[id], id, mem.runs[id], op);
    ApplyKeepsIdentity(mem.runs[id], op);
    assert db.runs[id := db.runs[id]] == db.runs;
    if GuardsAgree(mem.runs[id], op) {
      PgOnKeepsKey(db.runs[id], tenant, id, op);
      RunReplaced(db, mem, id, PgOn(db.runs[id], tenant, id, op).0, Apply(mem.runs[id], op).0);
    }
  }

  lemma UnknownAgreesIff(db: Db, mem: Mem, tenant: Tenant, id: RunId, op: Op)
    requires Represents(db, mem) && !Owns(mem.runs, tenant, id)
    ensures PgApply(db, On(tenant, id, op)).0 == db && MemApply(mem, On(tenant, id, op)) == (mem, Missing(op))
    ensures SameReply(db, mem, On(tenant, id, op)) <==> !(op.SucceedStep? && op.output == "")
  {
    if id in mem.runs {
      assert RunRepresented(db.runs[id], id, mem.runs[id]);
      assert db.runs[id := db.runs[id]] == db.runs;
    }
  }

  /** On a run the tenant does not own, however its id is spelled, nothing changes. The
      answers agree if and only if the id is a uuid, and the SQL store does not raise
      while looking up a mock output. */
  lemma NotOwnedAgreesIff(db: Db, uuids: Uuids, mem: Mem, tenant: Tenant, id: RunId, op: Op)
    requires Represents(db, mem) && !Owns(mem.runs, tenant, id)
    requires id in uuids ==> !Owns(mem.runs, tenant, uuids[id])
    ensures PgReceive(db, uuids, On(tenant, id, op)).0 == db && MemApply(mem, On(tenant, id, op)).0 == mem
    ensures PgReceive(db, uuids, On(tenant, id, op)).1 == MemApply(mem, On(tenant, id, op)).1 <==>
      id in uuids && !(op.SucceedStep? && op.output == "")
  {
    UnknownAgreesIff(db, mem, tenant, id, op);
    if id in uuids { UnknownAgreesIff(db, mem, tenant, uuids[id], op); }
  }

  lemma RunInserted(db: Db, mem: Mem, key: (Tenant, Key), newId: RunId, t: RunTables, record: Record)
    requires Represents(db, mem) && newId != "" && newId !in mem.runs && key !in mem.idempotency
    requires RunRepresented(t, newId, record) && (record.tenant, t.run.key) == key
    ensures Represents(Db(db.runs[newId := t], db.byKey[key := newId]), Mem(mem.runs[newId := record], mem.idempotency[key := newId]))
  {
    var db', mem' := Db(db.runs[newId := t], db.byKey[key := newId]), Mem(mem.runs[newId := record], mem.idempotency[key := newId]);
    forall id | id in mem'.runs ensures RunRepresented(db'.runs[id], id, mem'.runs[id]) {
      if id != newId { assert RunRepresented(db.runs[id], id, mem.runs[id]); }
    }
    forall id | id in db'.runs ensures KeyColumn(db', id) {
      if id != newId { assert KeyColumn(db, id); }
    }
    forall k | k in mem'.idempotency ensures mem'.idempotency[k] != "" && Owns(mem'.runs, k.0, mem'.idempotency[k]) {
      if k != key { assert Owns(mem.runs, k.0, mem.idempotency[k]); }
    }
  }

  lemma NewRunAgrees(db: Db, mem: Mem, call: Call)
    requires Represents(db, mem) && call.Submit? && call.newId != "" && call.newId !in mem.runs
    requires (call.tenant, call.key) !in mem.idempotency && StepsFit(NewSteps(call.raws))
    ensures SameReply(db, mem, call) && StillRepresents(db, mem, call)
  {
    var Submit(tenant, task, project, key, raws, newId) := call;
    var t := InsertedRun(tenant, task, project, key, NewSteps(raws));
    var record := NewRecord(newId, tenant, project, task, NewSteps(raws));
    assert RunRepresented(t, newId, record);
    LoadAgrees(t, newId, record);
    RunInserted(db, mem, (tenant, key), newId, t, record);
  }

  /** Submissions with an unused identifier are answered alike if and only if the key was
      used before or the new rows fit their columns. */
  lemma SubmitAgreesIff(db: Db, mem: Mem, call: Call)
    requires Represents(db, mem) && call.Submit? && call.newId != "" && call.newId !in mem.runs
    ensures var agree := (call.tenant, call.key) in mem.idempotency || StepsFit(NewSteps(call.raws));
      && (SameReply(db, mem, call) <==> agree)
      && (if agree then StillRepresents(db, mem, call) else PgApply(db, call).0 == db)
  {
    var Submit(tenant, task, project, key, raws, newId) := call;
    if (tenant, key) in mem.idempotency {
      var id := mem.idempotency[(tenant, key)];
      assert RunRepresented(db.runs[id], id, mem.runs[id]);
      LoadAgrees(db.runs[id], id, mem.runs[id]);
    } else if StepsFit(NewSteps(raws)) {
      NewRunAgrees(db, mem, call);
    }
  }
}
