/** `PostgresRunStore`: the two tables and the unique index, changed row by row by the
    statements each method issues in its transaction. Each method is proved against
    `PgApply`, which sees the rows of one run together; ids are as PostgreSQL has read
    them from the caller's text. */
module PostgresStore {
  import opened Wrappers
  import opened Ledger
  import opened Database
  import MemoryStore

  /** The step rows of one run. */
  function StepsOf(steps: map<(RunId, nat), StepRow>, id: RunId): map<nat, StepRow> {
    map q | q in steps && q.0 == id :: q.1 := steps[q]
  }

  function Grouped(runs: map<RunId, RunRow>, steps: map<(RunId, nat), StepRow>): map<RunId, RunTables> {
    map id | id in runs :: RunTables(runs[id], StepsOf(steps, id))
  }

  /** Inserting one more row of a run whose first rows are there. */
  lemma StepsOfInsert(steps: map<(RunId, nat), StepRow>, id: RunId, rows: seq<StepRow>, position: nat)
    requires position < |rows| && StepsOf(steps, id) == map p: nat | p < position :: rows[p]
    ensures StepsOf(steps[(id, position) := rows[position]], id) == map p: nat | p < position + 1 :: rows[p]
    ensures forall other :: other != id ==> StepsOf(steps[(id, position) := rows[position]], other) == StepsOf(steps, other)
  {
    forall other ensures StepsOf(steps[(id, position) := rows[position]], other) ==
      if other == id then StepsOf(steps, id)[position := rows[position]] else StepsOf(steps, other)
    {
    }
    hide StepsOf;
  }

  /** An update of one run row is an update of its group. */
  lemma GroupRunUpdate(runs: map<RunId, RunRow>, steps: map<(RunId, nat), StepRow>, id: RunId, row: RunRow)
    requires id in runs
    ensures Grouped(runs[id := row], steps) == Grouped(runs, steps)[id := UpdateRun(Grouped(runs, steps)[id], row)]
  {
  }

  lemma GroupStepUpdate(runs: map<RunId, RunRow>, steps: map<(RunId, nat), StepRow>, id: RunId, position: nat, row: StepRow)
    requires id in runs && (id, position) in steps
    ensures position in Grouped(runs, steps)[id].steps && Grouped(runs, steps)[id].steps[position] == steps[(id, position)]
    ensures Grouped(runs, steps[(id, position) := row]) ==
      Grouped(runs, steps)[id := RunTables(runs[id], Grouped(runs, steps)[id].steps[position := row])]
  {
    forall other | other in runs
      ensures StepsOf(steps[(id, position) := row], other) ==
        if other == id then StepsOf(steps, id)[position := row] else StepsOf(steps, other)
    {
    }
    assert (id, position) in steps;
  }

  /** UPDATE agent_run_steps SET status = 'cancelled' WHERE run_id, tenant_id and status match. */
  function SweepTable(steps: map<(RunId, nat), StepRow>, tenant: Tenant, id: RunId, running: bool): map<(RunId, nat), StepRow> {
    map q | q in steps :: if q.0 == id && steps[q].tenant == tenant then steps[q].(step := SweepStep(steps[q].step, running)) else steps[q]
  }

  lemma StepsOfAt(steps: map<(RunId, nat), StepRow>, id: RunId)
    ensures forall p: nat :: p in StepsOf(steps, id) <==> (id, p) in steps
    ensures forall p: nat :: p in StepsOf(steps, id) ==> StepsOf(steps, id)[p] == steps[(id, p)]
  {
    forall p: nat ensures p in StepsOf(steps, id) <==> (id, p) in steps {
      if (id, p) in steps { assert (id, p).0 == id && (id, p).1 == p; }
    }
  }

  lemma StepsOfSweep(steps: map<(RunId, nat), StepRow>, tenant: Tenant, id: RunId, running: bool, other: RunId)
    ensures StepsOf(SweepTable(steps, tenant, id, running), other) ==
      if other == id then SweepRows(RunTables(RunRow("", None, "", "", Queued, "", false, None), StepsOf(steps, id)), tenant, running).steps
      else StepsOf(steps, other)
  {
    StepsOfAt(steps, other);
    StepsOfAt(SweepTable(steps, tenant, id, running), other);
    hide StepsOf;
    hide SweepStep;
  }

  lemma GroupSweep(runs: map<RunId, RunRow>, steps: map<(RunId, nat), StepRow>, tenant: Tenant, id: RunId, running: bool)
    requires id in runs
    ensures Grouped(runs, SweepTable(steps, tenant, id, running)) ==
      Grouped(runs, steps)[id := SweepRows(Grouped(runs, steps)[id], tenant, running)]
  {
    forall other | other in runs
      ensures StepsOf(SweepTable(steps, tenant, id, running), other) ==
        if other == id then SweepRows(Grouped(runs, steps)[id], tenant, running).steps else StepsOf(steps, other)
    {
      StepsOfSweep(steps, tenant, id, running, other);
    }
    hide SweepTable;
    hide StepsOf;
  }

  lemma GroupRunAndSweep(runs: map<RunId, RunRow>, steps: map<(RunId, nat), StepRow>, tenant: Tenant, id: RunId, row: RunRow, running: bool)
    requires id in runs
    ensures SweepTable(steps, tenant, id, running).Keys == steps.Keys
    ensures SweepRows(UpdateRun(Grouped(runs, steps)[id], row), tenant, running).run == row
    ensures Grouped(runs[id := row], SweepTable(steps, tenant, id, running)) ==
      Grouped(runs, steps)[id := SweepRows(UpdateRun(Grouped(runs, steps)[id], row), tenant, running)]
  {
    GroupRunUpdate(runs, steps, id, row);
    GroupSweep(runs[id := row], steps, tenant, id, running);
    assert Grouped(runs, steps).Keys == runs.Keys;
    hide Grouped;
    hide SweepRows;
  }

  lemma GroupInsert(runs: map<RunId, RunRow>, steps: map<(RunId, nat), StepRow>, steps': map<(RunId, nat), StepRow>, id: RunId, row: RunRow)
    requires id !in runs && forall other :: other != id ==> StepsOf(steps', other) == StepsOf(steps, other)
    ensures Grouped(runs[id := row], steps') == Grouped(runs, steps)[id := RunTables(row, StepsOf(steps', id))]
  {
    hide StepsOf;
  }

  lemma GroupUnchanged(groups: map<RunId, RunTables>, id: RunId)
    requires id in groups
    ensures groups[id := groups[id]] == groups
  {
  }

  /** What a method needs to know of the grouped tables. */
  lemma Regroup(runs: map<RunId, RunRow>, steps: map<(RunId, nat), StepRow>, id: RunId)
    ensures Grouped(runs, steps).Keys == runs.Keys
    ensures id in runs ==> Grouped(runs, steps)[id] == RunTables(runs[id], StepsOf(steps, id))
    ensures id in runs ==> Grouped(runs, steps)[id := Grouped(runs, steps)[id]] == Grouped(runs, steps)
    ensures forall p: nat :: p in StepsOf(steps, id) <==> (id, p) in steps
    ensures forall p: nat :: p in StepsOf(steps, id) ==> StepsOf(steps, id)[p] == steps[(id, p)]
  {
    StepsOfAt(steps, id);
    hide StepsOf;
    if id in runs { GroupUnchanged(Grouped(runs, steps), id); }
  }

  class PostgresRunStore {
    var runs: map<RunId, RunRow>
    var steps: map<(RunId, nat), StepRow>
    var byKey: map<(Tenant, Key), RunId>

    ghost function State(): Db
      reads this
    {
      Db(Grouped(runs, steps), byKey)
    }

    /** Step rows reference a run. */
    ghost predicate Valid()
      reads this
    {
      forall q :: q in steps ==> q.0 in runs
    }

    constructor ()
      ensures Valid() && State() == Db(map[], map[])
    {
      runs, steps, byKey := map[], map[], map[];
    }

    // ---------- queries ----------

    /** SELECT position ... ORDER BY position. */
    method OrderedPositions(positions: set<nat>) returns (ordered: seq<nat>)
      ensures ordered == Ascending(positions)
    {
      ordered := [];
      var remaining := positions;
      while remaining != {}
        invariant Ascending(positions) == ordered + Ascending(remaining)
        decreases |remaining|
      {
        MinExists(remaining);
        ghost var least :| IsMin(least, remaining);
        assert least in remaining && forall x :: x in remaining ==> least <= x;
        var m :| m in remaining && forall x :: x in remaining ==> m <= x;
        ordered := ordered + [m];
        remaining := remaining - {m};
      }
    }

    /** `_load`. */
    method LoadSnapshot(tenant: Tenant, id: RunId) returns (snapshot: Option<Snapshot>)
      ensures snapshot == Load(State(), tenant, id)
    {
      if id !in runs || runs[id].tenant != tenant { return None; }
      var own := StepsOf(steps, id);
      var positions := OrderedPositions(set p | p in own && own[p].tenant == tenant);
      var rows := seq(|positions|, i requires 0 <= i < |positions| =>
        if positions[i] in own then own[positions[i]].step else NewStep(Spec("", "", "", [], 0, "", 0)));
      snapshot := Some(Snapshot(id, runs[id].status, runs[id].summary, rows));
    }

    method GetRun(tenant: Tenant, id: RunId) returns (snapshot: Option<Snapshot>)
      ensures (State(), Shown(snapshot)) == PgApply(State(), On(tenant, id, Get))
    {
      snapshot := LoadSnapshot(tenant, id);
      hide LoadRun;
      if id in runs { GroupUnchanged(Grouped(runs, steps), id); }
    }

    method RuntimeRunIdOf(tenant: Tenant, id: RunId) returns (text: Option<string>)
      ensures (State(), Text(text)) == PgApply(State(), On(tenant, id, RuntimeRunId))
    {
      Regroup(runs, steps, id);
      hide Grouped;
      hide StepsOf;
      if id !in runs || runs[id].tenant != tenant { return None; }
      text := if runs[id].runtimeRunId == Some("") then None else runs[id].runtimeRunId;
    }

    method ProjectIdOf(tenant: Tenant, id: RunId) returns (text: Option<string>)
      ensures (State(), Text(text)) == PgApply(State(), On(tenant, id, ProjectId))
    {
      Regroup(runs, steps, id);
      hide Grouped;
      hide StepsOf;
      if id !in runs || runs[id].tenant != tenant { return None; }
      text := if runs[id].project == Some("") then None else runs[id].project;
    }

    // ---------- submission ----------

    /** The rows `executemany` inserts for a new run. */
    method InsertSteps(id: RunId, rows: seq<StepRow>)
      requires id in runs && Valid() && forall p :: (id, p) !in steps
      modifies this`steps
      ensures Valid()
      ensures forall other :: other != id ==> StepsOf(steps, other) == StepsOf(old(steps), other)
      ensures StepsOf(steps, id) == map p: nat | p < |rows| :: rows[p]
    {
      assert StepsOf(steps, id) == map[];
      hide StepsOf;
      for position := 0 to |rows|
        invariant Valid()
        invariant forall other :: other != id ==> StepsOf(steps, other) == StepsOf(old(steps), other)
        invariant StepsOf(steps, id) == map p: nat | p < position :: rows[p]
      {
        StepsOfInsert(steps, id, rows, position);
        steps := steps[(id, position) := rows[position]];
      }
    }

    /** The column checks of the rows about to be inserted; one refused row rolls the
        whole transaction back. */
    method RowsFit(specs: seq<Spec>) returns (fit: bool)
      ensures fit <==> |specs| <= SMALLINT_MAX + 1 && forall p :: 0 <= p < |specs| ==> specs[p].maxRetries <= 5 && Fits(specs[p].maxTokens)
    {
      fit := |specs| <= SMALLINT_MAX + 1;
      for p := 0 to |specs|
        invariant fit <==> |specs| <= SMALLINT_MAX + 1 && forall q :: 0 <= q < p ==> specs[q].maxRetries <= 5 && Fits(specs[q].maxTokens)
      {
        if specs[p].maxRetries > 5 || specs[p].maxTokens > INTEGER_MAX { fit := false; }
      }
    }

    method InsertRun(tenant: Tenant, task: string, project: Option<string>, key: Key, id: RunId, specs: seq<Spec>)
      requires Valid() && id !in runs
      modifies this
      ensures Valid() && byKey == old(byKey)[(tenant, key) := id]
      ensures Grouped(runs, steps) == old(Grouped(runs, steps))[id :=
        RunTables(RunRow(tenant, project, key, task, Queued, "queued for execution", false, None),
                  map p: nat | p < |specs| :: StepRow(tenant, NewStep(specs[p])))]
    {
      var rows := seq(|specs|, p requires 0 <= p < |specs| => StepRow(tenant, NewStep(specs[p])));
      hide Grouped;
      hide StepsOf;
      assert forall p :: (id, p) !in steps;
      var row := RunRow(tenant, project, key, task, Queued, "queued for execution", false, None);
      runs := runs[id := row];
      byKey := byKey[(tenant, key) := id];
      InsertSteps(id, rows);
      GroupInsert(old(runs), old(steps), steps, id, row);
      assert StepsOf(steps, id) == map p: nat | p < |specs| :: StepRow(tenant, NewStep(specs[p]));
    }

    method SubmitRun(tenant: Tenant, task: string, project: Option<string>, key: Key, raws: seq<RawSpec>, newId: RunId) returns (reply: Reply)
      requires Valid()
      modifies this
      ensures Valid()
      ensures (State(), reply) == PgApply(old(State()), Submit(tenant, task, project, key, raws, newId))
    {
      var specs := MemoryStore.NormalizeStepSpecs(raws);
      Regroup(runs, steps, newId);
      hide LoadRun;
      hide Grouped;
      hide StepsOf;
      if (tenant, key) in byKey {
        var existing := LoadSnapshot(tenant, byKey[(tenant, key)]);
        return if existing.Some? then Submitted(existing.value, false) else Raised;
      }
      if newId in runs { return Raised; }
      var fit := RowsFit(specs);
      if !fit { return Raised; }
      InsertRun(tenant, task, project, key, newId, specs);
      assert (map p: nat | p < |specs| :: StepRow(tenant, NewStep(specs[p]))) == InsertedRun(tenant, task, project, key, NewSteps(raws)).steps;
      var loaded := LoadSnapshot(tenant, newId);
      reply := Submitted(loaded.value, true);
    }

    // ---------- updates of a run ----------

    method SetRuntimeRun(tenant: Tenant, id: RunId, runtimeRunId: string) returns (ok: bool)
      requires Valid()
      modifies this`runs
      ensures Valid() && (State(), Ack(ok)) == PgApply(old(State()), On(tenant, id, SetRuntimeRunId(runtimeRunId)))
    {
      Regroup(runs, steps, id);
      hide Grouped;
      hide StepsOf;
      ok := id in runs && runs[id].tenant == tenant && !runs[id].cancelled;
      if ok {
        GroupRunUpdate(runs, steps, id, runs[id].(runtimeRunId := Some(runtimeRunId)));
        runs := runs[id := runs[id].(runtimeRunId := Some(runtimeRunId))];
      }
    }

    method CancelRun(tenant: Tenant, id: RunId) returns (snapshot: Option<Snapshot>)
      requires Valid()
      modifies this`runs, this`steps
      ensures Valid() && (State(), Shown(snapshot)) == PgApply(old(State()), On(tenant, id, Cancel))
    {
      hide LoadRun;
      hide SweepRows;
      Regroup(runs, steps, id);
      hide Grouped;
      hide StepsOf;
      if id in runs && runs[id].tenant == tenant && runs[id].status !in {Succeeded, Failed, Cancelled} {
        var row := runs[id].(cancelled := true, status := Cancelled, summary := "cancelled by API request");
        GroupRunAndSweep(runs, steps, tenant, id, row, true);
        runs := runs[id := row];
        steps := SweepTable(steps, tenant, id, true);
      }
      snapshot := LoadSnapshot(tenant, id);
    }

    /** `_update_run`, which only `start` calls. */
    method StartRun(tenant: Tenant, id: RunId) returns (ok: bool)
      requires Valid()
      modifies this`runs
      ensures Valid() && (State(), Ack(ok)) == PgApply(old(State()), On(tenant, id, Start))
    {
      Regroup(runs, steps, id);
      hide Grouped;
      hide StepsOf;
      ok := id in runs && runs[id].tenant == tenant && !runs[id].cancelled && runs[id].status == Queued;
      if ok {
        GroupRunUpdate(runs, steps, id, runs[id].(status := Running, summary := "execution running"));
        runs := runs[id := runs[id].(status := Running, summary := "execution running")];
      }
    }

    method SucceedRun(tenant: Tenant, id: RunId) returns (ok: bool)
      requires Valid()
      modifies this`runs
      ensures Valid() && (State(), Ack(ok)) == PgApply(old(State()), On(tenant, id, Succeed))
    {
      Regroup(runs, steps, id);
      hide Grouped;
      hide StepsOf;
      ok := id in runs && runs[id].tenant == tenant && !runs[id].cancelled && runs[id].status == Running;
      if ok {
        GroupRunUpdate(runs, steps, id, runs[id].(status := Succeeded, summary := "execution completed"));
        runs := runs[id := runs[id].(status := Succeeded, summary := "execution completed")];
      }
    }

    method FailRun(tenant: Tenant, id: RunId, error: string) returns (ok: bool)
      requires Valid()
      modifies this`runs, this`steps
      ensures Valid() && (State(), Ack(ok)) == PgApply(old(State()), On(tenant, id, Fail(error)))
    {
      hide SweepRows;
      Regroup(runs, steps, id);
      hide Grouped;
      hide StepsOf;
      ok := id in runs && runs[id].tenant == tenant && !runs[id].cancelled && runs[id].status == Running;
      if ok {
        var row := runs[id].(status := Failed, summary := error);
        GroupRunAndSweep(runs, steps, tenant, id, row, false);
        runs := runs[id := row];
        steps := SweepTable(steps, tenant, id, false);
      }
    }

    // ---------- updates of a step ----------

    /** The EXISTS condition the step updates share. */
    predicate RunIsLive(tenant: Tenant, id: RunId)
      reads this
    {
      id in runs && runs[id].tenant == tenant && !runs[id].cancelled
    }

    predicate StepExists(tenant: Tenant, id: RunId, position: nat)
      reads this
    {
      (id, position) in steps && steps[(id, position)].tenant == tenant
    }

    method StartRunStep(tenant: Tenant, id: RunId, position: nat) returns (reply: Reply)
      requires Valid()
      modifies this`steps
      ensures Valid() && (State(), reply) == PgApply(old(State()), On(tenant, id, StartStep(position)))
    {
      Regroup(runs, steps, id);
      hide Grouped;
      hide StepsOf;
      if !StepExists(tenant, id, position) || !RunIsLive(tenant, id) { return Ack(false); }
      var row := steps[(id, position)];
      if row.step.status !in {Queued, Failed} { return Ack(false); }
      row := row.(step := row.step.(status := Running, attempts := row.step.attempts + 1, error := ""));
      if row.step.attempts > SMALLINT_MAX { return Raised; }
      GroupStepUpdate(runs, steps, id, position, row);
      steps := steps[(id, position) := row];
      reply := Ack(true);
    }

    /** Without an output the store first asks for the node's name, and raises when there
        is no such row. */
    method SucceedRunStep(tenant: Tenant, id: RunId, position: nat, output: string, usage: Usage) returns (reply: Reply)
      requires Valid()
      modifies this`steps
      ensures Valid() && (State(), reply) == PgApply(old(State()), On(tenant, id, SucceedStep(position, output, usage)))
    {
      Regroup(runs, steps, id);
      hide Grouped;
      hide StepsOf;
      var text := output;
      if output == "" {
        if !StepExists(tenant, id, position) { return Raised; }
        text := MockOutput(steps[(id, position)].step.spec.nodeId);
      }
      if !StepExists(tenant, id, position) || !RunIsLive(tenant, id) { return Ack(false); }
      if !UsageFits(usage) { return Raised; }
      var row := steps[(id, position)];
      row := row.(step := row.step.(status := Succeeded, output := text, usage := usage));
      GroupStepUpdate(runs, steps, id, position, row);
      steps := steps[(id, position) := row];
      reply := Ack(true);
    }

    method FailRunStep(tenant: Tenant, id: RunId, position: nat, error: string) returns (ok: bool)
      requires Valid()
      modifies this`steps
      ensures Valid() && (State(), Ack(ok)) == PgApply(old(State()), On(tenant, id, FailStep(position, error)))
    {
      Regroup(runs, steps, id);
      hide Grouped;
      hide StepsOf;
      ok := StepExists(tenant, id, position) && RunIsLive(tenant, id);
      if ok {
        var row := steps[(id, position)];
        row := row.(step := row.step.(status := Failed, error := error));
        GroupStepUpdate(runs, steps, id, position, row);
        steps := steps[(id, position) := row];
      }
    }
  }
}
