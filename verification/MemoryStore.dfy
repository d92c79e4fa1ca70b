/** `InMemoryRunStore`: dictionaries changed in place under one lock, so every
    method is one atomic step. Each method is proved against `MemApply`. */
module MemoryStore {
  import opened Wrappers
  import opened Ledger

  /** `_normalize_step_specs`. */
  method NormalizeStepSpecs(raws: seq<RawSpec>) returns (specs: seq<Spec>)
    ensures |specs| == |raws|
    ensures forall i :: 0 <= i < |raws| ==> NewStep(specs[i]) == NewSteps(raws)[i]
  {
    specs := [];
    for i := 0 to |raws|
      invariant |specs| == i
      invariant forall j :: 0 <= j < i ==> specs[j] == NormalizeSpec(raws[j])
    {
      if raws[i].Named? {
        specs := specs + [Spec(raws[i].name, "", "", [], 0, "", 0)];
      } else {
        var raw := raws[i];
        specs := specs + [Spec(raw.nodeId, OrElse(raw.prompt, ""), OrElse(raw.role, ""), OrElse(raw.dependsOn, []),
                               OrElse(raw.maxRetries, 0), OrElse(raw.model, ""), OrElse(raw.maxTokens, 0))];
      }
    }
  }

  /** The loop of `cancel` and `fail` over the steps of a record. */
  method SweepSteps(steps: seq<Step>, running: bool) returns (swept: seq<Step>)
    ensures swept == Sweep(steps, running)
  {
    swept := steps;
    for i := 0 to |steps|
      invariant |swept| == |steps|
      invariant forall j :: 0 <= j < |steps| ==> swept[j] == if j < i then SweepStep(steps[j], running) else steps[j]
    {
      if swept[i].status == Queued || (running && swept[i].status == Running) {
        swept := swept[i := swept[i].(status := Cancelled)];
      }
    }
  }

  class InMemoryRunStore {
    var runs: map<RunId, Record>
    var idempotency: map<(Tenant, Key), RunId>

    ghost function State(): Mem
      reads this
    {
      Mem(runs, idempotency)
    }

    /** Every remembered idempotency key leads to a record. */
    ghost predicate Valid()
      reads this
    {
      forall key :: key in idempotency ==> idempotency[key] in runs
    }

    constructor ()
      ensures Valid() && State() == Mem(map[], map[])
    {
      runs, idempotency := map[], map[];
    }

    method SubmitRun(tenant: Tenant, task: string, project: Option<string>, key: Key, raws: seq<RawSpec>, newId: RunId)
        returns (run: Snapshot, created: bool)
      requires Valid()
      modifies this
      ensures Valid()
      ensures (State(), Submitted(run, created)) == MemApply(old(State()), Submit(tenant, task, project, key, raws, newId))
    {
      var specs := NormalizeStepSpecs(raws);
      if (tenant, key) in idempotency && idempotency[(tenant, key)] != "" {
        return SnapshotOf(runs[idempotency[(tenant, key)]]), false;
      }
      var steps := seq(|specs|, i requires 0 <= i < |specs| => NewStep(specs[i]));
      assert steps == NewSteps(raws);
      var record := Record(newId, tenant, project, task, Queued, "queued for execution", false, None, steps);
      runs := runs[newId := record];
      idempotency := idempotency[(tenant, key) := newId];
      return SnapshotOf(record), true;
    }

    method GetRun(tenant: Tenant, id: RunId) returns (snapshot: Option<Snapshot>)
      ensures (State(), Shown(snapshot)) == MemApply(State(), On(tenant, id, Get))
    {
      if id !in runs || runs[id].tenant != tenant { return None; }
      snapshot := Some(SnapshotOf(runs[id]));
      assert runs[id := runs[id]] == runs;
    }

    method RuntimeRunIdOf(tenant: Tenant, id: RunId) returns (text: Option<string>)
      ensures (State(), Text(text)) == MemApply(State(), On(tenant, id, RuntimeRunId))
    {
      if id !in runs || runs[id].tenant != tenant { return None; }
      text := runs[id].runtimeRunId;
      assert runs[id := runs[id]] == runs;
    }

    method ProjectIdOf(tenant: Tenant, id: RunId) returns (text: Option<string>)
      ensures (State(), Text(text)) == MemApply(State(), On(tenant, id, ProjectId))
    {
      if id !in runs || runs[id].tenant != tenant { return None; }
      text := runs[id].project;
      assert runs[id := runs[id]] == runs;
    }

    method SetRuntimeRun(tenant: Tenant, id: RunId, runtimeRunId: string) returns (ok: bool)
      requires Valid()
      modifies this`runs
      ensures Valid() && (State(), Ack(ok)) == MemApply(old(State()), On(tenant, id, SetRuntimeRunId(runtimeRunId)))
    {
      if id !in runs || runs[id].tenant != tenant { return false; }
      assert runs[id := runs[id]] == runs;
      if runs[id].cancelled { return false; }
      runs := runs[id := runs[id].(runtimeRunId := Some(runtimeRunId))];
      ok := true;
    }

    method CancelRun(tenant: Tenant, id: RunId) returns (snapshot: Option<Snapshot>)
      requires Valid()
      modifies this`runs
      ensures Valid() && (State(), Shown(snapshot)) == MemApply(old(State()), On(tenant, id, Cancel))
    {
      if id !in runs || runs[id].tenant != tenant { return None; }
      assert runs[id := runs[id]] == runs;
      var record := runs[id];
      if record.status !in {Succeeded, Failed, Cancelled} {
        var steps := SweepSteps(record.steps, true);
        record := record.(cancelled := true, status := Cancelled, summary := "cancelled by API request", steps := steps);
        runs := runs[id := record];
      }
      snapshot := Some(SnapshotOf(record));
    }

    method StartRun(tenant: Tenant, id: RunId) returns (ok: bool)
      requires Valid()
      modifies this`runs
      ensures Valid() && (State(), Ack(ok)) == MemApply(old(State()), On(tenant, id, Start))
    {
      if id !in runs || runs[id].tenant != tenant { return false; }
      assert runs[id := runs[id]] == runs;
      if runs[id].cancelled { return false; }
      runs := runs[id := runs[id].(status := Running, summary := "execution running")];
      ok := true;
    }

    method StartRunStep(tenant: Tenant, id: RunId, position: nat) returns (reply: Reply)
      requires Valid()
      modifies this`runs
      ensures Valid() && (State(), reply) == MemApply(old(State()), On(tenant, id, StartStep(position)))
    {
      if id !in runs || runs[id].tenant != tenant { return Ack(false); }
      assert runs[id := runs[id]] == runs;
      var record := runs[id];
      if record.cancelled { return Ack(false); }
      if position >= |record.steps| { return Raised; }
      var step := record.steps[position];
      if step.status !in {Queued, Failed} { return Ack(false); }
      step := step.(status := Running, attempts := step.attempts + 1, error := "");
      runs := runs[id := record.(steps := record.steps[position := step])];
      reply := Ack(true);
    }

    method SucceedRunStep(tenant: Tenant, id: RunId, position: nat, output: string, usage: Usage) returns (reply: Reply)
      requires Valid()
      modifies this`runs
      ensures Valid() && (State(), reply) == MemApply(old(State()), On(tenant, id, SucceedStep(position, output, usage)))
    {
      if id !in runs || runs[id].tenant != tenant { return Ack(false); }
      assert runs[id := runs[id]] == runs;
      var record := runs[id];
      if record.cancelled { return Ack(false); }
      if position >= |record.steps| { return Raised; }
      var step := record.steps[position];
      var text := if output == "" then MockOutput(step.spec.nodeId) else output;
      step := step.(status := Succeeded, output := text, usage := usage);
      runs := runs[id := record.(steps := record.steps[position := step])];
      reply := Ack(true);
    }

    method FailRunStep(tenant: Tenant, id: RunId, position: nat, error: string) returns (reply: Reply)
      requires Valid()
      modifies this`runs
      ensures Valid() && (State(), reply) == MemApply(old(State()), On(tenant, id, FailStep(position, error)))
    {
      if id !in runs || runs[id].tenant != tenant { return Ack(false); }
      assert runs[id := runs[id]] == runs;
      var record := runs[id];
      if record.cancelled { return Ack(false); }
      if position >= |record.steps| { return Raised; }
      var step := record.steps[position].(status := Failed, error := error);
      runs := runs[id := record.(steps := record.steps[position := step])];
      reply := Ack(true);
    }

    method SucceedRun(tenant: Tenant, id: RunId) returns (ok: bool)
      requires Valid()
      modifies this`runs
      ensures Valid() && (State(), Ack(ok)) == MemApply(old(State()), On(tenant, id, Succeed))
    {
      if id !in runs || runs[id].tenant != tenant { return false; }
      assert runs[id := runs[id]] == runs;
      if runs[id].cancelled { return false; }
      runs := runs[id := runs[id].(status := Succeeded, summary := "execution completed")];
      ok := true;
    }

    method FailRun(tenant: Tenant, id: RunId, error: string) returns (ok: bool)
      requires Valid()
      modifies this`runs
      ensures Valid() && (State(), Ack(ok)) == MemApply(old(State()), On(tenant, id, Fail(error)))
    {
      if id !in runs || runs[id].tenant != tenant { return false; }
      assert runs[id := runs[id]] == runs;
      var record := runs[id];
      if record.cancelled { return false; }
      var steps := SweepSteps(record.steps, false);
      runs := runs[id := record.(status := Failed, summary := error, steps := steps)];
      ok := true;
    }
  }
}
