/** Invariants of the whole system over every interleaving, and what they promise
    for every run of it. */
module ProtocolSafety {
  import opened Wrappers
  import opened Ledger
  import opened Executor
  import opened ExecutorInvariant
  import opened ExecutorSafety
  import opened ExecutorProgress
  import opened Protocol
  import Graph
  import Kahn

  // ---------- the system invariant ----------

  ghost predicate RunOk(s: MemSys, id: RunId)
    requires id in s.mem.runs && id in s.threads.execs
  {
    var record, exec := s.mem.runs[id], s.threads.execs[id];
    && record.id == id && id != "" && Inv(record, exec) && WellPlanned(exec)
    && (exec.tenant, exec.key) in s.mem.idempotency && s.mem.idempotency[(exec.tenant, exec.key)] == id
  }

  ghost predicate KeyOk(s: MemSys, k: (Tenant, Key))
    requires k in s.mem.idempotency
  {
    var id := s.mem.idempotency[k];
    id in s.threads.execs && s.threads.execs[id].tenant == k.0 && s.threads.execs[id].key == k.1
  }

  ghost predicate SpawnedOnce(t: Threads) {
    && (forall i, j :: 0 <= i < j < |t.spawned| ==> t.spawned[i] != t.spawned[j])
    && (forall id :: id in t.spawned <==> id in t.execs)
  }

  /** One executor for each run, spawned once, and one run for each used key. */
  ghost predicate SysInv(s: MemSys) {
    && s.mem.runs.Keys == s.threads.execs.Keys
    && (forall id {:trigger RunOk(s, id)} :: id in s.mem.runs ==> RunOk(s, id))
    && (forall k {:trigger KeyOk(s, k)} :: k in s.mem.idempotency ==> KeyOk(s, k))
    && SpawnedOnce(s.threads)
  }

  ghost predicate SameThread(e: Exec, e': Exec) {
    && e'.tenant == e.tenant && e'.key == e.key && e'.specs == e.specs && e'.plan == e.plan
    && (e.mode != Undecided ==> e'.mode == e.mode)
  }

  ghost predicate RunEvolves(s: MemSys, s': MemSys, id: RunId)
    requires id in s.mem.runs && id in s.threads.execs
  {
    && id in s'.mem.runs && id in s'.threads.execs
    && Evolves(s.mem.runs[id], s'.mem.runs[id], s'.threads.execs[id].mode == External)
    && SameThread(s.threads.execs[id], s'.threads.execs[id])
  }

  /** How a system may change: runs stay, evolve, and keep owner, key and plan. */
  ghost predicate SysEvolves(s: MemSys, s': MemSys) {
    forall id {:trigger RunEvolves(s, s', id)} :: id in s.mem.runs && id in s.threads.execs ==> RunEvolves(s, s', id)
  }

  lemma EvolvesWeakens(record: Record, record': Record, external: bool, external': bool)
    requires Evolves(record, record', external) && (external ==> external')
    ensures Evolves(record, record', external')
  {
  }

  lemma EvolvesReflexive(record: Record, external: bool)
    ensures Evolves(record, record, external)
  {
  }

  // ---------- one step ----------

  ghost predicate GoodStep(s: MemSys, s': MemSys) {
    SysInv(s') && SysEvolves(s, s')
  }

  ghost function Replaced(s: MemSys, id: RunId, record: Record, exec: Exec): MemSys {
    MemSys(s.mem.(runs := s.mem.runs[id := record]), s.threads.(execs := s.threads.execs[id := exec]))
  }

  lemma PlanCarriesOver(e: Exec, e': Exec)
    requires WellPlanned(e) && SameThread(e, e')
    ensures WellPlanned(e')
  {
  }

  lemma SpawnedKept(t: Threads, t': Threads)
    requires SpawnedOnce(t) && t'.spawned == t.spawned && t'.execs.Keys == t.execs.Keys
    ensures SpawnedOnce(t')
  {
    assert forall id :: id in t.execs.Keys <==> id in t'.execs.Keys;
  }

  lemma ReplaceKeepsInv(s: MemSys, s': MemSys, id: RunId, record: Record, exec: Exec)
    requires SysInv(s) && id in s.mem.runs && s' == Replaced(s, id, record, exec)
    requires Inv(record, exec) && record.id == id && SameThread(s.threads.execs[id], exec)
    ensures SysInv(s')
  {
    hide SpawnedOnce;
    hide Inv;
    hide WellPlanned;
    forall other | other in s'.mem.runs ensures RunOk(s', other) {
      assert RunOk(s, other);
      if other == id { PlanCarriesOver(s.threads.execs[id], exec); }
    }
    forall k | k in s'.mem.idempotency ensures KeyOk(s', k) { assert KeyOk(s, k); }
    SpawnedKept(s.threads, s'.threads);
  }

  /** Replacing one run and its thread. */
  lemma ReplaceRun(s: MemSys, s': MemSys, id: RunId, record: Record, exec: Exec)
    requires SysInv(s) && id in s.mem.runs && s' == Replaced(s, id, record, exec)
    requires Inv(record, exec) && record.id == id && SameThread(s.threads.execs[id], exec)
    requires Evolves(s.mem.runs[id], record, exec.mode == External)
    ensures GoodStep(s, s')
  {
    ReplaceKeepsInv(s, s', id, record, exec);
  }

  ghost function Inserted(s: MemSys, newId: RunId, record: Record, exec: Exec): MemSys {
    MemSys(Mem(s.mem.runs[newId := record], s.mem.idempotency[(exec.tenant, exec.key) := newId]),
           Threads(s.threads.execs[newId := exec], s.threads.spawned + [newId]))
  }

  /** A submission is refused or repeated without effect, or creates one run and one thread. */
  lemma SubmitEffect(s: MemSys, event: Event)
    requires SysInv(s) && MemEnabled(s, event) && event.ApiSubmit?
    ensures var ApiSubmit(tenant, task, project, key, nodes, newId) := event;
      var raws := RequestSpecs(nodes);
      || MemNext(s, event) == s
      || (&& newId != "" && newId !in s.mem.runs && (tenant, key) !in s.mem.idempotency
          && Kahn.Order(RawNodes(raws)).Some?
          && var record := NewRecord(newId, tenant, project, task, NewSteps(raws));
             var exec := NewExec(tenant, key, SpecsOf(raws), Kahn.Order(RawNodes(raws)).value);
             && record.id == newId && record.tenant == tenant && exec.tenant == tenant && exec.key == key
             && MemNext(s, event) == Inserted(s, newId, record, exec))
  {
    hide Kahn.Order;
    if (event.tenant, event.key) in s.mem.idempotency {
      assert KeyOk(s, (event.tenant, event.key));
      assert RunOk(s, s.mem.idempotency[(event.tenant, event.key)]);
    }
  }

  lemma Unchanged(s: MemSys)
    requires SysInv(s)
    ensures GoodStep(s, s)
  {
    forall id | id in s.mem.runs ensures RunEvolves(s, s, id) {
      EvolvesReflexive(s.mem.runs[id], s.threads.execs[id].mode == External);
    }
  }

  /** A created run starts with the invariant, planned by the order just validated. */
  lemma NewRunOk(newId: RunId, tenant: Tenant, project: Option<string>, task: string, key: Key, raws: seq<RawSpec>)
    requires Kahn.Order(RawNodes(raws)).Some?
    ensures var exec := NewExec(tenant, key, SpecsOf(raws), Kahn.Order(RawNodes(raws)).value);
      Inv(NewRecord(newId, tenant, project, task, NewSteps(raws)), exec) && WellPlanned(exec)
  {
    var specs := SpecsOf(raws);
    assert SpecNodes(specs) == RawNodes(raws) by {
      forall i | 0 <= i < |raws| ensures SpecNodes(specs)[i] == RawNodes(raws)[i] {
        assert specs[i] == NormalizeSpec(raws[i]);
      }
    }
    Kahn.OrderIsTopological(RawNodes(raws));
  }

  lemma InsertKeepsInv(s: MemSys, s': MemSys, newId: RunId, record: Record, exec: Exec)
    requires SysInv(s) && newId != "" && newId !in s.mem.runs
    requires (exec.tenant, exec.key) !in s.mem.idempotency
    requires Inv(record, exec) && WellPlanned(exec) && record.id == newId
    requires s' == Inserted(s, newId, record, exec)
    ensures SysInv(s')
  {
    hide Inv;
    hide WellPlanned;
    assert newId !in s.threads.execs;
    forall id | id in s'.mem.runs ensures RunOk(s', id) {
      if id != newId { assert RunOk(s, id); }
    }
    forall k | k in s'.mem.idempotency ensures KeyOk(s', k) {
      if k != (exec.tenant, exec.key) { assert KeyOk(s, k); }
    }
  }

  lemma InsertEvolves(s: MemSys, s': MemSys, newId: RunId, record: Record, exec: Exec)
    requires SysInv(s) && newId !in s.mem.runs && s' == Inserted(s, newId, record, exec)
    ensures SysEvolves(s, s')
  {
    hide Evolves;
    hide RunOk;
    forall id | id in s.mem.runs ensures RunEvolves(s, s', id) {
      EvolvesReflexive(s.mem.runs[id], s'.threads.execs[id].mode == External);
    }
  }

  lemma InsertRun(s: MemSys, s': MemSys, newId: RunId, record: Record, exec: Exec)
    requires SysInv(s) && newId != "" && newId !in s.mem.runs
    requires (exec.tenant, exec.key) !in s.mem.idempotency
    requires Inv(record, exec) && WellPlanned(exec) && record.id == newId
    requires s' == Inserted(s, newId, record, exec)
    ensures GoodStep(s, s')
  {
    InsertKeepsInv(s, s', newId, record, exec);
    InsertEvolves(s, s', newId, record, exec);
    hide SysInv;
    hide SysEvolves;
    hide Inserted;
  }

  lemma SubmitIsGood(s: MemSys, event: Event)
    requires SysInv(s) && MemEnabled(s, event) && event.ApiSubmit?
    ensures GoodStep(s, MemNext(s, event))
  {
    hide *;
    var ApiSubmit(tenant, task, project, key, nodes, newId) := event;
    SubmitEffect(s, event);
    if MemNext(s, event) == s {
      Unchanged(s);
    } else {
      var raws := RequestSpecs(nodes);
      NewRunOk(newId, tenant, project, task, key, raws);
      InsertRun(s, MemNext(s, event), newId, NewRecord(newId, tenant, project, task, NewSteps(raws)),
                NewExec(tenant, key, SpecsOf(raws), Kahn.Order(RawNodes(raws)).value));
    }
  }

  lemma ApiCallEffect(s: MemSys, event: Event)
    requires SysInv(s) && MemEnabled(s, event) && event.ApiCall?
    ensures
      || MemNext(s, event) == s
      || (event.id in s.mem.runs && event.id in s.threads.execs && event.op == Cancel && s.mem.runs[event.id].tenant == event.tenant
          && MemNext(s, event) == Replaced(s, event.id, CancelRecord(s.mem.runs[event.id]), s.threads.execs[event.id]))
  {
    var id := event.id;
    if id in s.mem.runs {
      assert s.mem.runs[id := s.mem.runs[id]] == s.mem.runs;
      assert s.threads.execs[id := s.threads.execs[id]] == s.threads.execs;
    }
  }

  lemma OwnRun(s: MemSys, id: RunId)
    requires SysInv(s) && id in s.threads.execs
    ensures id in s.mem.runs && Inv(s.mem.runs[id], s.threads.execs[id]) && WellPlanned(s.threads.execs[id])
    ensures s.mem.runs[id].id == id && s.mem.runs[id].tenant == s.threads.execs[id].tenant
  {
    assert RunOk(s, id);
  }

  lemma ApiCallIsGood(s: MemSys, event: Event)
    requires SysInv(s) && MemEnabled(s, event) && event.ApiCall?
    ensures GoodStep(s, MemNext(s, event))
  {
    hide *;
    ApiCallEffect(s, event);
    if MemNext(s, event) == s {
      Unchanged(s);
    } else {
      var id := event.id;
      OwnRun(s, id);
      var record, exec := s.mem.runs[id], s.threads.execs[id];
      CancelKeepsInv(record, exec);
      CancelEvolves(record, exec);
      ReplaceRun(s, MemNext(s, event), id, CancelRecord(record), exec);
    }
  }

  /** The store call of an executor step, which never raises. */
  lemma ExecCallEffect(s: MemSys, event: Event)
    requires SysInv(s) && MemEnabled(s, event) && event.ExecStep?
    ensures var id := event.id;
      && id in s.mem.runs && id in s.threads.execs && (s.threads.execs[id].pc.AtGet? ==> s.threads.execs[id].mode == Undecided)
      && var (record', reply) := StoreEffect(s.mem.runs[id], s.threads.execs[id].pc);
        !reply.Raised? && MemCall(s, event) == (s.mem.(runs := s.mem.runs[id := record']), reply)
  {
    var id := event.id;
    OwnRun(s, id);
    var record, exec := s.mem.runs[id], s.threads.execs[id];
    assert s.mem.runs[id := record] == s.mem.runs;
    assert exec.pc.AtGet? ==> exec.mode == Undecided;
    if NextOp(exec.pc).Some? {
      CallsAreReady(record, exec);
      ReadyNeverRaises(record, NextOp(exec.pc).value, exec.mode == External);
    }
    hide Inv;
    hide NextOp;
    hide Apply;
    hide SysInv;
    hide CanChoose;
  }

  lemma ExecStepEffect(s: MemSys, event: Event)
    requires SysInv(s) && MemEnabled(s, event) && event.ExecStep?
    ensures var id := event.id;
      && id in s.mem.runs && (s.threads.execs[id].pc.AtGet? ==> s.threads.execs[id].mode == Undecided)
      && var (record', exec') := StepExec(s.mem.runs[id], s.threads.execs[id], event.choice);
        MemNext(s, event) == Replaced(s, id, record', exec')
  {
    ExecCallEffect(s, event);
    hide StoreEffect;
    hide MemCall;
    hide SysInv;
    hide CanChoose;
    hide AdvanceExec;
  }

  lemma ExecEnabled(s: MemSys, event: Event)
    requires MemEnabled(s, event) && event.ExecStep?
    ensures event.id in s.threads.execs && CanChoose(s.threads.execs[event.id].pc, event.choice)
  {
  }

  lemma StepKnown(record: Record, exec: Exec, choice: Choice, record': Record, exec': Exec)
    requires CanChoose(exec.pc, choice) && StepExec(record, exec, choice) == (record', exec')
    ensures Steps(record, exec, choice, record', exec')
  {
  }

  lemma ModeFixed(exec: Exec, choice: Choice, exec': Exec)
    requires exec'.specs == exec.specs && exec'.plan == exec.plan && exec'.tenant == exec.tenant && exec'.key == exec.key
    requires exec'.mode == ChosenMode(exec, choice) && (exec.pc.AtGet? ==> exec.mode == Undecided)
    ensures SameThread(exec, exec') && (exec.mode == External ==> exec'.mode == External)
  {
  }

  lemma ExecStepIsGood(s: MemSys, event: Event)
    requires SysInv(s) && MemEnabled(s, event) && event.ExecStep?
    ensures GoodStep(s, MemNext(s, event))
  {
    hide *;
    ExecStepEffect(s, event);
    var id := event.id;
    ExecEnabled(s, event);
    OwnRun(s, id);
    var record, exec := s.mem.runs[id], s.threads.execs[id];
    var (record', exec') := StepExec(record, exec, event.choice);
    StepKnown(record, exec, event.choice, record', exec');
    StepKeepsInv(record, exec, event.choice, record', exec');
    StepEvolves(record, exec, event.choice, record', exec');
    StoreEffectOf(record, exec, event.choice, record', exec');
    ModeFixed(exec, event.choice, exec');
    EvolvesWeakens(record, record', exec.mode == External, exec'.mode == External);
    ReplaceRun(s, MemNext(s, event), id, record', exec');
  }

  lemma CrashKeepsInv(record: Record, exec: Exec)
    requires Inv(record, exec)
    ensures Inv(record, exec.(crashed := true))
  {
  }

  lemma CrashIsGood(s: MemSys, event: Event)
    requires SysInv(s) && MemEnabled(s, event) && event.Crash?
    ensures GoodStep(s, MemNext(s, event))
  {
    var id := event.id;
    assert RunOk(s, id);
    var record, exec := s.mem.runs[id], s.threads.execs[id];
    assert s.mem.runs[id := record] == s.mem.runs;
    CrashKeepsInv(record, exec);
    EvolvesReflexive(record, exec.mode == External);
    ReplaceRun(s, MemNext(s, event), id, record, exec.(crashed := true));
  }

  lemma StepIsGood(s: MemSys, event: Event)
    requires SysInv(s) && MemEnabled(s, event)
    ensures GoodStep(s, MemNext(s, event))
  {
    hide *;
    match event
    case ApiSubmit(_, _, _, _, _, _) => SubmitIsGood(s, event);
    case ApiCall(_, _, _) => ApiCallIsGood(s, event);
    case ExecStep(_, _) => ExecStepIsGood(s, event);
    case Crash(_) => CrashIsGood(s, event);
  }

  // ---------- whole runs ----------

  lemma InitIsOk()
    ensures SysInv(INIT_MEM)
  {
  }

  lemma StartIsInit(states: seq<MemSys>, events: seq<Event>)
    requires MemRun(states, events)
    ensures states[0] == INIT_MEM
  {
  }

  lemma RunStep(states: seq<MemSys>, events: seq<Event>, n: nat)
    requires MemRun(states, events) && n < |events|
    ensures |states| == |events| + 1 && MemEnabled(states[n], events[n]) && states[n + 1] == MemNext(states[n], events[n])
  {
  }

  lemma GoodParts(s: MemSys, s': MemSys)
    requires GoodStep(s, s')
    ensures SysInv(s') && SysEvolves(s, s')
  {
  }

  lemma {:induction false} RunKeepsInv(states: seq<MemSys>, events: seq<Event>, n: nat)
    requires MemRun(states, events) && n <= |events|
    ensures SysInv(states[n])
    decreases n
  {
    hide *;
    if n == 0 {
      InitIsOk();
      StartIsInit(states, events);
    } else {
      RunKeepsInv(states, events, n - 1);
      RunStep(states, events, n - 1);
      StepIsGood(states[n - 1], events[n - 1]);
      GoodParts(states[n - 1], states[n]);
    }
  }

  lemma OneStepEvolves(states: seq<MemSys>, events: seq<Event>, n: nat, id: RunId)
    requires MemRun(states, events) && n < |events| && SysInv(states[n])
    requires id in states[n].mem.runs && id in states[n].threads.execs
    ensures RunEvolves(states[n], states[n + 1], id)
  {
    hide *;
    RunStep(states, events, n);
    StepIsGood(states[n], events[n]);
    GoodParts(states[n], states[n + 1]);
  }

  /** Over any stretch of any run, every ledger run stays, keeps its owner, key, plan
      and chosen mode, and evolves: frozen once terminal, forward before that, and
      outside external mode with its succeeded steps frozen. */
  lemma {:induction false} RunsEvolve(states: seq<MemSys>, events: seq<Event>, i: nat, j: nat, id: RunId)
    requires MemRun(states, events) && i <= j <= |events|
    requires id in states[i].mem.runs && id in states[i].threads.execs
    ensures RunEvolves(states[i], states[j], id)
    decreases j
  {
    if i == j {
      EvolvesReflexive(states[i].mem.runs[id], states[i].threads.execs[id].mode == External);
    } else {
      RunsEvolve(states, events, i, j - 1, id);
      RunKeepsInv(states, events, j - 1);
      OneStepEvolves(states, events, j - 1, id);
    }
  }

  /** A terminal run never changes again, whatever else happens. */
  lemma TerminalIsForever(states: seq<MemSys>, events: seq<Event>, i: nat, j: nat, id: RunId)
    requires MemRun(states, events) && i <= j <= |events|
    requires id in states[i].mem.runs && Terminal(states[i].mem.runs[id].status)
    ensures id in states[j].mem.runs && states[j].mem.runs[id] == states[i].mem.runs[id]
  {
    RunKeepsInv(states, events, i);
    RunsEvolve(states, events, i, j, id);
  }

  lemma TerminalIsShaped(record: Record, exec: Exec)
    requires Inv(record, exec) && Terminal(record.status) && exec.mode == Local
    ensures LocalOutcome(record, exec.plan)
  {
    if !exec.pc.Exited? { var i := HasFrontier(record, exec); }
  }

  /** What the record of a local-mode run looks like whenever it is terminal, its
      executor still winding down, gone or crashed. */
  lemma TerminalLocalShape(states: seq<MemSys>, events: seq<Event>, n: nat, id: RunId)
    requires MemRun(states, events) && n <= |events| && id in states[n].mem.runs && id in states[n].threads.execs
    requires Terminal(states[n].mem.runs[id].status) && states[n].threads.execs[id].mode == Local
    ensures var record, plan := states[n].mem.runs[id], states[n].threads.execs[id].plan;
      IsPlan(plan, record.steps) && LocalOutcome(record, plan)
  {
    RunKeepsInv(states, events, n);
    OwnRun(states[n], id);
    TerminalIsShaped(states[n].mem.runs[id], states[n].threads.execs[id]);
  }

  /** A cancelled run has no queued or running step, in either mode. */
  lemma CancelledHasNothingOpen(states: seq<MemSys>, events: seq<Event>, n: nat, id: RunId)
    requires MemRun(states, events) && n <= |events| && id in states[n].mem.runs
    requires states[n].mem.runs[id].status == Cancelled
    ensures states[n].mem.runs[id].cancelled && NothingOpen(states[n].mem.runs[id].steps)
  {
    RunKeepsInv(states, events, n);
    OwnRun(states[n], id);
  }

  /** One thread is spawned for each run and no run is spawned twice; a tenant's key
      leads to one run, and runs of different tenants or keys are different. */
  lemma OneRunOneExecutor(states: seq<MemSys>, events: seq<Event>, n: nat, a: RunId, b: RunId)
    requires MemRun(states, events) && n <= |events|
    requires a in states[n].mem.runs && b in states[n].mem.runs
    ensures var t := states[n].threads;
      && SpawnedOnce(t) && a in t.spawned && b in t.spawned
      && (a == b <==> (t.execs[a].tenant, t.execs[a].key) == (t.execs[b].tenant, t.execs[b].key))
      && t.execs[a].tenant == states[n].mem.runs[a].tenant
  {
    RunKeepsInv(states, events, n);
    assert RunOk(states[n], a) && RunOk(states[n], b);
  }

  /** Submitting a key again is answered with the run it created, and starts nothing. */
  lemma ResubmitIsIdempotent(states: seq<MemSys>, events: seq<Event>, n: nat, id: RunId)
    requires MemRun(states, events) && n < |events| && events[n].ApiSubmit? && id in states[n].threads.execs
    requires states[n].threads.execs[id].tenant == events[n].tenant && states[n].threads.execs[id].key == events[n].key
    ensures states[n + 1] == states[n]
    ensures id in states[n].mem.runs
    ensures CallOf(states[n].threads, events[n]).Some? ==>
      MemCall(states[n], events[n]).1 == Submitted(SnapshotOf(states[n].mem.runs[id]), false)
  {
    RunKeepsInv(states, events, n);
    assert RunOk(states[n], id);
    hide Kahn.Order;
  }

  /** The named step succeeded in the first record and is the same in the second. */
  ghost predicate SucceededInBoth(record: Record, record': Record, name: string) {
    exists q :: 0 <= q < |record.steps| && q < |record'.steps| && record.steps[q].spec.nodeId == name
             && record.steps[q].status.Succeeded? && record'.steps[q] == record.steps[q]
  }

  /** In any reachable state outside external mode, a step that was ever attempted has
      its transitive dependencies succeeded, now and for good. */
  lemma DependenciesSucceededForGood(states: seq<MemSys>, events: seq<Event>, i: nat, j: nat, id: RunId, p: nat, walk: seq<string>)
    requires MemRun(states, events) && i <= j <= |events|
    requires id in states[i].mem.runs && id in states[i].threads.execs && id in states[j].threads.execs
    requires states[j].threads.execs[id].mode != External
    requires p < |states[i].mem.runs[id].steps| && states[i].mem.runs[id].steps[p].attempts > 0
    requires |walk| >= 2 && Graph.IsWalk(SpecNodes(states[i].threads.execs[id].specs), walk)
    requires walk[0] == states[i].mem.runs[id].steps[p].spec.nodeId
    ensures id in states[j].mem.runs
    ensures SucceededInBoth(states[i].mem.runs[id], states[j].mem.runs[id], walk[|walk| - 1])
  {
    RunKeepsInv(states, events, i);
    OwnRun(states[i], id);
    RunsEvolve(states, events, i, j, id);
    AttemptedNeedsDependencies(states[i].mem.runs[id], states[i].threads.execs[id], p, walk);
    var q :| 0 <= q < |states[i].mem.runs[id].steps| && states[i].mem.runs[id].steps[q].spec.nodeId == walk[|walk| - 1]
          && states[i].mem.runs[id].steps[q].status.Succeeded?;
    assert states[j].mem.runs[id].steps[q] == states[i].mem.runs[id].steps[q];
  }
}
