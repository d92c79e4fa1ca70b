/** Tenant non-interference of the in-memory store: with the identifiers of new runs
    supplied as inputs, the calls of other tenants might as well not have happened. */
module TenantIsolation {
  import opened Wrappers
  import opened Ledger

  /** What a store holds for one tenant. */
  ghost function View(s: Mem, tenant: Tenant): Mem {
    Mem(map id | id in s.runs && s.runs[id].tenant == tenant :: s.runs[id],
        map k | k in s.idempotency && k.0 == tenant :: s.idempotency[k])
  }

  /** A submission's identifier is not empty and not in use. */
  predicate FreshFor(used: set<RunId>, call: Call) {
    call.Submit? ==> call.newId != "" && call.newId !in used
  }

  lemma CallKeepsKeys(s: Mem, call: Call)
    requires KeysLead(s) && FreshFor(s.runs.Keys, call)
    ensures KeysLead(MemApply(s, call).0)
  {
    if call.On? && Owns(s.runs, call.tenant, call.id) { ApplyKeepsIdentity(s.runs[call.id], call.op); }
  }

  lemma ForeignUpdate(s: Mem, tenant: Tenant, id: RunId, record: Record)
    requires record.tenant != tenant && (id in s.runs ==> s.runs[id].tenant != tenant)
    ensures View(s.(runs := s.runs[id := record]), tenant) == View(s, tenant)
  {
  }

  lemma ForeignKey(s: Mem, tenant: Tenant, k: (Tenant, Key), id: RunId)
    requires k.0 != tenant
    ensures View(s.(idempotency := s.idempotency[k := id]), tenant) == View(s, tenant)
  {
  }

  /** Another tenant's call does not touch a tenant's view. */
  lemma OthersChangeNothing(s: Mem, call: Call, tenant: Tenant)
    requires KeysLead(s) && FreshFor(s.runs.Keys, call) && call.tenant != tenant
    ensures View(MemApply(s, call).0, tenant) == View(s, tenant)
  {
    if call.On? {
      if Owns(s.runs, call.tenant, call.id) {
        ApplyKeepsIdentity(s.runs[call.id], call.op);
        ForeignUpdate(s, tenant, call.id, Apply(s.runs[call.id], call.op).0);
      }
    } else {
      var k := (call.tenant, call.key);
      if k !in s.idempotency {
        var record := NewRecord(call.newId, call.tenant, call.project, call.task, NewSteps(call.raws));
        ForeignUpdate(s, tenant, call.newId, record);
        ForeignKey(s.(runs := s.runs[call.newId := record]), tenant, k, call.newId);
      } else {
        assert Owns(s.runs, k.0, s.idempotency[k]);
      }
    }
  }

  lemma ViewOfUpdate(s: Mem, tenant: Tenant, id: RunId, record: Record)
    requires record.tenant == tenant
    ensures View(s.(runs := s.runs[id := record]), tenant) == View(s, tenant).(runs := View(s, tenant).runs[id := record])
  {
  }

  lemma OwnOperationSeesView(s: Mem, call: Call)
    requires call.On?
    ensures MemApply(s, call).1 == MemApply(View(s, call.tenant), call).1
    ensures View(MemApply(s, call).0, call.tenant) == MemApply(View(s, call.tenant), call).0
  {
    var view := View(s, call.tenant);
    assert Owns(view.runs, call.tenant, call.id) <==> Owns(s.runs, call.tenant, call.id);
    if Owns(s.runs, call.tenant, call.id) {
      var record := Apply(s.runs[call.id], call.op).0;
      ApplyKeepsIdentity(s.runs[call.id], call.op);
      ViewOfUpdate(s, call.tenant, call.id, record);
    }
  }

  lemma ViewOfKey(s: Mem, k: (Tenant, Key), id: RunId)
    ensures View(s.(idempotency := s.idempotency[k := id]), k.0)
         == View(s, k.0).(idempotency := View(s, k.0).idempotency[k := id])
  {
  }

  lemma OwnSubmissionSeesView(s: Mem, call: Call)
    requires KeysLead(s) && FreshFor(s.runs.Keys, call) && call.Submit?
    ensures MemApply(s, call).1 == MemApply(View(s, call.tenant), call).1
    ensures View(MemApply(s, call).0, call.tenant) == MemApply(View(s, call.tenant), call).0
  {
    var view, k := View(s, call.tenant), (call.tenant, call.key);
    assert k in view.idempotency <==> k in s.idempotency;
    if k in s.idempotency {
      assert Owns(s.runs, k.0, s.idempotency[k]);
    } else {
      var record := NewRecord(call.newId, call.tenant, call.project, call.task, NewSteps(call.raws));
      ViewOfUpdate(s, call.tenant, call.newId, record);
      ViewOfKey(s.(runs := s.runs[call.newId := record]), k, call.newId);
    }
  }

  /** A tenant's own call depends on, and yields, its view only. */
  lemma OwnCallSeesView(s: Mem, call: Call)
    requires KeysLead(s) && FreshFor(s.runs.Keys, call)
    ensures MemApply(s, call).1 == MemApply(View(s, call.tenant), call).1
    ensures View(MemApply(s, call).0, call.tenant) == MemApply(View(s, call.tenant), call).0
  {
    if call.On? { OwnOperationSeesView(s, call); } else { OwnSubmissionSeesView(s, call); }
  }

  // ---------- sequences of calls, of any store ----------

  ghost function RunAll<S>(step: (S, Call) -> (S, Reply), s: S, calls: seq<Call>): (S, seq<Reply>)
    decreases |calls|
  {
    if calls == [] then (s, []) else
      var (s', reply) := step(s, calls[0]);
      var (end, replies) := RunAll(step, s', calls[1..]);
      (end, [reply] + replies)
  }

  /** The calls of one tenant, in order. */
  function Only(calls: seq<Call>, tenant: Tenant): seq<Call> {
    if calls == [] then []
    else (if calls[0].tenant == tenant then [calls[0]] else []) + Only(calls[1..], tenant)
  }

  /** The replies to one tenant's calls, in order. */
  function RepliesTo(calls: seq<Call>, replies: seq<Reply>, tenant: Tenant): seq<Reply>
    requires |calls| == |replies|
  {
    if calls == [] then []
    else (if calls[0].tenant == tenant then [replies[0]] else []) + RepliesTo(calls[1..], replies[1..], tenant)
  }

  /** Identifiers supplied to submissions are non-empty, pairwise different and unused. */
  predicate FreshIds(used: set<RunId>, calls: seq<Call>) {
    && (forall i :: 0 <= i < |calls| ==> FreshFor(used, calls[i]))
    && (forall i, j :: 0 <= i < j < |calls| && calls[i].Submit? && calls[j].Submit? ==> calls[i].newId != calls[j].newId)
  }

  /** What one call must give: a good store stays good and names at most the new run;
      another tenant's call leaves a tenant's view, its own call sees only that view. */
  ghost predicate Separates<S(!new)>(step: (S, Call) -> (S, Reply), view: (S, Tenant) -> S, used: S -> set<RunId>, good: S -> bool) {
    && (forall s, call {:trigger step(s, call)} :: good(s) && FreshFor(used(s), call) ==>
          good(step(s, call).0) && used(step(s, call).0) <= used(s) + (if call.Submit? then {call.newId} else {}))
    && (forall s, call, tenant {:trigger view(step(s, call).0, tenant)} :: good(s) && FreshFor(used(s), call) ==>
          if call.tenant == tenant
          then step(s, call).1 == step(view(s, tenant), call).1 && view(step(s, call).0, tenant) == step(view(s, tenant), call).0
          else view(step(s, call).0, tenant) == view(s, tenant))
  }

  lemma {:induction false} RepliesLength<S>(step: (S, Call) -> (S, Reply), s: S, calls: seq<Call>)
    ensures |RunAll(step, s, calls).1| == |calls|
    decreases |calls|
  {
    if calls != [] { RepliesLength(step, step(s, calls[0]).0, calls[1..]); }
  }

  lemma StillFresh(used: set<RunId>, used': set<RunId>, calls: seq<Call>)
    requires calls != [] && FreshIds(used, calls) && used' <= used + (if calls[0].Submit? then {calls[0].newId} else {})
    ensures FreshIds(used', calls[1..])
  {
    var rest := calls[1..];
    forall i | 0 <= i < |rest| ensures FreshFor(used', rest[i]) {
      assert FreshFor(used, calls[i + 1]);
    }
  }

  lemma RunAllStep<S>(step: (S, Call) -> (S, Reply), s: S, calls: seq<Call>)
    requires calls != []
    ensures RunAll(step, s, calls).0 == RunAll(step, step(s, calls[0]).0, calls[1..]).0
    ensures RunAll(step, s, calls).1 == [step(s, calls[0]).1] + RunAll(step, step(s, calls[0]).0, calls[1..]).1
    ensures RunAll(step, s, calls).1[1..] == RunAll(step, step(s, calls[0]).0, calls[1..]).1
  {
  }

  /** In a store whose calls separate, deleting every other tenant's calls leaves a
      tenant's replies and view alone. */
  lemma {:induction false} SeparateRuns<S(!new)>(step: (S, Call) -> (S, Reply), view: (S, Tenant) -> S, used: S -> set<RunId>, good: S -> bool,
                                                 s: S, calls: seq<Call>, tenant: Tenant)
    requires Separates(step, view, used, good) && good(s) && FreshIds(used(s), calls)
    ensures |RunAll(step, s, calls).1| == |calls|
    ensures view(RunAll(step, s, calls).0, tenant) == RunAll(step, view(s, tenant), Only(calls, tenant)).0
    ensures RepliesTo(calls, RunAll(step, s, calls).1, tenant) == RunAll(step, view(s, tenant), Only(calls, tenant)).1
    decreases |calls|
  {
    RepliesLength(step, s, calls);
    if calls != [] {
      var call, rest := calls[0], calls[1..];
      var s' := step(s, call).0;
      assert FreshFor(used(s), call);
      StillFresh(used(s), used(s'), calls);
      RunAllStep(step, s, calls);
      SeparateRuns(step, view, used, good, s', rest, tenant);
      if call.tenant == tenant {
        assert Only(calls, tenant) == [call] + Only(rest, tenant);
        RunAllStep(step, view(s, tenant), Only(calls, tenant));
        assert ([call] + Only(rest, tenant))[1..] == Only(rest, tenant);
      } else {
        assert Only(calls, tenant) == Only(rest, tenant);
      }
    }
  }

  /** Deleting every other tenant's calls leaves a tenant's replies and records alone. */
  lemma NonInterference(s: Mem, calls: seq<Call>, tenant: Tenant)
    requires KeysLead(s) && FreshIds(s.runs.Keys, calls)
    ensures |RunAll(MemApply, s, calls).1| == |calls|
    ensures View(RunAll(MemApply, s, calls).0, tenant) == RunAll(MemApply, View(s, tenant), Only(calls, tenant)).0
    ensures RepliesTo(calls, RunAll(MemApply, s, calls).1, tenant) == RunAll(MemApply, View(s, tenant), Only(calls, tenant)).1
  {
    var used: Mem -> set<RunId> := (mem: Mem) => mem.runs.Keys;
    forall mem: Mem, call: Call | KeysLead(mem) && FreshFor(mem.runs.Keys, call)
      ensures KeysLead(MemApply(mem, call).0)
      ensures MemApply(mem, call).0.runs.Keys <= mem.runs.Keys + (if call.Submit? then {call.newId} else {})
      ensures forall t :: if call.tenant == t
        then MemApply(mem, call).1 == MemApply(View(mem, t), call).1 && View(MemApply(mem, call).0, t) == MemApply(View(mem, t), call).0
        else View(MemApply(mem, call).0, t) == View(mem, t)
    {
      CallKeepsKeys(mem, call);
      OwnCallSeesView(mem, call);
      forall t | t != call.tenant { OthersChangeNothing(mem, call, t); }
    }
    assert Separates(MemApply, View, used, KeysLead);
    SeparateRuns(MemApply, View, used, KeysLead, s, calls, tenant);
  }
}
