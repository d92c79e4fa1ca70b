/** The protocol over PostgreSQL and over memory: every step over PostgreSQL is matched
    by a step over memory that leads to the same threads and to the ledger its tables
    represent, and exactly some of the replies differ. */
module ProtocolSimulation {
  import opened Wrappers
  import opened Ledger
  import opened Database
  import opened Simulation
  import opened Executor
  import opened ExecutorInvariant
  import opened ExecutorProgress
  import opened Protocol
  import opened ProtocolSafety
  import Kahn

  /** Every spelling of a uuid is shown in a form that is its own spelling. */
  ghost predicate Spellings(uuids: Uuids) {
    forall text :: text in uuids ==> Canonical(uuids, uuids[text])
  }

  ghost predicate PgRun(states: seq<PgSys>, events: seq<Event>) {
    && |states| == |events| + 1 && states[0] == InitPg(states[0].uuids) && Spellings(states[0].uuids)
    && forall i :: 0 <= i < |events| ==> PgEnabled(states[i], events[i]) && states[i + 1] == PgNext(states[i], events[i])
  }

  ghost predicate Matches(pg: PgSys, s: MemSys) {
    && pg.threads == s.threads && Represents(pg.db, s.mem)
    && Spellings(pg.uuids) && forall id :: id in pg.db.runs ==> Canonical(pg.uuids, id)
  }

  /** The event over memory that matches one over PostgreSQL: an id in another spelling
      is the id it spells, and an executor whose statement is refused dies. */
  ghost function InMemory(pg: PgSys, event: Event): Event {
    match event
    case ApiCall(tenant, id, op) => ApiCall(tenant, if id in pg.uuids then pg.uuids[id] else id, op)
    case ExecStep(id, _) => if PgCall(pg, event).1.Raised? then Crash(id) else event
    case ApiSubmit(_, _, _, _, _, _) => event
    case Crash(_) => event
  }

  /** What PostgreSQL answers differently: a request whose id is no uuid raises, an empty
      project id is read as none, and a number its columns refuse raises. */
  ghost predicate AnsweredApart(pg: PgSys, s: MemSys, event: Event) {
    match event
    case ApiCall(tenant, id, op) =>
      tenant != "" &&
      (id !in pg.uuids || (op.ProjectId? && Owns(s.mem.runs, tenant, pg.uuids[id]) && s.mem.runs[pg.uuids[id]].project == Some("")))
    case ExecStep(id, _) =>
      id in s.mem.runs && id in s.threads.execs && NextOp(s.threads.execs[id].pc).Some?
      && NumbersRefused(s.mem.runs[id], NextOp(s.threads.execs[id].pc).value)
    case ApiSubmit(_, _, _, _, _, _) => false
    case Crash(_) => false
  }

  ghost predicate RepliesMatch(pg: PgSys, s: MemSys, event: Event) {
    PgCall(pg, event).1 == MemCall(s, InMemory(pg, event)).1 <==> !AnsweredApart(pg, s, event)
  }

  /** The store calls of one event and of the event that matches it. */
  ghost predicate CallsMatch(pg: PgSys, s: MemSys, event: Event) {
    && MemEnabled(s, InMemory(pg, event)) && RepliesMatch(pg, s, event)
    && Represents(PgCall(pg, event).0, MemCall(s, InMemory(pg, event)).0)
  }

  // ---------- the calls of one event ----------

  /** A request within its limits has rows that fit their columns. */
  lemma RequestRowsFit(task: string, project: Option<string>, key: Key, nodes: seq<RunNode>)
    requires RequestFits(task, project, key, nodes)
    ensures StepsFit(NewSteps(RequestSpecs(nodes)))
  {
    var raws := RequestSpecs(nodes);
    forall p | 0 <= p < |raws| ensures NormalizeSpec(raws[p]).maxRetries <= 5 && Fits(NormalizeSpec(raws[p]).maxTokens) {
      if nodes != [] { assert NodeFits(nodes[p]) && raws[p] == NodeSpec(nodes[p]); }
    }
  }

  lemma SameKeys(db: Db, mem: Mem)
    requires Represents(db, mem)
    ensures db.runs.Keys == mem.runs.Keys
  {
  }

  lemma SubmitCallsMatch(pg: PgSys, s: MemSys, event: Event)
    requires Matches(pg, s) && PgEnabled(pg, event) && event.ApiSubmit?
    ensures CallsMatch(pg, s, event)
    ensures PgCall(pg, event).1 == MemCall(s, event).1
  {
    hide Represents;
    assert pg.db.runs.Keys == s.mem.runs.Keys by { SameKeys(pg.db, s.mem); }
    if CallOf(s.threads, event).Some? {
      RequestRowsFit(event.task, event.project, event.key, event.nodes);
      hide StepsFit;
      hide Kahn.Order;
      hide PgApply;
      hide MemApply;
      SubmitAgreesIff(pg.db, s.mem, CallOf(s.threads, event).value);
    }
  }

  lemma ReadChangesNothing(db: Db, mem: Mem, tenant: Tenant, id: RunId)
    requires Represents(db, mem) && Owns(mem.runs, tenant, id)
    ensures PgApply(db, On(tenant, id, ProjectId)).0 == db && MemApply(mem, On(tenant, id, ProjectId)).0 == mem
  {
    assert db.runs[id := db.runs[id]] == db.runs && mem.runs[id := mem.runs[id]] == mem.runs;
  }

  lemma KnownApiCallMatches(db: Db, s: MemSys, tenant: Tenant, id: RunId, op: Op)
    requires Represents(db, s.mem) && SysInv(s) && (op.Get? || op.RuntimeRunId? || op.ProjectId? || op.Cancel?)
    ensures Represents(PgApply(db, On(tenant, id, op)).0, MemApply(s.mem, On(tenant, id, op)).0)
    ensures PgApply(db, On(tenant, id, op)).1 == MemApply(s.mem, On(tenant, id, op)).1 <==>
      !(op.ProjectId? && Owns(s.mem.runs, tenant, id) && s.mem.runs[id].project == Some(""))
  {
    if Owns(s.mem.runs, tenant, id) {
      assert RunOk(s, id);
      OwnedAgreesIff(db, s.mem, tenant, id, op);
      if op.ProjectId? { ReadChangesNothing(db, s.mem, tenant, id); }
    } else {
      UnknownAgreesIff(db, s.mem, tenant, id, op);
    }
  }

  lemma ApiCallsMatch(pg: PgSys, s: MemSys, event: Event)
    requires Matches(pg, s) && SysInv(s) && PgEnabled(pg, event) && event.ApiCall?
    ensures CallsMatch(pg, s, event)
  {
    var ApiCall(tenant, id, op) := event;
    SameKeys(pg.db, s.mem);
    if tenant != "" {
      if id in pg.uuids {
        KnownApiCallMatches(pg.db, s, tenant, pg.uuids[id], op);
      } else {
        UnknownAgreesIff(pg.db, s.mem, tenant, id, op);
      }
    }
    hide PgApply;
    hide MemApply;
    hide Represents;
    hide SysInv;
  }

  lemma RefusedRaises(db: Db, mem: Mem, tenant: Tenant, id: RunId, op: Op)
    requires Represents(db, mem) && Owns(mem.runs, tenant, id) && NumbersRefused(mem.runs[id], op)
    ensures PgApply(db, On(tenant, id, op)).1.Raised?
  {
    assert RunRepresented(db.runs[id], id, mem.runs[id]);
  }

  /** What the invariant says of the store call an executor is about to make. */
  lemma ExecCallAgrees(pg: PgSys, s: MemSys, id: RunId)
    requires Matches(pg, s) && SysInv(s) && id in s.threads.execs && NextOp(s.threads.execs[id].pc).Some?
    ensures id in s.mem.runs && s.mem.runs[id].tenant == s.threads.execs[id].tenant && Canonical(pg.uuids, id)
    ensures var call := On(s.threads.execs[id].tenant, id, NextOp(s.threads.execs[id].pc).value);
      && !MemApply(s.mem, call).1.Raised?
      && if NumbersRefused(s.mem.runs[id], call.op) then PgApply(pg.db, call) == (pg.db, Raised)
         else PgApply(pg.db, call).1 == MemApply(s.mem, call).1 && Represents(PgApply(pg.db, call).0, MemApply(s.mem, call).0)
  {
    SameKeys(pg.db, s.mem);
    OwnRun(s, id);
    var op := NextOp(s.threads.execs[id].pc).value;
    CallsAreReady(s.mem.runs[id], s.threads.execs[id]);
    ReadyNeverRaises(s.mem.runs[id], op, s.threads.execs[id].mode == External);
    hide NextOp;
    hide Inv;
    OwnedAgreesIff(pg.db, s.mem, s.threads.execs[id].tenant, id, op);
    if NumbersRefused(s.mem.runs[id], op) { RefusedRaises(pg.db, s.mem, s.threads.execs[id].tenant, id, op); }
    hide GuardsAgree;
    hide NumbersRefused;
  }

  lemma ExecCallsMatch(pg: PgSys, s: MemSys, event: Event)
    requires Matches(pg, s) && SysInv(s) && PgEnabled(pg, event) && event.ExecStep?
    ensures CallsMatch(pg, s, event)
    ensures !MemCall(s, event).1.Raised?
    ensures InMemory(pg, event) == event ==> PgCall(pg, event).1 == MemCall(s, event).1
  {
    SameKeys(pg.db, s.mem);
    if NextOp(s.threads.execs[event.id].pc).Some? { ExecCallAgrees(pg, s, event.id); }
    hide PgApply;
    hide MemApply;
    hide Represents;
    hide SysInv;
    hide NextOp;
    hide NumbersRefused;
    hide CanChoose;
  }

  // ---------- one event ----------

  lemma OnlyNewKey(s: MemSys, event: Event)
    ensures forall id :: id in MemCall(s, event).0.runs ==> id in s.mem.runs || (event.ApiSubmit? && id == event.newId)
  {
  }

  /** Only submissions and executor steps look at the reply. */
  lemma ReactionsMatch(pg: PgSys, s: MemSys, event: Event)
    requires Matches(pg, s) && PgEnabled(pg, event) && CallsMatch(pg, s, event)
    requires InMemory(pg, event) == event ==> event.ApiCall? || PgCall(pg, event).1 == MemCall(s, event).1
    ensures Matches(PgNext(pg, event), MemNext(s, InMemory(pg, event)))
  {
    SameKeys(pg.db, s.mem);
    SameKeys(PgCall(pg, event).0, MemCall(s, InMemory(pg, event)).0);
    OnlyNewKey(s, InMemory(pg, event));
    hide Represents;
    hide MemCall;
    hide AnsweredApart;
    hide AdvanceExec;
    hide Kahn.Order;
  }

  lemma CrashCallsMatch(pg: PgSys, s: MemSys, event: Event)
    requires Matches(pg, s) && PgEnabled(pg, event) && event.Crash?
    ensures CallsMatch(pg, s, event) && PgCall(pg, event).1 == MemCall(s, event).1
  {
    SameKeys(pg.db, s.mem);
    hide Represents;
  }

  lemma CallsMatchParts(pg: PgSys, s: MemSys, event: Event)
    requires CallsMatch(pg, s, event)
    ensures MemEnabled(s, InMemory(pg, event)) && RepliesMatch(pg, s, event)
  {
  }

  /** One event over PostgreSQL: the event that matches it leads memory to the ledger the
      tables represent and to the same threads, and the replies are equal if and only if
      the event is not one PostgreSQL answers differently. */
  lemma StepSimulates(pg: PgSys, s: MemSys, event: Event)
    requires Matches(pg, s) && SysInv(s) && PgEnabled(pg, event)
    ensures MemEnabled(s, InMemory(pg, event)) && Matches(PgNext(pg, event), MemNext(s, InMemory(pg, event)))
    ensures RepliesMatch(pg, s, event)
  {
    match event {
      case ApiSubmit(_, _, _, _, _, _) => SubmitCallsMatch(pg, s, event);
      case ApiCall(_, _, _) => ApiCallsMatch(pg, s, event);
      case ExecStep(_, _) => ExecCallsMatch(pg, s, event);
      case Crash(_) => CrashCallsMatch(pg, s, event);
    }
    hide *;
    CallsMatchParts(pg, s, event);
    ReactionsMatch(pg, s, event);
  }

  /** The same read or cancellation, spelled the same, is answered alike if and only if
      its id is a uuid, and in its shown form or of no run of the tenant. */
  lemma SameRequestAnswered(pg: PgSys, s: MemSys, event: Event)
    requires Matches(pg, s) && SysInv(s) && event.ApiCall? && event.tenant != ""
    requires event.op.Get? || event.op.Cancel?
    ensures PgCall(pg, event).1 == MemCall(s, event).1 <==>
      event.id in pg.uuids && (pg.uuids[event.id] == event.id || !Owns(s.mem.runs, event.tenant, pg.uuids[event.id]))
  {
    var ApiCall(tenant, id, op) := event;
    SameKeys(pg.db, s.mem);
    if id in pg.uuids {
      KnownApiCallMatches(pg.db, s, tenant, pg.uuids[id], op);
      if id != pg.uuids[id] { UnknownAgreesIff(pg.db, s.mem, tenant, id, op); }
    } else {
      UnknownAgreesIff(pg.db, s.mem, tenant, id, op);
    }
    hide PgApply;
    hide Represents;
    hide SysInv;
  }

  // ---------- whole runs ----------

  /** State by state the systems match, and event by event the replies do. */
  ghost predicate RunsMatch(pgs: seq<PgSys>, states: seq<MemSys>, events: seq<Event>) {
    && |pgs| == |states| == |events| + 1
    && (forall i :: 0 <= i <= |events| ==> Matches(pgs[i], states[i]))
    && (forall i :: 0 <= i < |events| ==> RepliesMatch(pgs[i], states[i], events[i]))
  }

  ghost function EventsInMemory(pgs: seq<PgSys>, events: seq<Event>): seq<Event>
    requires |events| <= |pgs|
  {
    seq(|events|, i requires 0 <= i < |events| => InMemory(pgs[i], events[i]))
  }

  lemma EmptyRuns(pgs: seq<PgSys>, events: seq<Event>, states: seq<MemSys>)
    requires PgRun(pgs, events) && events == [] && states == [INIT_MEM]
    ensures MemRun(states, EventsInMemory(pgs, events)) && RunsMatch(pgs, states, events)
  {
    assert EventsInMemory(pgs, events) == [];
  }

  lemma ShorterRun(pgs: seq<PgSys>, events: seq<Event>)
    requires PgRun(pgs, events) && events != []
    ensures |pgs| == |events| + 1 && PgRun(pgs[..|events|], events[..|events| - 1])
  {
  }

  lemma EventsShorter(pgs: seq<PgSys>, events: seq<Event>)
    requires events != [] && |pgs| == |events| + 1
    ensures |EventsInMemory(pgs, events)| == |events|
    ensures EventsInMemory(pgs, events)[..|events| - 1] == EventsInMemory(pgs[..|events|], events[..|events| - 1])
    ensures EventsInMemory(pgs, events)[|events| - 1] == InMemory(pgs[|events| - 1], events[|events| - 1])
  {
  }

  lemma LastMatches(pgs: seq<PgSys>, events: seq<Event>, front: seq<MemSys>)
    requires PgRun(pgs, events) && events != []
    requires RunsMatch(pgs[..|events|], front, events[..|events| - 1])
    ensures var n := |events| - 1;
      && |pgs| == |events| + 1 && |front| == |events| && Matches(pgs[n], front[n])
      && PgEnabled(pgs[n], events[n]) && pgs[n + 1] == PgNext(pgs[n], events[n])
  {
    var n := |events| - 1;
    assert pgs[..|events|][n] == pgs[n];
  }

  lemma LongerRun(front: seq<MemSys>, events: seq<Event>, states: seq<MemSys>)
    requires events != [] && MemRun(front, events[..|events| - 1])
    requires MemEnabled(front[|events| - 1], events[|events| - 1])
    requires states == front + [MemNext(front[|events| - 1], events[|events| - 1])]
    ensures MemRun(states, events)
  {
    forall i | 0 <= i < |events| ensures MemEnabled(states[i], events[i]) && states[i + 1] == MemNext(states[i], events[i]) {
      if i < |events| - 1 {
        assert states[i] == front[i] && states[i + 1] == front[i + 1] && events[..|events| - 1][i] == events[i];
      }
    }
  }

  lemma LongerMatch(pgs: seq<PgSys>, events: seq<Event>, front: seq<MemSys>, states: seq<MemSys>)
    requires |pgs| == |events| + 1 && |front| == |events| && events != []
    requires RunsMatch(pgs[..|events|], front, events[..|events| - 1])
    requires |states| == |events| + 1 && states[..|events|] == front
    requires Matches(pgs[|events|], states[|events|]) && RepliesMatch(pgs[|events| - 1], front[|events| - 1], events[|events| - 1])
    ensures RunsMatch(pgs, states, events)
  {
    hide Matches;
    hide RepliesMatch;
    var n := |events| - 1;
    forall i | 0 <= i <= |events| ensures Matches(pgs[i], states[i]) {
      if i <= n { assert Matches(pgs[..|events|][i], front[i]) && states[..|events|][i] == front[i]; }
    }
    forall i | 0 <= i < |events| ensures RepliesMatch(pgs[i], states[i], events[i]) {
      assert states[..|events|][i] == front[i];
      if i < n { assert RepliesMatch(pgs[..|events|][i], front[i], events[..n][i]); }
    }
  }

  /** Every run over PostgreSQL is matched by a run over memory of the matching events. */
  lemma {:induction false} PostgresRunIsMatched(pgs: seq<PgSys>, events: seq<Event>) returns (states: seq<MemSys>)
    requires PgRun(pgs, events)
    ensures MemRun(states, EventsInMemory(pgs, events)) && RunsMatch(pgs, states, events)
    decreases |events|
  {
    hide *;
    if events == [] {
      states := [INIT_MEM];
      EmptyRuns(pgs, events, states);
    } else {
      var n := |events| - 1;
      ShorterRun(pgs, events);
      var front := PostgresRunIsMatched(pgs[..|events|], events[..n]);
      EventsShorter(pgs, events);
      RunKeepsInv(front, EventsInMemory(pgs, events)[..n], n);
      LastMatches(pgs, events, front);
      StepSimulates(pgs[n], front[n], events[n]);
      states := front + [MemNext(front[n], InMemory(pgs[n], events[n]))];
      LongerRun(front, EventsInMemory(pgs, events), states);
      LongerMatch(pgs, events, front, states);
    }
  }

  lemma RepresentedStatus(pg: PgSys, s: MemSys, id: RunId)
    requires Matches(pg, s) && id in pg.db.runs
    ensures id in s.mem.runs && s.mem.runs[id].status == pg.db.runs[id].run.status
  {
    assert RunRepresented(pg.db.runs[id], id, s.mem.runs[id]);
  }

  lemma KeyColumnIsThreadKey(pg: PgSys, s: MemSys, id: RunId)
    requires Matches(pg, s) && SysInv(s) && id in pg.db.runs
    ensures id in s.threads.execs && pg.db.runs[id].run.key == s.threads.execs[id].key
  {
    assert KeyColumn(pg.db, id);
    assert KeyOk(s, (pg.db.runs[id].run.tenant, pg.db.runs[id].run.key));
  }

  lemma SameRecordSameRows(a: Db, mem: Mem, b: Db, mem': Mem, id: RunId)
    requires Represents(a, mem) && Represents(b, mem') && id in mem.runs && id in mem'.runs
    requires mem.runs[id] == mem'.runs[id] && a.runs[id].run.key == b.runs[id].run.key
    ensures a.runs[id] == b.runs[id]
  {
    assert RunRepresented(a.runs[id], id, mem.runs[id]) && RunRepresented(b.runs[id], id, mem'.runs[id]);
    assert a.runs[id].steps == b.runs[id].steps;
  }

  /** Over PostgreSQL too, the rows of a terminal run never change again. */
  lemma PostgresTerminalIsForever(pgs: seq<PgSys>, events: seq<Event>, i: nat, j: nat, id: RunId)
    requires PgRun(pgs, events) && i <= j <= |events|
    requires id in pgs[i].db.runs && Terminal(pgs[i].db.runs[id].run.status)
    ensures id in pgs[j].db.runs && pgs[j].db.runs[id] == pgs[i].db.runs[id]
  {
    var states := PostgresRunIsMatched(pgs, events);
    var matching := EventsInMemory(pgs, events);
    assert Matches(pgs[i], states[i]) && Matches(pgs[j], states[j]);
    RepresentedStatus(pgs[i], states[i], id);
    TerminalIsForever(states, matching, i, j, id);
    RunKeepsInv(states, matching, i);
    RunKeepsInv(states, matching, j);
    OwnRun(states[i], id);
    RunsEvolve(states, matching, i, j, id);
    KeyColumnIsThreadKey(pgs[i], states[i], id);
    KeyColumnIsThreadKey(pgs[j], states[j], id);
    SameRecordSameRows(pgs[i].db, states[i].mem, pgs[j].db, states[j].mem, id);
  }
}
