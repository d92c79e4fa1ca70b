/** The operator and the backend running together over PostgreSQL: every such run is one
    over memory with the same worlds, so the operator's promises are promises about the
    rows of the tables. */
module JointPostgres {
  import opened Wrappers
  import opened Status
  import opened LedgerView
  import opened BackendLedger
  import opened Operator
  import opened OperatorSafety
  import opened OperatorRuns
  import opened OperatorBackend
  import opened Database
  import opened Protocol
  import opened ProtocolSimulation
  import opened JointRuns
  import ProtocolSafety
  import Simulation
  import L = Ledger

  /** The ledger the tables hold. */
  ghost function PgView(pg: PgSys): View {
    map id | id in pg.db.runs :: Run(pg.db.runs[id].run.tenant, pg.db.runs[id].run.key, pg.db.runs[id].run.status)
  }

  ghost predicate PgReady(pg: PgSys, step: Step) {
    EventOf(step).Some? ==> PgEnabled(pg, EventOf(step).value)
  }

  ghost function PgAfter(pg: PgSys, step: Step): PgSys
    requires PgReady(pg, step)
  {
    if EventOf(step).Some? then PgNext(pg, EventOf(step).value) else pg
  }

  ghost function PgReply(pg: PgSys, step: Step): L.Reply {
    if EventOf(step).Some? then PgCall(pg, EventOf(step).value).1 else L.Ack(true)
  }

  ghost function PgMove(w: World, pg: PgSys, step: Step): Move
    requires CanStep(w, step) && PgReady(pg, step)
  {
    MoveOf(w, step, PgReply(pg, step), PgView(PgAfter(pg, step)))
  }

  ghost predicate PgStep(w: World, pg: PgSys, step: Step, w': World, pg': PgSys) {
    && CanStep(w, step) && PgReady(pg, step) && pg' == PgAfter(pg, step)
    && (CanMove(w, PgMove(w, pg, step)) ==> w' == Apply(w, PgMove(w, pg, step)))
  }

  ghost predicate PgJointRun(worlds: seq<World>, pgs: seq<PgSys>, steps: seq<Step>) {
    && |worlds| == |pgs| == |steps| + 1 && Fresh(worlds[0]) && worlds[0].ledger == map[]
    && pgs[0] == InitPg(pgs[0].uuids) && Spellings(pgs[0].uuids)
    && forall n :: 0 <= n < |steps| ==> PgStep(worlds[n], pgs[n], steps[n], worlds[n + 1], pgs[n + 1])
  }

  // ---------- one step ----------

  /** The step over memory that matches one over PostgreSQL. */
  ghost function StepInMemory(pg: PgSys, step: Step): Step {
    match step
    case Backend(event) => Backend(InMemory(pg, event))
    case _ => step
  }

  lemma SameThreads(s: MemSys)
    requires ProtocolSafety.SysInv(s)
    ensures s.mem.runs.Keys == s.threads.execs.Keys
  {
  }

  lemma RepresentedTenant(pg: PgSys, s: MemSys, id: L.RunId)
    requires Matches(pg, s) && id in pg.db.runs
    ensures id in s.mem.runs && s.mem.runs[id].tenant == pg.db.runs[id].run.tenant
  {
    assert RunRepresented(pg.db.runs[id], id, s.mem.runs[id]);
  }

  lemma RunsAgree(pg: PgSys, s: MemSys, id: L.RunId)
    requires Matches(pg, s) && ProtocolSafety.SysInv(s) && id in pg.db.runs
    ensures id in s.mem.runs && id in s.threads.execs
    ensures var row := pg.db.runs[id].run;
      row.tenant == s.mem.runs[id].tenant && row.key == s.threads.execs[id].key && row.status == s.mem.runs[id].status
  {
    KeyColumnIsThreadKey(pg, s, id);
    RepresentedStatus(pg, s, id);
    RepresentedTenant(pg, s, id);
    hide *;
  }

  lemma ViewsAgree(pg: PgSys, s: MemSys)
    requires Matches(pg, s) && ProtocolSafety.SysInv(s)
    ensures PgView(pg) == ViewOf(s)
  {
    SameKeys(pg.db, s.mem);
    SameThreads(s);
    hide Matches;
    hide ProtocolSafety.SysInv;
    forall id | id in pg.db.runs ensures id in PgView(pg) && id in ViewOf(s) && PgView(pg)[id] == ViewOf(s)[id] {
      RunsAgree(pg, s, id);
    }
  }

  lemma RequestedIdIsCanonical(w: World, pg: PgSys, s: MemSys, step: Step)
    requires Good(w, s) && Matches(pg, s) && step.Request? && CanStep(w, step) && !step.event.ApiSubmit?
    ensures step.event.ApiCall? && (step.event.op.Get? || step.event.op.Cancel?) && Canonical(pg.uuids, step.event.id)
  {
    assert WorkerOk(w, w.workers[step.k]);
    var cr := w.workers[step.k].cr;
    assert VersionOk(w, cr.version);
    assert cr.status.backendRunId in ViewOf(s);
    SameKeys(pg.db, s.mem);
  }

  /** A reconciler's request names its run as PostgreSQL shows it, so it is its own match. */
  lemma RequestIsItsMatch(w: World, pg: PgSys, s: MemSys, step: Step)
    requires Good(w, s) && Matches(pg, s) && step.Request? && CanStep(w, step) && PgReady(pg, step)
    ensures InMemory(pg, step.event) == step.event
    ensures PgCall(pg, step.event).1 == MemCall(s, step.event).1
  {
    if step.event.ApiSubmit? {
      SubmitCallsMatch(pg, s, step.event);
    } else {
      RequestedIdIsCanonical(w, pg, s, step);
      StepSimulates(pg, s, step.event);
      hide Matches;
      hide PgCall;
      hide MemCall;
    }
  }

  lemma StepCorresponds(w: World, pg: PgSys, s: MemSys, step: Step)
    requires CanStep(w, step) && PgReady(pg, step) && Matches(pg, s)
    requires EventOf(step).Some? ==>
      && MemEnabled(s, InMemory(pg, EventOf(step).value))
      && Matches(PgNext(pg, EventOf(step).value), MemNext(s, InMemory(pg, EventOf(step).value)))
    requires step.Request? ==> InMemory(pg, step.event) == step.event && PgCall(pg, step.event).1 == MemCall(s, step.event).1
    ensures CanStep(w, StepInMemory(pg, step)) && MemReady(s, StepInMemory(pg, step))
    ensures Matches(PgAfter(pg, step), MemAfter(s, StepInMemory(pg, step)))
    ensures step.Request? ==> PgReply(pg, step) == MemReply(s, StepInMemory(pg, step))
    ensures step.Backend? == StepInMemory(pg, step).Backend? && (!step.Backend? ==> StepInMemory(pg, step) == step)
  {
    hide Matches;
    hide InMemory;
    hide PgNext;
    hide MemNext;
    hide PgCall;
    hide MemCall;
    hide MemEnabled;
    hide PgEnabled;
    hide CanMove;
  }

  lemma AfterIsSound(s: MemSys, step: Step, w: World)
    requires Good(w, s) && MemReady(s, step)
    ensures ProtocolSafety.SysInv(MemAfter(s, step))
  {
    if EventOf(step).Some? { ProtocolSafety.StepIsGood(s, EventOf(step).value); }
    hide ProtocolSafety.SysInv;
    hide MemNext;
  }

  lemma SameMove(w: World, pg: PgSys, s: MemSys, step: Step)
    requires Good(w, s) && Matches(pg, s) && CanStep(w, step) && PgReady(pg, step)
    requires CanStep(w, StepInMemory(pg, step)) && MemReady(s, StepInMemory(pg, step))
    requires Matches(PgAfter(pg, step), MemAfter(s, StepInMemory(pg, step)))
    requires step.Request? ==> PgReply(pg, step) == MemReply(s, StepInMemory(pg, step))
    requires step.Backend? == StepInMemory(pg, step).Backend? && (!step.Backend? ==> StepInMemory(pg, step) == step)
    ensures PgMove(w, pg, step) == MemMove(w, s, StepInMemory(pg, step))
  {
    AfterIsSound(s, StepInMemory(pg, step), w);
    ViewsAgree(PgAfter(pg, step), MemAfter(s, StepInMemory(pg, step)));
    hide Matches;
    hide PgAfter;
    hide MemAfter;
    hide StepInMemory;
    hide PgReply;
    hide MemReply;
    hide PgView;
    hide ViewOf;
    hide Heard;
    hide RequestMove;
    hide Good;
  }

  lemma FollowsMemory(w: World, pg: PgSys, s: MemSys, step: Step, w': World, pg': PgSys)
    requires Good(w, s) && PgStep(w, pg, step, w', pg')
    requires CanStep(w, step) && PgReady(pg, step)
    requires CanStep(w, StepInMemory(pg, step)) && MemReady(s, StepInMemory(pg, step))
    requires Matches(PgAfter(pg, step), MemAfter(s, StepInMemory(pg, step)))
    requires PgMove(w, pg, step) == MemMove(w, s, StepInMemory(pg, step))
    ensures var step' := StepInMemory(pg, step);
      MemStep(w, s, step', w', MemAfter(s, step')) && Matches(pg', MemAfter(s, step')) && Good(w', MemAfter(s, step'))
  {
    var step' := StepInMemory(pg, step);
    assert MemStep(w, s, step', w', MemAfter(s, step')) by {
      hide CanMove;
      hide Apply;
      hide PgMove;
      hide MemMove;
      hide Matches;
    }
    assert pg' == PgAfter(pg, step);
    hide *;
    StepIsAMove(w, s, step', w', MemAfter(s, step'));
  }

  /** A step over PostgreSQL is matched by one over memory with the same worlds. */
  lemma StepIsMatched(w: World, pg: PgSys, s: MemSys, step: Step, w': World, pg': PgSys)
    requires Good(w, s) && Matches(pg, s) && PgStep(w, pg, step, w', pg')
    ensures var step' := StepInMemory(pg, step);
      MemReady(s, step') && MemStep(w, s, step', w', MemAfter(s, step')) && Matches(pg', MemAfter(s, step'))
      && Good(w', MemAfter(s, step'))
  {
    var step' := StepInMemory(pg, step);
    if EventOf(step).Some? { StepSimulates(pg, s, EventOf(step).value); }
    if step.Request? { RequestIsItsMatch(w, pg, s, step); }
    hide *;
    StepCorresponds(w, pg, s, step);
    SameMove(w, pg, s, step);
    FollowsMemory(w, pg, s, step, w', pg');
  }

  // ---------- whole runs ----------

  ghost predicate MatchedUpTo(worlds: seq<World>, pgs: seq<PgSys>, steps: seq<Step>, states: seq<MemSys>, n: nat)
    requires |worlds| == |pgs| == |steps| + 1 && n <= |steps|
  {
    && |states| == n + 1 && states[0] == INIT_MEM
    && (forall i :: 0 <= i <= n ==> Matches(pgs[i], states[i]) && Good(worlds[i], states[i]))
    && forall i :: 0 <= i < n ==> MemStep(worlds[i], states[i], StepInMemory(pgs[i], steps[i]), worlds[i + 1], states[i + 1])
  }

  lemma StartMatches(w: World, pg: PgSys)
    requires Fresh(w) && w.ledger == map[] && pg == InitPg(pg.uuids) && Spellings(pg.uuids)
    ensures Matches(pg, INIT_MEM) && Good(w, INIT_MEM)
  {
    StartIsGood(w, INIT_MEM);
  }

  lemma MatchesAtStart(worlds: seq<World>, pgs: seq<PgSys>, steps: seq<Step>) returns (states: seq<MemSys>)
    requires PgJointRun(worlds, pgs, steps)
    ensures MatchedUpTo(worlds, pgs, steps, states, 0)
  {
    hide Matches;
    hide Good;
    hide MemStep;
    hide PgStep;
    hide Fresh;
    StartMatches(worlds[0], pgs[0]);
    states := [INIT_MEM];
  }

  lemma StepOf(worlds: seq<World>, pgs: seq<PgSys>, steps: seq<Step>, n: nat)
    requires PgJointRun(worlds, pgs, steps) && n < |steps|
    ensures |worlds| == |pgs| == |steps| + 1 && PgStep(worlds[n], pgs[n], steps[n], worlds[n + 1], pgs[n + 1])
  {
  }

  lemma LastMatches(worlds: seq<World>, pgs: seq<PgSys>, steps: seq<Step>, states: seq<MemSys>, n: nat)
    requires |worlds| == |pgs| == |steps| + 1 && n <= |steps| && MatchedUpTo(worlds, pgs, steps, states, n)
    ensures |states| == n + 1 && Matches(pgs[n], states[n]) && Good(worlds[n], states[n])
  {
  }

  lemma LongerMatches(worlds: seq<World>, pgs: seq<PgSys>, steps: seq<Step>, front: seq<MemSys>, states: seq<MemSys>, n: nat)
    requires |worlds| == |pgs| == |steps| + 1 && 0 < n <= |steps| && MatchedUpTo(worlds, pgs, steps, front, n - 1)
    requires |states| == n + 1 && states[..n] == front && Matches(pgs[n], states[n]) && Good(worlds[n], states[n])
    requires MemStep(worlds[n - 1], states[n - 1], StepInMemory(pgs[n - 1], steps[n - 1]), worlds[n], states[n])
    ensures MatchedUpTo(worlds, pgs, steps, states, n)
  {
    hide Matches;
    hide Good;
    hide MemStep;
    hide StepInMemory;
    forall i | 0 <= i < n ensures states[i] == front[i] {
      assert states[..n][i] == front[i];
    }
  }

  lemma {:induction false} MatchPrefix(worlds: seq<World>, pgs: seq<PgSys>, steps: seq<Step>, n: nat) returns (states: seq<MemSys>)
    requires PgJointRun(worlds, pgs, steps) && n <= |steps|
    ensures MatchedUpTo(worlds, pgs, steps, states, n)
  {
    hide *;
    if n == 0 {
      states := MatchesAtStart(worlds, pgs, steps);
    } else {
      var front := MatchPrefix(worlds, pgs, steps, n - 1);
      StepOf(worlds, pgs, steps, n - 1);
      LastMatches(worlds, pgs, steps, front, n - 1);
      StepIsMatched(worlds[n - 1], pgs[n - 1], front[n - 1], steps[n - 1], worlds[n], pgs[n]);
      states := front + [MemAfter(front[n - 1], StepInMemory(pgs[n - 1], steps[n - 1]))];
      LongerMatches(worlds, pgs, steps, front, states, n);
    }
  }

  ghost function StepsInMemory(pgs: seq<PgSys>, steps: seq<Step>): seq<Step>
    requires |steps| <= |pgs|
  {
    seq(|steps|, n requires 0 <= n < |steps| => StepInMemory(pgs[n], steps[n]))
  }

  /** Every joint run over PostgreSQL is matched by one over memory with the same worlds. */
  lemma PostgresJointRunIsMatched(worlds: seq<World>, pgs: seq<PgSys>, steps: seq<Step>) returns (states: seq<MemSys>)
    requires PgJointRun(worlds, pgs, steps)
    ensures JointRun(worlds, states, StepsInMemory(pgs, steps))
    ensures forall n :: 0 <= n < |pgs| ==> Matches(pgs[n], states[n])
  {
    states := MatchPrefix(worlds, pgs, steps, |steps|);
    hide Matches;
    hide Good;
    hide MemStep;
    hide PgStep;
    hide Fresh;
  }

  /** A stored terminal phase is the status in the recorded run's row, then and ever after. */
  lemma TerminalPhaseAgreesWithRow(worlds: seq<World>, pgs: seq<PgSys>, steps: seq<Step>, i: nat, j: nat, v: nat)
    requires PgJointRun(worlds, pgs, steps) && i <= j < |worlds| && v < |worlds[i].history|
    ensures var s := worlds[i].history[v].status;
      s.backendRunId != "" && IsTerminal(s.phase) ==>
        s.backendRunId in pgs[j].db.runs && PhaseOf(pgs[j].db.runs[s.backendRunId].run.status) == s.phase
  {
    var states := PostgresJointRunIsMatched(worlds, pgs, steps);
    TerminalPhaseAgreesWithRecord(worlds, states, StepsInMemory(pgs, steps), i, j, v);
    SameKeys(pgs[j].db, states[j].mem);
    var id := worlds[i].history[v].status.backendRunId;
    if id in pgs[j].db.runs { RepresentedStatus(pgs[j], states[j], id); }
  }

  /** Every submission reached one row, of its tenant and key; submissions share a row
      exactly when they share tenant and key. */
  lemma OneRowPerKey(worlds: seq<World>, pgs: seq<PgSys>, steps: seq<Step>, n: nat, i: nat, j: nat)
    requires PgJointRun(worlds, pgs, steps) && n < |worlds|
    requires i < |worlds[n].submissions| && j < |worlds[n].submissions|
    ensures var a, b, pg := worlds[n].submissions[i], worlds[n].submissions[j], pgs[n];
      && a.id in pg.db.runs && pg.db.runs[a.id].run.tenant == a.tenant && pg.db.runs[a.id].run.key == a.key
      && a.id in pg.threads.spawned && ProtocolSafety.SpawnedOnce(pg.threads)
      && (a.id == b.id <==> a.tenant == b.tenant && a.key == b.key)
  {
    var states := PostgresJointRunIsMatched(worlds, pgs, steps);
    OneRecordPerKey(worlds, states, StepsInMemory(pgs, steps), n, i, j);
    JointIsGood(worlds, states, StepsInMemory(pgs, steps), n);
    SameKeys(pgs[n].db, states[n].mem);
    var id := worlds[n].submissions[i].id;
    KeyColumnIsThreadKey(pgs[n], states[n], id);
    RepresentedTenant(pgs[n], states[n], id);
    hide WorldInv;
    hide ProtocolSafety.SysInv;
    hide Represents;
  }
}
