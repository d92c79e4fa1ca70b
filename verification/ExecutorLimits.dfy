/** Runs the backend does not prevent: answers of the external runtime that kill the
    executor, one that has a step attempted too often, and a number PostgreSQL refuses. */
module ExecutorLimits {
  import opened Wrappers
  import opened Ledger
  import opened Runtime
  import opened Executor
  import opened ExecutorInvariant
  import opened Protocol
  import opened ProtocolSafety
  import opened Submission
  import opened Specs
  import opened Database
  import opened ProtocolSimulation
  import opened PostgresDeath
  import Simulation
  import Graph
  import Kahn

  // ---------- one AgentRun's submission ----------

  const ID: RunId := "1"

  const SPEC := RunSpec("agent", "task", None, 1, 0, "k", false)

  const AGENT := AgentSpec("", "", "", "", 0, [], "", "", "")

  const RAWS := RequestSpecs(ProjectNodes(SPEC, AGENT))

  const SUBMIT := ApiSubmit("t", "task", None, "k", ProjectNodes(SPEC, AGENT), ID)

  const CREATED := NewRecord(ID, "t", None, "task", NewSteps(RAWS))

  const THREAD := NewExec("t", "k", SpecsOf(RAWS), [0])

  ghost predicate At(s: MemSys, record: Record, exec: Exec) {
    SysInv(s) && ID in s.mem.runs && ID in s.threads.execs && s.mem.runs[ID] == record && s.threads.execs[ID] == exec
  }

  lemma OneStepOrder()
    ensures RawNodes(RAWS) == [Graph.Node("main", [])] && Kahn.Order(RawNodes(RAWS)) == Some([0])
  {
    var nodes := [Graph.Node("main", [])];
    SubmittedGraph(SPEC, AGENT);
    SingleNodeIsValid("main");
    Kahn.OrderIffValid(nodes);
    Kahn.OrderIsTopological(nodes);
    var order := Kahn.Order(nodes).value;
    assert order[0] in order;
    assert order == [0];
  }

  lemma SubmitIsCall()
    ensures CallOf(NO_THREADS, SUBMIT) == Some(Submit("t", "task", None, "k", RAWS, ID))
    ensures |CREATED.steps| == 1 && CREATED.steps[0] == NewStep(Spec("main", "task", "", [], 0, "", 0))
  {
    OneStepOrder();
    hide Kahn.Order;
  }

  lemma SubmitNext()
    ensures MemEnabled(INIT_MEM, SUBMIT)
    ensures MemNext(INIT_MEM, SUBMIT) == Inserted(INIT_MEM, ID, CREATED, THREAD)
  {
    SubmitIsCall();
    OneStepOrder();
    hide CallOf;
    hide Kahn.Order;
    hide ProjectNodes;
    hide RequestSpecs;
  }

  lemma SubmitLeads()
    ensures MemEnabled(INIT_MEM, SUBMIT) && At(MemNext(INIT_MEM, SUBMIT), CREATED, THREAD)
  {
    SubmitNext();
    InitIsOk();
    StepIsGood(INIT_MEM, SUBMIT);
    hide MemNext;
    hide SysInv;
  }

  // ---------- runs over memory ----------

  /** A run at whose end the submitted run has this record and this thread. */
  ghost predicate Leads(states: seq<MemSys>, events: seq<Event>, record: Record, exec: Exec) {
    MemRun(states, events) && At(states[|events|], record, exec)
  }

  lemma RunGrows(states: seq<MemSys>, events: seq<Event>, event: Event)
    requires MemRun(states, events) && MemEnabled(states[|events|], event)
    ensures MemRun(states + [MemNext(states[|events|], event)], events + [event])
  {
    hide MemEnabled;
    hide MemNext;
  }

  lemma EmptyRun()
    ensures MemRun([INIT_MEM], [])
  {
  }

  lemma LeadsAtEnd(states: seq<MemSys>, events: seq<Event>, record: Record, exec: Exec)
    requires MemRun(states, events) && |states| == |events| + 1 && At(states[|events|], record, exec)
    ensures Leads(states, events, record, exec)
  {
  }

  lemma Submitted() returns (states: seq<MemSys>, events: seq<Event>)
    ensures Leads(states, events, CREATED, THREAD) && events == [SUBMIT]
  {
    SubmitLeads();
    hide *;
    events := [SUBMIT];
    states := [INIT_MEM, MemNext(INIT_MEM, SUBMIT)];
    EmptyRun();
    RunGrows([INIT_MEM], [], SUBMIT);
    assert [INIT_MEM] + [states[1]] == states && [] + [SUBMIT] == events;
    LeadsAtEnd(states, events, CREATED, THREAD);
  }

  /** A step of the thread leads where the machine says. */
  lemma OwnStepLeads(s: MemSys, record: Record, exec: Exec, choice: Choice)
    requires At(s, record, exec) && !exec.crashed && !Ended(exec.pc) && CanChoose(exec.pc, choice)
    ensures var event := ExecStep(ID, choice);
      && MemEnabled(s, event)
      && At(MemNext(s, event), StepExec(record, exec, choice).0, StepExec(record, exec, choice).1)
  {
    var event := ExecStep(ID, choice);
    ExecStepEffect(s, event);
    StepIsGood(s, event);
    hide SysInv;
    hide StepExec;
    hide MemNext;
    hide CanChoose;
  }

  lemma Go(states: seq<MemSys>, events: seq<Event>, record: Record, exec: Exec, choice: Choice)
    returns (states': seq<MemSys>, events': seq<Event>)
    requires Leads(states, events, record, exec) && !exec.crashed && !Ended(exec.pc) && CanChoose(exec.pc, choice)
    ensures Leads(states', events', StepExec(record, exec, choice).0, StepExec(record, exec, choice).1)
    ensures events' == events + [ExecStep(ID, choice)] && |states| == |events| + 1 && states'[..|states|] == states
  {
    var event := ExecStep(ID, choice);
    OwnStepLeads(states[|events|], record, exec, choice);
    RunGrows(states, events, event);
    states', events' := states + [MemNext(states[|events|], event)], events + [event];
    hide *;
    LeadsAtEnd(states', events', StepExec(record, exec, choice).0, StepExec(record, exec, choice).1);
  }

  // ---------- an external run ----------

  function Answer(steps: seq<Option<ExternalStep>>): ExternalRun {
    ExternalRun(Some("running"), "", true, steps)
  }

  function Entry(hashable: bool, status: string, numbers: Option<Usage>): ExternalStep {
    ExternalStep(Some("main"), hashable, Some(status), "", numbers, "boom")
  }

  const STARTED := CREATED.(status := Running, summary := "execution running")

  const RUNNING := STARTED.(runtimeRunId := Some("x"))

  const TIMER := StartTimer(0.0, None, None)

  function Reader(pc: Pc): Exec {
    THREAD.(mode := External, pc := pc)
  }

  /** The thread may make this choice and then is there. */
  ghost predicate Moves(record: Record, exec: Exec, choice: Choice, record': Record, exec': Exec) {
    !exec.crashed && !Ended(exec.pc) && CanChoose(exec.pc, choice) && StepExec(record, exec, choice) == (record', exec')
  }

  lemma GoTo(states: seq<MemSys>, events: seq<Event>, record: Record, exec: Exec, choice: Choice, record': Record, exec': Exec)
    returns (states': seq<MemSys>, events': seq<Event>)
    requires Leads(states, events, record, exec) && Moves(record, exec, choice, record', exec')
    ensures Leads(states', events', record', exec')
    ensures events' == events + [ExecStep(ID, choice)] && |states| == |events| + 1 && states'[..|states|] == states
  {
    states', events' := Go(states, events, record, exec, choice);
    hide Leads;
    hide StepExec;
    hide CanChoose;
  }

  function Accepting(run: ExternalRun): Choice {
    Accepted("x", run, 0.0, None, None)
  }

  lemma ExternalMoves(run: ExternalRun)
    ensures Moves(CREATED, THREAD, NoChoice, STARTED, THREAD.(pc := AtGet))
    ensures Moves(STARTED, THREAD.(pc := AtGet), UseExternal, STARTED, Reader(AtRuntimeSubmit))
    ensures Moves(STARTED, Reader(AtRuntimeSubmit), Accepting(run), STARTED, Reader(AtSetRuntime("x", run, TIMER)))
    ensures Moves(STARTED, Reader(AtSetRuntime("x", run, TIMER)), NoChoice, RUNNING, Reader(AtSyncGet(run, TIMER)))
  {
  }

  /** The events up to there. */
  function Reading(run: ExternalRun): seq<Event> {
    [SUBMIT, ExecStep(ID, NoChoice), ExecStep(ID, UseExternal), ExecStep(ID, Accepting(run)), ExecStep(ID, NoChoice)]
  }

  lemma UsingExternal() returns (states: seq<MemSys>, events: seq<Event>)
    ensures Leads(states, events, STARTED, Reader(AtRuntimeSubmit))
    ensures events == [SUBMIT] + [ExecStep(ID, NoChoice)] + [ExecStep(ID, UseExternal)]
  {
    ExternalMoves(Answer([]));
    hide *;
    states, events := Submitted();
    states, events := GoTo(states, events, CREATED, THREAD, NoChoice, STARTED, THREAD.(pc := AtGet));
    states, events := GoTo(states, events, STARTED, THREAD.(pc := AtGet), UseExternal, STARTED, Reader(AtRuntimeSubmit));
  }

  /** The external runtime accepts the run and its first answer is about to be read. */
  lemma ReadingFirstAnswer(run: ExternalRun) returns (states: seq<MemSys>, events: seq<Event>)
    ensures Leads(states, events, RUNNING, Reader(AtSyncGet(run, TIMER)))
    ensures events == Reading(run)
  {
    ExternalMoves(run);
    assert Reading(run) == [SUBMIT] + [ExecStep(ID, NoChoice)] + [ExecStep(ID, UseExternal)] + [ExecStep(ID, Accepting(run))] + [ExecStep(ID, NoChoice)];
    hide *;
    states, events := UsingExternal();
    states, events := GoTo(states, events, STARTED, Reader(AtRuntimeSubmit), Accepting(run), STARTED, Reader(AtSetRuntime("x", run, TIMER)));
    states, events := GoTo(states, events, STARTED, Reader(AtSetRuntime("x", run, TIMER)), NoChoice, RUNNING, Reader(AtSyncGet(run, TIMER)));
  }

  /** The thread is dead, and the run left running by nobody's cancellation. */
  ghost predicate LeftRunning(states: seq<MemSys>, events: seq<Event>) {
    && MemRun(states, events) && ID in states[|events|].mem.runs && ID in states[|events|].threads.execs
    && states[|events|].threads.execs[ID].pc.Died?
    && states[|events|].mem.runs[ID].status == Running && !states[|events|].mem.runs[ID].cancelled
  }

  lemma DeadAndRunning(states: seq<MemSys>, events: seq<Event>, record: Record)
    requires Leads(states, events, record, Reader(Died)) && record.status == Running && !record.cancelled
    ensures LeftRunning(states, events)
  {
  }

  /** One more step, after which the thread is dead. */
  lemma ReadToDeath(run: ExternalRun) returns (states: seq<MemSys>, events: seq<Event>)
    requires Moves(RUNNING, Reader(AtSyncGet(run, TIMER)), NoChoice, RUNNING, Reader(Died))
    ensures LeftRunning(states, events) && events == Reading(run) + [ExecStep(ID, NoChoice)]
  {
    assert RUNNING.status == Running && !RUNNING.cancelled;
    hide *;
    states, events := ReadingFirstAnswer(run);
    states, events := GoTo(states, events, RUNNING, Reader(AtSyncGet(run, TIMER)), NoChoice, RUNNING, Reader(Died));
    DeadAndRunning(states, events, RUNNING);
  }

  /** An answer whose steps are no list kills the thread that reads it. */
  lemma NoListKills() returns (states: seq<MemSys>, events: seq<Event>)
    ensures LeftRunning(states, events)
    ensures events == Reading(ExternalRun(Some("running"), "", false, [])) + [ExecStep(ID, NoChoice)]
  {
    states, events := ReadToDeath(ExternalRun(Some("running"), "", false, []));
  }

  /** So does an entry whose name cannot be looked up. */
  lemma UnhashableNameKills() returns (states: seq<MemSys>, events: seq<Event>)
    ensures LeftRunning(states, events)
    ensures events == Reading(Answer([Some(Entry(false, "running", Some(Usage(0, 0, 0))))])) + [ExecStep(ID, NoChoice)]
  {
    states, events := ReadToDeath(Answer([Some(Entry(false, "running", Some(Usage(0, 0, 0))))]));
  }

  function FirstEntry(run: ExternalRun): Sync {
    Sync(RUNNING.steps, run, 0, TIMER)
  }

  lemma EntryTarget(run: ExternalRun, k: nat, status: string)
    requires k < |run.steps| && run.steps[k] == Some(Entry(true, status, None)) && status in ["succeeded", "failed"]
    ensures Target(FirstEntry(run).(k := k)) == Some((0, status))
  {
    assert RUNNING.steps == [NewStep(NormalizeSpec(RAWS[0]))] && RAWS[0].nodeId == "main";
    assert FindNode(RUNNING.steps, "main") == Some(0);
    assert Lower("succeeded") == "succeeded" && Lower("failed") == "failed";
  }

  const ATTEMPTED := SetStep(RUNNING, 0, StartedStep(RUNNING.steps[0]))

  lemma BadNumbersMoves(run: ExternalRun)
    requires run == Answer([Some(Entry(true, "succeeded", None))])
    ensures Moves(RUNNING, Reader(AtSyncGet(run, TIMER)), NoChoice, RUNNING, Reader(AtSyncStart(FirstEntry(run))))
    ensures Moves(RUNNING, Reader(AtSyncStart(FirstEntry(run))), NoChoice, ATTEMPTED, Reader(Died))
    ensures ATTEMPTED.status == Running && !ATTEMPTED.cancelled
  {
    EntryTarget(run, 0, "succeeded");
    hide Target;
    hide NormalizeStatus;
    hide StartTimer;
    hide NewSteps;
  }

  /** So does a step that has succeeded with numbers that are none, once it was started. */
  lemma BadNumbersKill() returns (states: seq<MemSys>, events: seq<Event>)
    ensures LeftRunning(states, events)
    ensures events == Reading(Answer([Some(Entry(true, "succeeded", None))])) + [ExecStep(ID, NoChoice), ExecStep(ID, NoChoice)]
  {
    var run := Answer([Some(Entry(true, "succeeded", None))]);
    var sync := FirstEntry(run);
    BadNumbersMoves(run);
    hide *;
    states, events := ReadingFirstAnswer(run);
    states, events := GoTo(states, events, RUNNING, Reader(AtSyncGet(run, TIMER)), NoChoice, RUNNING, Reader(AtSyncStart(sync)));
    states, events := GoTo(states, events, RUNNING, Reader(AtSyncStart(sync)), NoChoice, ATTEMPTED, Reader(Died));
    DeadAndRunning(states, events, ATTEMPTED);
  }

  // ---------- an answer that names a step twice ----------

  const FAILED := SetStep(ATTEMPTED, 0, FailedStep(ATTEMPTED.steps[0], "boom"))

  const AGAIN := SetStep(FAILED, 0, StartedStep(FAILED.steps[0]))

  const TWICE := Answer([Some(Entry(true, "failed", None)), Some(Entry(true, "failed", None))])

  lemma FirstEntryMoves()
    ensures var first := FirstEntry(TWICE);
      && Moves(RUNNING, Reader(AtSyncGet(TWICE, TIMER)), NoChoice, RUNNING, Reader(AtSyncStart(first)))
      && Moves(RUNNING, Reader(AtSyncStart(first)), NoChoice, ATTEMPTED, Reader(AtSyncFinish(first)))
  {
    EntryTarget(TWICE, 0, "failed");
    EntryTarget(TWICE, 1, "failed");
    hide Target;
    hide NormalizeStatus;
    hide StartTimer;
    hide NewSteps;
  }

  lemma SecondEntryMoves()
    ensures var first, second := FirstEntry(TWICE), FirstEntry(TWICE).(k := 1);
      && Moves(ATTEMPTED, Reader(AtSyncFinish(first)), NoChoice, FAILED, Reader(AtSyncStart(second)))
      && Moves(FAILED, Reader(AtSyncStart(second)), NoChoice, AGAIN, Reader(AtSyncFinish(second)))
  {
    EntryTarget(TWICE, 0, "failed");
    EntryTarget(TWICE, 1, "failed");
    hide Target;
    hide NormalizeStatus;
    hide StartTimer;
    hide NewSteps;
  }

  lemma AttemptedTwice(states: seq<MemSys>, events: seq<Event>, exec: Exec)
    requires Leads(states, events, AGAIN, exec)
    ensures MemRun(states, events) && ID in states[|events|].mem.runs
    ensures var steps := states[|events|].mem.runs[ID].steps;
      |steps| == 1 && steps[0].attempts == 2 && steps[0].spec.maxRetries == 0 && AttemptLimit(SPEC) == 1
  {
  }

  /** A step that may be attempted once is attempted twice when one answer reports its
      failure twice. */
  lemma NamedTwiceAttemptedTwice() returns (states: seq<MemSys>, events: seq<Event>)
    ensures MemRun(states, events) && ID in states[|events|].mem.runs
    ensures var steps := states[|events|].mem.runs[ID].steps;
      |steps| == 1 && steps[0].attempts == 2 && steps[0].spec.maxRetries == 0 && AttemptLimit(SPEC) == 1
    ensures events == Reading(TWICE) +
      [ExecStep(ID, NoChoice), ExecStep(ID, NoChoice), ExecStep(ID, NoChoice), ExecStep(ID, NoChoice)]
  {
    hide *;
    var first, second := FirstEntry(TWICE), FirstEntry(TWICE).(k := 1);
    FirstEntryMoves();
    SecondEntryMoves();
    states, events := ReadingFirstAnswer(TWICE);
    states, events := GoTo(states, events, RUNNING, Reader(AtSyncGet(TWICE, TIMER)), NoChoice, RUNNING, Reader(AtSyncStart(first)));
    states, events := GoTo(states, events, RUNNING, Reader(AtSyncStart(first)), NoChoice, ATTEMPTED, Reader(AtSyncFinish(first)));
    states, events := GoTo(states, events, ATTEMPTED, Reader(AtSyncFinish(first)), NoChoice, FAILED, Reader(AtSyncStart(second)));
    states, events := GoTo(states, events, FAILED, Reader(AtSyncStart(second)), NoChoice, AGAIN, Reader(AtSyncFinish(second)));
    AttemptedTwice(states, events, Reader(AtSyncFinish(second)));
  }

  // ---------- a number PostgreSQL refuses ----------

  const UUIDS: Uuids := map[ID := ID]

  /** A run over PostgreSQL at whose end the rows and the thread are these. */
  ghost predicate PgLeads(pgs: seq<PgSys>, events: seq<Event>, s: MemSys, record: Record, exec: Exec) {
    PgRun(pgs, events) && |pgs| == |events| + 1 && Matches(pgs[|events|], s) && At(s, record, exec)
  }

  lemma PgRunGrows(pgs: seq<PgSys>, events: seq<Event>, event: Event)
    requires PgRun(pgs, events) && |pgs| == |events| + 1 && PgEnabled(pgs[|events|], event)
    ensures PgRun(pgs + [PgNext(pgs[|events|], event)], events + [event])
  {
    hide PgEnabled;
    hide PgNext;
    hide Spellings;
  }

  lemma PgStarts()
    ensures PgRun([InitPg(UUIDS)], []) && Matches(InitPg(UUIDS), INIT_MEM) && PgEnabled(InitPg(UUIDS), SUBMIT)
  {
  }

  lemma PgSubmitNext()
    ensures MemEnabled(INIT_MEM, SUBMIT)
    ensures PgEnabled(InitPg(UUIDS), SUBMIT) && Matches(PgNext(InitPg(UUIDS), SUBMIT), MemNext(INIT_MEM, SUBMIT))
    ensures At(MemNext(INIT_MEM, SUBMIT), CREATED, THREAD)
  {
    PgStarts();
    SubmitLeads();
    InitIsOk();
    StepSimulates(InitPg(UUIDS), INIT_MEM, SUBMIT);
    assert InMemory(InitPg(UUIDS), SUBMIT) == SUBMIT;
    hide PgNext;
    hide MemNext;
    hide Matches;
    hide SysInv;
  }

  lemma PgLeadsAtEnd(pgs: seq<PgSys>, events: seq<Event>, s: MemSys, record: Record, exec: Exec)
    requires PgRun(pgs, events) && |pgs| == |events| + 1 && Matches(pgs[|events|], s) && At(s, record, exec)
    ensures PgLeads(pgs, events, s, record, exec)
  {
  }

  lemma PgSubmitted() returns (pgs: seq<PgSys>, events: seq<Event>, s: MemSys)
    ensures PgLeads(pgs, events, s, CREATED, THREAD) && events == [SUBMIT]
  {
    PgStarts();
    PgSubmitNext();
    hide *;
    PgRunGrows([InitPg(UUIDS)], [], SUBMIT);
    events := [SUBMIT];
    pgs := [InitPg(UUIDS), PgNext(InitPg(UUIDS), SUBMIT)];
    s := MemNext(INIT_MEM, SUBMIT);
    assert [InitPg(UUIDS)] + [pgs[1]] == pgs && [] + [SUBMIT] == events;
    PgLeadsAtEnd(pgs, events, s, CREATED, THREAD);
  }

  /** A move that PostgreSQL does not refuse. */
  ghost predicate PgMoves(record: Record, exec: Exec, choice: Choice, record': Record, exec': Exec) {
    Moves(record, exec, choice, record', exec') && !Refused(record, exec.pc)
  }

  lemma PgOwnStepEnabled(pg: PgSys, s: MemSys, record: Record, exec: Exec, choice: Choice)
    requires Matches(pg, s) && At(s, record, exec) && !exec.crashed && !Ended(exec.pc) && CanChoose(exec.pc, choice)
    ensures PgEnabled(pg, ExecStep(ID, choice))
  {
  }

  lemma PgMoveNext(pg: PgSys, s: MemSys, record: Record, exec: Exec, choice: Choice, record': Record, exec': Exec)
    requires Matches(pg, s) && At(s, record, exec) && PgMoves(record, exec, choice, record', exec')
    ensures PgEnabled(pg, ExecStep(ID, choice)) && MemEnabled(s, ExecStep(ID, choice))
    ensures Matches(PgNext(pg, ExecStep(ID, choice)), MemNext(s, ExecStep(ID, choice)))
    ensures At(MemNext(s, ExecStep(ID, choice)), record', exec')
  {
    var event := ExecStep(ID, choice);
    PgOwnStepEnabled(pg, s, record, exec, choice);
    AcceptedIsSame(pg, s, event, ID);
    StepSimulates(pg, s, event);
    OwnStepLeads(s, record, exec, choice);
    hide PgNext;
    hide MemNext;
    hide StepExec;
    hide CanChoose;
    hide Matches;
    hide SysInv;
    hide Refused;
  }

  lemma PgLeadsParts(pgs: seq<PgSys>, events: seq<Event>, s: MemSys, record: Record, exec: Exec)
    requires PgLeads(pgs, events, s, record, exec)
    ensures PgRun(pgs, events) && |pgs| == |events| + 1 && Matches(pgs[|events|], s) && At(s, record, exec)
  {
  }

  lemma PgGoTo(pgs: seq<PgSys>, events: seq<Event>, s: MemSys, record: Record, exec: Exec, choice: Choice, record': Record, exec': Exec)
    returns (pgs': seq<PgSys>, events': seq<Event>, s': MemSys)
    requires PgLeads(pgs, events, s, record, exec) && PgMoves(record, exec, choice, record', exec')
    ensures PgLeads(pgs', events', s', record', exec') && events' == events + [ExecStep(ID, choice)]
  {
    hide *;
    var event := ExecStep(ID, choice);
    PgLeadsParts(pgs, events, s, record, exec);
    PgMoveNext(pgs[|events|], s, record, exec, choice, record', exec');
    PgRunGrows(pgs, events, event);
    pgs', events', s' := pgs + [PgNext(pgs[|events|], event)], events + [event], MemNext(s, event);
    PgLeadsAtEnd(pgs', events', s', record', exec');
  }

  /** The thread is gone, nothing having crashed its process, and the row left running. */
  ghost predicate RowLeftRunning(pgs: seq<PgSys>, events: seq<Event>) {
    && PgRun(pgs, events) && |pgs| == |events| + 1
    && ID in pgs[|events|].db.runs && ID in pgs[|events|].threads.execs
    && pgs[|events|].threads.execs[ID].crashed && pgs[|events|].threads.execs[ID].mode == Local
    && pgs[|events|].db.runs[ID].run.status == Running && !pgs[|events|].db.runs[ID].run.cancelled
  }

  lemma CrashedRow(pg: PgSys, s: MemSys, event: Event, record: Record)
    requires Matches(pg, s) && SysInv(s) && PgEnabled(pg, event) && event == ExecStep(ID, NoChoice)
    requires ID in s.mem.runs && s.mem.runs[ID] == record && ID in s.threads.execs && Refused(record, s.threads.execs[ID].pc)
    ensures ID in PgNext(pg, event).db.runs
    ensures var row := PgNext(pg, event).db.runs[ID].run; row.status == record.status && row.cancelled == record.cancelled
  {
    ExecCallAgrees(pg, s, ID);
    SameKeys(pg.db, s.mem);
    assert RunRepresented(pg.db.runs[ID], ID, record);
    hide PgApply;
    hide Simulation.NumbersRefused;
    hide NextOp;
    hide SysInv;
  }

  lemma RefusedLeavesRunning(pgs: seq<PgSys>, events: seq<Event>, s: MemSys, record: Record, exec: Exec)
    returns (pgs': seq<PgSys>, events': seq<Event>)
    requires PgLeads(pgs, events, s, record, exec) && !exec.crashed && !Ended(exec.pc) && CanChoose(exec.pc, NoChoice)
    requires Refused(record, exec.pc) && record.status == Running && !record.cancelled && exec.mode == Local
    ensures RowLeftRunning(pgs', events') && events' == events + [ExecStep(ID, NoChoice)]
  {
    var event := ExecStep(ID, NoChoice);
    var pg := pgs[|events|];
    PgOwnStepEnabled(pg, s, record, exec, NoChoice);
    RefusedStep(pg, s, event, ID);
    StepSimulates(pg, s, event);
    PgRunGrows(pgs, events, event);
    CrashedRow(pg, s, event, record);
    pgs', events' := pgs + [PgNext(pg, event)], events + [event];
    hide PgRun;
    hide PgNext;
    hide MemNext;
    hide CanChoose;
    hide Matches;
    hide SysInv;
    hide Refused;
  }

  const HUGE := Usage(0, INTEGER_MAX + 1, 0)

  const FRAME := Frame(CREATED.steps, [0], 0, 0, [])

  const LOCAL_ATTEMPT := SetStep(STARTED, 0, StartedStep(STARTED.steps[0]))

  function Worker(pc: Pc): Exec {
    THREAD.(mode := Local, pc := pc)
  }

  lemma LocalMoves()
    ensures PgMoves(CREATED, THREAD, NoChoice, STARTED, THREAD.(pc := AtGet))
    ensures PgMoves(STARTED, THREAD.(pc := AtGet), LocalReady, STARTED, Worker(AtStartStep(FRAME)))
  {
    OneStepOrder();
    NormalizingKeepsGraph(RAWS);
    hide Kahn.Order;
    hide ProjectNodes;
    hide RequestSpecs;
  }

  lemma StartStepMoves()
    ensures PgMoves(STARTED, Worker(AtStartStep(FRAME)), NoChoice, LOCAL_ATTEMPT, Worker(AtComplete(FRAME.(attempts := 1))))
  {
    SubmitIsCall();
    hide NewSteps;
    hide CallOf;
  }

  lemma CompletionMoves()
    ensures var frame := FRAME.(attempts := 1);
      && PgMoves(LOCAL_ATTEMPT, Worker(AtComplete(frame)), Completed("done", HUGE), LOCAL_ATTEMPT, Worker(AtSucceedStep(frame, "done", HUGE)).(calls := 1))
      && Refused(LOCAL_ATTEMPT, AtSucceedStep(frame, "done", HUGE))
      && LOCAL_ATTEMPT.status == Running && !LOCAL_ATTEMPT.cancelled
  {
  }

  lemma CallingProvider() returns (pgs: seq<PgSys>, events: seq<Event>, s: MemSys)
    ensures PgLeads(pgs, events, s, LOCAL_ATTEMPT, Worker(AtComplete(FRAME.(attempts := 1))))
    ensures events == [SUBMIT] + [ExecStep(ID, NoChoice)] + [ExecStep(ID, LocalReady)] + [ExecStep(ID, NoChoice)]
  {
    LocalMoves();
    StartStepMoves();
    hide *;
    pgs, events, s := PgSubmitted();
    pgs, events, s := PgGoTo(pgs, events, s, CREATED, THREAD, NoChoice, STARTED, THREAD.(pc := AtGet));
    pgs, events, s := PgGoTo(pgs, events, s, STARTED, THREAD.(pc := AtGet), LocalReady, STARTED, Worker(AtStartStep(FRAME)));
    pgs, events, s := PgGoTo(pgs, events, s, STARTED, Worker(AtStartStep(FRAME)), NoChoice, LOCAL_ATTEMPT, Worker(AtComplete(FRAME.(attempts := 1))));
  }

  /** In local mode a completion whose token count is too large for its column stops the
      thread when it reports the success, and leaves the row running. */
  lemma HugeCountLeavesRunning() returns (pgs: seq<PgSys>, events: seq<Event>)
    ensures RowLeftRunning(pgs, events)
    ensures events == [SUBMIT] + [ExecStep(ID, NoChoice)] + [ExecStep(ID, LocalReady)] + [ExecStep(ID, NoChoice)]
      + [ExecStep(ID, Completed("done", HUGE))] + [ExecStep(ID, NoChoice)]
  {
    var frame := FRAME.(attempts := 1);
    var exec := Worker(AtSucceedStep(frame, "done", HUGE)).(calls := 1);
    assert CanChoose(exec.pc, NoChoice) && !Ended(exec.pc) && !exec.crashed && exec.mode == Local;
    CompletionMoves();
    hide *;
    var s: MemSys;
    pgs, events, s := CallingProvider();
    pgs, events, s := PgGoTo(pgs, events, s, LOCAL_ATTEMPT, Worker(AtComplete(frame)), Completed("done", HUGE), LOCAL_ATTEMPT, exec);
    pgs, events := RefusedLeavesRunning(pgs, events, s, LOCAL_ATTEMPT, exec);
  }
}
