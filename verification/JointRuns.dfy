/** The operator and the backend running together: reconcilers, users and time on one
    side, other clients' requests, executor threads and crashes on the other, and the
    reconcilers' own requests between them, heard or lost. */
module JointRuns {
  import opened Wrappers
  import opened Status
  import opened LedgerView
  import opened BackendLedger
  import opened Operator
  import opened OperatorSafety
  import opened OperatorRuns
  import opened OperatorBackend
  import OperatorCalls
  import ReconcileStatus
  import opened Protocol
  import ProtocolSafety
  import L = Ledger

  datatype Step =
    | Backend(event: Event)
    | Alone(move: Move)
    | Unanswered(k: nat, message: string)  // a request that does not arrive
    | Request(k: nat, event: Event, received: bool, message: string, extras: Extras)

  function EventOf(step: Step): Option<Event> {
    match step
    case Backend(event) => Some(event)
    case Request(_, event, _, _, _) => Some(event)
    case _ => None
  }

  /** Moves that involve no request. */
  predicate IsAlone(m: Move) {
    !m.CallSubmit? && !m.CallGet? && !m.CallCancel? && !m.LedgerMoves?
  }

  predicate Requesting(worker: Worker) {
    worker.Submitting? || worker.Polling? || worker.Cancelling? || worker.CancellingForDelete?
  }

  /** The request a reconciler makes. */
  predicate Makes(w: World, worker: Worker, event: Event) {
    match worker
    case Submitting(cr) => event.ApiSubmit? && event.tenant == w.tenant && event.key == EffectiveKey(cr)
    case Polling(cr) => event == ApiCall(w.tenant, cr.status.backendRunId, L.Get)
    case Cancelling(cr) => event == ApiCall(w.tenant, cr.status.backendRunId, L.Op.Cancel)
    case CancellingForDelete(cr) => event == ApiCall(cr.tenantLabel, cr.status.backendRunId, L.Op.Cancel)
    case _ => false
  }

  ghost predicate CanStep(w: World, step: Step) {
    w.history != [] &&
    match step
    case Backend(_) => true
    case Alone(m) => IsAlone(m) && CanMove(w, m)
    case Unanswered(k, _) => k in w.workers && Requesting(w.workers[k])
    case Request(k, event, _, _, _) => k in w.workers && Makes(w, w.workers[k], event)
  }

  /** What the reconciler makes of the store's reply. */
  function Heard(worker: Worker, reply: L.Reply, received: bool, message: string, extras: Extras): Outcome {
    if worker.Submitting? then
      if !reply.Submitted? then Error(message)
      else if received then Ok(ControlOf(reply.run, extras)) else Lost(reply.run.id, message)
    else if !received || !reply.Shown? then Error(message)
    else if reply.snapshot.Some? then Ok(ControlOf(reply.snapshot.value, extras)) else NotFound(message)
  }

  function RequestMove(worker: Worker, k: nat, outcome: Outcome, view: View): Move {
    if worker.Submitting? then CallSubmit(k, outcome, view)
    else if worker.Polling? then CallGet(k, outcome)
    else CallCancel(k, outcome, view)
  }

  /** The operator's move in a step, given the store's reply and the ledger after it. */
  ghost function MoveOf(w: World, step: Step, reply: L.Reply, view: View): Move
    requires CanStep(w, step)
  {
    match step
    case Backend(_) => LedgerMoves(view)
    case Alone(m) => m
    case Unanswered(k, message) => RequestMove(w.workers[k], k, Error(message), view)
    case Request(k, _, received, message, extras) =>
      RequestMove(w.workers[k], k, Heard(w.workers[k], reply, received, message, extras), view)
  }

  // ---------- over the in-memory store ----------

  ghost predicate MemReady(s: MemSys, step: Step) {
    EventOf(step).Some? ==> MemEnabled(s, EventOf(step).value)
  }

  ghost function MemAfter(s: MemSys, step: Step): MemSys
    requires MemReady(s, step)
  {
    if EventOf(step).Some? then MemNext(s, EventOf(step).value) else s
  }

  ghost function MemReply(s: MemSys, step: Step): L.Reply {
    if EventOf(step).Some? then MemCall(s, EventOf(step).value).1 else L.Ack(true)
  }

  ghost function MemMove(w: World, s: MemSys, step: Step): Move
    requires CanStep(w, step) && MemReady(s, step)
  {
    MoveOf(w, step, MemReply(s, step), ViewOf(MemAfter(s, step)))
  }

  /** Nothing is asked of the operator's world but that it makes its move if it can. */
  ghost predicate MemStep(w: World, s: MemSys, step: Step, w': World, s': MemSys) {
    && CanStep(w, step) && MemReady(s, step) && s' == MemAfter(s, step)
    && (CanMove(w, MemMove(w, s, step)) ==> w' == Apply(w, MemMove(w, s, step)))
  }

  /** The AgentRun may sit unread while the backend runs. */
  ghost predicate JointRun(worlds: seq<World>, states: seq<MemSys>, steps: seq<Step>) {
    && |worlds| == |states| == |steps| + 1 && Fresh(worlds[0]) && worlds[0].ledger == map[] && states[0] == INIT_MEM
    && forall n :: 0 <= n < |steps| ==> MemStep(worlds[n], states[n], steps[n], worlds[n + 1], states[n + 1])
  }

  // ---------- every step is a move of the operator ----------

  ghost predicate Good(w: World, s: MemSys) {
    Coupled(w, s) && WorldInv(w)
  }

  lemma UnmovedView(w: World, s: MemSys)
    requires Good(w, s)
    ensures Advances(w.ledger, ViewOf(s)) && w.ledger == ViewOf(s)
  {
    forall id | id in w.ledger ensures RunAdvances(w.ledger, w.ledger, id) {
    }
  }

  lemma WritesKeepLedger(w: World, k: nat, result: WriteResult)
    requires w.history != [] && k in w.workers && (w.workers[k].WritingStatus? || w.workers[k].WritingMeta?)
    ensures DoWrite(w, k, result).ledger == w.ledger
  {
    hide AfterWrite;
  }

  lemma DeletesKeepLedger(w: World)
    requires w.history != []
    ensures DeleteCr(w).ledger == w.ledger
  {
  }

  /** A move without a request leaves the backend alone. */
  lemma AloneKeepsLedger(w: World, m: Move)
    requires w.history != [] && IsAlone(m) && CanMove(w, m)
    ensures Apply(w, m).ledger == w.ledger
  {
    DeletesKeepLedger(w);
    if m.Write? { WritesKeepLedger(w, m.k, m.result); }
    hide DoWrite;
    hide DeleteCr;
    hide Decide;
    hide Expired;
  }

  /** A request the reconciler learns nothing from. */
  lemma ErrorIsAMove(w: World, k: nat, message: string, view: View)
    requires w.history != [] && k in w.workers && Requesting(w.workers[k]) && Advances(w.ledger, view)
    requires w.workers[k].Polling? ==> view == w.ledger
    ensures CanMove(w, RequestMove(w.workers[k], k, Error(message), view))
    ensures Apply(w, RequestMove(w.workers[k], k, Error(message), view)).ledger == view
  {
    hide Advances;
    hide AfterSubmit;
    hide AfterGet;
    hide AfterCancel;
    hide AfterCancelForDelete;
  }

  /** A request that is refused makes no call and changes nothing. */
  lemma RefusedChangesNothing(s: MemSys, event: Event)
    requires MemEnabled(s, event) && (event.ApiSubmit? || event.ApiCall?) && CallOf(s.threads, event).None?
    ensures MemCall(s, event).1 == L.Ack(true) && MemNext(s, event) == s
  {
  }

  lemma KeepsHistory(w: World, m: Move)
    requires WorldInv(w) && CanMove(w, m)
    ensures Apply(w, m).history != []
  {
    MoveKeepsInv(w, m);
  }

  lemma PollAnswered(w: World, s: MemSys, step: Step)
    requires Good(w, s) && step.Request? && CanStep(w, step) && MemReady(s, step)
    requires w.workers[step.k].Polling? && CallOf(s.threads, step.event).Some? && w.workers[step.k].cr.status.backendRunId != ""
    ensures CanMove(w, MemMove(w, s, step)) && Coupled(Apply(w, MemMove(w, s, step)), MemAfter(s, step))
  {
    PollIsAMove(w, s, step.event, step.k, step.message, step.extras);
    GetKeepsStatus(s, step.event);
    BackendAdvances(s, step.event);
    if !step.received {
      ErrorIsAMove(w, step.k, step.message, w.ledger);
      KeepsHistory(w, CallGet(step.k, Error(step.message)));
    }
  }

  lemma RequestIsAMove(w: World, s: MemSys, step: Step)
    requires Good(w, s) && step.Request? && CanStep(w, step) && MemReady(s, step)
    ensures CanMove(w, MemMove(w, s, step)) && Coupled(Apply(w, MemMove(w, s, step)), MemAfter(s, step))
  {
    var Request(k, event, received, message, extras) := step;
    BackendAdvances(s, event);
    assert WorkerOk(w, w.workers[k]);
    if CallOf(s.threads, event).None? {
      RefusedChangesNothing(s, event);
      ErrorIsAMove(w, k, message, ViewOf(s));
      hide MemNext;
      hide MemCall;
      hide ViewOf;
      hide ProtocolSafety.SysInv;
      hide Advances;
      hide CanMove;
      hide Apply;
      KeepsHistory(w, RequestMove(w.workers[k], k, Error(message), ViewOf(s)));
    } else if w.workers[k].Submitting? {
      SubmissionIsAMove(w, s, event, k, received, message, extras);
    } else if w.workers[k].Polling? {
      PollAnswered(w, s, step);
    } else {
      CancellationIsAMove(w, s, event, k, received, message, extras);
    }
  }

  lemma StepParts(w: World, s: MemSys, step: Step, w': World, s': MemSys)
    requires Good(w, s) && MemStep(w, s, step, w', s')
    requires CanMove(w, MemMove(w, s, step)) && Coupled(Apply(w, MemMove(w, s, step)), MemAfter(s, step))
    ensures Steps(w, MemMove(w, s, step), w') && Good(w', s')
  {
    MoveKeepsInv(w, MemMove(w, s, step));
    hide MemMove;
    hide MemAfter;
    hide Apply;
    hide CanMove;
    hide WorldInv;
  }

  /** Whatever happens is a move of the operator's world, which goes on seeing the
      backend's ledger. */
  lemma StepIsAMove(w: World, s: MemSys, step: Step, w': World, s': MemSys)
    requires Good(w, s) && MemStep(w, s, step, w', s')
    ensures Steps(w, MemMove(w, s, step), w') && Good(w', s')
  {
    match step {
      case Backend(event) => BackendStepIsAMove(w, s, event);
      case Alone(m) =>
        AloneKeepsLedger(w, m);
        KeepsHistory(w, m);
      case Unanswered(k, message) =>
        UnmovedView(w, s);
        ErrorIsAMove(w, k, message, w.ledger);
        KeepsHistory(w, RequestMove(w.workers[k], k, Error(message), w.ledger));
      case Request(_, _, _, _, _) => RequestIsAMove(w, s, step);
    }
    hide *;
    StepParts(w, s, step, w', s');
  }

  // ---------- whole runs ----------

  /** The operator's moves in a joint run. */
  ghost function MovesOf(worlds: seq<World>, states: seq<MemSys>, steps: seq<Step>): seq<Move>
    requires JointRun(worlds, states, steps)
  {
    seq(|steps|, n requires 0 <= n < |steps| =>
      assert MemStep(worlds[n], states[n], steps[n], worlds[n + 1], states[n + 1]); MemMove(worlds[n], states[n], steps[n]))
  }

  lemma StartIsGood(w: World, s: MemSys)
    requires Fresh(w) && w.ledger == map[] && s == INIT_MEM
    ensures Good(w, s)
  {
    FreshIsOk(w);
    ProtocolSafety.InitIsOk();
  }

  lemma {:induction false} JointIsGood(worlds: seq<World>, states: seq<MemSys>, steps: seq<Step>, n: nat)
    requires JointRun(worlds, states, steps) && n <= |steps|
    ensures Good(worlds[n], states[n])
  {
    if n == 0 {
      StartIsGood(worlds[0], states[0]);
    } else {
      JointIsGood(worlds, states, steps, n - 1);
      hide MemStep;
      hide Good;
      assert MemStep(worlds[n - 1], states[n - 1], steps[n - 1], worlds[n], states[n]);
      StepIsAMove(worlds[n - 1], states[n - 1], steps[n - 1], worlds[n], states[n]);
    }
  }

  /** The worlds of a joint run are a run of the operator, and its ledger is the
      backend's throughout: everything said of the operator's runs holds here. */
  lemma JointIsOperatorRun(worlds: seq<World>, states: seq<MemSys>, steps: seq<Step>)
    requires JointRun(worlds, states, steps)
    ensures OperatorRun(worlds, MovesOf(worlds, states, steps))
    ensures forall n :: 0 <= n < |worlds| ==> Coupled(worlds[n], states[n])
  {
    var moves := MovesOf(worlds, states, steps);
    forall n | 0 <= n < |worlds| ensures Coupled(worlds[n], states[n]) {
      JointIsGood(worlds, states, steps, n);
    }
    forall n | 0 <= n < |steps| ensures Steps(worlds[n], moves[n], worlds[n + 1]) {
      JointIsGood(worlds, states, steps, n);
      StepIsAMove(worlds[n], states[n], steps[n], worlds[n + 1], states[n + 1]);
    }
  }

  /** A stored terminal phase is the status of the recorded run in the backend's own
      records, then and ever after. */
  lemma TerminalPhaseAgreesWithRecord(worlds: seq<World>, states: seq<MemSys>, steps: seq<Step>, i: nat, j: nat, v: nat)
    requires JointRun(worlds, states, steps) && i <= j < |worlds| && v < |worlds[i].history|
    ensures var s := worlds[i].history[v].status;
      s.backendRunId != "" && IsTerminal(s.phase) ==>
        s.backendRunId in states[j].mem.runs && PhaseOf(states[j].mem.runs[s.backendRunId].status) == s.phase
  {
    JointIsOperatorRun(worlds, states, steps);
    TerminalPhaseAgrees(worlds, MovesOf(worlds, states, steps), i, j, v);
    assert Coupled(worlds[j], states[j]);
    hide ProtocolSafety.SysInv;
  }

  /** Every submission reached a run in the backend's records, of its tenant and key, with
      one executor; submissions share a run exactly when they share tenant and key. */
  lemma OneRecordPerKey(worlds: seq<World>, states: seq<MemSys>, steps: seq<Step>, n: nat, i: nat, j: nat)
    requires JointRun(worlds, states, steps) && n < |worlds|
    requires i < |worlds[n].submissions| && j < |worlds[n].submissions|
    ensures var a, b, s := worlds[n].submissions[i], worlds[n].submissions[j], states[n];
      && a.id in s.mem.runs && s.mem.runs[a.id].tenant == a.tenant
      && a.id in s.threads.execs && s.threads.execs[a.id].key == a.key
      && a.id in s.threads.spawned && ProtocolSafety.SpawnedOnce(s.threads)
      && (a.id == b.id <==> a.tenant == b.tenant && a.key == b.key)
  {
    JointIsOperatorRun(worlds, states, steps);
    var moves := MovesOf(worlds, states, steps);
    OneRunPerKey(worlds, moves, n, i, j);
    RunKeepsInv(worlds, moves, n);
    assert SubmissionOk(worlds[n], i) && Coupled(worlds[n], states[n]);
    hide WorldInv;
    hide ProtocolSafety.RunOk;
    hide ProtocolSafety.KeyOk;
  }

  // ---------- answers ----------

  /** The answer says how the run stands in the backend's record, step by step. */
  ghost predicate TellsOf(control: ControlRun, s: MemSys, id: string) {
    && control.id == id && id in s.mem.runs && control.status == StatusName(s.mem.runs[id].status)
    && |control.steps| == |s.mem.runs[id].steps|
    && forall i :: 0 <= i < |control.steps| ==>
         control.steps[i] == ControlStep(s.mem.runs[id].steps[i].spec.nodeId, StatusName(s.mem.runs[id].steps[i].status))
  }

  /** The status mirrors the record, step by step. */
  ghost predicate MirrorsRecord(status: RunStatus, s: MemSys, id: string) {
    && status.backendRunId == id && id in s.mem.runs && status.phase == PhaseOf(s.mem.runs[id].status)
    && |status.nodeStates| == |s.mem.runs[id].steps|
    && forall i :: 0 <= i < |status.nodeStates| ==>
         status.nodeStates[i].name == s.mem.runs[id].steps[i].spec.nodeId && status.nodeStates[i].phase == PhaseOf(s.mem.runs[id].steps[i].status)
  }

  lemma AnswerShowsRecord(s: MemSys, event: Event)
    requires ProtocolSafety.SysInv(s) && MemEnabled(s, event) && event.ApiCall? && (event.op.Get? || event.op.Cancel?)
    requires var reply := MemCall(s, event).1; reply.Shown? && reply.snapshot.Some?
    ensures event.id in MemNext(s, event).mem.runs
    ensures MemCall(s, event).1.snapshot.value == L.SnapshotOf(MemNext(s, event).mem.runs[event.id])
    ensures MemNext(s, event).mem.runs[event.id].id == event.id
  {
    KeepsIdentity(s, event.id);
    hide ProtocolSafety.SysInv;
  }

  lemma SnapshotTells(snapshot: L.Snapshot, extras: Extras, s: MemSys, id: string)
    requires id in s.mem.runs && snapshot == L.SnapshotOf(s.mem.runs[id]) && s.mem.runs[id].id == id
    ensures TellsOf(ControlOf(snapshot, extras), s, id)
  {
    hide StatusName;
  }

  lemma ToldIsMirrored(status: RunStatus, control: ControlRun, s: MemSys, id: string)
    requires TellsOf(control, s, id) && ReconcileStatus.Mirrors(status, control, id)
    ensures MirrorsRecord(status, s, id)
  {
    forall status: L.Status { NamesProject(status); }
    hide StatusName;
    hide ProjectPhase;
    hide PhaseOf;
  }

  /** One step of a joint run, seen from both sides. */
  lemma JointStep(worlds: seq<World>, states: seq<MemSys>, steps: seq<Step>, n: nat)
    requires JointRun(worlds, states, steps) && n < |steps|
    ensures |worlds| == |states| == |steps| + 1 && CanStep(worlds[n], steps[n]) && MemReady(states[n], steps[n])
    ensures states[n + 1] == MemAfter(states[n], steps[n]) && Coupled(worlds[n], states[n]) && WorldInv(worlds[n])
    ensures var moves := MovesOf(worlds, states, steps);
      && OperatorRun(worlds, moves) && |moves| == |steps| && moves[n] == MemMove(worlds[n], states[n], steps[n])
      && Steps(worlds[n], moves[n], worlds[n + 1])
  {
    var moves := MovesOf(worlds, states, steps);
    JointIsOperatorRun(worlds, states, steps);
    RunKeepsInv(worlds, moves, n);
    assert MemStep(worlds[n], states[n], steps[n], worlds[n + 1], states[n + 1]) && Steps(worlds[n], moves[n], worlds[n + 1]);
    hide MemMove;
    hide MemAfter;
    hide CanStep;
    hide MemReady;
    hide WorldInv;
    hide Coupled;
    hide CanMove;
    hide Apply;
    hide Fresh;
  }

  /** An answered poll tells of the record. */
  lemma PollTells(w: World, s: MemSys, step: Step)
    requires Coupled(w, s) && step.Request? && CanStep(w, step) && MemReady(s, step) && w.workers[step.k].Polling?
    requires MemMove(w, s, step).CallGet? && MemMove(w, s, step).outcome.Ok?
    ensures MemMove(w, s, step).k == step.k
    ensures TellsOf(MemMove(w, s, step).outcome.control, MemAfter(s, step), w.workers[step.k].cr.status.backendRunId)
  {
    AnswerShowsRecord(s, step.event);
    SnapshotTells(MemCall(s, step.event).1.snapshot.value, step.extras, MemAfter(s, step), step.event.id);
    hide MemNext;
    hide MemCall;
    hide ControlOf;
    hide TellsOf;
    hide ProtocolSafety.SysInv;
  }

  lemma AfterPolling(w: World, m: Move, w': World)
    requires Steps(w, m, w') && m.CallGet? && m.k in w.workers
    ensures m.k in w'.workers && w'.workers[m.k] == AfterGet(w.workers[m.k].cr, m.outcome, w.clock)
  {
    hide AfterGet;
    hide Advances;
  }

  lemma KnownId(control: ControlRun, id: string)
    requires control.id == id
    ensures ReconcileStatus.AnsweredId(control, id) == id
  {
  }

  lemma MirroringParts(worker: Worker, cr: Cr, control: ControlRun, id: string)
    ensures OperatorCalls.Mirroring(worker, cr, control, id) ==> worker.WritingStatus? && ReconcileStatus.Mirrors(worker.cr.status, control, id)
    ensures control.id == id && id == cr.status.backendRunId && OperatorCalls.InStep(cr, control) ==> ReconcileStatus.Mirrors(cr.status, control, id)
  {
    hide ReconcileStatus.Mirrors;
    hide SaysCompleted;
  }

  lemma TellsId(control: ControlRun, s: MemSys, id: string)
    requires TellsOf(control, s, id)
    ensures control.id == id
  {
  }

  /** What a poll that is answered is about to store, or has found stored, mirrors the
      backend's record of the run and of every step. */
  lemma PollMirrorsRecord(worlds: seq<World>, states: seq<MemSys>, steps: seq<Step>, n: nat)
    requires JointRun(worlds, states, steps) && n < |steps| && steps[n].Request?
    requires steps[n].k in worlds[n].workers && worlds[n].workers[steps[n].k].Polling?
    requires MovesOf(worlds, states, steps)[n].CallGet? && MovesOf(worlds, states, steps)[n].outcome.Ok?
    ensures steps[n].k in worlds[n + 1].workers
    ensures var cr, next := worlds[n].workers[steps[n].k].cr, worlds[n + 1].workers[steps[n].k];
      MirrorsRecord(if next.WritingStatus? then next.cr.status else cr.status, states[n + 1], cr.status.backendRunId)
  {
    var w, s, step, moves := worlds[n], states[n], steps[n], MovesOf(worlds, states, steps);
    var cr, outcome := w.workers[step.k].cr, moves[n].outcome;
    var id := cr.status.backendRunId;
    JointStep(worlds, states, steps, n);
    hide *;
    hide OperatorCalls.Mirroring;
    hide OperatorCalls.InStep;
    PollTells(w, s, step);
    OperatorCalls.PollIsWritten(cr, outcome, w.clock);
    AfterPolling(w, moves[n], worlds[n + 1]);
    var next := worlds[n + 1].workers[step.k];
    KnownId(outcome.control, id);
    MirroringParts(next, cr, outcome.control, id);
    TellsId(outcome.control, states[n + 1], id);
    ToldIsMirrored(if next.WritingStatus? then next.cr.status else cr.status, outcome.control, states[n + 1], id);
  }

  // ---------- cancellation ----------

  lemma RecordsAreViewed(s: MemSys)
    ensures forall id :: id in ViewOf(s) ==> id in s.mem.runs && ViewOf(s)[id].status == s.mem.runs[id].status
  {
  }

  lemma CancelRequest(w: World, s: MemSys, step: Step)
    requires Coupled(w, s) && WorldInv(w) && step.Request? && CanStep(w, step) && MemReady(s, step) && w.workers[step.k].Cancelling?
    requires CallOf(s.threads, step.event).Some?
    ensures MemMove(w, s, step).CallCancel? && MemMove(w, s, step).k == step.k
    ensures var id, outcome := w.workers[step.k].cr.status.backendRunId, MemMove(w, s, step).outcome;
      outcome.Ok? ==>
        && id in MemAfter(s, step).mem.runs && L.Terminal(MemAfter(s, step).mem.runs[id].status)
        && outcome.control.id == id && outcome.control.status == StatusName(MemAfter(s, step).mem.runs[id].status)
  {
    assert WorkerOk(w, w.workers[step.k]);
    CallAnswers(s, step.event);
    BackendAdvances(s, step.event);
    RecordsAreViewed(MemAfter(s, step));
    hide MemNext;
    hide MemCall;
    hide ProtocolSafety.SysInv;
    hide WorldInv;
    hide Advances;
  }

  /** Only requests that make a store call are answered with a run. */
  lemma AnsweredRequestCalls(w: World, s: MemSys, step: Step)
    requires step.Request? && CanStep(w, step) && MemReady(s, step) && w.workers[step.k].Cancelling?
    requires MemMove(w, s, step).outcome.Ok?
    ensures CallOf(s.threads, step.event).Some?
  {
    if CallOf(s.threads, step.event).None? { RefusedChangesNothing(s, step.event); }
    hide MemNext;
    hide CallOf;
  }

  lemma WrittenPhase(next: Worker, cr: Cr, control: ControlRun, id: string, status: L.Status)
    requires OperatorCalls.Mirroring(next, cr, control, id) && control.status == StatusName(status)
    ensures next.WritingStatus? && next.cr == cr.(status := next.cr.status) && next.cr.status.backendRunId == id
    ensures next.cr.status.phase == PhaseOf(status)
  {
    NamesProject(status);
  }

  lemma MeansCancel(worker: Worker)
    requires OperatorCalls.Meant(worker) && worker.Cancelling?
    ensures worker.cr.spec.cancel && OperatorCalls.Calling(worker)
  {
  }

  lemma AfterCancelling(w: World, m: Move, w': World)
    requires Steps(w, m, w') && m.CallCancel? && m.k in w.workers && w.workers[m.k].Cancelling?
    ensures m.k in w'.workers && w'.workers[m.k] == AfterCancel(w.workers[m.k].cr, m.outcome, w.clock)
  {
    hide AfterCancel;
    hide Advances;
  }

  /** A cancellation that the operator hears of leaves the backend's record of the run
      terminal, and the AgentRun about to be written with the phase of that record. It is
      requested only because the copy asks for it. */
  lemma CancellationStopsTheRun(worlds: seq<World>, states: seq<MemSys>, steps: seq<Step>, n: nat)
    requires JointRun(worlds, states, steps) && n < |steps| && steps[n].Request?
    requires steps[n].k in worlds[n].workers && worlds[n].workers[steps[n].k].Cancelling?
    requires MovesOf(worlds, states, steps)[n].CallCancel? && MovesOf(worlds, states, steps)[n].outcome.Ok?
    ensures steps[n].k in worlds[n + 1].workers
    ensures var cr, next := worlds[n].workers[steps[n].k].cr, worlds[n + 1].workers[steps[n].k];
      var id := cr.status.backendRunId;
      && cr.spec.cancel && id in states[n + 1].mem.runs && L.Terminal(states[n + 1].mem.runs[id].status)
      && next.WritingStatus? && next.cr == cr.(status := next.cr.status) && next.cr.status.backendRunId == id
      && next.cr.status.phase == PhaseOf(states[n + 1].mem.runs[id].status)
  {
    var w, s, step, moves := worlds[n], states[n], steps[n], MovesOf(worlds, states, steps);
    var cr := w.workers[step.k].cr;
    JointStep(worlds, states, steps, n);
    hide *;
    hide OperatorCalls.Mirroring;
    hide OperatorCalls.HasWorker;
    AnsweredRequestCalls(w, s, step);
    CancelRequest(w, s, step);
    var i := OperatorCalls.CallIsMeant(worlds, moves, n, step.k);
    MeansCancel(w.workers[step.k]);
    OperatorCalls.CancellationIsWritten(cr, moves[n].outcome, w.clock);
    AfterCancelling(w, moves[n], worlds[n + 1]);
    var id, control := cr.status.backendRunId, moves[n].outcome.control;
    KnownId(control, id);
    WrittenPhase(worlds[n + 1].workers[step.k], cr, control, id, states[n + 1].mem.runs[id].status);
  }
}
