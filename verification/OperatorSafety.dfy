/** What the operator keeps over every interleaving of reconcilers, users and ledger. */
module OperatorSafety {
  import opened Wrappers
  import opened Status
  import opened LedgerView
  import opened Operator
  import L = Ledger
  import ExecutorProgress

  // ---------- one status ----------

  function PhaseRank(phase: Phase): nat {
    match phase
    case NoPhase => 0
    case Queued => 1
    case Running => 2
    case _ => 3
  }

  predicate PhaseAdvances(a: Phase, b: Phase) {
    b == a || PhaseRank(a) < PhaseRank(b)
  }

  /** The phase is one the run has already reached. */
  predicate Reached(phase: Phase, status: L.Status) {
    phase != NoPhase && PhaseAdvances(phase, PhaseOf(status))
  }

  ghost predicate Recorded(submissions: seq<Submitted>, uid: string, id: string) {
    exists j :: 0 <= j < |submissions| && submissions[j].uid == uid && submissions[j].id == id
  }

  /** A status never claims more than the ledger and the submissions bear out. */
  ghost predicate Truthful(w: World, uid: string, s: RunStatus) {
    && (s.backendRunId != "" ==>
          && s.backendRunId in w.ledger && w.ledger[s.backendRunId].tenant == w.tenant
          && Reached(s.phase, w.ledger[s.backendRunId].status)
          && Recorded(w.submissions, uid, s.backendRunId))
    && (s.backendRunId == "" ==> s.phase == NoPhase || s.phase == Cancelled)
    && (IsTerminal(s.phase) ==> s.finishedAt.Some?)
  }

  /** A recorded run stays recorded, and its phase only moves forward. */
  predicate Forward(a: RunStatus, b: RunStatus) {
    && (a.backendRunId != "" ==> b.backendRunId == a.backendRunId)
    && (b.backendRunId == a.backendRunId ==> PhaseAdvances(a.phase, b.phase))
  }

  // ---------- one reconciler ----------

  predicate IsVersion(w: World, cr: Cr) {
    cr.version < |w.history| && w.history[cr.version] == cr
  }

  /** Why the finalizer may go. */
  ghost predicate MayRelease(w: World, cr: Cr) {
    cr.status.backendRunId == "" ||
    (cr.status.backendRunId in w.ledger &&
     (L.Terminal(w.ledger[cr.status.backendRunId].status) || w.ledger[cr.status.backendRunId].tenant != cr.tenantLabel))
  }

  predicate Finished(cr: Cr) {
    cr.status.backendRunId != "" && IsTerminal(cr.status.phase)
  }

  ghost predicate PendingStatusOk(w: World, cr: Cr, after: After) {
    && cr.version < |w.history| && cr == w.history[cr.version].(status := cr.status)
    && Forward(w.history[cr.version].status, cr.status) && Truthful(w, cr.uid, cr.status)
    && (after.ThenTtl? ==> Finished(cr))
    && (after.ThenFinalize? ==> cr.status.backendRunId != "" && cr.deleting && cr.finalizer)
  }

  ghost predicate PendingMetaOk(w: World, cr: Cr) {
    && cr.version < |w.history| && cr == w.history[cr.version].(finalizer := cr.finalizer)
    && (!cr.finalizer ==> cr.deleting && MayRelease(w, cr))
  }

  ghost predicate WorkerOk(w: World, worker: Worker) {
    match worker
    case Idle => true
    case Holding(cr) => IsVersion(w, cr)
    case Submitting(cr) => IsVersion(w, cr) && cr.status.backendRunId == ""
    case Polling(cr) => IsVersion(w, cr) && cr.status.backendRunId != ""
    case Cancelling(cr) => IsVersion(w, cr) && cr.status.backendRunId != ""
    case CancellingForDelete(cr) => IsVersion(w, cr) && cr.status.backendRunId != "" && cr.deleting && cr.finalizer
    case WritingStatus(cr, after) => PendingStatusOk(w, cr, after)
    case WritingMeta(cr) => PendingMetaOk(w, cr)
    case CheckingTtl(cr) => IsVersion(w, cr) && Finished(cr)
    case Deleting(cr) => IsVersion(w, cr) && Finished(cr) && Expired(cr, w.clock)
  }

  // ---------- the world ----------

  ghost predicate VersionOk(w: World, v: nat)
    requires v < |w.history|
  {
    w.history[v].version == v && Truthful(w, w.history[v].uid, w.history[v].status)
  }

  /** A version continues the one before it, or is the first of a new object. */
  predicate StepForward(history: seq<Cr>, v: nat)
    requires 0 < v < |history|
  {
    if history[v].uid == history[v - 1].uid then Forward(history[v - 1].status, history[v].status)
    else forall u :: 0 <= u < v ==> history[u].uid != history[v].uid
  }

  /** The key some stored version of that object had. */
  ghost predicate KeyOfVersion(w: World, uid: string, key: string) {
    exists v: nat :: v < |w.history| && w.history[v].uid == uid && EffectiveKey(w.history[v]) == key
  }

  ghost predicate SubmissionOk(w: World, j: nat)
    requires j < |w.submissions|
  {
    && RunOf(w.ledger, w.submissions[j].id, w.submissions[j].tenant, w.submissions[j].key)
    && w.submissions[j].tenant == w.tenant && KeyOfVersion(w, w.submissions[j].uid, w.submissions[j].key)
  }

  ghost predicate WorldInv(w: World) {
    && w.history != [] && UniqueKeys(w.ledger) && (w.gone ==> !Current(w).finalizer)
    && (forall v: nat {:trigger VersionOk(w, v)} :: v < |w.history| ==> VersionOk(w, v))
    && (forall v: nat {:trigger StepForward(w.history, v)} :: 0 < v < |w.history| ==> StepForward(w.history, v))
    && (forall j: nat {:trigger SubmissionOk(w, j)} :: j < |w.submissions| ==> SubmissionOk(w, j))
    && (forall k {:trigger WorkerOk(w, w.workers[k])} :: k in w.workers ==> WorkerOk(w, w.workers[k]))
  }

  /** How a world may change, the workers aside. */
  ghost predicate Grows(w: World, w': World) {
    && w.history <= w'.history && w.submissions <= w'.submissions
    && w'.tenant == w.tenant && w.clock <= w'.clock
    && (forall id {:trigger RunAdvances(w.ledger, w'.ledger, id)} :: id in w.ledger ==> RunAdvances(w.ledger, w'.ledger, id))
  }

  lemma TruthfulStays(w: World, w': World, uid: string, s: RunStatus)
    requires Grows(w, w') && Truthful(w, uid, s)
    ensures Truthful(w', uid, s)
  {
    if s.backendRunId != "" {
      assert RunAdvances(w.ledger, w'.ledger, s.backendRunId);
      var j :| 0 <= j < |w.submissions| && w.submissions[j].uid == uid && w.submissions[j].id == s.backendRunId;
      assert w'.submissions[j] == w.submissions[j];
    }
  }

  lemma MayReleaseStays(w: World, w': World, cr: Cr)
    requires Grows(w, w') && MayRelease(w, cr)
    ensures MayRelease(w', cr)
  {
    if cr.status.backendRunId != "" { assert RunAdvances(w.ledger, w'.ledger, cr.status.backendRunId); }
  }

  /** Whatever a reconciler has concluded stays true while the world moves on. */
  lemma WorkerStays(w: World, w': World, worker: Worker)
    requires Grows(w, w') && WorkerOk(w, worker)
    ensures WorkerOk(w', worker)
  {
    match worker
    case WritingStatus(cr, after) => TruthfulStays(w, w', cr.uid, cr.status);
    case WritingMeta(cr) => if !cr.finalizer { MayReleaseStays(w, w', cr); }
    case Idle =>
    case Holding(_) =>
    case Submitting(_) =>
    case Polling(_) =>
    case Cancelling(_) =>
    case CancellingForDelete(_) =>
    case CheckingTtl(_) =>
    case Deleting(_) =>
  }

  lemma SubmissionStays(w: World, w': World, j: nat)
    requires Grows(w, w') && j < |w.submissions| && SubmissionOk(w, j)
    ensures SubmissionOk(w', j)
  {
    assert RunAdvances(w.ledger, w'.ledger, w.submissions[j].id);
    var v: nat :| v < |w.history| && w.history[v].uid == w.submissions[j].uid && EffectiveKey(w.history[v]) == w.submissions[j].key;
    assert w'.history[v] == w.history[v];
  }

  /** A world whose only news are a sound last version, sound submissions and one
      sound reconciler. */
  lemma GrowKeepsInv(w: World, w': World, changed: set<nat>)
    requires WorldInv(w) && Grows(w, w') && UniqueKeys(w'.ledger) && (w'.gone ==> !Current(w').finalizer)
    requires |w'.history| <= |w.history| + 1 && |w'.submissions| <= |w.submissions| + 1
    requires |w'.history| > |w.history| ==> VersionOk(w', |w.history|) && StepForward(w'.history, |w.history|)
    requires |w'.submissions| > |w.submissions| ==> SubmissionOk(w', |w.submissions|)
    requires forall i :: i in w'.workers && i !in changed ==> i in w.workers && w'.workers[i] == w.workers[i]
    requires forall i :: i in w'.workers && i in changed ==> WorkerOk(w', w'.workers[i])
    ensures WorldInv(w')
  {
    hide WorkerOk;
    hide Truthful;
    hide Forward;
    forall v: nat | v < |w'.history| ensures VersionOk(w', v) {
      if v < |w.history| { assert VersionOk(w, v); TruthfulStays(w, w', w.history[v].uid, w.history[v].status); }
    }
    forall v: nat | 0 < v < |w'.history| ensures StepForward(w'.history, v) {
      if v < |w.history| { assert StepForward(w.history, v); }
    }
    forall j: nat | j < |w'.submissions| ensures SubmissionOk(w', j) {
      if j < |w.submissions| {
        assert SubmissionOk(w, j);
        SubmissionStays(w, w', j);
      }
    }
    forall i | i in w'.workers ensures WorkerOk(w', w'.workers[i]) {
      if i !in changed { assert WorkerOk(w, w.workers[i]); WorkerStays(w, w', w.workers[i]); }
    }
  }

  // ---------- the statuses that get written ----------

  /** An answer about a run the copy already knew cannot be older than the copy. */
  lemma ProjectionIsForward(w: World, w': World, uid: string, s: RunStatus, control: ControlRun, generation: nat, now: Time)
    requires Grows(w, w') && Truthful(w, uid, s) && s.backendRunId != "" && Answers(control, s.backendRunId, w'.ledger)
    ensures Forward(s, Project(s, control, generation, now)) && Truthful(w', uid, Project(s, control, generation, now))
  {
    hide ProjectPhase;
    hide ProjectNodes;
    hide SetCondition;
    TruthfulStays(w, w', uid, s);
    NamesProject(w'.ledger[s.backendRunId].status);
  }

  /** The first answer for a copy that knew of no run. */
  lemma FirstProjection(w: World, uid: string, s: RunStatus, control: ControlRun, generation: nat, now: Time)
    requires Truthful(w, uid, s.(backendRunId := "")) && Answers(control, control.id, w.ledger)
    requires w.ledger[control.id].tenant == w.tenant && Recorded(w.submissions, uid, control.id)
    ensures Truthful(w, uid, Project(s, control, generation, now))
  {
    hide ProjectPhase;
    hide ProjectNodes;
    hide SetCondition;
    NamesProject(w.ledger[control.id].status);
  }

  /** What `Forward` and `Truthful` look at. */
  predicate SameLifecycle(a: RunStatus, b: RunStatus) {
    a.backendRunId == b.backendRunId && a.phase == b.phase && a.finishedAt == b.finishedAt
  }

  lemma GrowsBySetting(w: World, w': World, k: nat)
    requires WorldInv(w) && k in w'.workers && w' == SetWorker(w, k, w'.workers[k])
    requires WorkerOk(w, w'.workers[k])
    ensures Grows(w, w') && WorldInv(w')
  {
    WorkerStays(w, w', w'.workers[k]);
    GrowKeepsInv(w, w', {k});
  }

  // ---------- the moves ----------

  /** A terminal phase that was reached is the ledger's own. */
  lemma TerminalIsTrue(w: World, uid: string, s: RunStatus)
    requires Truthful(w, uid, s) && s.backendRunId != "" && IsTerminal(s.phase)
    ensures s.backendRunId in w.ledger && PhaseOf(w.ledger[s.backendRunId].status) == s.phase
    ensures L.Terminal(w.ledger[s.backendRunId].status)
  {
  }

  /** The statuses written without asking the gateway. */
  lemma OwnStatusesAreOk(w: World, cr: Cr, message: string)
    requires Truthful(w, cr.uid, cr.status)
    ensures Forward(cr.status, RejectStatus(cr, message)) && Truthful(w, cr.uid, RejectStatus(cr, message))
    ensures Forward(cr.status, Sanitize(cr.status, cr.generation)) && Truthful(w, cr.uid, Sanitize(cr.status, cr.generation))
    ensures SameLifecycle(cr.status, Sanitize(cr.status, cr.generation))
    ensures cr.status.backendRunId == "" ==>
      Forward(cr.status, CancelledEarlyStatus(cr, w.clock)) && Truthful(w, cr.uid, CancelledEarlyStatus(cr, w.clock))
  {
    hide SetCondition;
  }

  lemma DeletionDecisionIsOk(w: World, cr: Cr, valid: bool, message: string)
    requires IsVersion(w, cr) && Truthful(w, cr.uid, cr.status) && (cr.deleting || !cr.finalizer)
    ensures WorkerOk(w, Decide(cr, valid, message, w.clock))
  {
    if cr.status.backendRunId != "" && IsTerminal(cr.status.phase) { TerminalIsTrue(w, cr.uid, cr.status); }
  }

  lemma LiveDecisionIsOk(w: World, cr: Cr, valid: bool, message: string)
    requires IsVersion(w, cr) && Truthful(w, cr.uid, cr.status) && !cr.deleting && cr.finalizer
    ensures WorkerOk(w, Decide(cr, valid, message, w.clock))
  {
    OwnStatusesAreOk(w, cr, message);
    hide RejectStatus;
    hide Sanitize;
    hide CancelledEarlyStatus;
    hide Truthful;
    hide Forward;
  }

  lemma DecideIsOk(w: World, cr: Cr, valid: bool, message: string)
    requires WorldInv(w) && IsVersion(w, cr)
    ensures WorkerOk(w, Decide(cr, valid, message, w.clock))
  {
    assert VersionOk(w, cr.version);
    hide Decide;
    hide WorkerOk;
    if cr.deleting || !cr.finalizer { DeletionDecisionIsOk(w, cr, valid, message); } else { LiveDecisionIsOk(w, cr, valid, message); }
  }

  lemma ReadKeepsInv(w: World, m: Move)
    requires WorldInv(w) && CanMove(w, m) && m.Read?
    ensures Grows(w, Apply(w, m)) && WorldInv(Apply(w, m))
  {
    assert VersionOk(w, m.v);
    GrowsBySetting(w, Apply(w, m), m.k);
  }

  lemma BranchKeepsInv(w: World, m: Move)
    requires WorldInv(w) && CanMove(w, m) && m.Branch?
    ensures Grows(w, Apply(w, m)) && WorldInv(Apply(w, m))
  {
    assert WorkerOk(w, w.workers[m.k]);
    DecideIsOk(w, w.workers[m.k].cr, m.valid, m.message);
    GrowsBySetting(w, Apply(w, m), m.k);
  }

  lemma FailureIsOk(w: World, cr: Cr, reason: string, message: string)
    requires IsVersion(w, cr) && Truthful(w, cr.uid, cr.status)
    ensures PendingStatusOk(w, cr.(status := FailureStatus(cr, reason, message)), Stop)
  {
  }

  lemma SubmittedIsOk(w: World, cr: Cr, control: ControlRun, now: Time)
    requires IsVersion(w, cr) && Truthful(w, cr.uid, cr.status) && cr.status.backendRunId == ""
    requires Answers(control, control.id, w.ledger) && w.ledger[control.id].tenant == w.tenant && Recorded(w.submissions, cr.uid, control.id)
    ensures PendingStatusOk(w, cr.(status := SubmittedStatus(cr, control, now)), Stop)
  {
    var s := cr.status.(backendRunId := control.id, attempts := 1, observedGeneration := cr.generation);
    hide SetCondition;
    hide Project;
    FirstProjection(w, cr.uid, s, control, cr.generation, now);
  }

  lemma PolledIsOk(w: World, w': World, cr: Cr, control: ControlRun, now: Time)
    requires Grows(w, w') && IsVersion(w, cr) && Truthful(w, cr.uid, cr.status) && cr.status.backendRunId != ""
    requires Answers(control, cr.status.backendRunId, w'.ledger)
    ensures Forward(cr.status, PolledStatus(cr, control, now)) && Truthful(w', cr.uid, PolledStatus(cr, control, now))
    ensures Forward(cr.status, CancelledStatus(cr, control, now)) && Truthful(w', cr.uid, CancelledStatus(cr, control, now))
  {
    hide SetCondition;
    hide Project;
    ProjectionIsForward(w, w', cr.uid, cr.status, control, cr.generation, now);
  }

  lemma SubmitIsOk(w: World, m: Move)
    requires WorldInv(w) && CanMove(w, m) && m.CallSubmit?
    ensures Grows(w, Apply(w, m)) && WorkerOk(Apply(w, m), Apply(w, m).workers[m.k])
  {
    var w', cr := Apply(w, m), w.workers[m.k].cr;
    assert WorkerOk(w, w.workers[m.k]) && VersionOk(w, cr.version);
    TruthfulStays(w, w', cr.uid, cr.status);
    if m.outcome.Ok? {
      assert w'.submissions[|w.submissions|].id == m.outcome.control.id;
      SubmittedIsOk(w', cr, m.outcome.control, w.clock);
    } else {
      FailureIsOk(w', cr, "SubmitFailed", m.outcome.message);
    }
  }

  lemma SubmitKeepsInv(w: World, m: Move)
    requires WorldInv(w) && CanMove(w, m) && m.CallSubmit?
    ensures Grows(w, Apply(w, m)) && WorldInv(Apply(w, m))
  {
    SubmitIsOk(w, m);
    var cr := w.workers[m.k].cr;
    assert WorkerOk(w, w.workers[m.k]);
    assert KeyOfVersion(Apply(w, m), cr.uid, EffectiveKey(cr)) by { assert Apply(w, m).history[cr.version] == cr; }
    hide WorkerOk;
    hide AfterSubmit;
    hide KeyOfVersion;
    GrowKeepsInv(w, Apply(w, m), {m.k});
  }

  lemma GetKeepsInv(w: World, m: Move)
    requires WorldInv(w) && CanMove(w, m) && m.CallGet?
    ensures Grows(w, Apply(w, m)) && WorldInv(Apply(w, m))
  {
    var w', cr := Apply(w, m), w.workers[m.k].cr;
    assert WorkerOk(w, w.workers[m.k]) && VersionOk(w, cr.version);
    if m.outcome.Ok? { PolledIsOk(w, w, cr, m.outcome.control, w.clock); } else { FailureIsOk(w, cr, "PollFailed", m.outcome.message); }
    hide PolledStatus;
    GrowsBySetting(w, w', m.k);
  }

  lemma AfterCancelIsOk(w: World, w': World, cr: Cr, outcome: Outcome)
    requires Grows(w, w') && IsVersion(w, cr) && Truthful(w, cr.uid, cr.status) && cr.status.backendRunId != ""
    requires outcome.Ok? ==> Answers(outcome.control, cr.status.backendRunId, w'.ledger)
    ensures WorkerOk(w', AfterCancel(cr, outcome, w.clock))
  {
    hide CancelledStatus;
    hide PolledStatus;
    hide FailureStatus;
    hide Truthful;
    TruthfulStays(w, w', cr.uid, cr.status);
    if outcome.Ok? {
      PolledIsOk(w, w', cr, outcome.control, w.clock);
    } else {
      FailureIsOk(w', cr, "CancelFailed", outcome.message);
    }
    hide Forward;
    hide Answers;
  }

  lemma NotFoundMayRelease(w: World, w': World, cr: Cr)
    requires Grows(w, w') && Truthful(w, cr.uid, cr.status) && cr.status.backendRunId != ""
    requires !Visible(w.ledger, cr.status.backendRunId, cr.tenantLabel)
    ensures MayRelease(w', cr)
  {
    assert RunAdvances(w.ledger, w'.ledger, cr.status.backendRunId);
  }

  lemma AfterCancelForDeleteIsOk(w: World, w': World, cr: Cr, outcome: Outcome)
    requires Grows(w, w') && IsVersion(w, cr) && Truthful(w, cr.uid, cr.status) && cr.status.backendRunId != "" && cr.deleting && cr.finalizer
    requires MayAnswer(outcome, cr.status.backendRunId, cr.tenantLabel, w.ledger, w'.ledger)
    ensures WorkerOk(w', AfterCancelForDelete(cr, outcome, w.clock))
  {
    if outcome.Ok? {
      ProjectionIsForward(w, w', cr.uid, cr.status, outcome.control, cr.generation, w.clock);
    } else if outcome.NotFound? {
      NotFoundMayRelease(w, w', cr);
    }
    hide Project;
    hide MayRelease;
    hide Truthful;
    hide Forward;
    hide Answers;
    hide Visible;
  }

  lemma CancelIsOk(w: World, m: Move)
    requires WorldInv(w) && CanMove(w, m) && m.CallCancel?
    ensures Grows(w, Apply(w, m)) && WorkerOk(Apply(w, m), Apply(w, m).workers[m.k])
  {
    var w', cr := Apply(w, m), w.workers[m.k].cr;
    assert WorkerOk(w, w.workers[m.k]) && VersionOk(w, cr.version);
    hide AfterCancel;
    hide AfterCancelForDelete;
    hide Truthful;
    if w.workers[m.k].Cancelling? {
      AfterCancelIsOk(w, w', cr, m.outcome);
    } else {
      AfterCancelForDeleteIsOk(w, w', cr, m.outcome);
    }
  }

  lemma CancelKeepsInv(w: World, m: Move)
    requires WorldInv(w) && CanMove(w, m) && m.CallCancel?
    ensures Grows(w, Apply(w, m)) && WorldInv(Apply(w, m))
  {
    CancelIsOk(w, m);
    hide WorkerOk;
    hide AfterCancel;
    hide AfterCancelForDelete;
    GrowKeepsInv(w, Apply(w, m), {m.k});
  }

  /** Storing a version that continues the current one. */
  lemma StoreKeepsInv(w: World, cr: Cr)
    requires WorldInv(w) && !w.gone && cr.uid == Current(w).uid && Forward(Current(w).status, cr.status) && Truthful(w, cr.uid, cr.status)
    ensures Grows(w, Store(w, cr)) && WorldInv(Store(w, cr))
    ensures forall worker {:trigger WorkerOk(Store(w, cr), worker)} :: WorkerOk(w, worker) ==> WorkerOk(Store(w, cr), worker)
  {
    var w' := Store(w, cr);
    if cr != Current(w) {
      TruthfulStays(w, w', cr.uid, cr.status);
      assert VersionOk(w', |w.history|);
      assert StepForward(w'.history, |w.history|);
    }
    forall worker | WorkerOk(w, worker) ensures WorkerOk(w', worker) { WorkerStays(w, w', worker); }
    GrowKeepsInv(w, w', {});
  }

  /** Right after its own write a reconciler holds the current version. */
  lemma AfterWriteIsOk(w: World, after: After)
    requires WorldInv(w)
    requires after.ThenTtl? ==> Finished(Current(w))
    requires after.ThenFinalize? ==> Current(w).status.backendRunId != "" && Current(w).deleting && Current(w).finalizer
    ensures WorkerOk(w, AfterWrite(Current(w), after))
  {
    assert VersionOk(w, |w.history| - 1);
    if after.ThenFinalize? && IsTerminal(Current(w).status.phase) { TerminalIsTrue(w, Current(w).uid, Current(w).status); }
  }

  lemma AlwaysIdle(w: World)
    ensures WorkerOk(w, Idle)
  {
  }

  lemma GrowsTransitive(a: World, b: World, c: World)
    requires Grows(a, b) && Grows(b, c)
    ensures Grows(a, c)
  {
    forall id | id in a.ledger ensures RunAdvances(a.ledger, c.ledger, id) {
      assert RunAdvances(a.ledger, b.ledger, id) && RunAdvances(b.ledger, c.ledger, id);
    }
  }

  lemma WriteStatusKeepsInv(w: World, m: Move)
    requires WorldInv(w) && CanMove(w, m) && m.Write? && m.result != Refused && w.workers[m.k].WritingStatus?
    ensures Grows(w, Apply(w, m)) && WorldInv(Apply(w, m))
  {
    var cr, after := w.workers[m.k].cr, w.workers[m.k].after;
    assert WorkerOk(w, w.workers[m.k]) && VersionOk(w, |w.history| - 1);
    assert cr == Current(w).(status := cr.status);
    var stored := Store(w, cr);
    StoreKeepsInv(w, cr);
    AfterWriteIsOk(stored, after);
    hide AfterWrite;
    hide WorkerOk;
    hide Truthful;
    assert WorkerOk(stored, Idle) by { AlwaysIdle(stored); }
    GrowsBySetting(stored, Apply(w, m), m.k);
    GrowsTransitive(w, stored, Apply(w, m));
  }

  /** A new version with the current status. */
  lemma SameStatusKeepsInv(w: World, cr: Cr)
    requires WorldInv(w) && !w.gone && cr.uid == Current(w).uid && cr.status == Current(w).status
    ensures Grows(w, Store(w, cr)) && WorldInv(Store(w, cr))
  {
    assert VersionOk(w, |w.history| - 1);
    StoreKeepsInv(w, cr);
  }

  lemma GoneKeepsInv(w: World, gone: bool)
    requires WorldInv(w) && (gone ==> !Current(w).finalizer)
    ensures Grows(w, w.(gone := gone)) && WorldInv(w.(gone := gone))
  {
    GrowKeepsInv(w, w.(gone := gone), {});
  }

  lemma WriteMetaKeepsInv(w: World, m: Move)
    requires WorldInv(w) && CanMove(w, m) && m.Write? && m.result != Refused && w.workers[m.k].WritingMeta?
    ensures Grows(w, Apply(w, m)) && WorldInv(Apply(w, m))
  {
    var cr := w.workers[m.k].cr;
    var stored := Store(w, Current(w).(finalizer := cr.finalizer));
    var gone := Current(w).deleting && !cr.finalizer;
    SameStatusKeepsInv(w, Current(w).(finalizer := cr.finalizer));
    GoneKeepsInv(stored, gone);
    AlwaysIdle(stored.(gone := gone));
    hide WorkerOk;
    GrowsBySetting(stored.(gone := gone), Apply(w, m), m.k);
    GrowsTransitive(w, stored, stored.(gone := gone));
    GrowsTransitive(w, stored.(gone := gone), Apply(w, m));
  }

  lemma DeleteKeepsInv(w: World)
    requires WorldInv(w)
    ensures Grows(w, DeleteCr(w)) && WorldInv(DeleteCr(w))
  {
    if w.gone || Current(w).deleting {
      GoneKeepsInv(w, w.gone);
    } else if Current(w).finalizer {
      SameStatusKeepsInv(w, Current(w).(deleting := true, generation := Current(w).generation + 1));
    } else {
      GoneKeepsInv(w, true);
    }
  }

  lemma SettlesIdle(w: World, k: nat)
    requires WorldInv(w)
    ensures Grows(w, SetWorker(w, k, Idle)) && WorldInv(SetWorker(w, k, Idle))
  {
    AlwaysIdle(w);
    hide WorkerOk;
    GrowsBySetting(w, SetWorker(w, k, Idle), k);
  }

  lemma WriteKeepsInv(w: World, m: Move)
    requires WorldInv(w) && CanMove(w, m) && m.Write?
    ensures Grows(w, Apply(w, m)) && WorldInv(Apply(w, m))
  {
    if m.result == Refused { SettlesIdle(w, m.k); }
    else if w.workers[m.k].WritingStatus? { WriteStatusKeepsInv(w, m); }
    else { WriteMetaKeepsInv(w, m); }
  }

  lemma TtlKeepsInv(w: World, m: Move)
    requires WorldInv(w) && CanMove(w, m) && m.Ttl?
    ensures Grows(w, Apply(w, m)) && WorldInv(Apply(w, m))
  {
    assert WorkerOk(w, w.workers[m.k]);
    GrowsBySetting(w, Apply(w, m), m.k);
  }

  lemma DeletionKeepsInv(w: World, m: Move)
    requires WorldInv(w) && CanMove(w, m) && m.Delete?
    ensures Grows(w, Apply(w, m)) && WorldInv(Apply(w, m))
  {
    var w1 := if m.reached then DeleteCr(w) else w;
    DeleteKeepsInv(w);
    GoneKeepsInv(w, w.gone);
    SettlesIdle(w1, m.k);
    GrowsTransitive(w, w1, Apply(w, m));
  }

  /** Time passes and the ledger moves without the operator. */
  lemma OutsideKeepsInv(w: World, m: Move)
    requires WorldInv(w) && CanMove(w, m) && (m.Tick? || m.LedgerMoves?)
    ensures Grows(w, Apply(w, m)) && WorldInv(Apply(w, m))
  {
    GrowKeepsInv(w, Apply(w, m), {});
  }

  lemma UserKeepsInv(w: World, m: Move)
    requires WorldInv(w) && CanMove(w, m) && (m.EditSpec? || m.EditLabel? || m.UserDelete?)
    ensures Grows(w, Apply(w, m)) && WorldInv(Apply(w, m))
  {
    if m.EditSpec? {
      GoneKeepsInv(w, w.gone);
      SameStatusKeepsInv(w, Current(w).(spec := m.spec, generation := Current(w).generation + 1));
    } else if m.EditLabel? {
      SameStatusKeepsInv(w, Current(w).(tenantLabel := m.tenantLabel));
    } else {
      DeleteKeepsInv(w);
    }
  }

  lemma RecreateKeepsInv(w: World, m: Move)
    requires WorldInv(w) && CanMove(w, m) && m.Recreate?
    ensures Grows(w, Apply(w, m)) && WorldInv(Apply(w, m))
  {
    var w' := Apply(w, m);
    assert VersionOk(w', |w.history|);
    assert StepForward(w'.history, |w.history|);
    GrowKeepsInv(w, w', {});
  }

  lemma AbandonKeepsInv(w: World, m: Move)
    requires WorldInv(w) && CanMove(w, m) && m.Abandon?
    ensures Grows(w, Apply(w, m)) && WorldInv(Apply(w, m))
  {
    SettlesIdle(w, m.k);
  }

  /** Every move keeps the invariant, and versions, submissions and ledger only grow. */
  lemma MoveKeepsInv(w: World, m: Move)
    requires WorldInv(w) && CanMove(w, m)
    ensures Grows(w, Apply(w, m)) && WorldInv(Apply(w, m))
  {
    hide *;
    match m
    case Read(_, _) => ReadKeepsInv(w, m);
    case Branch(_, _, _) => BranchKeepsInv(w, m);
    case CallSubmit(_, _, _) => SubmitKeepsInv(w, m);
    case CallGet(_, _) => GetKeepsInv(w, m);
    case CallCancel(_, _, _) => CancelKeepsInv(w, m);
    case Write(_, _) => WriteKeepsInv(w, m);
    case Ttl(_) => TtlKeepsInv(w, m);
    case Delete(_, _) => DeletionKeepsInv(w, m);
    case Abandon(k) => AbandonKeepsInv(w, m);
    case EditSpec(_) => UserKeepsInv(w, m);
    case EditLabel(_) => UserKeepsInv(w, m);
    case UserDelete => UserKeepsInv(w, m);
    case Recreate(_, _, _) => RecreateKeepsInv(w, m);
    case Tick(_) => OutsideKeepsInv(w, m);
    case LedgerMoves(_) => OutsideKeepsInv(w, m);
  }
}
