/** Which gateway call a reconciliation makes, and what becomes of the answer. */
module OperatorCalls {
  import opened Wrappers
  import opened Status
  import opened LedgerView
  import opened Operator
  import opened OperatorSafety
  import opened OperatorRuns
  import opened ReconcileStatus
  import Specs
  import L = Ledger

  // ---------- which call ----------

  /** The AgentRun is not being deleted, and guarded by the finalizer. */
  predicate Kept(cr: Cr) {
    !cr.deleting && cr.finalizer
  }

  predicate Recorded(cr: Cr) {
    cr.status.backendRunId != ""
  }

  /** Every call is meant by the copy it is made for. */
  predicate Meant(worker: Worker) {
    match worker
    case Submitting(cr) => Kept(cr) && !cr.spec.cancel && !Recorded(cr)
    case Polling(cr) => Kept(cr) && !cr.spec.cancel && Recorded(cr) && !IsTerminal(cr.status.phase)
    case Cancelling(cr) => Kept(cr) && cr.spec.cancel && Recorded(cr)
    case CancellingForDelete(cr) => cr.deleting && cr.finalizer && Recorded(cr) && !IsTerminal(cr.status.phase)
    case _ => true
  }

  predicate Calling(worker: Worker) {
    worker.Submitting? || worker.Polling? || worker.Cancelling? || worker.CancellingForDelete?
  }

  lemma BranchMeans(cr: Cr, valid: bool, message: string, now: Time)
    ensures var worker := Decide(cr, valid, message, now);
      Meant(worker) && (Calling(worker) ==> worker.cr == cr && (worker.CancellingForDelete? || valid))
  {
    hide Sanitize;
    hide RejectStatus;
    hide CancelledEarlyStatus;
  }

  lemma AnswersEndCalls(cr: Cr, outcome: Outcome, now: Time, after: After)
    ensures !Calling(AfterSubmit(cr, outcome, now)) && !Calling(AfterGet(cr, outcome, now)) && !Calling(AfterCancel(cr, outcome, now))
    ensures !Calling(AfterCancelForDelete(cr, outcome, now)) && !Calling(AfterWrite(cr, after))
  {
    hide Project;
    hide SubmittedStatus;
    hide PolledStatus;
    hide CancelledStatus;
    hide FailureStatus;
  }

  lemma WritesEndCalls(w: World, k: nat, result: WriteResult, other: nat)
    requires w.history != [] && k in w.workers && (w.workers[k].WritingStatus? || w.workers[k].WritingMeta?)
    ensures var w' := DoWrite(w, k, result);
      other in w'.workers && Calling(w'.workers[other]) ==> other in w.workers && w'.workers[other] == w.workers[other]
  {
    match w.workers[k] {
      case WritingStatus(cr, after) => AnswersEndCalls(Current(Store(w, Current(w).(status := cr.status))), Error(""), 0, after);
      case _ =>
    }
    hide AfterWrite;
    hide AfterSubmit;
    hide AfterGet;
    hide AfterCancel;
    hide AfterCancelForDelete;
  }

  lemma StoresKeepWorkers(w: World, cr: Cr)
    requires w.history != []
    ensures Store(w, cr).workers == w.workers && DeleteCr(w).workers == w.workers
  {
  }

  /** Only a branch leads to a call. */
  lemma OnlyBranchesCall(w: World, m: Move, k: nat)
    requires w.history != [] && CanMove(w, m) && k in Apply(w, m).workers && Calling(Apply(w, m).workers[k])
    ensures k in w.workers
    ensures (m.Branch? && m.k == k) || Apply(w, m).workers[k] == w.workers[k]
  {
    if m.Write? { WritesEndCalls(w, m.k, m.result, k); }
    if m.CallSubmit? || m.CallGet? || m.CallCancel? { AnswersEndCalls(w.workers[m.k].cr, m.outcome, w.clock, Stop); }
    forall cr { StoresKeepWorkers(w, cr); }
    hide Store;
    hide DeleteCr;
    hide Decide;
    hide DoWrite;
    hide AfterSubmit;
    hide AfterGet;
    hide AfterCancel;
    hide AfterCancelForDelete;
    hide Expired;
    hide Advances;
    hide MayAnswer;
    hide SubmitMayAnswer;
  }

  /** A reconciler about to call got there by a branch on the copy it holds, with valid
      references unless the AgentRun is being deleted; and the call is the one meant. */
  lemma {:induction false} CallIsMeant(worlds: seq<World>, moves: seq<Move>, n: nat, k: nat) returns (i: nat)
    requires OperatorRun(worlds, moves) && n < |worlds| && k in worlds[n].workers && Calling(worlds[n].workers[k])
    ensures Meant(worlds[n].workers[k])
    ensures i < n && moves[i].Branch? && moves[i].k == k && k in worlds[i].workers
    ensures worlds[i].workers[k] == Holding(worlds[n].workers[k].cr)
    ensures worlds[n].workers[k].CancellingForDelete? || moves[i].valid
  {
    assert n > 0;
    assert Steps(worlds[n - 1], moves[n - 1], worlds[n]);
    OnlyBranchesCall(worlds[n - 1], moves[n - 1], k);
    if moves[n - 1].Branch? && moves[n - 1].k == k {
      i := n - 1;
      var m := moves[n - 1];
      BranchMeans(worlds[n - 1].workers[k].cr, m.valid, m.message, worlds[n - 1].clock);
    } else {
      i := CallIsMeant(worlds, moves, n - 1, k);
    }
    hide Decide;
    hide Meant;
  }

  predicate HasWorker(w: World, k: nat) {
    k in w.workers && (Calling(w.workers[k]) || w.workers[k].Holding?)
  }

  lemma CallPoint(w: World, m: Move)
    requires w.history != [] && CanMove(w, m) && (m.CallSubmit? || m.CallGet? || m.CallCancel?)
    ensures m.k in w.workers && Calling(w.workers[m.k])
    ensures m.CallSubmit? <==> w.workers[m.k].Submitting?
    ensures m.CallGet? <==> w.workers[m.k].Polling?
  {
    hide Advances;
    hide MayAnswer;
    hide SubmitMayAnswer;
  }

  /** A submission is made only for a copy that asks for no cancellation and has no run; a
      poll only for one that asks for none, with a run in no terminal phase; a cancellation
      only for one with a run whose user asks for it or whose deletion waits for it. */
  lemma RequestsAreMeant(worlds: seq<World>, moves: seq<Move>, n: nat)
    requires OperatorRun(worlds, moves) && n < |moves| && (moves[n].CallSubmit? || moves[n].CallGet? || moves[n].CallCancel?)
    ensures HasWorker(worlds[n], moves[n].k)
    ensures var cr := worlds[n].workers[moves[n].k].cr;
      && cr.finalizer
      && (moves[n].CallSubmit? ==> !cr.deleting && !cr.spec.cancel && cr.status.backendRunId == "")
      && (moves[n].CallGet? ==> !cr.deleting && !cr.spec.cancel && cr.status.backendRunId != "" && !IsTerminal(cr.status.phase))
      && (moves[n].CallCancel? ==> cr.status.backendRunId != "" && if cr.deleting then !IsTerminal(cr.status.phase) else cr.spec.cancel)
  {
    var k := moves[n].k;
    assert Steps(worlds[n], moves[n], worlds[n + 1]);
    CallPoint(worlds[n], moves[n]);
    var i := CallIsMeant(worlds, moves, n, k);
    hide CanMove;
    hide Apply;
    hide OperatorRun;
  }

  // ---------- the call that is due ----------

  ghost predicate MaySubmit(w: World, k: nat) {
    w.history != [] && CanMove(w, CallSubmit(k, Error(""), w.ledger))
  }

  ghost predicate MayPoll(w: World, k: nat) {
    w.history != [] && CanMove(w, CallGet(k, Error("")))
  }

  ghost predicate MayCancel(w: World, k: nat) {
    w.history != [] && CanMove(w, CallCancel(k, Error(""), w.ledger))
  }

  lemma LedgerStays(ledger: View)
    requires UniqueKeys(ledger)
    ensures Advances(ledger, ledger)
  {
    forall id | id in ledger ensures RunAdvances(ledger, ledger, id) {
    }
  }

  lemma MayCallIff(w: World, k: nat)
    requires w.history != [] && UniqueKeys(w.ledger) && k in w.workers
    ensures MaySubmit(w, k) <==> w.workers[k].Submitting?
    ensures MayPoll(w, k) <==> w.workers[k].Polling?
    ensures MayCancel(w, k) <==> w.workers[k].Cancelling? || w.workers[k].CancellingForDelete?
  {
    LedgerStays(w.ledger);
    hide Advances;
  }

  /** What a branch leads to: exactly the one call the copy it holds asks for. */
  lemma DecideCalls(cr: Cr, valid: bool, message: string, now: Time)
    ensures var next := Decide(cr, valid, message, now);
      && (next == Submitting(cr) <==> Kept(cr) && valid && !cr.spec.cancel && !Recorded(cr))
      && (next == Polling(cr) <==> Kept(cr) && valid && !cr.spec.cancel && Recorded(cr) && !IsTerminal(cr.status.phase))
      && (next == Cancelling(cr) <==> Kept(cr) && valid && cr.spec.cancel && Recorded(cr))
      && (next == CancellingForDelete(cr) <==> cr.deleting && cr.finalizer && Recorded(cr) && !IsTerminal(cr.status.phase))
      && (Calling(next) ==> next.cr == cr)
  {
    hide Sanitize;
    hide RejectStatus;
    hide CancelledEarlyStatus;
  }

  lemma InvLedger(w: World)
    requires WorldInv(w)
    ensures w.history != [] && UniqueKeys(w.ledger)
  {
  }

  /** A branch on a copy makes a submission, a poll or a cancellation due exactly when the
      copy asks for it. */
  lemma BranchLeadsToCall(worlds: seq<World>, moves: seq<Move>, n: nat)
    requires OperatorRun(worlds, moves) && n < |moves| && moves[n].Branch?
    ensures moves[n].k in worlds[n].workers && worlds[n].workers[moves[n].k].Holding? && moves[n].k in worlds[n + 1].workers
    ensures var k, w, cr, valid := moves[n].k, worlds[n + 1], worlds[n].workers[moves[n].k].cr, moves[n].valid;
      var guarded := !cr.deleting && cr.finalizer && valid;
      var stopped := if cr.deleting then cr.finalizer && !IsTerminal(cr.status.phase) else guarded && cr.spec.cancel;
      && (MaySubmit(w, k) <==> guarded && !cr.spec.cancel && cr.status.backendRunId == "")
      && (MayPoll(w, k) <==> guarded && !cr.spec.cancel && cr.status.backendRunId != "" && !IsTerminal(cr.status.phase))
      && (MayCancel(w, k) <==> stopped && cr.status.backendRunId != "")
      && (Calling(w.workers[k]) ==> w.workers[k].cr == cr)
  {
    assert Steps(worlds[n], moves[n], worlds[n + 1]);
    RunKeepsInv(worlds, moves, n + 1);
    var Branch(k, valid, message) := moves[n];
    var cr := worlds[n].workers[k].cr;
    assert worlds[n + 1].workers[k] == Decide(cr, valid, message, worlds[n].clock);
    DecideCalls(cr, valid, message, worlds[n].clock);
    InvLedger(worlds[n + 1]);
    MayCallIff(worlds[n + 1], k);
    hide Decide;
    hide MaySubmit;
    hide MayPoll;
    hide MayCancel;
    hide WorldInv;
    hide OperatorRun;
    hide CanMove;
  }

  // ---------- the other branches ----------

  /** The status that a rejection leaves. */
  ghost predicate SaysRejected(s: RunStatus, before: RunStatus, message: string, generation: nat) {
    && LifecycleKept(s, before) && s.observedGeneration == generation
    && Sets(before.conditions, s.conditions, [Condition(Ready, False, OtherReason("ReferencesNotReady"), OtherMessage(message), generation)])
  }

  ghost predicate SaysCancelledEarly(s: RunStatus, before: RunStatus, now: Time, generation: nat) {
    && s.phase == Cancelled && s.finishedAt == Some(now) && s.backendRunId == before.backendRunId && s.observedGeneration == generation
    && SaysResolved(s.conditions, generation)
    && FindCondition(s.conditions, CancelledEarly).Some? && FindCondition(s.conditions, CancelledEarly).value.status == True
  }

  lemma RejectSays(cr: Cr, message: string)
    ensures SaysRejected(RejectStatus(cr, message), cr.status, message, cr.generation)
  {
    SetsOne(cr.status.conditions, Condition(Ready, False, OtherReason("ReferencesNotReady"), OtherMessage(message), cr.generation));
  }

  lemma EarlySays(cr: Cr, now: Time)
    ensures SaysCancelledEarly(CancelledEarlyStatus(cr, now), cr.status, now, cr.generation)
  {
    var early := Condition(CancelledEarly, True, CancelledBeforeSubmit, Fixed(CancelledBeforeSubmit), cr.generation);
    SetThenFind(cr.status.conditions, ReferencesReady(cr.generation), Ready);
    SetThenFind(SetCondition(cr.status.conditions, ReferencesReady(cr.generation)), early, Ready);
    SetThenFind(SetCondition(cr.status.conditions, ReferencesReady(cr.generation)), early, CancelledEarly);
    hide SetCondition;
    hide FindCondition;
  }

  /** Where a branch makes no call: the finalizer is set or taken away, the references are
      reported as not ready, the AgentRun is cancelled without a run, or a terminal one is
      brought into shape and its time to live looked at. */
  lemma BranchWithoutCall(cr: Cr, valid: bool, message: string, now: Time)
    ensures var next := Decide(cr, valid, message, now);
      && (cr.deleting && !cr.finalizer ==> next == Idle)
      && (cr.deleting && cr.finalizer && (cr.status.backendRunId == "" || IsTerminal(cr.status.phase)) ==> next == WritingMeta(cr.(finalizer := false)))
      && (!cr.deleting && !cr.finalizer ==> next == WritingMeta(cr.(finalizer := true)))
      && (!cr.deleting && cr.finalizer && !valid ==>
            next.WritingStatus? && next.cr == cr.(status := next.cr.status) && SaysRejected(next.cr.status, cr.status, message, cr.generation))
      && (!cr.deleting && cr.finalizer && valid && cr.spec.cancel && cr.status.backendRunId == "" ==>
            next.WritingStatus? && next.cr == cr.(status := next.cr.status) && SaysCancelledEarly(next.cr.status, cr.status, now, cr.generation))
      && (!cr.deleting && cr.finalizer && valid && !cr.spec.cancel && cr.status.backendRunId != "" && IsTerminal(cr.status.phase) ==>
            if next.WritingStatus? then next.after == ThenTtl && next.cr == cr.(status := Sanitize(cr.status, cr.generation)) && next.cr != cr
            else next == CheckingTtl(cr) && SaysCompleted(cr.status.conditions, cr.status.phase, cr.generation))
  {
    RejectSays(cr, message);
    EarlySays(cr, now);
    if IsTerminal(cr.status.phase) { SanitizedSays(cr.status, cr.generation); }
    hide Sanitize;
    hide RejectStatus;
    hide CancelledEarlyStatus;
    hide SaysRejected;
    hide SaysCancelledEarly;
    hide SaysCompleted;
  }

  // ---------- what becomes of the answer ----------

  /** The copy is to be written with a status that mirrors the answer. */
  ghost predicate Mirroring(worker: Worker, cr: Cr, control: ControlRun, id: string) {
    && worker.WritingStatus? && worker.cr == cr.(status := worker.cr.status) && Mirrors(worker.cr.status, control, id)
    && SaysCompleted(worker.cr.status.conditions, worker.cr.status.phase, cr.generation)
  }

  /** The copy is to be written with its lifecycle kept and the gateway reported as failing. */
  ghost predicate Failing(worker: Worker, cr: Cr, reason: string, message: string) {
    && worker.WritingStatus? && worker.after == Stop && worker.cr == cr.(status := worker.cr.status)
    && LifecycleKept(worker.cr.status, cr.status)
    && Sets(cr.status.conditions, worker.cr.status.conditions,
            [Condition(ControlPlaneReady, False, OtherReason(reason), OtherMessage(message), cr.generation)])
  }

  lemma FailureSays(cr: Cr, reason: string, message: string)
    ensures Failing(WritingStatus(cr.(status := FailureStatus(cr, reason, message)), Stop), cr, reason, message)
  {
    SetsOne(cr.status.conditions, Condition(ControlPlaneReady, False, OtherReason(reason), OtherMessage(message), cr.generation));
  }

  /** An accepted submission is written with the run's id; a failed one is reported. */
  lemma SubmissionIsWritten(cr: Cr, outcome: Outcome, now: Time)
    ensures var next := AfterSubmit(cr, outcome, now);
      && (outcome.Ok? ==> Mirroring(next, cr, outcome.control, outcome.control.id) && next.cr.status.attempts == 1
                          && SaysReachable(next.cr.status.conditions, cr.generation) && SaysResolved(next.cr.status.conditions, cr.generation))
      && (!outcome.Ok? ==> Failing(next, cr, "SubmitFailed", outcome.message))
  {
    if outcome.Ok? {
      SubmissionMirrors(cr, outcome.control, now);
      SubmissionSays(cr, outcome.control, now);
    } else {
      FailureSays(cr, "SubmitFailed", outcome.message);
    }
    hide SubmittedStatus;
    hide FailureStatus;
    hide Failing;
    hide Mirrors;
    hide SaysCompleted;
    hide SubmittedConditions;
  }

  /** The status already is what the answer says. */
  ghost predicate InStep(cr: Cr, control: ControlRun) {
    && Mirrors(cr.status, control, AnsweredId(control, cr.status.backendRunId)) && cr.status.observedGeneration == cr.generation
    && SaysCompleted(cr.status.conditions, cr.status.phase, cr.generation) && SaysReachable(cr.status.conditions, cr.generation)
  }

  /** A poll's answer is written unless the status already says so; its time to live is
      looked at once the run is terminal. */
  lemma PollIsWritten(cr: Cr, outcome: Outcome, now: Time)
    ensures var next := AfterGet(cr, outcome, now);
      && (outcome.Ok? ==>
            if next.WritingStatus? then
              && Mirroring(next, cr, outcome.control, AnsweredId(outcome.control, cr.status.backendRunId))
              && next.after == (if IsTerminal(next.cr.status.phase) then ThenTtl else Stop)
            else InStep(cr, outcome.control) && next == if IsTerminal(cr.status.phase) then CheckingTtl(cr) else Idle)
      && (!outcome.Ok? ==> Failing(next, cr, "PollFailed", outcome.message))
  {
    if outcome.Ok? {
      PollMirrors(cr, outcome.control, now);
      PollSays(cr, outcome.control, now);
    } else {
      FailureSays(cr, "PollFailed", outcome.message);
    }
    hide PolledStatus;
    hide FailureStatus;
    hide Failing;
    hide Mirrors;
    hide SaysCompleted;
    hide SaysReachable;
    hide AnsweredId;
  }

  /** So is a cancellation's. */
  lemma CancellationIsWritten(cr: Cr, outcome: Outcome, now: Time)
    ensures var next := AfterCancel(cr, outcome, now);
      && (outcome.Ok? ==>
            && Mirroring(next, cr, outcome.control, AnsweredId(outcome.control, cr.status.backendRunId))
            && next.after == (if IsTerminal(next.cr.status.phase) then ThenTtl else Stop))
      && (!outcome.Ok? ==> Failing(next, cr, "CancelFailed", outcome.message))
  {
    if outcome.Ok? {
      CancellationMirrors(cr, outcome.control, now);
      CancellationSays(cr, outcome.control, now);
    } else {
      FailureSays(cr, "CancelFailed", outcome.message);
    }
    hide CancelledStatus;
    hide FailureStatus;
    hide Failing;
    hide Mirrors;
    hide SaysCompleted;
    hide CancelledConditions;
    hide AnsweredId;
  }

  /** A deletion writes the answer and goes on to the finalizer if it is terminal; a 404
      takes it away; any other failure is tried again. */
  lemma DeletionIsWritten(cr: Cr, outcome: Outcome, now: Time)
    ensures var next := AfterCancelForDelete(cr, outcome, now);
      match outcome
      case Ok(control) => Mirroring(next, cr, control, AnsweredId(control, cr.status.backendRunId)) && next.after == ThenFinalize
      case NotFound(_) => next == WritingMeta(cr.(finalizer := false))
      case _ => next == Idle
  {
    if outcome.Ok? {
      ProjectionMirrors(cr.status, outcome.control, cr.generation, now);
      ProjectionSays(cr.status, outcome.control, cr.generation, now);
    }
    hide Project;
    hide Mirrors;
    hide SaysCompleted;
    hide AnsweredId;
  }

  /** What a write that reaches the API server stores, and what the reconciler does then. */
  lemma WriteStores(w: World, k: nat, result: WriteResult)
    requires w.history != [] && CanMove(w, Write(k, result)) && result != Refused
    ensures var w', worker := Apply(w, Write(k, result)), w.workers[k];
      && w'.history != [] && k in w'.workers
      && (worker.WritingStatus? ==>
            && Current(w').status == worker.cr.status && Current(w').spec == Current(w).spec && Current(w').uid == Current(w).uid
            && Current(w').finalizer == Current(w).finalizer
            && (result == Stored ==>
                  w'.workers[k] == match worker.after
                    case Stop => Idle
                    case ThenTtl => CheckingTtl(Current(w'))
                    case ThenFinalize => if IsTerminal(worker.cr.status.phase) then WritingMeta(Current(w').(finalizer := false)) else Idle))
      && (worker.WritingMeta? ==>
            && Current(w').finalizer == worker.cr.finalizer && Current(w').status == Current(w).status && Current(w').spec == Current(w).spec
            && (w'.gone <==> Current(w).deleting && !worker.cr.finalizer))
  {
  }

  /** The time to live is over exactly when the clock has reached the finishing time plus
      that many seconds, as long as they fit in an int64 of nanoseconds. */
  lemma TtlLeadsToDelete(w: World, k: nat)
    requires w.history != [] && CanMove(w, Ttl(k))
    ensures k in Apply(w, Ttl(k)).workers
    ensures var cr := w.workers[k].cr;
      cr.spec.ttlSeconds <= 9_223_372_036 ==>
        Apply(w, Ttl(k)).workers[k] == if cr.spec.ttlSeconds != 0 && cr.status.finishedAt.Some?
                                          && cr.status.finishedAt.value + cr.spec.ttlSeconds * 1_000_000_000 <= w.clock
                                       then Deleting(cr) else Idle
  {
    var cr := w.workers[k].cr;
    if cr.spec.ttlSeconds <= 9_223_372_036 { TtlDelayExactIff(cr.spec.ttlSeconds); }
    hide TtlDelay;
  }

  /** A submission carries the key of the spec, or the uid of an AgentRun without one. */
  lemma SubmissionCarriesKey(w: World, m: Move)
    requires w.history != [] && CanMove(w, m) && m.CallSubmit? && m.outcome.Ok?
    ensures m.k in w.workers && w.workers[m.k].Submitting?
    ensures var cr, id := w.workers[m.k].cr, m.outcome.control.id;
      var key := if cr.spec.idempotencyKey == "" then cr.uid else cr.spec.idempotencyKey;
      Apply(w, m).submissions == w.submissions + [Submitted(cr.uid, w.tenant, key, id)] && RunOf(m.ledger, id, w.tenant, key)
  {
    hide AfterSubmit;
    hide Advances;
  }
}
