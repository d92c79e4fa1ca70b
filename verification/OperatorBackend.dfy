/** The operator over the real backend: whatever the backend does, and whatever of it
    the operator gets to hear, is a move of the operator's world when the ledger it sees
    is the backend's. So everything proved of the operator holds of the two together. */
module OperatorBackend {
  import opened Wrappers
  import opened Status
  import opened LedgerView
  import opened BackendLedger
  import opened Operator
  import L = Ledger
  import Protocol
  import ProtocolSafety
  import Kahn

  /** What an answer carries besides the modelled ledger: the error code and the times. */
  datatype Extras = Extras(errorCode: string, startedAt: Option<Time>, finishedAt: Option<Time>)

  /** The gateway's reading of a snapshot. */
  function ControlOf(snapshot: L.Snapshot, extras: Extras): ControlRun {
    ControlRun(snapshot.id, StatusName(snapshot.status), extras.errorCode, extras.startedAt, extras.finishedAt,
               seq(|snapshot.steps|, i requires 0 <= i < |snapshot.steps| =>
                 ControlStep(snapshot.steps[i].spec.nodeId, StatusName(snapshot.steps[i].status))))
  }

  /** The operator's ledger is the backend's. */
  ghost predicate Coupled(w: World, s: Protocol.MemSys) {
    w.history != [] && ProtocolSafety.SysInv(s) && w.ledger == ViewOf(s)
  }

  lemma SubmitFits(w: World, k: nat, outcome: Outcome, view: View)
    requires w.history != [] && k in w.workers && w.workers[k].Submitting? && Advances(w.ledger, view)
    requires SubmitMayAnswer(outcome, view, w.tenant, EffectiveKey(w.workers[k].cr))
    ensures CanMove(w, CallSubmit(k, outcome, view))
    ensures Apply(w, CallSubmit(k, outcome, view)).ledger == view && Apply(w, CallSubmit(k, outcome, view)).history == w.history
  {
    hide Advances;
    hide AfterSubmit;
    hide SubmitMayAnswer;
  }

  lemma LedgerMovesFit(w: World, view: View)
    requires w.history != [] && Advances(w.ledger, view)
    ensures CanMove(w, LedgerMoves(view)) && Apply(w, LedgerMoves(view)) == w.(ledger := view)
  {
  }

  /** Other clients' requests, executor steps and crashes. */
  lemma BackendStepIsAMove(w: World, s: Protocol.MemSys, event: Protocol.Event)
    requires Coupled(w, s) && Protocol.MemEnabled(s, event)
    ensures CanMove(w, LedgerMoves(ViewOf(Protocol.MemNext(s, event))))
    ensures Coupled(Apply(w, LedgerMoves(ViewOf(Protocol.MemNext(s, event)))), Protocol.MemNext(s, event))
  {
    BackendAdvances(s, event);
    hide Protocol.MemNext;
    hide Protocol.MemEnabled;
    hide ViewOf;
    hide ProtocolSafety.SysInv;
    hide Advances;
    hide CanMove;
    hide Apply;
    LedgerMovesFit(w, ViewOf(Protocol.MemNext(s, event)));
  }

  /** A submission by reconciler `k`, with its answer received or lost on the way back. */
  lemma SubmissionIsAMove(w: World, s: Protocol.MemSys, event: Protocol.Event, k: nat, received: bool, message: string,
                            extras: Extras)
    requires Coupled(w, s) && Protocol.MemEnabled(s, event) && event.ApiSubmit?
    requires k in w.workers && w.workers[k].Submitting?
    requires event.tenant == w.tenant && event.key == EffectiveKey(w.workers[k].cr)
    requires Protocol.CallOf(s.threads, event).Some?
    ensures var reply, s' := Protocol.MemCall(s, event).1, Protocol.MemNext(s, event);
      && reply.Submitted?
      && var m := CallSubmit(k, if received then Ok(ControlOf(reply.run, extras)) else Lost(reply.run.id, message), ViewOf(s'));
      && CanMove(w, m) && Coupled(Apply(w, m), s')
  {
    BackendAdvances(s, event);
    SubmitAnswers(s, event);
    hide Protocol.MemNext;
    hide Protocol.MemCall;
    hide Protocol.CallOf;
    hide Protocol.MemEnabled;
    hide ViewOf;
    hide ProtocolSafety.SysInv;
    hide Advances;
    hide CanMove;
    hide Apply;
    var reply := Protocol.MemCall(s, event).1;
    var outcome := if received then Ok(ControlOf(reply.run, extras)) else Lost(reply.run.id, message);
    SubmitFits(w, k, outcome, ViewOf(Protocol.MemNext(s, event)));
  }

  lemma GetKeepsStatus(s: Protocol.MemSys, event: Protocol.Event)
    requires Protocol.MemEnabled(s, event) && ProtocolSafety.SysInv(s) && event.ApiCall? && event.op.Get? && event.tenant != ""
    ensures ViewOf(Protocol.MemNext(s, event)) == ViewOf(s)
  {
    hide ProtocolSafety.RunOk;
    hide ProtocolSafety.KeyOk;
    if Visible(ViewOf(s), event.id, event.tenant) {
      assert ViewOf(s)[event.id].(status := s.mem.runs[event.id].status) == ViewOf(s)[event.id];
    }
  }

  /** A poll by reconciler `k`. */
  lemma PollIsAMove(w: World, s: Protocol.MemSys, event: Protocol.Event, k: nat, message: string, extras: Extras)
    requires Coupled(w, s) && Protocol.MemEnabled(s, event) && event.ApiCall? && event.op.Get?
    requires k in w.workers && w.workers[k].Polling? && w.workers[k].cr.status.backendRunId != ""
    requires event.tenant == w.tenant && event.tenant != "" && event.id == w.workers[k].cr.status.backendRunId
    ensures var reply, s' := Protocol.MemCall(s, event).1, Protocol.MemNext(s, event);
      && reply.Shown?
      && var m := CallGet(k, if reply.snapshot.Some? then Ok(ControlOf(reply.snapshot.value, extras)) else NotFound(message));
      && CanMove(w, m) && Coupled(Apply(w, m), s')
  {
    BackendAdvances(s, event);
    CallAnswers(s, event);
    GetKeepsStatus(s, event);
    hide Protocol.MemNext;
    hide Protocol.MemCall;
    hide ViewOf;
    hide ProtocolSafety.SysInv;
    hide AfterGet;
    hide Advances;
  }

  /** A cancellation by reconciler `k`, for its tenant or, when deleting, for its label's. */
  lemma CancellationIsAMove(w: World, s: Protocol.MemSys, event: Protocol.Event, k: nat, received: bool, message: string,
                            extras: Extras)
    requires Coupled(w, s) && Protocol.MemEnabled(s, event) && event.ApiCall? && event.op.Cancel?
    requires k in w.workers && (w.workers[k].Cancelling? || w.workers[k].CancellingForDelete?)
    requires event.tenant == (if w.workers[k].Cancelling? then w.tenant else w.workers[k].cr.tenantLabel) && event.tenant != ""
    requires event.id == w.workers[k].cr.status.backendRunId && event.id != ""
    ensures var reply, s' := Protocol.MemCall(s, event).1, Protocol.MemNext(s, event);
      && reply.Shown?
      && var answer := if reply.snapshot.Some? then Ok(ControlOf(reply.snapshot.value, extras)) else NotFound(message);
      && var m := CallCancel(k, if received then answer else Error(message), ViewOf(s'));
      && CanMove(w, m) && Coupled(Apply(w, m), s')
  {
    BackendAdvances(s, event);
    CallAnswers(s, event);
    hide Protocol.MemNext;
    hide Protocol.MemCall;
    hide ViewOf;
    hide ProtocolSafety.SysInv;
    hide AfterCancel;
    hide AfterCancelForDelete;
    hide Advances;
  }
}
