/** The operator as a protocol over the ledger, for the AgentRuns of one name, one after
    the other.

    Any number of reconcilers work at once on copies that may be stale; writes are
    compare-and-set on the resource version, may fail, and may succeed unnoticed;
    gateway answers may be lost; users edit and delete; the ledger moves on meanwhile.
    The ledger appears as a view of its runs that only ever advances (LedgerView). */
module Operator {
  import opened Wrappers
  import opened Status
  import opened Specs
  import opened LedgerView

  /** One stored version of an AgentRun; a deleted and re-created one has a new uid. */
  datatype Cr = Cr(version: nat, uid: string, generation: nat, tenantLabel: string, spec: RunSpec, status: RunStatus, deleting: bool, finalizer: bool)

  datatype After = Stop | ThenTtl | ThenFinalize

  /** A reconciler between two calls to the API server or the gateway. */
  datatype Worker =
    | Idle
    | Holding(cr: Cr)
    | Submitting(cr: Cr)
    | Polling(cr: Cr)
    | Cancelling(cr: Cr)
    | CancellingForDelete(cr: Cr)
    | WritingStatus(cr: Cr, after: After)
    | WritingMeta(cr: Cr)
    | CheckingTtl(cr: Cr)
    | Deleting(cr: Cr)

  /** A submission that reached the ledger on behalf of this AgentRun. */
  datatype Submitted = Submitted(uid: string, tenant: string, key: string, id: string)

  /** `history` is every stored version, the last one current. */
  datatype World = World(history: seq<Cr>, gone: bool, tenant: string, ledger: View, clock: int,
                         workers: map<nat, Worker>, submissions: seq<Submitted>)

  datatype Outcome = Ok(control: ControlRun) | NotFound(message: string) | Lost(id: string, message: string) | Error(message: string)

  datatype WriteResult = Stored | StoredUnnoticed | Refused

  datatype Move =
    | Read(k: nat, v: nat)
    | Branch(k: nat, valid: bool, message: string)
    | CallSubmit(k: nat, outcome: Outcome, ledger: View)
    | CallGet(k: nat, outcome: Outcome)
    | CallCancel(k: nat, outcome: Outcome, ledger: View)
    | Write(k: nat, result: WriteResult)
    | Ttl(k: nat)
    | Delete(k: nat, reached: bool)
    | Abandon(k: nat)
    | EditSpec(spec: RunSpec)
    | EditLabel(tenantLabel: string)
    | UserDelete
    | Recreate(uid: string, tenantLabel: string, spec: RunSpec)
    | Tick(clock: int)
    | LedgerMoves(ledger: View)

  function Current(w: World): Cr
    requires w.history != []
  {
    w.history[|w.history| - 1]
  }

  function EffectiveKey(cr: Cr): string {
    if cr.spec.idempotencyKey == "" then cr.uid else cr.spec.idempotencyKey
  }

  // ---------- the statuses the operator writes ----------

  function RejectStatus(cr: Cr, message: string): RunStatus {
    cr.status.(observedGeneration := cr.generation,
               conditions := SetCondition(cr.status.conditions, Condition(Ready, False, OtherReason("ReferencesNotReady"), OtherMessage(message), cr.generation)))
  }

  function FailureStatus(cr: Cr, reason: string, message: string): RunStatus {
    cr.status.(conditions := SetCondition(cr.status.conditions, Condition(ControlPlaneReady, False, OtherReason(reason), OtherMessage(message), cr.generation)))
  }

  function SubmittedStatus(cr: Cr, control: ControlRun, now: Time): RunStatus {
    var s := cr.status.(backendRunId := control.id, attempts := 1, observedGeneration := cr.generation);
    var t := MarkControlPlaneReady(MarkReferencesReady(Project(s, control, cr.generation, now), cr.generation), cr.generation);
    t.(conditions := SetCondition(t.conditions, Condition(Accepted, True, ControlPlaneAccepted, Fixed(ControlPlaneAccepted), cr.generation)))
  }

  function PolledStatus(cr: Cr, control: ControlRun, now: Time): RunStatus {
    MarkControlPlaneReady(Project(cr.status, control, cr.generation, now).(observedGeneration := cr.generation), cr.generation)
  }

  function CancelledStatus(cr: Cr, control: ControlRun, now: Time): RunStatus {
    var s := Project(cr.status, control, cr.generation, now).(observedGeneration := cr.generation);
    var t := MarkControlPlaneReady(MarkReferencesReady(s, cr.generation), cr.generation);
    t.(conditions := SetCondition(t.conditions, Condition(CancelRequested, True, ControlPlaneNotified, Fixed(ControlPlaneNotified), cr.generation)))
  }

  function CancelledEarlyStatus(cr: Cr, now: Time): RunStatus {
    var s := MarkReferencesReady(cr.status.(phase := Cancelled, finishedAt := Some(now), observedGeneration := cr.generation), cr.generation);
    s.(conditions := SetCondition(s.conditions, Condition(CancelledEarly, True, CancelledBeforeSubmit, Fixed(CancelledBeforeSubmit), cr.generation)))
  }

  // ---------- Reconcile ----------

  /** The branches of `Reconcile` on the copy it read; `valid` and `message` are
      the verdict of `validateReferences`. */
  function Decide(cr: Cr, valid: bool, message: string, now: Time): Worker {
    if cr.deleting then
      if !cr.finalizer then Idle
      else if cr.status.backendRunId != "" && !IsTerminal(cr.status.phase) then CancellingForDelete(cr)
      else WritingMeta(cr.(finalizer := false))
    else if !cr.finalizer then WritingMeta(cr.(finalizer := true))
    else if !valid then WritingStatus(cr.(status := RejectStatus(cr, message)), Stop)
    else if cr.spec.cancel then
      if cr.status.backendRunId == "" then WritingStatus(cr.(status := CancelledEarlyStatus(cr, now)), Stop) else Cancelling(cr)
    else if cr.status.backendRunId == "" then Submitting(cr)
    else if IsTerminal(cr.status.phase) then
      if Sanitize(cr.status, cr.generation) != cr.status
      then WritingStatus(cr.(status := Sanitize(cr.status, cr.generation)), ThenTtl) else CheckingTtl(cr)
    else Polling(cr)
  }

  /** After the gateway answered a submission. */
  function AfterSubmit(cr: Cr, outcome: Outcome, now: Time): Worker {
    if outcome.Ok? then WritingStatus(cr.(status := SubmittedStatus(cr, outcome.control, now)), Stop)
    else WritingStatus(cr.(status := FailureStatus(cr, "SubmitFailed", outcome.message)), Stop)
  }

  /** After a poll: an unchanged status is not written. */
  function AfterGet(cr: Cr, outcome: Outcome, now: Time): Worker {
    if !outcome.Ok? then WritingStatus(cr.(status := FailureStatus(cr, "PollFailed", outcome.message)), Stop) else
      var status := PolledStatus(cr, outcome.control, now);
      var after := if IsTerminal(status.phase) then ThenTtl else Stop;
      if status != cr.status then WritingStatus(cr.(status := status), after)
      else if IsTerminal(status.phase) then CheckingTtl(cr) else Idle
  }

  function AfterCancel(cr: Cr, outcome: Outcome, now: Time): Worker {
    if !outcome.Ok? then WritingStatus(cr.(status := FailureStatus(cr, "CancelFailed", outcome.message)), Stop) else
      var status := CancelledStatus(cr, outcome.control, now);
      WritingStatus(cr.(status := status), if IsTerminal(status.phase) then ThenTtl else Stop)
  }

  /** `reconcileDelete` after its cancellation: only a 404 or a terminal run lets the
      finalizer go. */
  function AfterCancelForDelete(cr: Cr, outcome: Outcome, now: Time): Worker {
    match outcome
    case Ok(control) => WritingStatus(cr.(status := Project(cr.status, control, cr.generation, now)), ThenFinalize)
    case NotFound(_) => WritingMeta(cr.(finalizer := false))
    case _ => Idle
  }

  function AfterWrite(cr: Cr, after: After): Worker {
    match after
    case Stop => Idle
    case ThenTtl => CheckingTtl(cr)
    case ThenFinalize => if IsTerminal(cr.status.phase) then WritingMeta(cr.(finalizer := false)) else Idle
  }

  // ---------- time to live ----------

  /** Multiplication of an int64 by a billion, as `time.Duration(ttl) * time.Second`. */
  function Wrap64(x: int): int {
    (x + 0x8000_0000_0000_0000) % 0x1_0000_0000_0000_0000 - 0x8000_0000_0000_0000
  }

  function TtlDelay(seconds: nat): int {
    Wrap64(seconds * 1_000_000_000)
  }

  predicate Expired(cr: Cr, now: Time) {
    cr.spec.ttlSeconds != 0 && cr.status.finishedAt.Some? && cr.status.finishedAt.value + TtlDelay(cr.spec.ttlSeconds) <= now
  }

  /** The delay is the configured one exactly while its nanoseconds fit in an int64. */
  lemma TtlDelayExactIff(seconds: nat)
    requires seconds < 0x8000_0000_0000_0000
    ensures TtlDelay(seconds) == seconds * 1_000_000_000 <==> seconds <= 9_223_372_036
  {
  }

  /** One second more and the delay is negative: such a run expires at once. */
  lemma TtlDelayOverflows()
    ensures TtlDelay(9_223_372_037) < 0
  {
  }

  // ---------- moves ----------

  /** The answer a gateway gives about a run of the ledger view. */
  ghost predicate Answers(control: ControlRun, id: string, ledger: View) {
    control.id == id && id != "" && id in ledger && control.status == StatusName(ledger[id].status)
  }

  /** The answers to a submission: the run of that tenant and key, as it is after the
      call; the answer may also be lost after the ledger has the run. */
  ghost predicate SubmitMayAnswer(outcome: Outcome, ledger: View, tenant: string, key: string) {
    match outcome
    case Ok(control) => Answers(control, control.id, ledger) && RunOf(ledger, control.id, tenant, key)
    case Lost(id, _) => id != "" && RunOf(ledger, id, tenant, key)
    case NotFound(_) => false
    case Error(_) => true
  }

  /** The answers to a read or cancellation: the run as it is after the call, or a 404
      when the tenant has no such run. */
  ghost predicate MayAnswer(outcome: Outcome, id: string, tenant: string, before: View, after: View) {
    match outcome
    case Ok(control) => Answers(control, id, after) && Visible(after, id, tenant)
    case NotFound(_) => !Visible(before, id, tenant)
    case Lost(_, _) => true
    case Error(_) => true
  }

  /** What may happen next. */
  ghost predicate CanMove(w: World, m: Move)
    requires w.history != []
  {
    match m
    case Read(k, v) => v < |w.history| && (k in w.workers ==> w.workers[k] == Idle)
    case Branch(k, valid, _) => k in w.workers && w.workers[k].Holding? && (valid ==> w.workers[k].cr.tenantLabel == w.tenant)
    case CallSubmit(k, outcome, ledger) =>
      k in w.workers && w.workers[k].Submitting? && Advances(w.ledger, ledger)
      && SubmitMayAnswer(outcome, ledger, w.tenant, EffectiveKey(w.workers[k].cr))
    case CallGet(k, outcome) =>
      k in w.workers && w.workers[k].Polling?
      && MayAnswer(outcome, w.workers[k].cr.status.backendRunId, w.tenant, w.ledger, w.ledger)
    case CallCancel(k, outcome, ledger) =>
      k in w.workers && (w.workers[k].Cancelling? || w.workers[k].CancellingForDelete?) && Advances(w.ledger, ledger)
      && MayAnswer(outcome, w.workers[k].cr.status.backendRunId, if w.workers[k].Cancelling? then w.tenant else w.workers[k].cr.tenantLabel,
                   w.ledger, ledger)
    case Write(k, result) =>
      k in w.workers && (w.workers[k].WritingStatus? || w.workers[k].WritingMeta?)
      && (result != Refused ==> !w.gone && w.workers[k].cr.version == Current(w).version)
    case Ttl(k) => k in w.workers && w.workers[k].CheckingTtl?
    case Delete(k, _) => k in w.workers && w.workers[k].Deleting?
    case Abandon(k) => k in w.workers
    case EditSpec(_) | EditLabel(_) | UserDelete => !w.gone
    case Recreate(uid, _, _) => w.gone && forall v :: 0 <= v < |w.history| ==> w.history[v].uid != uid
    case Tick(clock) => w.clock <= clock
    case LedgerMoves(ledger) => Advances(w.ledger, ledger)
  }

  function SetWorker(w: World, k: nat, worker: Worker): World {
    w.(workers := w.workers[k := worker])
  }

  /** Stores a new version; a write that changes nothing leaves the version as it is. */
  function Store(w: World, cr: Cr): World
    requires w.history != []
  {
    if cr == Current(w) then w else w.(history := w.history + [cr.(version := |w.history|)])
  }

  /** The API server's answer to a delete by name: finalizers keep the object, marked. */
  function DeleteCr(w: World): World
    requires w.history != []
  {
    if w.gone || Current(w).deleting then w
    else if Current(w).finalizer then Store(w, Current(w).(deleting := true, generation := Current(w).generation + 1))
    else w.(gone := true)
  }

  function DoWrite(w: World, k: nat, result: WriteResult): World
    requires w.history != [] && k in w.workers && (w.workers[k].WritingStatus? || w.workers[k].WritingMeta?)
  {
    if result == Refused then SetWorker(w, k, Idle) else
    match w.workers[k]
    case WritingStatus(cr, after) =>
      var stored := Store(w, Current(w).(status := cr.status));
      SetWorker(stored, k, if result == Stored then AfterWrite(Current(stored), after) else Idle)
    case WritingMeta(cr) =>
      var stored := Store(w, Current(w).(finalizer := cr.finalizer));
      SetWorker(stored.(gone := Current(w).deleting && !cr.finalizer), k, Idle)
  }

  ghost function Apply(w: World, m: Move): World
    requires w.history != [] && CanMove(w, m)
  {
    match m
    case Read(k, v) => SetWorker(w, k, Holding(w.history[v]))
    case Branch(k, valid, message) => SetWorker(w, k, Decide(w.workers[k].cr, valid, message, w.clock))
    case CallSubmit(k, outcome, ledger) =>
      var cr := w.workers[k].cr;
      var after := SetWorker(w.(ledger := ledger), k, AfterSubmit(cr, outcome, w.clock));
      (match outcome
       case Ok(control) => after.(submissions := w.submissions + [Submitted(cr.uid, w.tenant, EffectiveKey(cr), control.id)])
       case Lost(id, _) => after.(submissions := w.submissions + [Submitted(cr.uid, w.tenant, EffectiveKey(cr), id)])
       case _ => after)
    case CallGet(k, outcome) => SetWorker(w, k, AfterGet(w.workers[k].cr, outcome, w.clock))
    case CallCancel(k, outcome, ledger) =>
      var cr := w.workers[k].cr;
      SetWorker(w.(ledger := ledger), k,
        if w.workers[k].Cancelling? then AfterCancel(cr, outcome, w.clock) else AfterCancelForDelete(cr, outcome, w.clock))
    case Write(k, result) => DoWrite(w, k, result)
    case Ttl(k) => SetWorker(w, k, if Expired(w.workers[k].cr, w.clock) then Deleting(w.workers[k].cr) else Idle)
    case Delete(k, reached) => SetWorker(if reached then DeleteCr(w) else w, k, Idle)
    case Abandon(k) => SetWorker(w, k, Idle)
    case EditSpec(spec) =>
      if spec == Current(w).spec then w else Store(w, Current(w).(spec := spec, generation := Current(w).generation + 1))
    case EditLabel(tenantLabel) => Store(w, Current(w).(tenantLabel := tenantLabel))
    case UserDelete => DeleteCr(w)
    case Recreate(uid, tenantLabel, spec) =>
      w.(gone := false, history := w.history + [Cr(|w.history|, uid, 1, tenantLabel, spec, EMPTY_STATUS, false, false)])
    case Tick(clock) => w.(clock := clock)
    case LedgerMoves(ledger) => w.(ledger := ledger)
  }
}
