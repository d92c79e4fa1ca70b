/** The reconcile functions' own edits of the status object they hold, in the order
    they make them. */
module ReconcileStatus {
  import opened Wrappers
  import opened Status
  import opened Operator

  predicate Among(kind: ConditionType, cs: seq<Condition>) {
    exists i :: 0 <= i < |cs| && cs[i].kind == kind
  }

  /** A reader of the status finds these conditions, and every other as before. */
  ghost predicate Sets(before: seq<Condition>, after: seq<Condition>, cs: seq<Condition>) {
    && (forall i :: 0 <= i < |cs| ==> FindCondition(after, cs[i].kind) == Some(cs[i]))
    && forall kind :: !Among(kind, cs) ==> FindCondition(after, kind) == FindCondition(before, kind)
  }

  /** Setting one more condition, of another kind. */
  lemma SetsMore(before: seq<Condition>, middle: seq<Condition>, cs: seq<Condition>, c: Condition)
    requires Sets(before, middle, cs) && !Among(c.kind, cs)
    ensures Sets(before, SetCondition(middle, c), cs + [c])
  {
    var more := cs + [c];
    assert more[|cs|] == c;
    assert forall i :: 0 <= i < |cs| ==> more[i] == cs[i];
    forall kind ensures FindCondition(SetCondition(middle, c), kind) == if kind == c.kind then Some(c) else FindCondition(middle, kind) {
      SetThenFind(middle, c, kind);
    }
    hide SetCondition;
    forall kind | !Among(kind, more) ensures FindCondition(SetCondition(middle, c), kind) == FindCondition(before, kind) {
      assert !Among(kind, cs);
    }
  }

  lemma SetsOne(before: seq<Condition>, c: Condition)
    ensures Sets(before, SetCondition(before, c), [c])
  {
    SetsMore(before, before, [], c);
    assert [] + [c] == [c];
  }

  /** The lifecycle is that of the answer: phase, run id and node states, with the times
      a running or terminal run needs. */
  ghost predicate Mirrors(s: RunStatus, control: ControlRun, id: string) {
    && s.phase == ProjectPhase(control.status) && s.backendRunId == id
    && (s.phase == Running ==> s.startedAt.Some?) && (IsTerminal(s.phase) ==> s.finishedAt.Some?)
    && |s.nodeStates| == |control.steps|
    && (forall i :: 0 <= i < |control.steps| ==>
          s.nodeStates[i].name == control.steps[i].name && s.nodeStates[i].phase == ProjectPhase(control.steps[i].status)
          && s.nodeStates[i].resultRef == if s.nodeStates[i].phase == Succeeded then NodeRef(id, control.steps[i].name) else NoRef)
    && s.message == Lifecycle(s.phase)
  }

  /** The id of the run an answer is about. */
  function AnsweredId(control: ControlRun, known: string): string {
    if control.id != "" then control.id else known
  }

  lemma ProjectionMirrors(s: RunStatus, control: ControlRun, generation: nat, now: Time)
    ensures Mirrors(Project(s, control, generation, now), control, AnsweredId(control, s.backendRunId))
    ensures Sets(s.conditions, Project(s, control, generation, now).conditions, [CompletedCondition(ProjectPhase(control.status), generation)])
  {
    SetsOne(s.conditions, CompletedCondition(ProjectPhase(control.status), generation));
    ProjectionSays(s, control, generation, now);
    hide ProjectPhase;
    hide SetCondition;
    hide CompletedCondition;
  }

  ghost predicate LifecycleKept(s: RunStatus, before: RunStatus) {
    && s.phase == before.phase && s.backendRunId == before.backendRunId && s.attempts == before.attempts
    && s.startedAt == before.startedAt && s.finishedAt == before.finishedAt
    && s.resultRef == before.resultRef && s.errorCode == before.errorCode && s.nodeStates == before.nodeStates
  }

  /** `reject`: the lifecycle stays, only Ready turns false. */
  method Reject(s: StatusObject, cr: Cr, message: string)
    requires s.Value() == cr.status
    modifies s
    ensures s.Value() == RejectStatus(cr, message)
    ensures LifecycleKept(s.Value(), cr.status) && s.observedGeneration == cr.generation
    ensures Sets(cr.status.conditions, s.conditions,
                 [Condition(Ready, False, OtherReason("ReferencesNotReady"), OtherMessage(message), cr.generation)])
  {
    SetsOne(cr.status.conditions, Condition(Ready, False, OtherReason("ReferencesNotReady"), OtherMessage(message), cr.generation));
    s.observedGeneration := cr.generation;
    s.SetStatusCondition(Condition(Ready, False, OtherReason("ReferencesNotReady"), OtherMessage(message), cr.generation));
  }

  /** `gatewayFailure`: the lifecycle stays, only ControlPlaneReady turns false. */
  method RecordGatewayFailure(s: StatusObject, cr: Cr, reason: string, message: string)
    requires s.Value() == cr.status
    modifies s
    ensures s.Value() == FailureStatus(cr, reason, message)
    ensures LifecycleKept(s.Value(), cr.status) && s.observedGeneration == cr.status.observedGeneration
    ensures Sets(cr.status.conditions, s.conditions,
                 [Condition(ControlPlaneReady, False, OtherReason(reason), OtherMessage(message), cr.generation)])
  {
    SetsOne(cr.status.conditions, Condition(ControlPlaneReady, False, OtherReason(reason), OtherMessage(message), cr.generation));
    s.SetStatusCondition(Condition(ControlPlaneReady, False, OtherReason(reason), OtherMessage(message), cr.generation));
  }

  lemma SetsParts(before: seq<Condition>, after: seq<Condition>, cs: seq<Condition>, i: nat)
    requires Sets(before, after, cs) && i < |cs|
    ensures FindCondition(after, cs[i].kind) == Some(cs[i])
  {
  }

  /** What these conditions say. */
  lemma ConditionsSay(before: seq<Condition>, after: seq<Condition>, cs: seq<Condition>, phase: Phase, generation: nat)
    requires Sets(before, after, cs) && |cs| > 0 && cs[0] == CompletedCondition(phase, generation)
    ensures SaysCompleted(after, phase, generation)
    ensures |cs| > 1 && cs[1] == ReferencesReady(generation) ==> SaysResolved(after, generation)
    ensures |cs| > 1 && cs[1] == ReadyCondition(generation) ==> SaysReachable(after, generation)
    ensures |cs| > 2 && cs[2] == ReadyCondition(generation) ==> SaysReachable(after, generation)
  {
    SetsParts(before, after, cs, 0);
    CompletedSays(after, phase, generation);
    if |cs| > 1 { SetsParts(before, after, cs, 1); }
    if |cs| > 2 { SetsParts(before, after, cs, 2); }
    hide Sets;
    hide SaysCompleted;
    hide FindCondition;
  }

  /** The conditions a submission leaves: all of them true, but for Completed. */
  function SubmittedConditions(phase: Phase, generation: nat): seq<Condition> {
    [CompletedCondition(phase, generation), ReferencesReady(generation), ReadyCondition(generation),
     Condition(Accepted, True, ControlPlaneAccepted, Fixed(ControlPlaneAccepted), generation)]
  }

  /** Those a cancellation leaves. */
  function CancelledConditions(phase: Phase, generation: nat): seq<Condition> {
    [CompletedCondition(phase, generation), ReferencesReady(generation), ReadyCondition(generation),
     Condition(CancelRequested, True, ControlPlaneNotified, Fixed(ControlPlaneNotified), generation)]
  }

  /** Projecting an answer, then marking references and the control plane ready. */
  lemma ReadyTwice(s: RunStatus, control: ControlRun, generation: nat, now: Time)
    ensures var phase, t := ProjectPhase(control.status), MarkControlPlaneReady(MarkReferencesReady(Project(s, control, generation, now), generation), generation);
      Sets(s.conditions, t.conditions, [CompletedCondition(phase, generation), ReferencesReady(generation), ReadyCondition(generation)])
  {
    var done, refs, ready := CompletedCondition(ProjectPhase(control.status), generation), ReferencesReady(generation), ReadyCondition(generation);
    var projected := Project(s, control, generation, now);
    ProjectionMirrors(s, control, generation, now);
    hide Project;
    hide Sets;
    hide SetCondition;
    hide ProjectPhase;
    SetsMore(s.conditions, projected.conditions, [done], refs);
    assert [done] + [refs] == [done, refs];
    SetsMore(s.conditions, SetCondition(projected.conditions, refs), [done, refs], ready);
    assert [done, refs] + [ready] == [done, refs, ready];
  }

  lemma MirrorsKept(s: RunStatus, t: RunStatus, control: ControlRun, id: string)
    requires Mirrors(s, control, id) && t == s.(conditions := t.conditions, observedGeneration := t.observedGeneration)
    ensures Mirrors(t, control, id)
  {
  }

  lemma SubmissionMirrors(cr: Cr, control: ControlRun, now: Time)
    ensures var s := SubmittedStatus(cr, control, now);
      && Mirrors(s, control, control.id) && s.attempts == 1 && s.observedGeneration == cr.generation
      && Sets(cr.status.conditions, s.conditions, SubmittedConditions(s.phase, cr.generation))
  {
    var s := cr.status.(backendRunId := control.id, attempts := 1, observedGeneration := cr.generation);
    var g, phase, t := cr.generation, ProjectPhase(control.status), SubmittedStatus(cr, control, now);
    ProjectionMirrors(s, control, g, now);
    assert t.attempts == 1 && t.observedGeneration == g && t.phase == phase;
    MirrorsKept(Project(s, control, g, now), t, control, control.id);
    ReadyTwice(s, control, g, now);
    hide Mirrors;
    hide Project;
    hide Sets;
    hide SetCondition;
    hide ProjectPhase;
    var accepted := Condition(Accepted, True, ControlPlaneAccepted, Fixed(ControlPlaneAccepted), g);
    var three := [CompletedCondition(phase, g), ReferencesReady(g), ReadyCondition(g)];
    SetsMore(s.conditions, MarkControlPlaneReady(MarkReferencesReady(Project(s, control, g, now), g), g).conditions, three, accepted);
    assert three + [accepted] == SubmittedConditions(phase, g);
  }

  lemma PollMirrors(cr: Cr, control: ControlRun, now: Time)
    ensures var s := PolledStatus(cr, control, now);
      && Mirrors(s, control, AnsweredId(control, cr.status.backendRunId))
      && s.attempts == cr.status.attempts && s.observedGeneration == cr.generation
      && Sets(cr.status.conditions, s.conditions, [CompletedCondition(s.phase, cr.generation), ReadyCondition(cr.generation)])
  {
    var g := cr.generation;
    var done := CompletedCondition(ProjectPhase(control.status), g);
    ProjectionMirrors(cr.status, control, g, now);
    SetsMore(cr.status.conditions, Project(cr.status, control, g, now).conditions, [done], ReadyCondition(g));
    assert [done] + [ReadyCondition(g)] == [done, ReadyCondition(g)];
    hide Sets;
    hide SetCondition;
    hide ProjectPhase;
  }

  lemma CancellationMirrors(cr: Cr, control: ControlRun, now: Time)
    ensures var s := CancelledStatus(cr, control, now);
      && Mirrors(s, control, AnsweredId(control, cr.status.backendRunId))
      && s.attempts == cr.status.attempts && s.observedGeneration == cr.generation
      && Sets(cr.status.conditions, s.conditions, CancelledConditions(s.phase, cr.generation))
  {
    var g, phase := cr.generation, ProjectPhase(control.status);
    ProjectionMirrors(cr.status, control, g, now);
    ReadyTwice(cr.status, control, g, now);
    var requested := Condition(CancelRequested, True, ControlPlaneNotified, Fixed(ControlPlaneNotified), g);
    var three := [CompletedCondition(phase, g), ReferencesReady(g), ReadyCondition(g)];
    SetsMore(cr.status.conditions, MarkControlPlaneReady(MarkReferencesReady(Project(cr.status, control, g, now), g), g).conditions, three, requested);
    assert three + [requested] == CancelledConditions(phase, g);
    hide Sets;
    hide SetCondition;
    hide ProjectPhase;
  }

  /** What the status says after a submission. */
  lemma SubmissionSays(cr: Cr, control: ControlRun, now: Time)
    ensures var s := SubmittedStatus(cr, control, now);
      SaysCompleted(s.conditions, s.phase, cr.generation) && SaysResolved(s.conditions, cr.generation) && SaysReachable(s.conditions, cr.generation)
  {
    SubmissionMirrors(cr, control, now);
    var s := SubmittedStatus(cr, control, now);
    ConditionsSay(cr.status.conditions, s.conditions, SubmittedConditions(s.phase, cr.generation), s.phase, cr.generation);
    hide Sets;
    hide Mirrors;
    hide SubmittedStatus;
    hide SaysCompleted;
  }

  lemma PollSays(cr: Cr, control: ControlRun, now: Time)
    ensures var s := PolledStatus(cr, control, now);
      SaysCompleted(s.conditions, s.phase, cr.generation) && SaysReachable(s.conditions, cr.generation)
  {
    PollMirrors(cr, control, now);
    var s := PolledStatus(cr, control, now);
    ConditionsSay(cr.status.conditions, s.conditions, [CompletedCondition(s.phase, cr.generation), ReadyCondition(cr.generation)], s.phase, cr.generation);
    hide Sets;
    hide Mirrors;
    hide PolledStatus;
    hide SaysCompleted;
  }

  lemma CancellationSays(cr: Cr, control: ControlRun, now: Time)
    ensures var s := CancelledStatus(cr, control, now);
      SaysCompleted(s.conditions, s.phase, cr.generation) && SaysResolved(s.conditions, cr.generation) && SaysReachable(s.conditions, cr.generation)
  {
    CancellationMirrors(cr, control, now);
    var s := CancelledStatus(cr, control, now);
    ConditionsSay(cr.status.conditions, s.conditions, CancelledConditions(s.phase, cr.generation), s.phase, cr.generation);
    hide Sets;
    hide Mirrors;
    hide CancelledStatus;
    hide SaysCompleted;
  }

  // ---------- the edits ----------

  method WriteSubmission(s: StatusObject, cr: Cr, control: ControlRun, now: Time)
    requires s.Value() == cr.status
    modifies s
    ensures s.Value() == SubmittedStatus(cr, control, now)
  {
    hide Project;
    hide SetCondition;
    hide SaysCompleted;
    s.backendRunId := control.id;
    s.attempts := 1;
    s.observedGeneration := cr.generation;
    s.ApplyControlPlaneStatus(control, cr.generation, now);
    s.SetStatusCondition(ReferencesReady(cr.generation));
    s.SetStatusCondition(ReadyCondition(cr.generation));
    s.SetStatusCondition(Condition(Accepted, True, ControlPlaneAccepted, Fixed(ControlPlaneAccepted), cr.generation));
  }

  lemma ValueParts(s: StatusObject)
    ensures s.Value().phase == s.phase && s.Value().conditions == s.conditions && s.Value().attempts == s.attempts
    ensures s.Value().observedGeneration == s.observedGeneration
  {
  }

  /** `reconcileSubmit`, after the gateway accepted. */
  method RecordSubmission(s: StatusObject, cr: Cr, control: ControlRun, now: Time)
    requires s.Value() == cr.status
    modifies s
    ensures s.Value() == SubmittedStatus(cr, control, now)
    ensures Mirrors(s.Value(), control, control.id) && s.attempts == 1 && s.observedGeneration == cr.generation
    ensures Sets(cr.status.conditions, s.conditions, SubmittedConditions(s.phase, cr.generation))
    ensures SaysCompleted(s.conditions, s.phase, cr.generation)
    ensures SaysResolved(s.conditions, cr.generation) && SaysReachable(s.conditions, cr.generation)
  {
    hide *;
    hide StatusObject.Value;
    WriteSubmission(s, cr, control, now);
    SubmissionMirrors(cr, control, now);
    SubmissionSays(cr, control, now);
    ValueParts(s);
  }

  method WritePoll(s: StatusObject, cr: Cr, control: ControlRun, now: Time) returns (changed: bool)
    requires s.Value() == cr.status
    modifies s
    ensures s.Value() == PolledStatus(cr, control, now)
    ensures changed <==> PolledStatus(cr, control, now) != cr.status
  {
    hide Project;
    hide SetCondition;
    hide SaysCompleted;
    s.ApplyControlPlaneStatus(control, cr.generation, now);
    s.observedGeneration := cr.generation;
    s.SetStatusCondition(ReadyCondition(cr.generation));
    changed := s.phase != cr.status.phase || s.observedGeneration != cr.status.observedGeneration || s.conditions != cr.status.conditions
      || s.nodeStates != cr.status.nodeStates || s.attempts != cr.status.attempts || s.startedAt != cr.status.startedAt
      || s.finishedAt != cr.status.finishedAt || s.backendRunId != cr.status.backendRunId || s.resultRef != cr.status.resultRef
      || s.errorCode != cr.status.errorCode || s.message != cr.status.message;
  }

  /** `reconcilePoll`. */
  method RecordPoll(s: StatusObject, cr: Cr, control: ControlRun, now: Time) returns (changed: bool)
    requires s.Value() == cr.status
    modifies s
    ensures s.Value() == PolledStatus(cr, control, now)
    ensures Mirrors(s.Value(), control, AnsweredId(control, cr.status.backendRunId))
    ensures s.attempts == cr.status.attempts && s.observedGeneration == cr.generation
    ensures Sets(cr.status.conditions, s.conditions, [CompletedCondition(s.phase, cr.generation), ReadyCondition(cr.generation)])
    ensures SaysCompleted(s.conditions, s.phase, cr.generation) && SaysReachable(s.conditions, cr.generation)
    ensures changed <==> s.Value() != cr.status
  {
    hide *;
    hide StatusObject.Value;
    changed := WritePoll(s, cr, control, now);
    PollMirrors(cr, control, now);
    PollSays(cr, control, now);
    ValueParts(s);
  }

  method WriteCancellation(s: StatusObject, cr: Cr, control: ControlRun, now: Time)
    requires s.Value() == cr.status
    modifies s
    ensures s.Value() == CancelledStatus(cr, control, now)
  {
    hide Project;
    hide SetCondition;
    hide SaysCompleted;
    s.ApplyControlPlaneStatus(control, cr.generation, now);
    s.observedGeneration := cr.generation;
    s.SetStatusCondition(ReferencesReady(cr.generation));
    s.SetStatusCondition(ReadyCondition(cr.generation));
    s.SetStatusCondition(Condition(CancelRequested, True, ControlPlaneNotified, Fixed(ControlPlaneNotified), cr.generation));
  }

  /** `reconcileCancel` of a submitted run. */
  method RecordCancellation(s: StatusObject, cr: Cr, control: ControlRun, now: Time)
    requires s.Value() == cr.status
    modifies s
    ensures s.Value() == CancelledStatus(cr, control, now)
    ensures Mirrors(s.Value(), control, AnsweredId(control, cr.status.backendRunId))
    ensures s.attempts == cr.status.attempts && s.observedGeneration == cr.generation
    ensures Sets(cr.status.conditions, s.conditions, CancelledConditions(s.phase, cr.generation))
    ensures SaysCompleted(s.conditions, s.phase, cr.generation)
    ensures SaysResolved(s.conditions, cr.generation) && SaysReachable(s.conditions, cr.generation)
  {
    hide *;
    hide StatusObject.Value;
    WriteCancellation(s, cr, control, now);
    CancellationMirrors(cr, control, now);
    CancellationSays(cr, control, now);
    ValueParts(s);
  }

  /** `reconcileCancel` before any submission. */
  method CancelBeforeSubmit(s: StatusObject, cr: Cr, now: Time)
    requires s.Value() == cr.status
    modifies s
    ensures s.Value() == CancelledEarlyStatus(cr, now)
    ensures s.phase == Cancelled && s.finishedAt == Some(now) && s.backendRunId == cr.status.backendRunId
    ensures FindCondition(s.conditions, CancelledEarly).Some? && FindCondition(s.conditions, CancelledEarly).value.status == True
    ensures SaysResolved(s.conditions, cr.generation)
  {
    var early := Condition(CancelledEarly, True, CancelledBeforeSubmit, Fixed(CancelledBeforeSubmit), cr.generation);
    SetThenFind(cr.status.conditions, ReferencesReady(cr.generation), Ready);
    SetThenFind(SetCondition(cr.status.conditions, ReferencesReady(cr.generation)), early, Ready);
    SetThenFind(SetCondition(cr.status.conditions, ReferencesReady(cr.generation)), early, CancelledEarly);
    hide SetCondition;
    s.phase := Cancelled;
    s.finishedAt := Some(now);
    s.observedGeneration := cr.generation;
    s.SetStatusCondition(ReferencesReady(cr.generation));
    s.SetStatusCondition(Condition(CancelledEarly, True, CancelledBeforeSubmit, Fixed(CancelledBeforeSubmit), cr.generation));
  }
}
