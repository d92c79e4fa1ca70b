/** How the operator writes a ledger snapshot into the status of an AgentRun: the
    pure projections, and the status object whose fields the operator overwrites.
    Conditions are a list updated by type; transition times are not modelled. */
module Status {
  import opened Wrappers
  import Runtime

  datatype Phase = NoPhase | Queued | Running | Succeeded | Failed | Cancelled

  type Time = int

  datatype ConditionStatus = True | False | Unknown

  datatype ConditionType = Ready | Accepted | Completed | ControlPlaneReady | CancelRequested | CancelledEarly | OtherType(name: string)

  datatype Reason =
    | RunSucceeded | RunFailed | RunCancelled | RunInProgress
    | GatewayReachable | ReferencesResolved | ControlPlaneAccepted | ControlPlaneNotified | CancelledBeforeSubmit
    | OtherReason(name: string)

  /** Message wording is opaque; what matters is what a message is determined by. */
  datatype Message = NoMessage | Lifecycle(phase: Phase) | Fixed(reason: Reason) | OtherMessage(text: string)

  datatype ResultRef = NoRef | RunRef(backendRunId: string) | NodeRef(run: string, node: string)

  datatype Condition = Condition(kind: ConditionType, status: ConditionStatus, reason: Reason, message: Message, generation: nat)

  datatype NodeState = NodeState(name: string, phase: Phase, resultRef: ResultRef)

  datatype RunStatus = RunStatus(phase: Phase, observedGeneration: nat, conditions: seq<Condition>, nodeStates: seq<NodeState>,
                                 attempts: nat, startedAt: Option<Time>, finishedAt: Option<Time>,
                                 backendRunId: string, resultRef: ResultRef, errorCode: string, message: Message)

  /** A gateway answer: what the operator reads of a ledger run. */
  datatype ControlStep = ControlStep(name: string, status: string)

  datatype ControlRun = ControlRun(id: string, status: string, errorCode: string, startedAt: Option<Time>,
                                   finishedAt: Option<Time>, steps: seq<ControlStep>)

  const EMPTY_STATUS := RunStatus(NoPhase, 0, [], [], 0, None, None, "", NoRef, "", NoMessage)

  predicate IsTerminal(phase: Phase) {
    phase == Succeeded || phase == Failed || phase == Cancelled
  }

  /** `projectPhase`. */
  function ProjectPhase(status: string): Phase {
    var name := Runtime.Lower(status);
    if name in ["pending", "queued"] then Queued
    else if name in ["dispatching", "running"] then Running
    else if name in ["done", "succeeded", "completed"] then Succeeded
    else if name in ["failed", "error"] then Failed
    else if name in ["cancelled", "canceled"] then Cancelled
    else Queued
  }

  /** `controlPlaneStatusMessage`: a queued message is also the default. */
  function StatusMessage(phase: Phase): Message {
    if phase == NoPhase then Lifecycle(Queued) else Lifecycle(phase)
  }

  // ---------- conditions ----------

  /** `meta.SetStatusCondition`: replace the first condition of the type, or append. */
  function SetCondition(conditions: seq<Condition>, c: Condition): (r: seq<Condition>)
    ensures c in r && |conditions| <= |r| <= |conditions| + 1
  {
    if conditions == [] then [c]
    else if conditions[0].kind == c.kind then [c] + conditions[1..]
    else [conditions[0]] + SetCondition(conditions[1..], c)
  }

  function FindCondition(conditions: seq<Condition>, kind: ConditionType): Option<Condition> {
    if conditions == [] then None
    else if conditions[0].kind == kind then Some(conditions[0])
    else FindCondition(conditions[1..], kind)
  }

  lemma {:induction false} SetThenFind(conditions: seq<Condition>, c: Condition, kind: ConditionType)
    ensures FindCondition(SetCondition(conditions, c), kind) ==
      if kind == c.kind then Some(c) else FindCondition(conditions, kind)
  {
    if conditions != [] { SetThenFind(conditions[1..], c, kind); }
  }

  /** Setting a condition changes nothing exactly when it is already the one found. */
  lemma {:induction false} SetIsIdentityIff(conditions: seq<Condition>, c: Condition)
    ensures SetCondition(conditions, c) == conditions <==> FindCondition(conditions, c.kind) == Some(c)
  {
    if conditions != [] {
      SetIsIdentityIff(conditions[1..], c);
      assert conditions == [conditions[0]] + conditions[1..];
    }
  }

  // ---------- projection ----------

  function CompletedCondition(phase: Phase, generation: nat): Condition {
    var (status, reason) :=
      if phase == Succeeded then (True, RunSucceeded)
      else if phase == Failed then (False, RunFailed)
      else if phase == Cancelled then (False, RunCancelled)
      else (Unknown, RunInProgress);
    Condition(Completed, status, reason, StatusMessage(phase), generation)
  }

  function ReadyCondition(generation: nat): Condition {
    Condition(ControlPlaneReady, True, GatewayReachable, Fixed(GatewayReachable), generation)
  }

  function ReferencesReady(generation: nat): Condition {
    Condition(Ready, True, ReferencesResolved, Fixed(ReferencesResolved), generation)
  }

  function MarkControlPlaneReady(s: RunStatus, generation: nat): RunStatus {
    s.(conditions := SetCondition(s.conditions, ReadyCondition(generation)))
  }

  function MarkReferencesReady(s: RunStatus, generation: nat): RunStatus {
    s.(conditions := SetCondition(s.conditions, ReferencesReady(generation)))
  }

  function ProjectNode(backendRunId: string, step: ControlStep): NodeState {
    var phase := ProjectPhase(step.status);
    NodeState(step.name, phase,
              if phase == Succeeded then NodeRef(backendRunId, step.name) else NoRef)
  }

  function ProjectNodes(backendRunId: string, steps: seq<ControlStep>): seq<NodeState> {
    seq(|steps|, i requires 0 <= i < |steps| => ProjectNode(backendRunId, steps[i]))
  }

  /** `applyControlPlaneStatus`, at a clock reading and a generation. */
  function Project(s: RunStatus, control: ControlRun, generation: nat, now: Time): RunStatus {
    var id := if control.id != "" then control.id else s.backendRunId;
    var phase := ProjectPhase(control.status);
    s.(backendRunId := id,
       phase := phase,
       startedAt := if control.startedAt.Some? then control.startedAt
                    else if phase == Running && s.startedAt.None? then Some(now) else s.startedAt,
       finishedAt := if control.finishedAt.Some? then control.finishedAt
                     else if IsTerminal(phase) && s.finishedAt.None? then Some(now) else s.finishedAt,
       resultRef := if phase == Succeeded then RunRef(id) else s.resultRef,
       errorCode := if phase != Failed then s.errorCode else if control.errorCode == "" then "RUN_FAILED" else control.errorCode,
       message := StatusMessage(phase),
       nodeStates := ProjectNodes(id, control.steps),
       conditions := SetCondition(s.conditions, CompletedCondition(phase, generation)))
  }

  /** `sanitizeTerminalStatus`: the status it leaves. */
  function Sanitize(s: RunStatus, generation: nat): RunStatus {
    if !IsTerminal(s.phase) then s else
      var ready := if s.backendRunId != "" then SetCondition(s.conditions, ReadyCondition(generation)) else s.conditions;
      s.(message := StatusMessage(s.phase), conditions := SetCondition(ready, CompletedCondition(s.phase, generation)))
  }

  // ---------- what a reader finds ----------

  /** The words for each phase; any other word stands for a queued run. */
  lemma ProjectedWords(status: string)
    ensures ProjectPhase(status) == Succeeded <==> Runtime.Says(Some(status), ["done", "succeeded", "completed"])
    ensures ProjectPhase(status) == Failed <==> Runtime.Says(Some(status), ["failed", "error"])
    ensures ProjectPhase(status) == Cancelled <==> Runtime.Says(Some(status), ["cancelled", "canceled"])
    ensures ProjectPhase(status) == Running <==> Runtime.Says(Some(status), ["dispatching", "running"])
    ensures ProjectPhase(status) != NoPhase
  {
    Runtime.SaysIffLower(Some(status), ["done", "succeeded", "completed"]);
    Runtime.SaysIffLower(Some(status), ["failed", "error"]);
    Runtime.SaysIffLower(Some(status), ["cancelled", "canceled"]);
    Runtime.SaysIffLower(Some(status), ["dispatching", "running"]);
    hide Runtime.Says;
    hide Runtime.Lower;
  }

  /** The Completed condition says how the run stands. */
  predicate SaysCompleted(conditions: seq<Condition>, phase: Phase, generation: nat) {
    var c := FindCondition(conditions, Completed);
    && c.Some? && c.value.generation == generation
    && c.value.message == Lifecycle(if phase == NoPhase then Queued else phase)
    && match phase
       case Succeeded => c.value.status == True && c.value.reason == RunSucceeded
       case Failed => c.value.status == False && c.value.reason == RunFailed
       case Cancelled => c.value.status == False && c.value.reason == RunCancelled
       case _ => c.value.status == Unknown && c.value.reason == RunInProgress
  }

  /** The gateway answered. */
  predicate SaysReachable(conditions: seq<Condition>, generation: nat) {
    FindCondition(conditions, ControlPlaneReady) ==
      Some(Condition(ControlPlaneReady, True, GatewayReachable, Fixed(GatewayReachable), generation))
  }

  /** The references were valid. */
  predicate SaysResolved(conditions: seq<Condition>, generation: nat) {
    FindCondition(conditions, Ready) == Some(Condition(Ready, True, ReferencesResolved, Fixed(ReferencesResolved), generation))
  }

  lemma CompletedSays(conditions: seq<Condition>, phase: Phase, generation: nat)
    requires FindCondition(conditions, Completed) == Some(CompletedCondition(phase, generation))
    ensures SaysCompleted(conditions, phase, generation)
  {
  }

  /** A projection says how the run stands. */
  lemma ProjectionSays(s: RunStatus, control: ControlRun, generation: nat, now: Time)
    ensures var p := Project(s, control, generation, now);
      SaysCompleted(p.conditions, p.phase, generation) && p.message == Lifecycle(p.phase)
  {
    ProjectedWords(control.status);
    SetThenFind(s.conditions, CompletedCondition(ProjectPhase(control.status), generation), Completed);
    hide ProjectPhase;
    hide SetCondition;
    hide FindCondition;
  }

  lemma SanitizedParts(s: RunStatus, generation: nat)
    requires IsTerminal(s.phase)
    ensures var t := Sanitize(s, generation);
      var middle := if s.backendRunId != "" then SetCondition(s.conditions, ReadyCondition(generation)) else s.conditions;
      t == s.(message := Lifecycle(s.phase), conditions := SetCondition(middle, CompletedCondition(s.phase, generation)))
  {
    hide SetCondition;
    hide CompletedCondition;
  }

  /** So does a sanitised terminal status, and that the gateway answered once; nothing
      else of it changes. */
  lemma SanitizedSays(s: RunStatus, generation: nat)
    requires IsTerminal(s.phase)
    ensures var t := Sanitize(s, generation);
      && SaysCompleted(t.conditions, s.phase, generation) && t.message == Lifecycle(s.phase)
      && (s.backendRunId != "" ==> SaysReachable(t.conditions, generation))
      && t == s.(message := t.message, conditions := t.conditions)
      && forall kind :: kind != Completed && kind != ControlPlaneReady ==> FindCondition(t.conditions, kind) == FindCondition(s.conditions, kind)
  {
    var ready, done := ReadyCondition(generation), CompletedCondition(s.phase, generation);
    var middle := if s.backendRunId != "" then SetCondition(s.conditions, ready) else s.conditions;
    SanitizedParts(s, generation);
    assert ready.kind == ControlPlaneReady && done.kind == Completed;
    forall kind ensures FindCondition(SetCondition(middle, done), kind) ==
      if kind == Completed then Some(done) else if kind == ControlPlaneReady && s.backendRunId != "" then Some(ready) else FindCondition(s.conditions, kind)
    {
      SetThenFind(middle, done, kind);
      SetThenFind(s.conditions, ready, kind);
    }
    hide Sanitize;
    hide SetCondition;
    hide FindCondition;
    hide CompletedCondition;
    CompletedSays(SetCondition(middle, done), s.phase, generation);
    hide SaysCompleted;
  }

  /** Projecting the same snapshot again changes nothing, whatever the clock says. */
  lemma ProjectionIsIdempotent(s: RunStatus, control: ControlRun, generation: nat, now: Time, later: Time)
    ensures Project(Project(s, control, generation, now), control, generation, later) == Project(s, control, generation, now)
  {
    var c := CompletedCondition(ProjectPhase(control.status), generation);
    SetThenFind(s.conditions, c, c.kind);
    SetIsIdentityIff(SetCondition(s.conditions, c), c);
  }

  /** A status is a fixed point of sanitising exactly when it is not terminal or
      already carries the compact message and the two conditions. */
  lemma SanitizedIff(s: RunStatus, generation: nat)
    ensures Sanitize(s, generation) == s <==>
      !IsTerminal(s.phase) ||
      (&& s.message == StatusMessage(s.phase)
       && FindCondition(s.conditions, Completed) == Some(CompletedCondition(s.phase, generation))
       && (s.backendRunId != "" ==> FindCondition(s.conditions, ControlPlaneReady) == Some(ReadyCondition(generation))))
  {
    if IsTerminal(s.phase) {
      var ready, done := ReadyCondition(generation), CompletedCondition(s.phase, generation);
      var middle := if s.backendRunId != "" then SetCondition(s.conditions, ready) else s.conditions;
      SetThenFind(s.conditions, ready, done.kind);
      SetThenFind(middle, done, ready.kind);
      SetThenFind(middle, done, done.kind);
      SetThenFind(s.conditions, ready, ready.kind);
      SetIsIdentityIff(s.conditions, ready);
      SetIsIdentityIff(s.conditions, done);
    }
  }

  lemma SanitizingIsIdempotent(s: RunStatus, generation: nat)
    ensures Sanitize(Sanitize(s, generation), generation) == Sanitize(s, generation)
  {
    if IsTerminal(s.phase) {
      var ready, done := ReadyCondition(generation), CompletedCondition(s.phase, generation);
      var middle := if s.backendRunId != "" then SetCondition(s.conditions, ready) else s.conditions;
      SetThenFind(s.conditions, ready, ready.kind);
      SetThenFind(middle, done, ready.kind);
      SetThenFind(middle, done, done.kind);
      SanitizedIff(Sanitize(s, generation), generation);
    }
  }

  /** What a poll stores for a terminal run needs no sanitising at that generation. */
  lemma ProjectedIsSanitized(s: RunStatus, control: ControlRun, generation: nat, now: Time)
    ensures var projected := MarkControlPlaneReady(Project(s, control, generation, now), generation);
      Sanitize(projected, generation) == projected
  {
    var projected := Project(s, control, generation, now);
    var ready, done := ReadyCondition(generation), CompletedCondition(projected.phase, generation);
    SetThenFind(s.conditions, done, done.kind);
    SetThenFind(projected.conditions, ready, done.kind);
    SetThenFind(projected.conditions, ready, ready.kind);
    SanitizedIff(MarkControlPlaneReady(projected, generation), generation);
  }

  lemma {:induction false} SetAtFirst(conditions: seq<Condition>, c: Condition, i: nat)
    requires i <= |conditions| && forall j :: 0 <= j < i ==> conditions[j].kind != c.kind
    requires i < |conditions| ==> conditions[i].kind == c.kind
    ensures SetCondition(conditions, c) == if i < |conditions| then conditions[i := c] else conditions + [c]
  {
    if i > 0 { SetAtFirst(conditions[1..], c, i - 1); }
  }

  /** The loop that rebuilds the node states. */
  method ProjectSteps(backendRunId: string, steps: seq<ControlStep>) returns (states: seq<NodeState>)
    ensures states == ProjectNodes(backendRunId, steps)
  {
    states := [];
    for i := 0 to |steps|
      invariant |states| == i && forall j :: 0 <= j < i ==> states[j] == ProjectNode(backendRunId, steps[j])
    {
      var state := NodeState(steps[i].name, ProjectPhase(steps[i].status), NoRef);
      if state.phase == Succeeded { state := state.(resultRef := NodeRef(backendRunId, steps[i].name)); }
      states := states + [state];
    }
  }

  // ---------- the object the operator updates in place ----------

  class StatusObject {
    var phase: Phase
    var observedGeneration: nat
    var conditions: seq<Condition>
    var nodeStates: seq<NodeState>
    var attempts: nat
    var startedAt: Option<Time>
    var finishedAt: Option<Time>
    var backendRunId: string
    var resultRef: ResultRef
    var errorCode: string
    var message: Message

    ghost function Value(): RunStatus
      reads this
    {
      RunStatus(phase, observedGeneration, conditions, nodeStates, attempts, startedAt, finishedAt,
                backendRunId, resultRef, errorCode, message)
    }

    constructor (s: RunStatus)
      ensures Value() == s
    {
      phase, observedGeneration, conditions, nodeStates := s.phase, s.observedGeneration, s.conditions, s.nodeStates;
      attempts, startedAt, finishedAt := s.attempts, s.startedAt, s.finishedAt;
      backendRunId, resultRef, errorCode, message := s.backendRunId, s.resultRef, s.errorCode, s.message;
    }

    /** The loop of `SetStatusCondition`. */
    method SetStatusCondition(c: Condition)
      modifies this`conditions
      ensures conditions == SetCondition(old(conditions), c)
    {
      var i := 0;
      while i < |conditions| && conditions[i].kind != c.kind
        invariant 0 <= i <= |conditions| && conditions == old(conditions)
        invariant forall j :: 0 <= j < i ==> conditions[j].kind != c.kind
      {
        i := i + 1;
      }
      SetAtFirst(conditions, c, i);
      if i < |conditions| {
        conditions := conditions[i := c];
      } else {
        conditions := conditions + [c];
      }
    }

    method ApplyTimes(control: ControlRun, now: Time)
      modifies this`startedAt, this`finishedAt
      ensures startedAt == if control.startedAt.Some? then control.startedAt
        else if phase == Running && old(startedAt).None? then Some(now) else old(startedAt)
      ensures finishedAt == if control.finishedAt.Some? then control.finishedAt
        else if IsTerminal(phase) && old(finishedAt).None? then Some(now) else old(finishedAt)
    {
      if control.startedAt.Some? {
        startedAt := control.startedAt;
      } else if phase == Running && startedAt.None? {
        startedAt := Some(now);
      }
      if control.finishedAt.Some? {
        finishedAt := control.finishedAt;
      } else if IsTerminal(phase) && finishedAt.None? {
        finishedAt := Some(now);
      }
    }

    method ApplyOutcome(control: ControlRun)
      modifies this`resultRef, this`errorCode, this`message
      ensures resultRef == if phase == Succeeded then RunRef(backendRunId) else old(resultRef)
      ensures errorCode == if phase != Failed then old(errorCode) else if control.errorCode == "" then "RUN_FAILED" else control.errorCode
      ensures message == StatusMessage(phase)
    {
      if phase == Succeeded { resultRef := RunRef(backendRunId); }
      if phase == Failed {
        errorCode := control.errorCode;
        if errorCode == "" { errorCode := "RUN_FAILED"; }
      }
      message := StatusMessage(phase);
    }

    method MarkCompleted(generation: nat)
      requires message == StatusMessage(phase)
      modifies this`conditions
      ensures conditions == SetCondition(old(conditions), CompletedCondition(phase, generation))
    {
      var conditionStatus, conditionReason := Unknown, RunInProgress;
      if phase == Succeeded {
        conditionStatus, conditionReason := True, RunSucceeded;
      } else if phase == Failed || phase == Cancelled {
        conditionStatus, conditionReason := False, if phase == Failed then RunFailed else RunCancelled;
      }
      SetStatusCondition(Condition(Completed, conditionStatus, conditionReason, message, generation));
    }

    method OverwriteStatus(control: ControlRun, generation: nat, now: Time)
      modifies this
      ensures Value() == Project(old(Value()), control, generation, now)
    {
      hide ProjectPhase;
      hide SetCondition;
      hide ProjectNodes;
      hide StatusMessage;
      hide CompletedCondition;
      if control.id != "" { backendRunId := control.id; }
      phase := ProjectPhase(control.status);
      ApplyTimes(control, now);
      ApplyOutcome(control);
      nodeStates := ProjectSteps(backendRunId, control.steps);
      MarkCompleted(generation);
    }

    /** `applyControlPlaneStatus`. */
    method ApplyControlPlaneStatus(control: ControlRun, generation: nat, now: Time)
      modifies this
      ensures Value() == Project(old(Value()), control, generation, now)
      ensures SaysCompleted(conditions, phase, generation) && message == Lifecycle(phase)
    {
      hide SaysCompleted;
      hide FindCondition;
      ghost var before := Value();
      OverwriteStatus(control, generation, now);
      ProjectionSays(before, control, generation, now);
      hide Project;
    }

    /** `sanitizeTerminalStatus`: cleans up and reports whether anything changed. */
    method SanitizeTerminalStatus(generation: nat) returns (changed: bool)
      modifies this
      ensures Value() == Sanitize(old(Value()), generation)
      ensures changed <==> Value() != old(Value())
      ensures IsTerminal(phase) ==> SaysCompleted(conditions, phase, generation) && message == Lifecycle(phase)
    {
      if IsTerminal(phase) { SanitizedSays(Value(), generation); }
      hide SetCondition;
      if !IsTerminal(phase) { return false; }
      var conditionsBefore, messageBefore := conditions, message;
      message := StatusMessage(phase);
      if backendRunId != "" { SetStatusCondition(ReadyCondition(generation)); }
      var conditionStatus, conditionReason := True, RunSucceeded;
      if phase == Failed || phase == Cancelled {
        conditionStatus, conditionReason := False, if phase == Failed then RunFailed else RunCancelled;
      }
      SetStatusCondition(Condition(Completed, conditionStatus, conditionReason, message, generation));
      changed := conditions != conditionsBefore || message != messageBefore;
    }
  }
}
