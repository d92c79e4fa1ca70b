/** What a local run stores: for each step the provider's own last answer to it, and for a
    failed run the error that failed it. */
module LocalOutputs {
  import opened Wrappers
  import opened Ledger
  import opened Executor
  import opened ExecutorInvariant
  import opened ExecutorSafety
  import opened ExecutorProgress
  import opened ThreadHistory
  import Kahn

  /** The provider is called while step `p` is running. */
  predicate CallsFor(moment: Moment, p: nat) {
    moment.exec.pc.AtComplete? && p < |moment.record.steps| && moment.record.steps[p].status.Running?
  }

  /** What the provider last answered for step `p`. */
  function LastCompletion(log: seq<Moment>, p: nat): Option<Choice> {
    if log == [] then None
    else if CallsFor(log[|log| - 1], p) then Some(log[|log| - 1].choice)
    else LastCompletion(log[..|log| - 1], p)
  }

  /** Why no executor could be built. */
  function BuildError(log: seq<Moment>): Option<string> {
    if log == [] then None
    else if log[|log| - 1].choice.BuildFailed? then Some(log[|log| - 1].choice.error)
    else BuildError(log[..|log| - 1])
  }

  /** A succeeded step holds the completion, a failed one the error, of its last call. */
  ghost predicate StoresAnswer(log: seq<Moment>, step: Step, p: nat) {
    && (step.status.Succeeded? ==> LastCompletion(log, p) == Some(Completed(step.output, step.usage)))
    && (step.status.Failed? ==> LastCompletion(log, p) == Some(ProviderError(step.error)))
  }

  ghost predicate AllStoreAnswers(log: seq<Moment>, record: Record) {
    forall p :: 0 <= p < |record.steps| ==> StoresAnswer(log, record.steps[p], p)
  }

  /** A failed run says why: the error of the step that used up its attempts, or that no
      executor could be built. */
  ghost predicate FailureIsReported(log: seq<Moment>, record: Record) {
    record.status == Failed ==>
      || (AllDropped(record.steps) && BuildError(log) == Some(record.summary))
      || exists p :: 0 <= p < |record.steps| && record.steps[p].status.Failed? && record.summary == record.steps[p].error
                  && record.steps[p].attempts == record.steps[p].spec.maxRetries + 1
  }

  ghost predicate Holds(log: seq<Moment>, f: Frame, answer: Choice) {
    f.i < |f.order| && LastCompletion(log, f.order[f.i]) == Some(answer)
  }

  /** What the program point has in hand is what the provider answered. */
  ghost predicate InHand(log: seq<Moment>, pc: Pc) {
    match pc
    case AtSucceedStep(f, output, usage) => Holds(log, f, Completed(output, usage))
    case AtFailStep(f, error) => Holds(log, f, ProviderError(error))
    case AtExhausted(f, error) => Holds(log, f, ProviderError(error))
    case AtFail(error) => BuildError(log) == Some(error)
    case _ => true
  }

  ghost predicate OutputsOk(log: seq<Moment>, record: Record, exec: Exec) {
    exec.mode != External ==>
      AllStoreAnswers(log, record) && FailureIsReported(log, record) && (!record.cancelled ==> InHand(log, exec.pc))
  }

  // ---------- the log grows ----------

  lemma NoAnswerForStep(front: seq<Moment>, last: Moment, p: nat)
    requires !CallsFor(last, p)
    ensures LastCompletion(front + [last], p) == LastCompletion(front, p)
  {
    assert (front + [last])[..|front|] == front;
  }

  lemma AnswerForStep(front: seq<Moment>, last: Moment, p: nat)
    requires CallsFor(last, p)
    ensures LastCompletion(front + [last], p) == Some(last.choice)
  {
  }

  lemma BuildErrorGrows(front: seq<Moment>, last: Moment)
    ensures BuildError(front + [last]) == if last.choice.BuildFailed? then Some(last.choice.error) else BuildError(front)
  {
    assert (front + [last])[..|front|] == front;
  }

  /** Outside a provider call, whatever the log said of the steps it still says. */
  lemma QuietLog(front: seq<Moment>, last: Moment)
    requires !last.exec.pc.AtComplete?
    ensures forall p :: LastCompletion(front + [last], p) == LastCompletion(front, p)
    ensures !last.choice.BuildFailed? ==> BuildError(front + [last]) == BuildError(front)
  {
    forall p: nat ensures LastCompletion(front + [last], p) == LastCompletion(front, p) { NoAnswerForStep(front, last, p); }
    BuildErrorGrows(front, last);
  }

  lemma SameLog(front: seq<Moment>, log: seq<Moment>, record: Record, exec: Exec)
    requires OutputsOk(front, record, exec) && BuildError(log) == BuildError(front)
    requires forall p :: LastCompletion(log, p) == LastCompletion(front, p)
    ensures OutputsOk(log, record, exec)
  {
    hide LastCompletion;
    hide BuildError;
    hide AllDropped;
  }

  // ---------- one step ----------

  /** Writing one step that holds what it is told. */
  lemma WriteStores(log: seq<Moment>, record: Record, p: nat, step: Step)
    requires AllStoreAnswers(log, record) && p < |record.steps| && StoresAnswer(log, step, p)
    ensures AllStoreAnswers(log, SetStep(record, p, step))
  {
    hide StoresAnswer;
  }

  lemma StartStepEffect(record: Record, exec: Exec, choice: Choice, record': Record, exec': Exec)
    requires Inv(record, exec) && exec.pc.AtStartStep? && Steps(record, exec, choice, record', exec')
    ensures exec.mode == Local && exec.pc.frame.i < |exec.pc.frame.order| && exec.pc.frame.order[exec.pc.frame.i] < |record.steps|
    ensures record.cancelled ==> record' == record && exec' == exec.(pc := Exited)
    ensures !record.cancelled ==>
      && record' == SetStep(record, exec.pc.frame.order[exec.pc.frame.i], StartedStep(record.steps[exec.pc.frame.order[exec.pc.frame.i]]))
      && exec' == exec.(pc := AtComplete(exec.pc.frame.(attempts := exec.pc.frame.attempts + 1)))
      && record.status == Running
  {
    hide SumAttempts;
  }

  lemma StartStepOutputs(log: seq<Moment>, record: Record, exec: Exec, choice: Choice, record': Record, exec': Exec)
    requires Inv(record, exec) && exec.pc.AtStartStep? && Steps(record, exec, choice, record', exec') && OutputsOk(log, record, exec)
    ensures OutputsOk(log, record', exec')
  {
    StartStepEffect(record, exec, choice, record', exec');
    hide Inv;
    hide Steps;
    hide LastCompletion;
    if !record.cancelled {
      var p := exec.pc.frame.order[exec.pc.frame.i];
      WriteStores(log, record, p, StartedStep(record.steps[p]));
    }
    hide AllStoreAnswers;
  }

  lemma CompleteEffect(record: Record, exec: Exec, choice: Choice, record': Record, exec': Exec)
    requires Inv(record, exec) && exec.pc.AtComplete? && Steps(record, exec, choice, record', exec')
    ensures record' == record && exec.mode == Local && exec'.mode == Local && (record.status == Running || record.cancelled)
    ensures var f := exec.pc.frame;
      && f.i < |f.order| && f.order[f.i] < |record.steps|
      && (!record.cancelled ==> record.steps[f.order[f.i]].status == Running)
      && match choice
         case Completed(output, usage) => exec'.pc == AtSucceedStep(f, output, usage)
         case ProviderError(error) => exec'.pc == AtFailStep(f, error)
         case _ => false
  {
    hide SumAttempts;
  }

  lemma CompleteOutputs(front: seq<Moment>, last: Moment, after: Record, exec: Exec)
    requires Inv(last.record, last.exec) && last.exec.pc.AtComplete? && Steps(last.record, last.exec, last.choice, after, exec)
    requires OutputsOk(front, last.record, last.exec)
    ensures OutputsOk(front + [last], after, exec)
  {
    CompleteEffect(last.record, last.exec, last.choice, after, exec);
    hide Inv;
    hide Steps;
    var log := front + [last];
    BuildErrorGrows(front, last);
    forall p | 0 <= p < |after.steps| ensures StoresAnswer(log, after.steps[p], p) {
      if CallsFor(last, p) {
        AnswerForStep(front, last, p);
      } else {
        NoAnswerForStep(front, last, p);
        assert StoresAnswer(front, after.steps[p], p);
      }
    }
    var f := last.exec.pc.frame;
    if !after.cancelled { AnswerForStep(front, last, f.order[f.i]); }
    hide LastCompletion;
    hide BuildError;
    hide StoresAnswer;
    hide AllDropped;
  }

  lemma NextHoldsNothing(log: seq<Moment>, f: Frame)
    ensures InHand(log, NextPosition(f))
  {
  }

  lemma SucceedStepPoint(record: Record, exec: Exec)
    requires Inv(record, exec) && exec.pc.AtSucceedStep?
    ensures exec.mode == Local && exec.pc.output != "" && (record.cancelled || record.status == Running)
    ensures exec.pc.frame.i < |exec.pc.frame.order| && exec.pc.frame.order[exec.pc.frame.i] < |record.steps|
  {
  }

  lemma ExitedHoldsNothing(log: seq<Moment>, record: Record, exec: Exec)
    requires OutputsOk(log, record, exec)
    ensures OutputsOk(log, record, exec.(pc := Exited))
  {
  }

  lemma SucceedStepOutputs(log: seq<Moment>, record: Record, exec: Exec, choice: Choice, record': Record, exec': Exec)
    requires Inv(record, exec) && exec.pc.AtSucceedStep? && Steps(record, exec, choice, record', exec') && OutputsOk(log, record, exec)
    ensures OutputsOk(log, record', exec')
  {
    SucceedStepEffect(record, exec, choice, record', exec');
    SucceedStepPoint(record, exec);
    hide Inv;
    hide Steps;
    hide LastCompletion;
    if record.cancelled {
      ExitedHoldsNothing(log, record, exec);
    } else {
      var f := exec.pc.frame;
      var p := f.order[f.i];
      WriteStores(log, record, p, SucceededStep(record.steps[p], exec.pc.output, exec.pc.usage));
      NextHoldsNothing(log, FrameAfterSuccess(exec));
    }
    hide NextPosition;
    hide AllStoreAnswers;
  }

  lemma FailStepEffect(record: Record, exec: Exec, choice: Choice, record': Record, exec': Exec)
    requires Inv(record, exec) && exec.pc.AtFailStep? && Steps(record, exec, choice, record', exec')
    ensures exec.mode == Local && (record.cancelled || record.status == Running)
    ensures var f := exec.pc.frame;
      && f.i < |f.order| && f.order[f.i] < |record.steps|
      && record' == (if record.cancelled then record else SetStep(record, f.order[f.i], FailedStep(record.steps[f.order[f.i]], exec.pc.error)))
      && (exec' == exec.(pc := AtStartStep(f)) || exec' == exec.(pc := AtExhausted(f, exec.pc.error)))
  {
    hide SumAttempts;
  }

  lemma FailStepOutputs(log: seq<Moment>, record: Record, exec: Exec, choice: Choice, record': Record, exec': Exec)
    requires Inv(record, exec) && exec.pc.AtFailStep? && Steps(record, exec, choice, record', exec') && OutputsOk(log, record, exec)
    ensures OutputsOk(log, record', exec')
  {
    FailStepEffect(record, exec, choice, record', exec');
    hide Inv;
    hide Steps;
    hide LastCompletion;
    if !record.cancelled {
      var p := exec.pc.frame.order[exec.pc.frame.i];
      WriteStores(log, record, p, FailedStep(record.steps[p], exec.pc.error));
    }
    hide AllStoreAnswers;
  }

  /** A sweep leaves succeeded and failed steps alone. */
  lemma SweepStores(log: seq<Moment>, record: Record, swept: Record, running: bool)
    requires AllStoreAnswers(log, record) && swept.steps == Sweep(record.steps, running)
    ensures AllStoreAnswers(log, swept)
  {
    forall p | 0 <= p < |swept.steps| ensures StoresAnswer(log, swept.steps[p], p) {
      assert StoresAnswer(log, record.steps[p], p);
    }
    hide LastCompletion;
  }

  lemma ExhaustedPoint(record: Record, exec: Exec)
    requires Inv(record, exec) && exec.pc.AtExhausted? && !record.cancelled
    ensures exec.mode == Local
    ensures var f := exec.pc.frame;
      && f.i < |f.order| && f.order[f.i] < |record.steps| && record.steps[f.order[f.i]].status == Failed
      && record.steps[f.order[f.i]].attempts == record.steps[f.order[f.i]].spec.maxRetries + 1
  {
    hide SumAttempts;
  }

  lemma ExhaustedOutputs(log: seq<Moment>, record: Record, exec: Exec, choice: Choice, record': Record, exec': Exec)
    requires Inv(record, exec) && exec.pc.AtExhausted? && Steps(record, exec, choice, record', exec') && OutputsOk(log, record, exec)
    requires exec.mode == Local
    ensures OutputsOk(log, record', exec')
  {
    FailEffect(record, exec, choice, record', exec');
    if record.cancelled {
      ExitedHoldsNothing(log, record, exec);
    } else {
      ExhaustedPoint(record, exec);
      var p := exec.pc.frame.order[exec.pc.frame.i];
      assert StoresAnswer(log, record.steps[p], p);
      SweepStores(log, record, record', false);
      assert record'.steps[p] == record.steps[p];
    }
    hide Inv;
    hide Steps;
    hide LastCompletion;
    hide AllStoreAnswers;
    hide AllDropped;
  }

  lemma FailPoint(record: Record, exec: Exec)
    requires Inv(record, exec) && exec.pc.AtFail? && exec.mode == Local && !record.cancelled
    ensures AllDropped(FailRecord(record, exec.pc.error).steps)
  {
    hide SumAttempts;
  }

  lemma FailOutputs(log: seq<Moment>, record: Record, exec: Exec, choice: Choice, record': Record, exec': Exec)
    requires Inv(record, exec) && exec.pc.AtFail? && exec.mode == Local && Steps(record, exec, choice, record', exec')
    requires OutputsOk(log, record, exec)
    ensures OutputsOk(log, record', exec')
  {
    FailEffect(record, exec, choice, record', exec');
    if record.cancelled {
      ExitedHoldsNothing(log, record, exec);
    } else {
      SweepStores(log, record, record', false);
      FailPoint(record, exec);
    }
    hide Inv;
    hide Steps;
    hide LastCompletion;
    hide AllStoreAnswers;
    hide StoresAnswer;
  }

  lemma SucceedOutputs(log: seq<Moment>, record: Record, exec: Exec, choice: Choice, record': Record, exec': Exec)
    requires Inv(record, exec) && exec.pc.AtSucceed? && Steps(record, exec, choice, record', exec') && OutputsOk(log, record, exec)
    ensures OutputsOk(log, record', exec')
  {
    hide LastCompletion;
    hide StoresAnswer;
    hide SumAttempts;
    hide AllDropped;
  }

  lemma StartOutputs(log: seq<Moment>, record: Record, exec: Exec, choice: Choice, record': Record, exec': Exec)
    requires Inv(record, exec) && exec.pc.AtStart? && Steps(record, exec, choice, record', exec') && OutputsOk(log, record, exec)
    ensures OutputsOk(log, record', exec')
  {
    hide LastCompletion;
    hide StoresAnswer;
    hide SumAttempts;
    hide AllDropped;
  }

  lemma GetPoint(record: Record, exec: Exec)
    requires Inv(record, exec) && exec.pc.AtGet?
    ensures exec.mode == Undecided && record.status != Failed && SameSpecs(record.steps, exec.specs)
  {
    hide SumAttempts;
  }

  lemma SameAnswers(front: seq<Moment>, log: seq<Moment>, record: Record)
    requires AllStoreAnswers(front, record) && forall p :: LastCompletion(log, p) == LastCompletion(front, p)
    ensures AllStoreAnswers(log, record)
  {
    hide LastCompletion;
  }

  /** What the thread has in hand after it has looked at the run. */
  lemma GetInHand(log: seq<Moment>, record: Record, exec: Exec, choice: Choice)
    requires CanChoose(AtGet, choice) && !choice.UseExternal? && SameSpecs(record.steps, exec.specs) && WellPlanned(exec)
    requires choice.BuildFailed? ==> BuildError(log) == Some(choice.error)
    ensures InHand(log, AfterGet(record.steps, choice))
  {
    if choice.LocalReady? {
      PlanIsRecomputed(record.steps, exec, choice);
      NextHoldsNothing(log, Frame(record.steps, exec.plan, 0, 0, []));
    }
    hide Kahn.Order;
    hide NextPosition;
    hide LastCompletion;
    hide BuildError;
  }

  lemma NothingFailed(log: seq<Moment>, record: Record, exec: Exec)
    requires AllStoreAnswers(log, record) && record.status != Failed && InHand(log, exec.pc)
    ensures OutputsOk(log, record, exec)
  {
    hide AllStoreAnswers;
    hide InHand;
  }

  lemma OutputsAnswers(log: seq<Moment>, record: Record, exec: Exec)
    requires OutputsOk(log, record, exec) && exec.mode != External
    ensures AllStoreAnswers(log, record)
  {
  }

  lemma ExternalHolds(log: seq<Moment>, record: Record, exec: Exec)
    requires exec.mode == External
    ensures OutputsOk(log, record, exec)
  {
  }

  lemma GetOutputs(front: seq<Moment>, last: Moment, after: Record, exec: Exec)
    requires Inv(last.record, last.exec) && WellPlanned(last.exec) && last.exec.pc.AtGet?
    requires Steps(last.record, last.exec, last.choice, after, exec) && OutputsOk(front, last.record, last.exec)
    ensures OutputsOk(front + [last], after, exec)
  {
    var log := front + [last];
    GetEffect(last.record, last.exec, last.choice, after, exec);
    GetPoint(last.record, last.exec);
    BuildErrorGrows(front, last);
    forall p: nat ensures LastCompletion(log, p) == LastCompletion(front, p) { NoAnswerForStep(front, last, p); }
    hide *;
    if last.choice.UseExternal? {
      ExternalHolds(log, after, exec);
    } else {
      OutputsAnswers(front, last.record, last.exec);
      SameAnswers(front, log, after);
      GetInHand(log, last.record, last.exec, last.choice);
      NothingFailed(log, after, exec);
    }
  }

  lemma PointOfMode(record: Record, exec: Exec)
    requires Inv(record, exec) && exec.mode != External && !Ended(exec.pc)
    ensures match exec.pc
      case AtStart | AtGet | AtStartStep(_) | AtComplete(_) | AtSucceedStep(_, _, _) | AtFailStep(_, _) | AtExhausted(_, _) | AtSucceed(_) => true
      case AtFail(_) => exec.mode == Local
      case _ => false
    ensures exec.pc.AtExhausted? ==> exec.mode == Local
  {
    hide SumAttempts;
  }

  lemma QuietChoice(pc: Pc, choice: Choice)
    requires CanChoose(pc, choice) && !pc.AtGet?
    ensures !choice.BuildFailed?
  {
  }

  /** Each step keeps the stored answers what the provider answered. */
  lemma StepOutputs(front: seq<Moment>, last: Moment, after: Record, exec: Exec)
    requires Inv(last.record, last.exec) && WellPlanned(last.exec) && Steps(last.record, last.exec, last.choice, after, exec)
    requires CanChoose(last.exec.pc, last.choice) && !Ended(last.exec.pc)
    requires OutputsOk(front, last.record, last.exec) && last.exec.mode != External
    ensures OutputsOk(front + [last], after, exec)
  {
    var Moment(record, thread, choice) := last;
    var log := front + [last];
    PointOfMode(record, thread);
    if thread.pc.AtComplete? {
      CompleteOutputs(front, last, after, exec);
    } else if thread.pc.AtGet? {
      GetOutputs(front, last, after, exec);
    } else {
      QuietLog(front, last);
      QuietChoice(thread.pc, choice);
      SameLog(front, log, record, thread);
      hide *;
      match thread.pc {
        case AtStart => StartOutputs(log, record, thread, choice, after, exec);
        case AtStartStep(_) => StartStepOutputs(log, record, thread, choice, after, exec);
        case AtSucceedStep(_, _, _) => SucceedStepOutputs(log, record, thread, choice, after, exec);
        case AtFailStep(_, _) => FailStepOutputs(log, record, thread, choice, after, exec);
        case AtExhausted(_, _) => ExhaustedOutputs(log, record, thread, choice, after, exec);
        case AtSucceed(_) => SucceedOutputs(log, record, thread, choice, after, exec);
        case AtFail(_) => FailOutputs(log, record, thread, choice, after, exec);
        case _ =>
      }
    }
    hide *;
  }

  // ---------- whole histories ----------

  lemma NothingStored(log: seq<Moment>, record: Record, exec: Exec)
    requires Inv(record, exec) && exec.pc == AtStart
    ensures OutputsOk(log, record, exec)
  {
    hide SumAttempts;
    hide LastCompletion;
  }

  lemma CancelOutputs(log: seq<Moment>, record: Record, exec: Exec)
    requires OutputsOk(log, record, exec)
    ensures OutputsOk(log, CancelRecord(record), exec)
  {
    if exec.mode != External && !Terminal(record.status) { SweepStores(log, record, CancelRecord(record), true); }
    hide LastCompletion;
    hide StoresAnswer;
  }

  lemma NotExternalBefore(record: Record, exec: Exec, choice: Choice, record': Record, exec': Exec)
    requires Inv(record, exec) && Steps(record, exec, choice, record', exec') && exec'.mode != External
    ensures exec.mode != External
  {
    StoreEffectOf(record, exec, choice, record', exec');
    hide Steps;
  }

  lemma {:induction false} HistoryOutputs(log: seq<Moment>, record: Record, exec: Exec)
    requires History(log, record, exec) && exec.mode != External
    ensures OutputsOk(log, record, exec)
    decreases |log|
  {
    hide *;
    HistoryIsSound(log, record, exec);
    if log == [] {
      NothingStored(log, record, exec);
    } else {
      var front, last, after := LastStep(log, record, exec);
      NotExternalBefore(last.record, last.exec, last.choice, after, exec);
      HistoryOutputs(front, last.record, last.exec);
      StepOutputs(front, last, after, exec);
      CancelOutputs(log, after, exec);
    }
  }

  lemma OutputsParts(log: seq<Moment>, record: Record, exec: Exec)
    requires OutputsOk(log, record, exec) && exec.mode != External
    ensures AllStoreAnswers(log, record) && FailureIsReported(log, record)
  {
  }

  /** In local mode every succeeded step stores the text and the numbers of the provider's
      last completion for it, every failed step the error of its last call, and a failed
      run the error of the step that failed it, or why no executor could be built. */
  lemma StoredIsAnswered(log: seq<Moment>, record: Record, exec: Exec)
    requires History(log, record, exec) && exec.mode == Local
    ensures AllStoreAnswers(log, record) && FailureIsReported(log, record)
  {
    HistoryOutputs(log, record, exec);
    hide *;
    hide AllStoreAnswers;
    OutputsParts(log, record, exec);
  }
}
