/** How an external run ends: as the last answer of the runtime says, in its own words, or
    failed because no answer came in time or at all. */
module ExternalOutcome {
  import opened Wrappers
  import opened Ledger
  import opened Runtime
  import opened Executor
  import opened ExecutorInvariant
  import opened ExecutorSafety
  import opened ExecutorProgress
  import opened ExecutorDeath
  import opened ThreadHistory
  import Kahn

  // ---------- what a thread has heard ----------

  predicate Hears(choice: Choice) {
    choice.SubmitFailed? || choice.Accepted? || choice.Polled?
  }

  /** What the runtime last said, or failed to say. */
  function LastHeard(log: seq<Moment>): Option<Choice> {
    if log == [] then None
    else if Hears(log[|log| - 1].choice) then Some(log[|log| - 1].choice)
    else LastHeard(log[..|log| - 1])
  }

  /** The acceptance of the submission. */
  function Acceptance(log: seq<Moment>): Option<Choice> {
    if log == [] then None
    else if log[|log| - 1].choice.Accepted? then Some(log[|log| - 1].choice)
    else Acceptance(log[..|log| - 1])
  }

  /** The answer last heard, if that was one. */
  function LastAnswer(log: seq<Moment>): Option<ExternalRun> {
    match LastHeard(log)
    case Some(Accepted(_, run, _, _, _)) => Some(run)
    case Some(Polled(_, _, Answered(run))) => Some(run)
    case _ => None
  }

  predicate SaysEnd(status: Option<string>) {
    SaysSucceeded(status) || SaysFailed(status) || SaysCancelled(status)
  }

  /** The timer is the one the settings at the acceptance ask for. */
  ghost predicate TimerOk(log: seq<Moment>, timer: Timer) {
    var accepted := Acceptance(log);
    && accepted.Some? && accepted.value.Accepted?
    && timer.deadline == accepted.value.now + RuntimeFloat(accepted.value.timeoutSetting, 3600.0)
    && timer.interval == RuntimeFloat(accepted.value.pollSetting, 0.5)
  }

  /** The time the run was given is over. */
  ghost predicate PastDeadline(log: seq<Moment>, now: real) {
    var accepted := Acceptance(log);
    accepted.Some? && accepted.value.Accepted? && now >= accepted.value.now + RuntimeFloat(accepted.value.timeoutSetting, 3600.0)
  }

  // ---------- how a run ends ----------

  predicate FailedFor(record: Record, error: string) {
    record.status == Failed && record.summary == error
  }

  predicate EndsAsTold(record: Record, run: ExternalRun) {
    || (SaysSucceeded(run.status) && record.status == Succeeded)
    || (SaysCancelled(run.status) && record.status == Cancelled)
    || (SaysFailed(run.status) && FailedFor(record, run.summary))
  }

  ghost predicate EndsAs(log: seq<Moment>, record: Record) {
    match LastHeard(log)
    case Some(SubmitFailed(error)) => FailedFor(record, error)
    case Some(Accepted(externalId, run, _, _, _)) =>
      if externalId == "" then FailedFor(record, "external agent runtime response did not include a run id") else EndsAsTold(record, run)
    case Some(Polled(checkedAt, _, answer)) =>
      if PastDeadline(log, checkedAt) then FailedFor(record, "external agent runtime polling timed out") else
      (match answer
       case RuntimeError(error) => FailedFor(record, error)
       case Answered(run) => EndsAsTold(record, run))
    case _ => false
  }

  /** No API request cancelled the run before any of these steps. */
  ghost predicate Uncancelled(log: seq<Moment>) {
    forall i :: 0 <= i < |log| ==> !log[i].record.cancelled
  }

  // ---------- what a program point knows ----------

  ghost predicate FailsWith(log: seq<Moment>, error: string) {
    match LastHeard(log)
    case Some(SubmitFailed(reason)) => error == reason
    case Some(Accepted(externalId, run, _, _, _)) =>
      if externalId == "" then error == "external agent runtime response did not include a run id"
      else SaysFailed(run.status) && error == run.summary
    case Some(Polled(checkedAt, _, answer)) =>
      if PastDeadline(log, checkedAt) then error == "external agent runtime polling timed out" else
      (match answer
       case RuntimeError(reason) => error == reason
       case Answered(run) => SaysFailed(run.status) && error == run.summary)
    case _ => false
  }

  /** The answer last heard is this one, and came in time. */
  ghost predicate Reading(log: seq<Moment>, run: ExternalRun, timer: Timer) {
    && LastAnswer(log) == Some(run) && TimerOk(log, timer)
    && (LastHeard(log).value.Accepted? ==> LastHeard(log).value.externalId != "")
    && (LastHeard(log).value.Polled? ==> !PastDeadline(log, LastHeard(log).value.checkedAt))
  }

  /** What was last heard is an answer that counts. */
  ghost predicate InTime(log: seq<Moment>) {
    match LastHeard(log)
    case Some(Accepted(externalId, _, _, _, _)) => externalId != ""
    case Some(Polled(checkedAt, _, _)) => !PastDeadline(log, checkedAt)
    case _ => false
  }

  ghost predicate Knows(log: seq<Moment>, pc: Pc) {
    match pc
    case AtStart | AtGet | AtRuntimeSubmit => LastHeard(log).None?
    case AtSetRuntime(externalId, run, timer) =>
      Reading(log, run, timer) && Acceptance(log).value.externalId == externalId
    case AtSyncGet(run, timer) => Reading(log, run, timer)
    case AtSyncStart(sync) => Reading(log, sync.run, sync.timer)
    case AtSyncFinish(sync) => Reading(log, sync.run, sync.timer)
    case AtPoll(timer) => LastAnswer(log).Some? && Reading(log, LastAnswer(log).value, timer) && !SaysEnd(LastAnswer(log).value.status)
    case AtExternalSucceed => LastAnswer(log).Some? && SaysSucceeded(LastAnswer(log).value.status) && InTime(log)
    case AtExternalCancel => LastAnswer(log).Some? && SaysCancelled(LastAnswer(log).value.status) && InTime(log)
    case AtFail(error) => FailsWith(log, error)
    case _ => true
  }

  lemma HeardNothing(front: seq<Moment>, last: Moment)
    requires !Hears(last.choice)
    ensures LastHeard(front + [last]) == LastHeard(front) && Acceptance(front + [last]) == Acceptance(front)
  {
    assert (front + [last])[..|front|] == front;
  }

  lemma SamePoint(front: seq<Moment>, log: seq<Moment>, pc: Pc)
    requires LastHeard(log) == LastHeard(front) && Acceptance(log) == Acceptance(front) && Knows(front, pc)
    ensures Knows(log, pc)
  {
    hide LastHeard;
    hide Acceptance;
  }

  /** Where a pass can lead. */
  ghost predicate Passing(pc: Pc, run: ExternalRun, timer: Timer) {
    || (pc.AtSyncStart? && pc.sync.run == run && pc.sync.timer == timer)
    || (pc.AtSyncFinish? && pc.sync.run == run && pc.sync.timer == timer)
    || pc.Died? || pc == AfterSync(run, timer)
  }

  lemma {:induction false} PassLeads(sync: Sync)
    ensures Passing(SyncFrom(sync), sync.run, sync.timer)
    decreases |sync.run.steps| - sync.k
  {
    hide NormalizeStatus;
    hide Target;
    hide AfterSync;
    if sync.k < |sync.run.steps| { PassLeads(sync.(k := sync.k + 1)); }
  }

  lemma AfterPass(log: seq<Moment>, run: ExternalRun, timer: Timer, pc: Pc)
    requires Reading(log, run, timer) && Passing(pc, run, timer)
    ensures Knows(log, pc)
  {
    WordsNormalized(run.status);
    hide LastHeard;
    hide Acceptance;
    hide NormalizeStatus;
    hide Says;
  }

  // ---------- one step ----------

  lemma GetLeads(exec: Exec, reply: Reply)
    requires exec.pc.AtSyncGet?
    ensures Passing(AdvanceExec(exec, reply, NoChoice).pc, exec.pc.run, exec.pc.timer)
  {
    if reply.Shown? && reply.snapshot.Some? { PassLeads(Sync(reply.snapshot.value.steps, exec.pc.run, 0, exec.pc.timer)); }
    hide SyncFrom;
    hide AfterSync;
  }

  lemma StartLeads(exec: Exec, reply: Reply)
    requires exec.pc.AtSyncStart?
    ensures Passing(AdvanceExec(exec, reply, NoChoice).pc, exec.pc.sync.run, exec.pc.sync.timer)
  {
    PassLeads(exec.pc.sync.(k := exec.pc.sync.k + 1));
    hide SyncFrom;
    hide AfterSync;
    hide Target;
  }

  lemma FinishLeads(exec: Exec, reply: Reply)
    requires exec.pc.AtSyncFinish?
    ensures Passing(AdvanceExec(exec, reply, NoChoice).pc, exec.pc.sync.run, exec.pc.sync.timer)
  {
    PassLeads(exec.pc.sync.(k := exec.pc.sync.k + 1));
    hide SyncFrom;
    hide AfterSync;
  }

  lemma PassKnows(log: seq<Moment>, exec: Exec, reply: Reply)
    requires CanChoose(exec.pc, NoChoice) && InPass(exec.pc) && Knows(log, exec.pc)
    ensures Knows(log, AdvanceExec(exec, reply, NoChoice).pc)
  {
    var pc := AdvanceExec(exec, reply, NoChoice).pc;
    hide AdvanceExec;
    hide Passing;
    hide Reading;
    match exec.pc {
      case AtSyncGet(run, timer) => GetLeads(exec, reply); AfterPass(log, run, timer, pc);
      case AtSyncStart(sync) => StartLeads(exec, reply); AfterPass(log, sync.run, sync.timer, pc);
      case AtSyncFinish(sync) => FinishLeads(exec, reply); AfterPass(log, sync.run, sync.timer, pc);
      case _ =>
    }
    hide Knows;
  }

  /** Where the other program points of an external run lead. */
  lemma QuietPoint(exec: Exec, reply: Reply, choice: Choice)
    requires CanChoose(exec.pc, choice) && !Hears(choice) && !InPass(exec.pc) && exec.mode != Local && ChosenMode(exec, choice) != Local
    requires exec.mode == Undecided ==> exec.pc == AtStart || exec.pc == AtGet || exec.pc == Exited
    requires exec.mode == External ==> match exec.pc
      case AtSetRuntime(_, _, _) | AtExternalSucceed | AtExternalCancel | AtFail(_) | Exited | Died => true
      case _ => false
    ensures var pc := AdvanceExec(exec, reply, choice).pc;
      || pc.Exited? || pc.Died? || (exec.pc == AtStart && pc == AtGet) || (exec.pc == AtGet && pc == AtRuntimeSubmit)
      || (exec.pc.AtSetRuntime? && pc == AtSyncGet(exec.pc.run, exec.pc.timer))
  {
    hide Kahn.Order;
  }

  lemma QuietModes(record: Record, exec: Exec, choice: Choice)
    requires Inv(record, exec) && CanChoose(exec.pc, choice) && !Hears(choice) && !InPass(exec.pc) && exec.mode != Local
    ensures exec.mode == Undecided ==> exec.pc == AtStart || exec.pc == AtGet || exec.pc == Exited
    ensures exec.mode == External ==> match exec.pc
      case AtSetRuntime(_, _, _) | AtExternalSucceed | AtExternalCancel | AtFail(_) | Exited | Died => true
      case _ => false
  {
  }

  lemma PlainKnows(log: seq<Moment>, pc: Pc, next: Pc)
    requires Knows(log, pc)
    requires next.Exited? || next.Died? || (pc == AtStart && next == AtGet) || (pc == AtGet && next == AtRuntimeSubmit)
      || (pc.AtSetRuntime? && next == AtSyncGet(pc.run, pc.timer))
    ensures Knows(log, next)
  {
    hide LastHeard;
    hide Acceptance;
  }

  lemma QuietIsNone(pc: Pc, choice: Choice)
    requires CanChoose(pc, choice) && InPass(pc)
    ensures choice == NoChoice
  {
  }

  lemma QuietKnows(log: seq<Moment>, record: Record, exec: Exec, reply: Reply, choice: Choice)
    requires Inv(record, exec) && CanChoose(exec.pc, choice) && !Hears(choice) && exec.mode != Local && ChosenMode(exec, choice) != Local
    requires Knows(log, exec.pc)
    ensures Knows(log, AdvanceExec(exec, reply, choice).pc)
  {
    if InPass(exec.pc) {
      QuietIsNone(exec.pc, choice);
      hide *;
      hide InPass;
      PassKnows(log, exec, reply);
    } else {
      QuietModes(record, exec, choice);
      QuietPoint(exec, reply, choice);
      hide *;
      PlainKnows(log, exec.pc, AdvanceExec(exec, reply, choice).pc);
    }
  }

  lemma HeardNow(front: seq<Moment>, last: Moment)
    requires Hears(last.choice)
    ensures LastHeard(front + [last]) == Some(last.choice)
    ensures Acceptance(front + [last]) == if last.choice.Accepted? then Some(last.choice) else Acceptance(front)
  {
    assert (front + [last])[..|front|] == front;
  }

  lemma SubmitKnows(log: seq<Moment>, exec: Exec, reply: Reply, choice: Choice)
    requires exec.pc.AtRuntimeSubmit? && CanChoose(exec.pc, choice) && LastHeard(log) == Some(choice)
    requires choice.Accepted? ==> Acceptance(log) == Some(choice)
    ensures Knows(log, AdvanceExec(exec, reply, choice).pc)
  {
    hide LastHeard;
    hide Acceptance;
    hide RuntimeFloat;
  }

  lemma PollKnows(log: seq<Moment>, exec: Exec, reply: Reply, choice: Choice)
    requires exec.pc.AtPoll? && CanChoose(exec.pc, choice) && LastHeard(log) == Some(choice) && TimerOk(log, exec.pc.timer)
    ensures Knows(log, AdvanceExec(exec, reply, choice).pc)
  {
    hide LastHeard;
    hide Acceptance;
    hide RuntimeFloat;
  }

  lemma HearingPoint(exec: Exec, choice: Choice)
    requires CanChoose(exec.pc, choice) && Hears(choice)
    ensures (exec.pc.AtRuntimeSubmit? && !choice.Polled?) || (exec.pc.AtPoll? && choice.Polled?)
  {
  }

  lemma SameTimer(front: seq<Moment>, log: seq<Moment>, pc: Pc)
    requires Acceptance(log) == Acceptance(front) && pc.AtPoll? && Knows(front, pc)
    ensures TimerOk(log, pc.timer)
  {
    hide LastHeard;
    hide Acceptance;
  }

  /** Each step keeps what its program point knows. */
  lemma StepKnows(front: seq<Moment>, last: Moment, after: Record, exec: Exec)
    requires Inv(last.record, last.exec) && Steps(last.record, last.exec, last.choice, after, exec)
    requires last.exec.mode != Local && exec.mode != Local && Knows(front, last.exec.pc)
    ensures Knows(front + [last], exec.pc)
  {
    var log, reply := front + [last], StoreEffect(last.record, last.exec.pc).1;
    assert exec == AdvanceExec(last.exec, reply, last.choice) && exec.mode == ChosenMode(last.exec, last.choice);
    hide *;
    if Hears(last.choice) {
      HearingPoint(last.exec, last.choice);
      HeardNow(front, last);
      if last.exec.pc.AtRuntimeSubmit? {
        SubmitKnows(log, last.exec, reply, last.choice);
      } else {
        SameTimer(front, log, last.exec.pc);
        PollKnows(log, last.exec, reply, last.choice);
      }
    } else {
      HeardNothing(front, last);
      SamePoint(front, log, last.exec.pc);
      QuietKnows(log, last.record, last.exec, reply, last.choice);
    }
  }

  // ---------- whole histories ----------

  lemma NothingKnown(record: Record, exec: Exec)
    requires exec.pc == AtStart
    ensures Knows([], exec.pc)
  {
  }

  lemma NotLocalBefore(record: Record, exec: Exec, choice: Choice, record': Record, exec': Exec)
    requires Inv(record, exec) && Steps(record, exec, choice, record', exec') && exec'.mode != Local
    ensures exec.mode != Local
  {
    hide Advance;
    hide StoreEffect;
  }

  lemma {:induction false} HistoryKnows(log: seq<Moment>, record: Record, exec: Exec)
    requires History(log, record, exec) && exec.mode != Local
    ensures Knows(log, exec.pc)
    decreases |log|
  {
    hide *;
    HistoryIsSound(log, record, exec);
    if log == [] {
      NothingKnown(record, exec);
    } else {
      var front, last, after := LastStep(log, record, exec);
      NotLocalBefore(last.record, last.exec, last.choice, after, exec);
      HistoryKnows(front, last.record, last.exec);
      StepKnows(front, last, after, exec);
    }
  }

  lemma PassLanding(record: Record, exec: Exec, choice: Choice, record': Record, exec': Exec)
    requires Steps(record, exec, choice, record', exec') && InPass(exec.pc)
    ensures match exec.pc
      case AtSyncGet(run, timer) => Passing(exec'.pc, run, timer)
      case AtSyncStart(sync) => Passing(exec'.pc, sync.run, sync.timer)
      case AtSyncFinish(sync) => Passing(exec'.pc, sync.run, sync.timer)
      case _ => true
    ensures choice == NoChoice
  {
    var reply := StoreEffect(record, exec.pc).1;
    assert choice == NoChoice && exec' == AdvanceExec(exec, reply, choice);
    if exec.pc.AtSyncGet? { GetLeads(exec, reply); } else if exec.pc.AtSyncStart? { StartLeads(exec, reply); } else { FinishLeads(exec, reply); }
    hide Steps;
    hide AdvanceExec;
    hide Passing;
  }

  lemma PassEnds(record: Record, exec: Exec, choice: Choice, record': Record, exec': Exec)
    requires Steps(record, exec, choice, record', exec') && InPass(exec.pc)
    ensures !exec'.pc.Exited?
  {
    PassLanding(record, exec, choice, record', exec');
    hide Steps;
  }

  /** The call that ends an external run. */
  lemma EndingCall(record: Record, exec: Exec, choice: Choice, record': Record, exec': Exec)
    requires Inv(record, exec) && Steps(record, exec, choice, record', exec') && !Ended(exec.pc)
    requires exec'.pc.Exited? && exec'.mode == External && !record.cancelled
    ensures exec.mode == External
    ensures match exec.pc
      case AtExternalSucceed => record'.status == Succeeded
      case AtExternalCancel => record'.status == Cancelled
      case AtFail(error) => FailedFor(record', error)
      case _ => false
  {
    if InPass(exec.pc) {
      PassEnds(record, exec, choice, record', exec');
    }
    hide SyncFrom;
    hide SyncAll;
    hide Kahn.Order;
    hide RuntimeFloat;
  }

  lemma EndIsKnown(log: seq<Moment>, pc: Pc, record: Record)
    requires Knows(log, pc)
    requires match pc
      case AtExternalSucceed => record.status == Succeeded
      case AtExternalCancel => record.status == Cancelled
      case AtFail(error) => FailedFor(record, error)
      case _ => false
    ensures EndsAs(log, record)
  {
    hide LastHeard;
    hide Acceptance;
    hide Says;
  }

  lemma CancelKeepsEnd(record: Record)
    requires Terminal(record.status)
    ensures CancelRecord(record) == record
  {
  }

  lemma EndIsTerminal(record: Record, pc: Pc)
    requires match pc
      case AtExternalSucceed => record.status == Succeeded
      case AtExternalCancel => record.status == Cancelled
      case AtFail(error) => FailedFor(record, error)
      case _ => false
    ensures Terminal(record.status)
    ensures pc.AtExternalSucceed? || pc.AtExternalCancel? || pc.AtFail?
  {
  }

  lemma EndingChoice(record: Record, exec: Exec, choice: Choice, record': Record, exec': Exec)
    requires Steps(record, exec, choice, record', exec') && (exec.pc.AtExternalSucceed? || exec.pc.AtExternalCancel? || exec.pc.AtFail?)
    ensures !Hears(choice)
  {
    hide StepExec;
  }

  lemma LastUncancelled(front: seq<Moment>, last: Moment)
    requires Uncancelled(front + [last])
    ensures !last.record.cancelled
  {
    assert (front + [last])[|front|] == last;
  }

  /** An external thread that has left, killed by no answer and its run cancelled by no
      request, leaves the run as the last answer says in its own words: succeeded,
      cancelled, or failed with its summary; failed at the deadline, or with the error the
      runtime was last met with, if no answer said an end. */
  lemma ExternalOutcome(log: seq<Moment>, record: Record, exec: Exec)
    requires History(log, record, exec) && exec.mode == External && exec.pc.Exited? && Uncancelled(log)
    ensures EndsAs(log, record)
  {
    hide *;
    hide EndsAs;
    HistoryIsSound(log, record, exec);
    var front, last, after := LastStep(log, record, exec);
    LastUncancelled(front, last);
    EndingCall(last.record, last.exec, last.choice, after, exec);
    HistoryKnows(front, last.record, last.exec);
    EndIsTerminal(after, last.exec.pc);
    CancelKeepsEnd(after);
    EndingChoice(last.record, last.exec, last.choice, after, exec);
    HeardNothing(front, last);
    SamePoint(front, log, last.exec.pc);
    EndIsKnown(log, last.exec.pc, record);
  }

  lemma PollPoint(record: Record, exec: Exec, choice: Choice)
    requires Inv(record, exec) && CanChoose(exec.pc, choice) && choice.Polled?
    ensures exec.mode == External && exec.pc.AtPoll? && choice.wokeAt >= choice.checkedAt + exec.pc.timer.interval
  {
  }

  lemma PollKnown(log: seq<Moment>, pc: Pc)
    requires pc.AtPoll? && Knows(log, pc)
    ensures LastAnswer(log).Some? && !SaysEnd(LastAnswer(log).value.status) && TimerOk(log, pc.timer)
  {
  }

  lemma TimerParts(log: seq<Moment>, timer: Timer)
    requires TimerOk(log, timer)
    ensures Acceptance(log).Some? && Acceptance(log).value.Accepted?
    ensures timer.interval == RuntimeFloat(Acceptance(log).value.pollSetting, 0.5)
  {
  }

  /** The thread polls again only after an answer that says no end, and sleeps for the
      set interval in between. */
  lemma PollsWhileRunning(log: seq<Moment>, record: Record, exec: Exec, i: nat)
    requires History(log, record, exec) && i < |log| && log[i].choice.Polled?
    ensures LastAnswer(log[..i]).Some? && !SaysEnd(LastAnswer(log[..i]).value.status)
    ensures Acceptance(log[..i]).Some? && Acceptance(log[..i]).value.Accepted?
    ensures log[i].choice.wokeAt >= log[i].choice.checkedAt + RuntimeFloat(Acceptance(log[..i]).value.pollSetting, 0.5)
  {
    hide *;
    hide TimerOk;
    HistoryUpTo(log, record, exec, i);
    PollPoint(log[i].record, log[i].exec, log[i].choice);
    HistoryKnows(log[..i], log[i].record, log[i].exec);
    PollKnown(log[..i], log[i].exec.pc);
    TimerParts(log[..i], log[i].exec.pc.timer);
  }

  // ---------- the run id of the runtime ----------

  ghost predicate RuntimeIdOk(log: seq<Moment>, record: Record) {
    record.runtimeRunId.Some? ==>
      var accepted := Acceptance(log);
      accepted.Some? && accepted.value.Accepted? && accepted.value.externalId == record.runtimeRunId.value
  }

  lemma {:induction false} NothingAccepted(log: seq<Moment>)
    requires LastHeard(log).None?
    ensures Acceptance(log).None?
  {
    if log != [] { NothingAccepted(log[..|log| - 1]); }
  }

  lemma WhoWritesRuntimeId(pc: Pc)
    requires NextOp(pc).Some? && NextOp(pc).value.SetRuntimeRunId?
    ensures pc.AtSetRuntime? && NextOp(pc).value.runtimeRunId == pc.externalId
  {
  }

  lemma CallWritesRuntimeId(record: Record, op: Op)
    ensures Apply(record, op).0.runtimeRunId == record.runtimeRunId
      || (op.SetRuntimeRunId? && Apply(record, op).0.runtimeRunId == Some(op.runtimeRunId))
  {
  }

  lemma RuntimeIdWritten(record: Record, exec: Exec, choice: Choice, record': Record, exec': Exec)
    requires Steps(record, exec, choice, record', exec')
    ensures record'.runtimeRunId == record.runtimeRunId || (exec.pc.AtSetRuntime? && record'.runtimeRunId == Some(exec.pc.externalId))
    ensures choice.Accepted? ==> exec.pc.AtRuntimeSubmit? && record' == record
  {
    StoreEffectOf(record, exec, choice, record', exec');
    assert CanChoose(exec.pc, choice);
    hide Steps;
    hide Apply;
    if NextOp(exec.pc).Some? {
      CallWritesRuntimeId(record, NextOp(exec.pc).value);
      if NextOp(exec.pc).value.SetRuntimeRunId? { WhoWritesRuntimeId(exec.pc); }
    }
    hide Target;
  }

  lemma RuntimeModes(record: Record, exec: Exec)
    requires Inv(record, exec)
    ensures exec.pc.AtSetRuntime? || exec.pc.AtRuntimeSubmit? ==> exec.mode == External
  {
  }

  lemma RuntimeIdStep(front: seq<Moment>, last: Moment, after: Record, exec: Exec)
    requires Inv(last.record, last.exec) && Steps(last.record, last.exec, last.choice, after, exec)
    requires RuntimeIdOk(front, last.record) && (last.exec.mode != Local ==> Knows(front, last.exec.pc))
    ensures RuntimeIdOk(front + [last], after)
  {
    RuntimeIdWritten(last.record, last.exec, last.choice, after, exec);
    RuntimeModes(last.record, last.exec);
    hide Steps;
    hide Inv;
    assert (front + [last])[..|front|] == front;
    if last.choice.Accepted? { NothingAccepted(front); }
    hide LastHeard;
  }

  lemma CancelKeepsRuntimeId(log: seq<Moment>, record: Record)
    requires RuntimeIdOk(log, record)
    ensures RuntimeIdOk(log, CancelRecord(record))
  {
  }

  lemma NoRuntimeId(log: seq<Moment>, record: Record)
    requires record.runtimeRunId.None?
    ensures RuntimeIdOk(log, record)
  {
  }

  /** The stored run id of the runtime is the one it accepted the run under. */
  lemma {:induction false} RuntimeIdIsAccepted(log: seq<Moment>, record: Record, exec: Exec)
    requires History(log, record, exec)
    ensures RuntimeIdOk(log, record)
    decreases |log|
  {
    hide *;
    HistoryIsSound(log, record, exec);
    if log == [] {
      NoRuntimeId(log, record);
    } else {
      var front, last, after := LastStep(log, record, exec);
      RuntimeIdIsAccepted(front, last.record, last.exec);
      if last.exec.mode != Local { HistoryKnows(front, last.record, last.exec); }
      RuntimeIdStep(front, last, after, exec);
      CancelKeepsRuntimeId(log, after);
    }
  }
}
