/** What an external run stores: for each step the output, the numbers or the error of the
    last entry an answer had on it, and after a pass what every entry of it says. */
module ExternalSteps {
  import opened Wrappers
  import opened Ledger
  import opened Runtime
  import opened Executor
  import opened ExecutorInvariant
  import opened ExecutorSafety
  import opened ExecutorProgress
  import opened ExecutorDeath
  import opened ThreadHistory
  import opened ExternalAttempts
  import opened ExternalOutcome
  import Graph
  import Kahn

  // ---------- the entry a pass is at ----------

  function EntryName(sync: Sync): Option<string> {
    if sync.k < |sync.run.steps| && sync.run.steps[sync.k].Some? then sync.run.steps[sync.k].value.nodeId else None
  }

  /** The entry names the step at that position, and says it runs or has ended. */
  ghost predicate AtEntry(sync: Sync, exec: Exec) {
    && SameSpecs(sync.local, exec.specs) && sync.k < |sync.run.steps| && Target(sync).Some?
    && Target(sync).value.1 in ["running", "succeeded", "failed"]
  }

  ghost predicate PassShape(exec: Exec) {
    match exec.pc
    case AtSyncStart(sync) => AtEntry(sync, exec)
    case AtSyncFinish(sync) =>
      && AtEntry(sync, exec) && Target(sync).value.1 != "running"
      && (Target(sync).value.1 == "succeeded" ==> sync.run.steps[sync.k].value.numbers.Some?)
    case _ => true
  }

  lemma {:induction false} PassKeepsShape(sync: Sync, exec: Exec)
    requires SameSpecs(sync.local, exec.specs) && exec.pc == SyncFrom(sync)
    ensures PassShape(exec)
    decreases |sync.run.steps| - sync.k
  {
    hide NormalizeStatus;
    if sync.k < |sync.run.steps| {
      if exec.pc == SyncFrom(sync.(k := sync.k + 1)) { PassKeepsShape(sync.(k := sync.k + 1), exec); }
    }
  }

  lemma GetShape(record: Record, exec: Exec, choice: Choice, record': Record, exec': Exec)
    requires Inv(record, exec) && Steps(record, exec, choice, record', exec') && exec.pc.AtSyncGet?
    ensures PassShape(exec')
  {
    SyncGetEffect(record, exec, choice, record', exec');
    StoreEffectOf(record, exec, choice, record', exec');
    if exec.pc.run.iterable { PassKeepsShape(Sync(record.steps, exec.pc.run, 0, exec.pc.timer), exec'); }
    hide SyncFrom;
    hide Steps;
  }

  lemma FinishFromShape(sync: Sync, exec: Exec)
    requires AtEntry(sync, exec) && Target(sync).value.1 != "running" && exec.pc == FinishFrom(sync)
    ensures PassShape(exec)
  {
    hide NormalizeStatus;
    hide SameSpecs;
  }

  lemma StartShape(record: Record, exec: Exec, choice: Choice, record': Record, exec': Exec)
    requires exec.pc.AtSyncStart? && SyncOk(exec.pc.sync, record) && Steps(record, exec, choice, record', exec') && PassShape(exec)
    ensures PassShape(exec')
  {
    SyncStartBranch(record, exec, choice, record', exec');
    StoreEffectOf(record, exec, choice, record', exec');
    var sync := exec.pc.sync;
    var next := sync.(k := sync.k + 1);
    assert AtEntry(sync, exec') && SameSpecs(next.local, exec'.specs);
    hide *;
    if exec'.pc == SyncFrom(next) { PassKeepsShape(next, exec'); } else { FinishFromShape(sync, exec'); }
  }

  lemma FinishShape(record: Record, exec: Exec, choice: Choice, record': Record, exec': Exec)
    requires exec.pc.AtSyncFinish? && SyncOk(exec.pc.sync, record) && Steps(record, exec, choice, record', exec') && PassShape(exec)
    ensures PassShape(exec')
  {
    SyncFinishEffect(record, exec, choice, record', exec');
    StoreEffectOf(record, exec, choice, record', exec');
    hide Steps;
    hide SyncFrom;
    hide Target;
    PassKeepsShape(exec.pc.sync.(k := exec.pc.sync.k + 1), exec');
  }

  lemma PlainShape(record: Record, exec: Exec, choice: Choice, record': Record, exec': Exec)
    requires Steps(record, exec, choice, record', exec') && !InPass(exec.pc)
    ensures PassShape(exec')
  {
    PlainPoint(exec, StoreEffect(record, exec.pc).1, choice);
    hide StoreEffect;
    hide Advance;
  }

  lemma StepShape(record: Record, exec: Exec, choice: Choice, record': Record, exec': Exec)
    requires Inv(record, exec) && Steps(record, exec, choice, record', exec') && PassShape(exec)
    ensures PassShape(exec')
  {
    if !InPass(exec.pc) {
      PlainShape(record, exec, choice, record', exec');
    } else if exec.pc.AtSyncGet? {
      GetShape(record, exec, choice, record', exec');
    } else {
      SyncPointOk(record, exec);
      if exec.pc.AtSyncStart? { StartShape(record, exec, choice, record', exec'); } else { FinishShape(record, exec, choice, record', exec'); }
    }
    hide *;
  }

  lemma {:induction false} HistoryShape(log: seq<Moment>, record: Record, exec: Exec)
    requires History(log, record, exec)
    ensures PassShape(exec)
    decreases |log|
  {
    HistoryIsSound(log, record, exec);
    if log != [] {
      hide *;
      var front, last, after := LastStep(log, record, exec);
      HistoryShape(front, last.record, last.exec);
      StepShape(last.record, last.exec, last.choice, after, exec);
    }
  }

  // ---------- what an entry says ----------

  /** The step is as the entry reports it. */
  predicate AsReported(step: Step, entry: ExternalStep) {
    && (SaysSucceeded(entry.status) ==>
          && step.status.Succeeded? && entry.numbers == Some(step.usage)
          && step.output == if entry.output == "" then "mock execution completed step " + step.spec.nodeId else entry.output)
    && (SaysFailed(entry.status) ==> step.status.Failed? && step.error == entry.error)
    && (SaysRunning(entry.status) ==> !step.status.Queued?)
  }

  /** Unique names make the name of a step its position. */
  lemma NamesAreUnique(exec: Exec, steps: seq<Step>, p: nat, q: nat)
    requires WellPlanned(exec) && SameSpecs(steps, exec.specs) && p < |steps| && q < |steps|
    ensures steps[p].spec.nodeId == steps[q].spec.nodeId ==> p == q
  {
    Kahn.OrderIffValid(SpecNodes(exec.specs));
    assert SpecNodes(exec.specs)[p].name == steps[p].spec.nodeId && SpecNodes(exec.specs)[q].name == steps[q].spec.nodeId;
    hide Kahn.Order;
  }

  lemma EntryStep(record: Record, exec: Exec, sync: Sync)
    requires Inv(record, exec) && AtEntry(sync, exec)
    ensures Target(sync).value.0 < |record.steps| && EntryName(sync) == Some(record.steps[Target(sync).value.0].spec.nodeId)
    ensures Target(sync).value.1 == NormalizeStatus(sync.run.steps[sync.k].value.status)
  {
    hide SumAttempts;
    hide NormalizeStatus;
  }

  /** The call that reports an entry. */
  lemma FinishOp(exec: Exec)
    requires exec.pc.AtSyncFinish? && PassShape(exec)
    ensures var sync := exec.pc.sync;
      var entry, position := sync.run.steps[sync.k].value, Target(sync).value.0;
      NextOp(exec.pc) == Some(if Target(sync).value.1 == "succeeded" then SucceedStep(position, entry.output, entry.numbers.value)
                              else FailStep(position, entry.error))
  {
    hide NormalizeStatus;
    hide SameSpecs;
  }

  /** The step after a report, and that nothing else changed. */
  ghost predicate Reports(record: Record, record': Record, p: nat, entry: ExternalStep) {
    && p < |record.steps| == |record'.steps| && record' == SetStep(record, p, record'.steps[p])
    && AsReported(record'.steps[p], entry) && record'.steps[p].spec == record.steps[p].spec
    && (SaysSucceeded(entry.status) || SaysFailed(entry.status))
    && (record'.steps[p].status.Succeeded? || record'.steps[p].status.Failed?)
    && (record'.steps[p].status.Succeeded? <==> SaysSucceeded(entry.status))
  }

  lemma CallReports(record: Record, p: nat, entry: ExternalStep, op: Op)
    requires !record.cancelled && p < |record.steps| && NormalizeStatus(entry.status) in ["succeeded", "failed"]
    requires if NormalizeStatus(entry.status) == "succeeded"
             then entry.numbers.Some? && op == SucceedStep(p, entry.output, entry.numbers.value) else op == FailStep(p, entry.error)
    ensures Reports(record, Apply(record, op).0, p, entry)
  {
    WordsNormalized(entry.status);
    hide NormalizeStatus;
    hide Says;
  }

  lemma EntryStatus(exec: Exec)
    requires exec.pc.AtSyncFinish? && PassShape(exec)
    ensures Target(exec.pc.sync).value.1 in ["succeeded", "failed"]
    ensures Target(exec.pc.sync).value.1 == "succeeded" ==> exec.pc.sync.run.steps[exec.pc.sync.k].value.numbers.Some?
  {
  }

  /** What `AtSyncFinish` writes is what its entry reports. */
  lemma FinishWrites(record: Record, exec: Exec, choice: Choice, record': Record, exec': Exec)
    requires Inv(record, exec) && exec.pc.AtSyncFinish? && PassShape(exec) && SyncOk(exec.pc.sync, record)
    requires Steps(record, exec, choice, record', exec') && !record.cancelled
    ensures Reports(record, record', Target(exec.pc.sync).value.0, exec.pc.sync.run.steps[exec.pc.sync.k].value)
  {
    var sync := exec.pc.sync;
    EntryStep(record, exec, sync);
    StoreEffectOf(record, exec, choice, record', exec');
    FinishOp(exec);
    hide *;
    hide PassShape;
    EntryStatus(exec);
    CallReports(record, Target(sync).value.0, sync.run.steps[sync.k].value, NextOp(exec.pc).value);
  }

  // ---------- what a step holds ----------

  /** The step reports the result an entry has for the named step. */
  predicate ReportsOn(moment: Moment, name: string) {
    moment.exec.pc.AtSyncFinish? && !moment.record.cancelled && EntryName(moment.exec.pc.sync) == Some(name)
  }

  /** The last entry that reported a result for the named step. */
  function LastReport(log: seq<Moment>, name: string): Option<ExternalStep> {
    if log == [] then None
    else if ReportsOn(log[|log| - 1], name) then log[|log| - 1].exec.pc.sync.run.steps[log[|log| - 1].exec.pc.sync.k]
    else LastReport(log[..|log| - 1], name)
  }

  /** A succeeded or failed step holds what the last entry on it reported. */
  ghost predicate StoresReport(log: seq<Moment>, step: Step) {
    step.status.Succeeded? || step.status.Failed? ==>
      && LastReport(log, step.spec.nodeId).Some? && AsReported(step, LastReport(log, step.spec.nodeId).value)
      && (step.status.Succeeded? <==> SaysSucceeded(LastReport(log, step.spec.nodeId).value.status))
      && (step.status.Failed? ==> SaysFailed(LastReport(log, step.spec.nodeId).value.status))
  }

  ghost predicate AllStoreReports(log: seq<Moment>, record: Record) {
    forall p :: 0 <= p < |record.steps| ==> StoresReport(log, record.steps[p])
  }

  lemma NoReportOn(front: seq<Moment>, last: Moment, name: string)
    requires !ReportsOn(last, name)
    ensures LastReport(front + [last], name) == LastReport(front, name)
  {
    assert (front + [last])[..|front|] == front;
  }

  lemma QuietReports(front: seq<Moment>, last: Moment, record: Record)
    requires AllStoreReports(front, record) && (!last.exec.pc.AtSyncFinish? || last.record.cancelled)
    ensures AllStoreReports(front + [last], record)
  {
    forall p | 0 <= p < |record.steps| ensures StoresReport(front + [last], record.steps[p]) {
      NoReportOn(front, last, record.steps[p].spec.nodeId);
      assert StoresReport(front, record.steps[p]);
    }
    hide LastReport;
    hide AsReported;
    hide Says;
  }

  /** A report written to the one step it names. */
  lemma WriteReports(front: seq<Moment>, last: Moment, record: Record, after: Record, p: nat)
    requires AllStoreReports(front, record) && p < |record.steps| == |after.steps| && after == SetStep(record, p, after.steps[p])
    requires forall q :: 0 <= q < |record.steps| && q != p ==> !ReportsOn(last, record.steps[q].spec.nodeId)
    requires StoresReport(front + [last], after.steps[p])
    ensures AllStoreReports(front + [last], after)
  {
    forall q | 0 <= q < |after.steps| ensures StoresReport(front + [last], after.steps[q]) {
      if q != p {
        NoReportOn(front, last, record.steps[q].spec.nodeId);
        assert StoresReport(front, record.steps[q]) && after.steps[q] == record.steps[q];
      }
    }
    hide ReportsOn;
    hide LastReport;
    hide AsReported;
    hide Says;
  }

  lemma InvParts(record: Record, exec: Exec)
    requires Inv(record, exec)
    ensures SameSpecs(record.steps, exec.specs)
  {
  }

  lemma ReportsOnOne(record: Record, exec: Exec, p: nat)
    requires Inv(record, exec) && WellPlanned(exec) && exec.pc.AtSyncFinish? && p < |record.steps|
    requires EntryName(exec.pc.sync) == Some(record.steps[p].spec.nodeId)
    ensures forall q :: 0 <= q < |record.steps| && q != p ==> EntryName(exec.pc.sync) != Some(record.steps[q].spec.nodeId)
  {
    InvParts(record, exec);
    forall q | 0 <= q < |record.steps| && q != p ensures record.steps[p].spec.nodeId != record.steps[q].spec.nodeId {
      NamesAreUnique(exec, record.steps, p, q);
    }
    hide Inv;
    hide WellPlanned;
  }

  lemma ReportNow(front: seq<Moment>, last: Moment, step: Step)
    requires last.exec.pc.AtSyncFinish? && !last.record.cancelled && EntryName(last.exec.pc.sync) == Some(step.spec.nodeId)
    requires var entry := last.exec.pc.sync.run.steps[last.exec.pc.sync.k].value;
      && AsReported(step, entry) && (SaysSucceeded(entry.status) || SaysFailed(entry.status))
      && (step.status.Succeeded? || step.status.Failed?) && (step.status.Succeeded? <==> SaysSucceeded(entry.status))
    ensures StoresReport(front + [last], step)
  {
    hide AsReported;
    hide Says;
  }

  lemma NotReported(last: Moment, record: Record, p: nat)
    requires last.exec.pc.AtSyncFinish?
    requires forall q :: 0 <= q < |record.steps| && q != p ==> EntryName(last.exec.pc.sync) != Some(record.steps[q].spec.nodeId)
    ensures forall q :: 0 <= q < |record.steps| && q != p ==> !ReportsOn(last, record.steps[q].spec.nodeId)
  {
  }

  lemma FinishReports(front: seq<Moment>, last: Moment, after: Record, exec: Exec)
    requires Inv(last.record, last.exec) && WellPlanned(last.exec) && last.exec.pc.AtSyncFinish? && PassShape(last.exec)
    requires SyncOk(last.exec.pc.sync, last.record) && Steps(last.record, last.exec, last.choice, after, exec)
    requires AllStoreReports(front, last.record) && !last.record.cancelled
    ensures AllStoreReports(front + [last], after)
  {
    var sync := last.exec.pc.sync;
    var p := Target(sync).value.0;
    assert AtEntry(sync, last.exec);
    FinishWrites(last.record, last.exec, last.choice, after, exec);
    assert Reports(last.record, after, p, sync.run.steps[sync.k].value);
    EntryStep(last.record, last.exec, sync);
    hide *;
    ReportsOnOne(last.record, last.exec, p);
    ReportNow(front, last, after.steps[p]);
    NotReported(last, last.record, p);
    WriteReports(front, last, last.record, after, p);
  }

  lemma SweepReports(log: seq<Moment>, record: Record, swept: Record, running: bool)
    requires AllStoreReports(log, record) && swept.steps == Sweep(record.steps, running)
    ensures AllStoreReports(log, swept)
  {
    forall p | 0 <= p < |swept.steps| ensures StoresReport(log, swept.steps[p]) {
      assert StoresReport(log, record.steps[p]);
    }
    hide LastReport;
    hide AsReported;
    hide Says;
  }

  lemma StartReports(log: seq<Moment>, record: Record, exec: Exec, choice: Choice, record': Record, exec': Exec)
    requires exec.pc.AtSyncStart? && SyncOk(exec.pc.sync, record) && Steps(record, exec, choice, record', exec')
    requires AllStoreReports(log, record)
    ensures AllStoreReports(log, record')
  {
    StartRecord(record, exec, choice, record', exec');
    hide Steps;
    hide Target;
    hide LastReport;
    hide AsReported;
    hide Says;
    forall p | 0 <= p < |record'.steps| ensures StoresReport(log, record'.steps[p]) {
      assert StoresReport(log, record.steps[p]);
    }
  }

  /** Outside a pass steps are only swept. */
  lemma PlainSteps(record: Record, exec: Exec, choice: Choice, record': Record, exec': Exec)
    requires Inv(record, exec) && Steps(record, exec, choice, record', exec') && exec.mode != Local
    requires !exec.pc.AtSyncStart? && !exec.pc.AtSyncFinish?
    ensures record'.steps == record.steps || record'.steps == Sweep(record.steps, false) || record'.steps == Sweep(record.steps, true)
  {
    StoreEffectOf(record, exec, choice, record', exec');
    if !InPass(exec.pc) && NextOp(exec.pc).Some? { PlainCalls(record, exec); }
    hide Steps;
    hide Inv;
    hide Target;
    hide Sweep;
  }

  lemma SameReports(log: seq<Moment>, record: Record, record': Record)
    requires AllStoreReports(log, record)
    requires record'.steps == record.steps || record'.steps == Sweep(record.steps, false) || record'.steps == Sweep(record.steps, true)
    ensures AllStoreReports(log, record')
  {
    if record'.steps != record.steps { SweepReports(log, record, record', record'.steps == Sweep(record.steps, true)); }
    hide StoresReport;
    hide Sweep;
  }

  lemma StepReports(front: seq<Moment>, last: Moment, after: Record, exec: Exec)
    requires Inv(last.record, last.exec) && WellPlanned(last.exec) && PassShape(last.exec) && last.exec.mode != Local
    requires Steps(last.record, last.exec, last.choice, after, exec) && AllStoreReports(front, last.record)
    ensures AllStoreReports(front + [last], after)
  {
    if last.exec.pc.AtSyncFinish? && !last.record.cancelled {
      SyncPointOk(last.record, last.exec);
      FinishReports(front, last, after, exec);
    } else {
      QuietReports(front, last, last.record);
      if last.exec.pc.AtSyncStart? {
        SyncPointOk(last.record, last.exec);
        StartReports(front + [last], last.record, last.exec, last.choice, after, exec);
      } else if last.exec.pc.AtSyncFinish? {
        SyncPointOk(last.record, last.exec);
        FinishRecord(last.record, last.exec, last.choice, after, exec);
      } else {
        PlainSteps(last.record, last.exec, last.choice, after, exec);
        SameReports(front + [last], last.record, after);
      }
    }
    hide *;
  }

  lemma CancelReports(log: seq<Moment>, record: Record)
    requires AllStoreReports(log, record)
    ensures AllStoreReports(log, CancelRecord(record))
  {
    SameReports(log, record, CancelRecord(record));
    hide AllStoreReports;
  }

  lemma NothingReported(log: seq<Moment>, record: Record, exec: Exec)
    requires Inv(record, exec) && exec.pc == AtStart && exec.mode != Local
    ensures AllStoreReports(log, record)
  {
    hide SumAttempts;
    hide LastReport;
    hide AsReported;
  }

  /** In external mode every succeeded or failed step stores the output and numbers, or the
      error, of the last entry that reported a result for its name. */
  lemma {:induction false} StoredIsReported(log: seq<Moment>, record: Record, exec: Exec)
    requires History(log, record, exec) && exec.mode != Local
    ensures AllStoreReports(log, record)
    decreases |log|
  {
    hide *;
    HistoryIsSound(log, record, exec);
    if log == [] {
      NothingReported(log, record, exec);
    } else {
      var front, last, after := LastStep(log, record, exec);
      StaysDecided(last.record, last.exec, last.choice, after, exec);
      StoredIsReported(front, last.record, last.exec);
      HistoryShape(front, last.record, last.exec);
      StepReports(front, last, after, exec);
      CancelReports(log, after);
    }
  }

  lemma PassReading(log: seq<Moment>, pc: Pc)
    requires Knows(log, pc) && pc.AtSyncFinish?
    ensures LastAnswer(log) == Some(pc.sync.run)
  {
  }

  /** The entries a pass reports are those of the answer last heard. */
  lemma ReportIsHeard(log: seq<Moment>, record: Record, exec: Exec, i: nat)
    requires History(log, record, exec) && i < |log| && log[i].exec.pc.AtSyncFinish?
    ensures LastAnswer(log[..i]) == Some(log[i].exec.pc.sync.run)
  {
    hide *;
    HistoryUpTo(log, record, exec, i);
    SyncPointOk(log[i].record, log[i].exec);
    HistoryKnows(log[..i], log[i].record, log[i].exec);
    PassReading(log[..i], log[i].exec.pc);
  }

  // ---------- a whole pass ----------

  /** Entry `i` of the answer, if it names a step, has had its effect. */
  ghost predicate Applied(record: Record, run: ExternalRun, i: nat) {
    i < |run.steps| && run.steps[i].Some? && run.steps[i].value.nodeId.Some? ==>
      forall p :: 0 <= p < |record.steps| && record.steps[p].spec.nodeId == run.steps[i].value.nodeId.value ==>
        AsReported(record.steps[p], run.steps[i].value)
  }

  ghost predicate AppliedUpTo(record: Record, run: ExternalRun, k: nat) {
    forall i :: 0 <= i < k ==> Applied(record, run, i)
  }

  /** What an entry that is passed over says of a step. */
  lemma SilentWords(step: Step, entry: ExternalStep)
    requires NormalizeStatus(entry.status) !in ["running", "succeeded", "failed"]
      || (NormalizeStatus(entry.status) == "running" && !step.status.Queued?)
    ensures AsReported(step, entry)
  {
    WordsNormalized(entry.status);
    hide NormalizeStatus;
    hide Says;
  }

  lemma SilentTarget(sync: Sync, p: nat)
    requires sync.k < |sync.run.steps| && Silent(sync) && p < |sync.local|
    requires EntryName(sync) == Some(sync.local[p].spec.nodeId)
    ensures Target(sync).Some? && sync.local[Target(sync).value.0].spec.nodeId == sync.local[p].spec.nodeId
    ensures var status := NormalizeStatus(sync.run.steps[sync.k].value.status);
      status !in ["running", "succeeded", "failed"] || (status == "running" && !sync.local[Target(sync).value.0].status.Queued?)
  {
    hide NormalizeStatus;
  }

  /** An entry that is passed over has no effect to have. */
  lemma SilentIsApplied(record: Record, exec: Exec, sync: Sync)
    requires Inv(record, exec) && WellPlanned(exec) && SameSpecs(sync.local, exec.specs)
    requires sync.k < |sync.run.steps| && Silent(sync) && Counted(record)
    requires forall p :: 0 <= p < |record.steps| && p < |sync.local| && !sync.local[p].status.Queued? ==> record.steps[p].attempts >= 1
    ensures Applied(record, sync.run, sync.k)
  {
    InvParts(record, exec);
    if EntryName(sync).Some? {
      var entry := sync.run.steps[sync.k].value;
      forall p | 0 <= p < |record.steps| && record.steps[p].spec.nodeId == EntryName(sync).value ensures AsReported(record.steps[p], entry) {
        SilentTarget(sync, p);
        NamesAreUnique(exec, sync.local, p, Target(sync).value.0);
        SilentWords(record.steps[p], entry);
      }
    }
    hide Inv;
    hide WellPlanned;
    hide NormalizeStatus;
    hide Says;
    hide Silent;
    hide Target;
  }

  /** Where the pass stops next, or its end. */
  function StopsAt(sync: Sync): nat {
    match SyncFrom(sync)
    case AtSyncStart(stop) => stop.k
    case AtSyncFinish(stop) => stop.k
    case _ => |sync.run.steps|
  }

  lemma LoudStops(sync: Sync)
    requires sync.k < |sync.run.steps| && !Silent(sync) && !SyncFrom(sync).Died?
    ensures StopsAt(sync) == sync.k
  {
    hide NormalizeStatus;
  }

  lemma SilentStopsLater(sync: Sync)
    requires sync.k < |sync.run.steps| && Silent(sync)
    ensures StopsAt(sync) == StopsAt(sync.(k := sync.k + 1))
  {
    SilentPassesOn(sync);
    hide SyncFrom;
    hide Silent;
  }

  lemma StopsByTheEnd(sync: Sync)
    requires sync.k >= |sync.run.steps|
    ensures StopsAt(sync) <= sync.k
  {
    hide NormalizeStatus;
  }

  /** Entry `i` of the same pass is passed over. */
  predicate SilentAt(sync: Sync, i: nat) {
    i < |sync.run.steps| && Silent(sync.(k := i))
  }

  lemma SilentAtSelf(sync: Sync)
    requires sync.k < |sync.run.steps| && Silent(sync)
    ensures SilentAt(sync, sync.k)
  {
    assert sync.(k := sync.k) == sync;
    hide Silent;
  }

  lemma SilentAtLater(sync: Sync, k: nat, i: nat)
    ensures SilentAt(sync.(k := k), i) <==> SilentAt(sync, i)
  {
    assert sync.(k := k).(k := i) == sync.(k := i);
    hide Silent;
  }

  lemma {:induction false} PassSkips(sync: Sync, i: nat)
    requires !SyncFrom(sync).Died? && sync.k <= i < StopsAt(sync)
    ensures SilentAt(sync, i)
    decreases |sync.run.steps| - sync.k
  {
    hide *;
    if sync.k >= |sync.run.steps| {
      StopsByTheEnd(sync);
    } else if Silent(sync) {
      SilentPassesOn(sync);
      SilentStopsLater(sync);
      if i == sync.k {
        SilentAtSelf(sync);
      } else {
        PassSkips(sync.(k := sync.k + 1), i);
        SilentAtLater(sync, sync.k + 1, i);
      }
    } else {
      LoudStops(sync);
    }
  }

  lemma SkippedAreApplied(record: Record, exec: Exec, sync: Sync)
    requires Inv(record, exec) && WellPlanned(exec) && SameSpecs(sync.local, exec.specs) && Counted(record)
    requires forall p :: 0 <= p < |record.steps| && p < |sync.local| && !sync.local[p].status.Queued? ==> record.steps[p].attempts >= 1
    requires !SyncFrom(sync).Died? && AppliedUpTo(record, sync.run, sync.k)
    ensures AppliedUpTo(record, sync.run, StopsAt(sync))
  {
    forall i | 0 <= i < StopsAt(sync) ensures Applied(record, sync.run, i) {
      if i >= sync.k {
        PassSkips(sync, i);
        SilentIsApplied(record, exec, sync.(k := i));
      }
    }
    hide Applied;
    hide Silent;
    hide Inv;
    hide WellPlanned;
    hide Counted;
    hide StopsAt;
  }

  /** Writing the step one entry names leaves the effect of the others, if none is named twice. */
  lemma WriteKeepsApplied(record: Record, record': Record, run: ExternalRun, k: nat, p: nat)
    requires AppliedUpTo(record, run, k) && k < |run.steps| && !NamesTwice(run) && p < |record.steps| == |record'.steps|
    requires record' == SetStep(record, p, record'.steps[p]) && record'.steps[p].spec == record.steps[p].spec
    requires run.steps[k].Some? && run.steps[k].value.nodeId == Some(record.steps[p].spec.nodeId)
    ensures AppliedUpTo(record', run, k)
  {
    forall i | 0 <= i < k ensures Applied(record', run, i) {
      assert Applied(record, run, i) && !SameName(run, i, k);
    }
    hide AsReported;
  }

  lemma NowApplied(record: Record, exec: Exec, run: ExternalRun, k: nat, p: nat)
    requires Inv(record, exec) && WellPlanned(exec) && p < |record.steps| && k < |run.steps|
    requires run.steps[k].Some? && run.steps[k].value.nodeId == Some(record.steps[p].spec.nodeId)
    requires AsReported(record.steps[p], run.steps[k].value) && AppliedUpTo(record, run, k)
    ensures AppliedUpTo(record, run, k + 1)
  {
    InvParts(record, exec);
    forall q | 0 <= q < |record.steps| && record.steps[q].spec.nodeId == record.steps[p].spec.nodeId ensures AsReported(record.steps[q], run.steps[k].value) {
      NamesAreUnique(exec, record.steps, p, q);
    }
    hide Inv;
    hide WellPlanned;
    hide AsReported;
  }

  /** Between two store calls of a pass, or after its last, all entries so far have had
      their effect. */
  ghost predicate PassedUpTo(record: Record, run: ExternalRun, pc: Pc) {
    match pc
    case AtSyncStart(sync) => AppliedUpTo(record, run, sync.k)
    case AtSyncFinish(sync) => AppliedUpTo(record, run, sync.k)
    case Died => true
    case _ => AppliedUpTo(record, run, |run.steps|)
  }

  ghost predicate Attempted(record: Record, sync: Sync) {
    forall p :: 0 <= p < |record.steps| && p < |sync.local| && !sync.local[p].status.Queued? ==> record.steps[p].attempts >= 1
  }

  lemma AttemptedParts(record: Record, sync: Sync)
    requires Attempted(record, sync)
    ensures forall p :: 0 <= p < |record.steps| && p < |sync.local| && !sync.local[p].status.Queued? ==> record.steps[p].attempts >= 1
  {
  }

  lemma StopsAtPoint(record: Record, sync: Sync)
    ensures var pc := SyncFrom(sync);
      !pc.Died? && AppliedUpTo(record, sync.run, StopsAt(sync)) ==> PassedUpTo(record, sync.run, pc)
    ensures SyncFrom(sync).Died? ==> PassedUpTo(record, sync.run, SyncFrom(sync))
  {
    hide SyncFrom;
    hide AppliedUpTo;
  }

  lemma RestPassed(record: Record, exec: Exec, sync: Sync)
    requires Inv(record, exec) && WellPlanned(exec) && SameSpecs(sync.local, exec.specs) && Counted(record) && Attempted(record, sync)
    requires AppliedUpTo(record, sync.run, sync.k) && exec.pc == SyncFrom(sync)
    ensures PassedUpTo(record, sync.run, exec.pc)
  {
    if !exec.pc.Died? {
      AttemptedParts(record, sync);
      hide *;
      SkippedAreApplied(record, exec, sync);
    }
    StopsAtPoint(record, sync);
    hide *;
  }

  lemma SnapshotAttempted(record: Record, exec: Exec, sync: Sync)
    requires Inv(record, exec) && exec.pc.AtSyncGet? && !record.cancelled && AttemptsOk(record, exec) && sync.local == record.steps
    ensures exec.mode == External && Counted(record) && Attempted(record, sync) && SameSpecs(sync.local, exec.specs)
    ensures AppliedUpTo(record, sync.run, 0)
  {
    NotDropped(record, exec);
    hide SumAttempts;
  }

  lemma DeadPassed(record: Record, run: ExternalRun)
    ensures PassedUpTo(record, run, Died)
  {
  }

  lemma SameThreadSpecs(record: Record, exec: Exec, choice: Choice, record': Record, exec': Exec)
    requires Steps(record, exec, choice, record', exec')
    ensures exec'.specs == exec.specs && (exec.mode == External && exec.pc != AtGet ==> exec'.mode == External)
  {
    StoreEffectOf(record, exec, choice, record', exec');
    hide Steps;
  }

  lemma GetPassed(record: Record, exec: Exec, choice: Choice, record': Record, exec': Exec)
    requires Inv(record, exec) && Inv(record', exec') && WellPlanned(exec') && AttemptsOk(record, exec) && !record.cancelled
    requires Steps(record, exec, choice, record', exec') && exec.pc.AtSyncGet? && exec.mode == External
    ensures PassedUpTo(record', exec.pc.run, exec'.pc)
  {
    var run, timer := exec.pc.run, exec.pc.timer;
    var sync := Sync(record.steps, run, 0, timer);
    assert SyncAll(record.steps, run, timer) == if run.iterable then SyncFrom(sync) else Died;
    hide *;
    SyncGetEffect(record, exec, choice, record', exec');
    GetOnce(record, exec, choice, record', exec');
    SnapshotAttempted(record, exec, sync);
    SameThreadSpecs(record, exec, choice, record', exec');
    if run.iterable { RestPassed(record', exec', sync); } else { DeadPassed(record', run); }
  }

  lemma StartIsAccepted(record: Record, exec: Exec)
    requires Inv(record, exec) && AttemptsOk(record, exec) && exec.pc.AtSyncStart? && exec.mode == External && !record.cancelled
    requires !NamesTwice(exec.pc.sync.run) && SyncOk(exec.pc.sync, record)
    ensures Startable(record, exec.pc.sync)
  {
    var sync := exec.pc.sync;
    var p := Target(sync).value.0;
    EntryIsAbout(record, sync);
    assert SeenOk(record, sync, sync.k) && sync.local[p].status.Queued?;
    if !record.steps[p].status.Queued? { ReportedIsNamedTwice(sync, p); }
    hide Inv;
    hide Target;
    hide About;
  }

  lemma SeenAttempted(record: Record, sync: Sync, k: nat, next: Sync)
    requires SeenOk(record, sync, k) && |sync.local| == |record.steps| && next.local == sync.local
    ensures Attempted(record, next)
  {
    hide Reported;
  }

  /** A thread in a pass over an answer whose run is not cancelled. */
  ghost predicate InPassOk(record: Record, exec: Exec) {
    && Inv(record, exec) && WellPlanned(exec) && AttemptsOk(record, exec) && PassShape(exec)
    && exec.mode == External && !record.cancelled
  }

  /** `start_step` took the step the entry names. */
  ghost predicate Started(record: Record, record': Record, sync: Sync)
    requires sync.k < |sync.run.steps| && Target(sync).Some?
  {
    var p := Target(sync).value.0;
    && p < |record.steps| == |record'.steps| && record' == SetStep(record, p, record'.steps[p])
    && record'.steps[p].status.Running? && record'.steps[p].spec == record.steps[p].spec
    && record'.steps[p].attempts >= record.steps[p].attempts && EntryName(sync) == Some(record.steps[p].spec.nodeId)
    && Target(sync).value.1 == NormalizeStatus(sync.run.steps[sync.k].value.status)
  }

  lemma StartWritten(record: Record, exec: Exec, choice: Choice, record': Record, exec': Exec)
    requires InPassOk(record, exec) && exec.pc.AtSyncStart? && Steps(record, exec, choice, record', exec')
    requires !NamesTwice(exec.pc.sync.run) && AppliedUpTo(record, exec.pc.sync.run, exec.pc.sync.k)
    ensures var sync := exec.pc.sync;
      && SyncOk(sync, record) && AtEntry(sync, exec) && Started(record, record', sync) && SeenOk(record, sync, sync.k)
      && exec'.pc == if Target(sync).value.1 != "running" then FinishFrom(sync) else SyncFrom(sync.(k := sync.k + 1))
  {
    var sync := exec.pc.sync;
    SyncPointOk(record, exec);
    StartIsAccepted(record, exec);
    StartRecord(record, exec, choice, record', exec');
    SyncStartBranch(record, exec, choice, record', exec');
    EntryStep(record, exec, sync);
    hide Inv;
    hide Steps;
    hide WellPlanned;
    hide Target;
    hide SyncFrom;
    hide FinishFrom;
    hide SeenOk;
    hide NormalizeStatus;
    hide SameSpecs;
  }

  lemma AtEntrySpecs(sync: Sync, exec: Exec)
    requires AtEntry(sync, exec)
    ensures SameSpecs(sync.local, exec.specs) && sync.k < |sync.run.steps| && Target(sync).Some?
  {
  }

  lemma StartedParts(record: Record, record': Record, sync: Sync)
    requires sync.k < |sync.run.steps| && Target(sync).Some? && Started(record, record', sync)
    ensures var p := Target(sync).value.0;
      && p < |record.steps| == |record'.steps| && record' == SetStep(record, p, record'.steps[p])
      && record'.steps[p].status.Running? && record'.steps[p].spec == record.steps[p].spec
      && record'.steps[p].attempts >= record.steps[p].attempts && EntryName(sync) == Some(record.steps[p].spec.nodeId)
      && sync.run.steps[sync.k].Some? && Target(sync).value.1 == NormalizeStatus(sync.run.steps[sync.k].value.status)
  {
  }

  lemma EntryNamed(sync: Sync)
    ensures EntryName(sync).Some? ==>
      sync.k < |sync.run.steps| && sync.run.steps[sync.k].Some? && sync.run.steps[sync.k].value.nodeId == EntryName(sync)
  {
  }

  lemma RunningReported(step: Step, entry: ExternalStep)
    requires step.status.Running? && NormalizeStatus(entry.status) == "running"
    ensures AsReported(step, entry)
  {
    SilentWords(step, entry);
    hide NormalizeStatus;
    hide AsReported;
  }

  lemma SyncLengths(record: Record, sync: Sync)
    requires SyncOk(sync, record)
    ensures |sync.local| == |record.steps|
  {
  }

  lemma FinishFromPassed(record: Record, sync: Sync, pc: Pc)
    requires AppliedUpTo(record, sync.run, sync.k) && sync.k < |sync.run.steps| && Target(sync).Some? && pc == FinishFrom(sync)
    ensures PassedUpTo(record, sync.run, pc)
  {
    hide Target;
    hide AppliedUpTo;
  }

  lemma StartPassed(record: Record, exec: Exec, choice: Choice, record': Record, exec': Exec)
    requires InPassOk(record, exec) && exec.pc.AtSyncStart? && Steps(record, exec, choice, record', exec')
    requires Inv(record', exec') && WellPlanned(exec') && exec'.specs == exec.specs && Counted(record')
    requires !NamesTwice(exec.pc.sync.run) && AppliedUpTo(record, exec.pc.sync.run, exec.pc.sync.k)
    ensures PassedUpTo(record', exec.pc.sync.run, exec'.pc)
  {
    hide *;
    hide Started;
    StartWritten(record, exec, choice, record', exec');
    var sync := exec.pc.sync;
    AtEntrySpecs(sync, exec);
    var p, run, next := Target(sync).value.0, sync.run, sync.(k := sync.k + 1);
    StartedParts(record, record', sync);
    EntryNamed(sync);
    WriteKeepsApplied(record, record', run, sync.k, p);
    if Target(sync).value.1 == "running" {
      RunningReported(record'.steps[p], run.steps[sync.k].value);
      NowApplied(record', exec', run, sync.k, p);
      SeenLater(record, sync, sync.k, sync, sync.k + 1);
      WriteKeepsSeen(record, sync, record', sync.k + 1);
      SyncLengths(record, sync);
      SeenAttempted(record', sync, sync.k + 1, next);
      RestPassed(record', exec', next);
    } else {
      FinishFromPassed(record', sync, exec'.pc);
    }
  }

  lemma FinishWritten(record: Record, exec: Exec, choice: Choice, record': Record, exec': Exec)
    requires InPassOk(record, exec) && exec.pc.AtSyncFinish? && Steps(record, exec, choice, record', exec')
    ensures var sync := exec.pc.sync;
      && SyncOk(sync, record) && AtEntry(sync, exec) && sync.run.steps[sync.k].Some?
      && Reports(record, record', Target(sync).value.0, sync.run.steps[sync.k].value)
      && Target(sync).value.0 < |record.steps| == |record'.steps|
      && record'.steps[Target(sync).value.0].attempts >= record.steps[Target(sync).value.0].attempts
      && EntryName(sync) == Some(record.steps[Target(sync).value.0].spec.nodeId)
      && SeenOk(record, sync, sync.k + 1) && exec'.pc == SyncFrom(sync.(k := sync.k + 1))
  {
    var sync := exec.pc.sync;
    SyncPointOk(record, exec);
    EntryStep(record, exec, sync);
    FinishRecord(record, exec, choice, record', exec');
    FinishWrites(record, exec, choice, record', exec');
    SyncFinishEffect(record, exec, choice, record', exec');
    hide Inv;
    hide Steps;
    hide WellPlanned;
    hide Target;
    hide SyncFrom;
    hide SeenOk;
    hide SameSpecs;
    hide AsReported;
    hide Says;
  }

  lemma ReportsParts(record: Record, record': Record, p: nat, entry: ExternalStep)
    requires Reports(record, record', p, entry)
    ensures p < |record.steps| == |record'.steps| && record' == SetStep(record, p, record'.steps[p])
    ensures AsReported(record'.steps[p], entry) && record'.steps[p].spec == record.steps[p].spec
  {
  }

  lemma FinishPassed(record: Record, exec: Exec, choice: Choice, record': Record, exec': Exec)
    requires InPassOk(record, exec) && exec.pc.AtSyncFinish? && Steps(record, exec, choice, record', exec')
    requires Inv(record', exec') && WellPlanned(exec') && exec'.specs == exec.specs && Counted(record')
    requires !NamesTwice(exec.pc.sync.run) && AppliedUpTo(record, exec.pc.sync.run, exec.pc.sync.k)
    ensures PassedUpTo(record', exec.pc.sync.run, exec'.pc)
  {
    hide *;
    hide Reports;
    FinishWritten(record, exec, choice, record', exec');
    var sync := exec.pc.sync;
    AtEntrySpecs(sync, exec);
    var p, run, next := Target(sync).value.0, sync.run, sync.(k := sync.k + 1);
    ReportsParts(record, record', p, run.steps[sync.k].value);
    EntryNamed(sync);
    WriteKeepsApplied(record, record', run, sync.k, p);
    NowApplied(record', exec', run, sync.k, p);
    WriteKeepsSeen(record, sync, record', sync.k + 1);
    SyncLengths(record, sync);
    SeenAttempted(record', sync, sync.k + 1, next);
    RestPassed(record', exec', next);
  }

  /** The answer last heard, if it counts and names no step twice, has had its effect. */
  ghost predicate AnswerApplied(log: seq<Moment>, record: Record) {
    InTime(log) && LastAnswer(log).Some? && !NamesTwice(LastAnswer(log).value) ==>
      AppliedUpTo(record, LastAnswer(log).value, |LastAnswer(log).value.steps|)
  }

  /** What a pass has done shows in the record, unless an answer names a step twice. */
  ghost predicate PassedOk(log: seq<Moment>, record: Record, exec: Exec) {
    exec.mode == External && !record.cancelled ==>
      match exec.pc
      case AtSyncStart(sync) => !NamesTwice(sync.run) ==> AppliedUpTo(record, sync.run, sync.k)
      case AtSyncFinish(sync) => !NamesTwice(sync.run) ==> AppliedUpTo(record, sync.run, sync.k)
      case AtPoll(_) | AtExternalSucceed | AtExternalCancel | AtFail(_) => AnswerApplied(log, record)
      case _ => true
  }

  lemma PassedIsOk(log: seq<Moment>, record: Record, exec: Exec, run: ExternalRun, timer: Timer)
    requires (!record.cancelled ==> !NamesTwice(run) ==> PassedUpTo(record, run, exec.pc)) && Passing(exec.pc, run, timer)
    requires LastAnswer(log) == Some(run)
    ensures PassedOk(log, record, exec)
  {
    hide AppliedUpTo;
    hide NamesTwice;
    hide LastHeard;
    hide NormalizeStatus;
  }

  lemma RunRead(log: seq<Moment>, pc: Pc) returns (run: ExternalRun, timer: Timer)
    requires Knows(log, pc) && InPass(pc)
    ensures LastAnswer(log) == Some(run)
    ensures match pc
      case AtSyncGet(r, t) => run == r && timer == t
      case AtSyncStart(sync) => run == sync.run && timer == sync.timer
      case AtSyncFinish(sync) => run == sync.run && timer == sync.timer
      case _ => true
  {
    run := LastAnswer(log).value;
    timer := match pc
      case AtSyncGet(_, t) => t
      case AtSyncStart(sync) => sync.timer
      case AtSyncFinish(sync) => sync.timer
      case _ => Timer(0.0, 0.0, 0.0);
    hide LastHeard;
    hide Acceptance;
  }

  lemma CancelledStays(record: Record, exec: Exec, choice: Choice, record': Record, exec': Exec)
    requires Inv(record, exec) && Steps(record, exec, choice, record', exec') && record.cancelled
    ensures record'.cancelled
  {
    StoreEffectOf(record, exec, choice, record', exec');
    if NextOp(exec.pc).Some? { CancelledIsFrozen(record, NextOp(exec.pc).value); }
    hide NextOp;
    hide Apply;
    hide Steps;
  }

  lemma QuietPass(front: seq<Moment>, last: Moment)
    requires last.choice == NoChoice
    ensures LastAnswer(front + [last]) == LastAnswer(front) && (InTime(front + [last]) <==> InTime(front))
  {
    HeardNothing(front, last);
    hide LastHeard;
    hide Acceptance;
  }

  lemma PassSoFar(log: seq<Moment>, record: Record, exec: Exec, run: ExternalRun)
    requires PassedOk(log, record, exec) && exec.mode == External && !record.cancelled && !NamesTwice(run)
    requires match exec.pc
      case AtSyncGet(r, _) => run == r
      case AtSyncStart(sync) => run == sync.run
      case AtSyncFinish(sync) => run == sync.run
      case _ => true
    ensures exec.pc.AtSyncStart? || exec.pc.AtSyncFinish? ==> AppliedUpTo(record, run, exec.pc.sync.k)
  {
  }

  lemma InPassStep(front: seq<Moment>, last: Moment, after: Record, exec: Exec)
    requires Inv(last.record, last.exec) && WellPlanned(last.exec) && AttemptsOk(last.record, last.exec) && PassShape(last.exec)
    requires InPass(last.exec.pc) && last.exec.mode == External && Knows(front, last.exec.pc) && PassedOk(front, last.record, last.exec)
    requires Steps(last.record, last.exec, last.choice, after, exec) && Inv(after, exec) && WellPlanned(exec)
    requires exec.specs == last.exec.specs && Counted(after)
    ensures PassedOk(front + [last], after, exec)
  {
    var Moment(record, thread, choice) := last;
    var run, timer := RunRead(front, thread.pc);
    PassLanding(record, thread, choice, after, exec);
    QuietPass(front, last);
    if record.cancelled {
      CancelledStays(record, thread, choice, after, exec);
    } else if !NamesTwice(run) {
      PassSoFar(front, record, thread, run);
      if thread.pc.AtSyncGet? {
        GetPassed(record, thread, choice, after, exec);
      } else if thread.pc.AtSyncStart? {
        StartPassed(record, thread, choice, after, exec);
      } else {
        FinishPassed(record, thread, choice, after, exec);
      }
    }
    hide *;
    hide InPass;
    PassedIsOk(front + [last], after, exec, run, timer);
  }

  lemma HeardNoAnswer(front: seq<Moment>, last: Moment, reply: Reply)
    requires CanChoose(last.exec.pc, last.choice) && Hears(last.choice) && (last.exec.pc.AtPoll? ==> Knows(front, last.exec.pc))
    ensures var log, pc := front + [last], AdvanceExec(last.exec, reply, last.choice).pc;
      && !pc.AtSyncStart? && !pc.AtSyncFinish? && !pc.AtPoll? && !pc.AtExternalSucceed? && !pc.AtExternalCancel?
      && (pc.AtFail? ==> !InTime(log) || LastAnswer(log).None?)
  {
    HeardNow(front, last);
    HearingPoint(last.exec, last.choice);
    if last.exec.pc.AtPoll? { SameTimer(front, front + [last], last.exec.pc); }
    hide LastHeard;
    hide Acceptance;
    hide RuntimeFloat;
    hide Reading;
  }

  lemma PlainPassed(front: seq<Moment>, last: Moment, after: Record, exec: Exec)
    requires Inv(last.record, last.exec) && Steps(last.record, last.exec, last.choice, after, exec) && !InPass(last.exec.pc)
    requires last.exec.mode != Local && exec.mode != Local && Knows(front, last.exec.pc)
    ensures PassedOk(front + [last], after, exec)
  {
    var reply := StoreEffect(last.record, last.exec.pc).1;
    assert exec == AdvanceExec(last.exec, reply, last.choice) && exec.mode == ChosenMode(last.exec, last.choice);
    if Hears(last.choice) {
      HeardNoAnswer(front, last, reply);
    } else {
      QuietModes(last.record, last.exec, last.choice);
      QuietPoint(last.exec, reply, last.choice);
    }
    hide Inv;
    hide Steps;
    hide AdvanceExec;
    hide Knows;
    hide InTime;
    hide LastAnswer;
  }

  lemma CancelPassed(log: seq<Moment>, record: Record, exec: Exec)
    requires PassedOk(log, record, exec)
    ensures PassedOk(log, CancelRecord(record), exec)
  {
    hide InTime;
    hide LastAnswer;
    hide AppliedUpTo;
  }

  lemma PassIsExternal(record: Record, exec: Exec)
    requires Inv(record, exec) && InPass(exec.pc)
    ensures exec.mode == External
  {
  }

  lemma CountedOf(record: Record, exec: Exec)
    requires AttemptsOk(record, exec) && exec.mode == External
    ensures Counted(record)
  {
  }

  lemma StepPassed(front: seq<Moment>, last: Moment, after: Record, exec: Exec)
    requires Inv(last.record, last.exec) && WellPlanned(last.exec) && AttemptsOk(last.record, last.exec) && PassShape(last.exec)
    requires last.exec.mode != Local && exec.mode != Local && Knows(front, last.exec.pc) && PassedOk(front, last.record, last.exec)
    requires Steps(last.record, last.exec, last.choice, after, exec) && Inv(after, exec) && WellPlanned(exec)
    ensures PassedOk(front + [last], after, exec)
  {
    if InPass(last.exec.pc) {
      PassIsExternal(last.record, last.exec);
      SameThreadSpecs(last.record, last.exec, last.choice, after, exec);
      StepAttempts(last.record, last.exec, last.choice, after, exec);
      CountedOf(after, exec);
      InPassStep(front, last, after, exec);
    } else {
      PlainPassed(front, last, after, exec);
    }
    hide *;
    hide InPass;
  }

  lemma NothingPassed(log: seq<Moment>, record: Record, exec: Exec)
    requires exec.pc == AtStart
    ensures PassedOk(log, record, exec)
  {
  }

  lemma {:induction false} HistoryPassed(log: seq<Moment>, record: Record, exec: Exec)
    requires History(log, record, exec) && exec.mode != Local
    ensures PassedOk(log, record, exec)
    decreases |log|
  {
    hide *;
    HistoryIsSound(log, record, exec);
    if log == [] {
      NothingPassed(log, record, exec);
    } else {
      var front, last, after := LastStep(log, record, exec);
      StaysDecided(last.record, last.exec, last.choice, after, exec);
      HistoryPassed(front, last.record, last.exec);
      HistoryKnows(front, last.record, last.exec);
      HistoryShape(front, last.record, last.exec);
      OnceIffNoRestart(front, last.record, last.exec);
      PlanKept(last.record, last.exec, last.choice, after, exec);
      StepPassed(front, last, after, exec);
      CancelPassed(log, after, exec);
    }
  }

  lemma PassedParts(log: seq<Moment>, record: Record, exec: Exec)
    requires Knows(log, exec.pc) && PassedOk(log, record, exec) && exec.mode == External && !record.cancelled
    requires exec.pc.AtPoll? || exec.pc.AtExternalSucceed? || exec.pc.AtExternalCancel?
    ensures LastAnswer(log).Some?
    ensures var run := LastAnswer(log).value;
      !NamesTwice(run) ==> AppliedUpTo(record, run, |run.steps|)
  {
    hide AppliedUpTo;
    hide NamesTwice;
    hide LastHeard;
    hide Acceptance;
    hide Says;
  }

  /** Whenever a thread has passed over an answer that names no step twice, and its run is
      not cancelled, every step an entry names is as that entry reports it. */
  lemma PassIsApplied(log: seq<Moment>, record: Record, exec: Exec)
    requires History(log, record, exec) && exec.mode == External && !record.cancelled
    requires exec.pc.AtPoll? || exec.pc.AtExternalSucceed? || exec.pc.AtExternalCancel?
    ensures LastAnswer(log).Some?
    ensures var run := LastAnswer(log).value;
      !NamesTwice(run) ==> AppliedUpTo(record, run, |run.steps|)
  {
    hide *;
    hide NamesTwice;
    HistoryKnows(log, record, exec);
    HistoryPassed(log, record, exec);
    PassedParts(log, record, exec);
  }
}
