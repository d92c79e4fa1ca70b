/** How often a step is attempted in external mode, where the attempts are what answers
    of the runtime report: once, unless one answer names a step twice. */
module ExternalAttempts {
  import opened Wrappers
  import opened Ledger
  import opened Runtime
  import opened Executor
  import opened ExecutorInvariant
  import opened ExecutorSafety
  import opened ExecutorProgress
  import opened ExecutorDeath
  import opened ThreadHistory
  import Kahn

  // ---------- the invariant ----------

  /** A step has been attempted once it is neither queued nor cancelled. */
  ghost predicate Counted(record: Record) {
    forall p :: 0 <= p < |record.steps| ==>
      var step := record.steps[p];
      && (step.status.Queued? ==> step.attempts == 0)
      && (!step.status.Queued? && !step.status.Cancelled? ==> step.attempts >= 1)
      && (step.status.Cancelled? ==> Terminal(record.status))
  }

  predicate About(sync: Sync, p: nat, i: nat) {
    i < |sync.run.steps| && Target(sync.(k := i)).Some? && Target(sync.(k := i)).value.0 == p
  }

  /** One of the first `k` entries of the answer is about step `p`. */
  ghost predicate Reported(sync: Sync, p: nat, k: nat) {
    exists i :: 0 <= i < k && About(sync, p, i)
  }

  /** What the pass saw as queued is still queued unless an entry read so far is about it. */
  ghost predicate SeenOk(record: Record, sync: Sync, k: nat) {
    |sync.local| == |record.steps| ==>
      forall p :: 0 <= p < |record.steps| ==>
        && (!sync.local[p].status.Queued? ==> record.steps[p].attempts >= 1)
        && (sync.local[p].status.Queued? && !record.steps[p].status.Queued? ==> Reported(sync, p, k))
  }

  ghost predicate PassOk(record: Record, pc: Pc) {
    match pc
    case AtSyncStart(sync) =>
      SyncOk(sync, record) ==> SeenOk(record, sync, sync.k) && sync.local[Target(sync).value.0].status.Queued?
    case AtSyncFinish(sync) =>
      SyncOk(sync, record) ==> SeenOk(record, sync, sync.k + 1) && record.steps[Target(sync).value.0].attempts >= 1
    case _ => true
  }

  ghost predicate AttemptsOk(record: Record, exec: Exec) {
    exec.mode != Local ==> Counted(record) && (!record.cancelled ==> PassOk(record, exec.pc))
  }

  // ---------- one step ----------

  ghost predicate Lands(sync: Sync, landed: Sync) {
    sync.k <= landed.k < |sync.run.steps| && landed == sync.(k := landed.k) && Target(landed).Some?
  }

  /** Where the rest of a pass makes its next call. */
  lemma {:induction false} PassLands(sync: Sync)
    ensures var pc := SyncFrom(sync);
      && (pc.AtSyncStart? ==> Lands(sync, pc.sync) && sync.local[Target(pc.sync).value.0].status.Queued?)
      && (pc.AtSyncFinish? ==> Lands(sync, pc.sync) && !sync.local[Target(pc.sync).value.0].status.Queued?)
    decreases |sync.run.steps| - sync.k
  {
    hide NormalizeStatus;
    if sync.k < |sync.run.steps| { PassLands(sync.(k := sync.k + 1)); }
  }

  lemma SameEntries(sync: Sync, landed: Sync)
    requires landed == sync.(k := landed.k)
    ensures forall p: nat, i: nat :: About(sync, p, i) <==> About(landed, p, i)
  {
    assert forall i: nat :: landed.(k := i) == sync.(k := i);
    hide Target;
  }

  lemma SeenLater(record: Record, sync: Sync, k: nat, landed: Sync, k': nat)
    requires SeenOk(record, sync, k) && k <= k' && landed == sync.(k := landed.k)
    ensures SeenOk(record, landed, k')
  {
    SameEntries(sync, landed);
    hide About;
    if |sync.local| == |record.steps| {
      forall p | 0 <= p < |record.steps| && sync.local[p].status.Queued? && !record.steps[p].status.Queued? ensures Reported(landed, p, k') {
        var i :| 0 <= i < k && About(sync, p, i);
      }
    }
  }

  lemma EntryIsAbout(record: Record, sync: Sync)
    requires SyncOk(sync, record)
    ensures Target(sync).value.0 < |record.steps| && About(sync, Target(sync).value.0, sync.k)
  {
    assert sync.(k := sync.k) == sync;
  }

  lemma PassKeeps(record: Record, sync: Sync)
    requires SeenOk(record, sync, sync.k)
    ensures PassOk(record, SyncFrom(sync))
  {
    PassLands(sync);
    var pc := SyncFrom(sync);
    hide SyncFrom;
    hide Target;
    if pc.AtSyncStart? && SyncOk(pc.sync, record) {
      SeenLater(record, sync, sync.k, pc.sync, pc.sync.k);
    }
    if pc.AtSyncFinish? && SyncOk(pc.sync, record) {
      EntryIsAbout(record, pc.sync);
      SeenLater(record, sync, sync.k, pc.sync, pc.sync.k + 1);
    }
    hide Reported;
  }

  lemma NotDropped(record: Record, exec: Exec)
    requires Inv(record, exec) && !Ended(exec.pc) && !record.cancelled && Counted(record)
    ensures forall p :: 0 <= p < |record.steps| && !record.steps[p].status.Queued? ==> record.steps[p].attempts >= 1
  {
  }

  lemma GetAttempts(record: Record, exec: Exec, choice: Choice, record': Record, exec': Exec)
    requires Inv(record, exec) && Steps(record, exec, choice, record', exec') && exec.pc.AtSyncGet? && AttemptsOk(record, exec)
    ensures AttemptsOk(record', exec')
  {
    hide SyncFrom;
    if exec.mode != Local && !record.cancelled {
      NotDropped(record, exec);
      PassKeeps(record, Sync(record.steps, exec.pc.run, 0, exec.pc.timer));
    }
  }

  /** Writing the step an entry is about, with that entry read. */
  lemma WriteKeepsSeen(record: Record, sync: Sync, record': Record, k: nat)
    requires SyncOk(sync, record) && SeenOk(record, sync, k) && sync.k < k
    requires |record'.steps| == |record.steps|
    requires record' == SetStep(record, Target(sync).value.0, record'.steps[Target(sync).value.0])
    requires record'.steps[Target(sync).value.0].attempts >= record.steps[Target(sync).value.0].attempts
    ensures SeenOk(record', sync, k)
  {
    EntryIsAbout(record, sync);
    hide Target;
  }

  /** An entry on a queued step starts it; one on a failed step starts it again. */
  lemma StartRecord(record: Record, exec: Exec, choice: Choice, record': Record, exec': Exec)
    requires exec.pc.AtSyncStart? && SyncOk(exec.pc.sync, record) && Steps(record, exec, choice, record', exec')
    ensures var sync := exec.pc.sync;
      var p := Target(sync).value.0;
      p < |record.steps| && record' == if Startable(record, sync) then SetStep(record, p, StartedStep(record.steps[p])) else record
  {
    hide SyncFrom;
    hide Target;
    EntryIsAbout(record, exec.pc.sync);
    assert StoreEffect(record, exec.pc) == Apply(record, StartStep(Target(exec.pc.sync).value.0));
  }

  /** With entry `k` dealt with, the pass goes on. */
  lemma PassGoesOn(record: Record, sync: Sync, record': Record)
    requires SyncOk(sync, record) && SeenOk(record, sync, sync.k + 1) && |record'.steps| == |record.steps|
    requires var p := Target(sync).value.0;
      record' == record || (record' == SetStep(record, p, record'.steps[p]) && record'.steps[p].attempts >= record.steps[p].attempts)
    ensures SeenOk(record', sync, sync.k + 1) && PassOk(record', SyncFrom(sync.(k := sync.k + 1)))
  {
    hide *;
    var next := sync.(k := sync.k + 1);
    if record' != record { WriteKeepsSeen(record, sync, record', sync.k + 1); }
    SeenLater(record', sync, sync.k + 1, next, next.k);
    PassKeeps(record', next);
  }

  lemma StartCounts(record: Record, exec: Exec, choice: Choice, record': Record, exec': Exec)
    requires exec.pc.AtSyncStart? && SyncOk(exec.pc.sync, record) && Steps(record, exec, choice, record', exec') && Counted(record)
    ensures Counted(record')
  {
    StartRecord(record, exec, choice, record', exec');
    hide Steps;
    hide Target;
  }

  lemma StartPasses(record: Record, exec: Exec, choice: Choice, record': Record, exec': Exec)
    requires exec.pc.AtSyncStart? && SyncOk(exec.pc.sync, record) && Steps(record, exec, choice, record', exec')
    requires !record.cancelled && PassOk(record, exec.pc)
    ensures PassOk(record', exec'.pc)
  {
    var sync := exec.pc.sync;
    StartRecord(record, exec, choice, record', exec');
    SyncStartBranch(record, exec, choice, record', exec');
    SeenLater(record, sync, sync.k, sync, sync.k + 1);
    PassGoesOn(record, sync, record');
    hide Steps;
    hide SyncFrom;
    hide Target;
    hide SeenOk;
  }

  lemma StartAttempts(record: Record, exec: Exec, choice: Choice, record': Record, exec': Exec)
    requires Steps(record, exec, choice, record', exec') && exec.pc.AtSyncStart? && AttemptsOk(record, exec)
    requires SyncOk(exec.pc.sync, record) && exec.mode == External && exec'.mode == External
    ensures AttemptsOk(record', exec')
  {
    StartCounts(record, exec, choice, record', exec');
    StartRecord(record, exec, choice, record', exec');
    if !record.cancelled { StartPasses(record, exec, choice, record', exec'); }
    hide Steps;
    hide Target;
    hide PassOk;
    hide Counted;
  }

  lemma FinishRecord(record: Record, exec: Exec, choice: Choice, record': Record, exec': Exec)
    requires exec.pc.AtSyncFinish? && SyncOk(exec.pc.sync, record) && Steps(record, exec, choice, record', exec')
    ensures var p := Target(exec.pc.sync).value.0;
      && p < |record.steps| && |record'.steps| == |record.steps| && (record.cancelled ==> record' == record)
      && (!record.cancelled ==> record' == SetStep(record, p, record'.steps[p]))
      && (!record.cancelled ==> record'.steps[p].attempts == record.steps[p].attempts && (record'.steps[p].status.Succeeded? || record'.steps[p].status.Failed?))
  {
    hide SyncFrom;
    hide Target;
    EntryIsAbout(record, exec.pc.sync);
    var op := NextOp(exec.pc).value;
    assert op.SucceedStep? || op.FailStep?;
    assert op.position == Target(exec.pc.sync).value.0 && StoreEffect(record, exec.pc) == Apply(record, op);
  }

  lemma FinishCounts(record: Record, exec: Exec, choice: Choice, record': Record, exec': Exec)
    requires exec.pc.AtSyncFinish? && SyncOk(exec.pc.sync, record) && Steps(record, exec, choice, record', exec') && AttemptsOk(record, exec)
    requires exec.mode == External
    ensures Counted(record')
  {
    FinishRecord(record, exec, choice, record', exec');
    hide Steps;
    hide Target;
    hide SeenOk;
  }

  lemma FinishPasses(record: Record, exec: Exec, choice: Choice, record': Record, exec': Exec)
    requires exec.pc.AtSyncFinish? && SyncOk(exec.pc.sync, record) && Steps(record, exec, choice, record', exec')
    requires !record.cancelled && PassOk(record, exec.pc)
    ensures PassOk(record', exec'.pc)
  {
    FinishRecord(record, exec, choice, record', exec');
    SyncFinishEffect(record, exec, choice, record', exec');
    PassGoesOn(record, exec.pc.sync, record');
    hide Steps;
    hide SyncFrom;
    hide Target;
    hide SeenOk;
  }

  lemma FinishAttempts(record: Record, exec: Exec, choice: Choice, record': Record, exec': Exec)
    requires Steps(record, exec, choice, record', exec') && exec.pc.AtSyncFinish? && AttemptsOk(record, exec)
    requires SyncOk(exec.pc.sync, record) && exec.mode == External && exec'.mode == External
    ensures AttemptsOk(record', exec')
  {
    FinishCounts(record, exec, choice, record', exec');
    FinishRecord(record, exec, choice, record', exec');
    if !record.cancelled { FinishPasses(record, exec, choice, record', exec'); }
    hide Steps;
    hide Target;
    hide PassOk;
    hide Counted;
  }

  lemma PlainCalls(record: Record, exec: Exec)
    requires Inv(record, exec) && !InPass(exec.pc) && exec.mode != Local && NextOp(exec.pc).Some?
    ensures var op := NextOp(exec.pc).value;
      && !op.StartStep? && !op.SucceedStep? && !op.FailStep?
      && (op.Start? && !record.cancelled ==> AllFresh(record.steps))
  {
  }

  lemma CallCounts(record: Record, op: Op)
    requires Counted(record) && !op.StartStep? && !op.SucceedStep? && !op.FailStep?
    requires op.Start? && !record.cancelled ==> AllFresh(record.steps)
    ensures var after := Apply(record, op).0;
      Counted(after) && |after.steps| == |record.steps| && forall p :: 0 <= p < |record.steps| ==> after.steps[p].attempts == record.steps[p].attempts
  {
  }

  /** Outside a pass no step is attempted, and a pass is entered only at its start. */
  lemma PlainCounts(record: Record, exec: Exec, choice: Choice, record': Record, exec': Exec)
    requires Inv(record, exec) && Steps(record, exec, choice, record', exec') && !InPass(exec.pc) && Counted(record)
    requires exec.mode != Local
    ensures Counted(record')
    ensures |record'.steps| == |record.steps| && forall p :: 0 <= p < |record.steps| ==> record'.steps[p].attempts == record.steps[p].attempts
  {
    StoreEffectOf(record, exec, choice, record', exec');
    hide *;
    if NextOp(exec.pc).Some? {
      PlainCalls(record, exec);
      CallCounts(record, NextOp(exec.pc).value);
    }
  }

  lemma PlainPoint(exec: Exec, reply: Reply, choice: Choice)
    requires CanChoose(exec.pc, choice) && !InPass(exec.pc)
    ensures var pc := AdvanceExec(exec, reply, choice).pc; !pc.AtSyncStart? && !pc.AtSyncFinish?
  {
    hide Kahn.Order;
    hide RuntimeFloat;
    hide SyncFrom;
  }

  // ---------- attempts and restarts ----------

  ghost predicate AllOnce(record: Record) {
    forall p :: 0 <= p < |record.steps| ==> record.steps[p].attempts <= 1
  }

  /** The next call starts a step that has failed already. */
  predicate Restarts(record: Record, pc: Pc) {
    && pc.AtSyncStart? && pc.sync.k < |pc.sync.run.steps| && Target(pc.sync).Some?
    && Startable(record, pc.sync) && record.steps[Target(pc.sync).value.0].status.Failed?
  }

  predicate SameName(run: ExternalRun, i: nat, j: nat) {
    && i < |run.steps| && j < |run.steps| && run.steps[i].Some? && run.steps[j].Some?
    && run.steps[i].value.nodeId.Some? && run.steps[i].value.nodeId == run.steps[j].value.nodeId
  }

  /** Two entries of an answer carry the same name. */
  ghost predicate NamesTwice(run: ExternalRun) {
    exists i: nat, j: nat :: i < j && SameName(run, i, j)
  }

  lemma AboutIsNamed(sync: Sync, p: nat, i: nat)
    requires About(sync, p, i)
    ensures i < |sync.run.steps| && sync.run.steps[i].Some? && p < |sync.local|
    ensures sync.run.steps[i].value.nodeId == Some(sync.local[p].spec.nodeId)
  {
  }

  /** An entry on a step that an earlier one was about names it a second time. */
  lemma ReportedIsNamedTwice(sync: Sync, p: nat)
    requires Reported(sync, p, sync.k) && About(sync, p, sync.k)
    ensures NamesTwice(sync.run)
  {
    hide About;
    var i :| 0 <= i < sync.k && About(sync, p, i);
    AboutIsNamed(sync, p, i);
    AboutIsNamed(sync, p, sync.k);
    assert SameName(sync.run, i, sync.k);
  }

  /** A step is started again only if the answer being read names it twice. */
  lemma RestartIsNamedTwice(record: Record, exec: Exec)
    requires Inv(record, exec) && AttemptsOk(record, exec) && Restarts(record, exec.pc)
    ensures NamesTwice(exec.pc.sync.run)
  {
    SyncPointOk(record, exec);
    var sync := exec.pc.sync;
    var p := Target(sync).value.0;
    EntryIsAbout(record, sync);
    hide Inv;
    hide Target;
    hide About;
    assert Reported(sync, p, sync.k);
    ReportedIsNamedTwice(sync, p);
  }

  lemma StaysDecided(record: Record, exec: Exec, choice: Choice, record': Record, exec': Exec)
    requires Inv(record, exec) && Steps(record, exec, choice, record', exec') && exec'.mode != Local
    ensures exec.mode != Local
  {
    StoreEffectOf(record, exec, choice, record', exec');
    hide Steps;
  }

  lemma PlainStep(record: Record, exec: Exec, choice: Choice, record': Record, exec': Exec)
    requires Inv(record, exec) && Steps(record, exec, choice, record', exec') && !InPass(exec.pc) && AttemptsOk(record, exec)
    requires exec.mode != Local
    ensures AttemptsOk(record', exec')
    ensures AllOnce(record') <==> AllOnce(record)
  {
    PlainCounts(record, exec, choice, record', exec');
    PlainPoint(exec, StoreEffect(record, exec.pc).1, choice);
    hide Inv;
    hide Counted;
    hide StoreEffect;
    hide Advance;
  }

  lemma StartOnce(record: Record, exec: Exec, choice: Choice, record': Record, exec': Exec)
    requires Steps(record, exec, choice, record', exec') && exec.pc.AtSyncStart? && Counted(record) && SyncOk(exec.pc.sync, record)
    ensures AllOnce(record') <==> AllOnce(record) && !Restarts(record, exec.pc)
  {
    StartRecord(record, exec, choice, record', exec');
    hide Steps;
    hide Target;
    var p := Target(exec.pc.sync).value.0;
    if record' != record {
      assert forall q :: 0 <= q < |record.steps| && q != p ==> record'.steps[q] == record.steps[q];
      assert record'.steps[p].attempts == record.steps[p].attempts + 1;
    }
  }

  lemma FinishOnce(record: Record, exec: Exec, choice: Choice, record': Record, exec': Exec)
    requires Steps(record, exec, choice, record', exec') && exec.pc.AtSyncFinish? && SyncOk(exec.pc.sync, record)
    ensures AllOnce(record') <==> AllOnce(record)
  {
    FinishRecord(record, exec, choice, record', exec');
    hide Steps;
    hide Target;
    var p := Target(exec.pc.sync).value.0;
    if record' != record {
      assert forall q :: 0 <= q < |record.steps| && q != p ==> record'.steps[q] == record.steps[q];
    }
  }

  lemma GetOnce(record: Record, exec: Exec, choice: Choice, record': Record, exec': Exec)
    requires Steps(record, exec, choice, record', exec') && exec.pc.AtSyncGet?
    ensures record' == record
  {
    hide SyncAll;
  }

  lemma NoRestart(record: Record, pc: Pc)
    requires !pc.AtSyncStart?
    ensures !Restarts(record, pc)
  {
  }

  lemma StaysExternal(record: Record, exec: Exec, choice: Choice, record': Record, exec': Exec)
    requires Inv(record, exec) && Steps(record, exec, choice, record', exec') && (exec.pc.AtSyncStart? || exec.pc.AtSyncFinish?)
    ensures exec.mode == External && exec'.mode == External && SyncOk(exec.pc.sync, record) && (AttemptsOk(record, exec) ==> Counted(record))
  {
    SyncPointOk(record, exec);
    StoreEffectOf(record, exec, choice, record', exec');
    hide Steps;
    hide Inv;
    hide Counted;
  }

  /** Each step keeps the invariant, and every step once attempted at most, unless it
      starts a failed one again. */
  lemma StepAttempts(record: Record, exec: Exec, choice: Choice, record': Record, exec': Exec)
    requires Inv(record, exec) && Steps(record, exec, choice, record', exec') && AttemptsOk(record, exec) && exec'.mode != Local
    ensures AttemptsOk(record', exec')
    ensures AllOnce(record') <==> AllOnce(record) && !Restarts(record, exec.pc)
  {
    StaysDecided(record, exec, choice, record', exec');
    if !exec.pc.AtSyncStart? { NoRestart(record, exec.pc); }
    if !InPass(exec.pc) {
      PlainStep(record, exec, choice, record', exec');
    } else if exec.pc.AtSyncGet? {
      GetAttempts(record, exec, choice, record', exec');
      GetOnce(record, exec, choice, record', exec');
    } else {
      StaysExternal(record, exec, choice, record', exec');
      if exec.pc.AtSyncStart? {
        StartAttempts(record, exec, choice, record', exec');
        StartOnce(record, exec, choice, record', exec');
      } else {
        FinishAttempts(record, exec, choice, record', exec');
        FinishOnce(record, exec, choice, record', exec');
      }
    }
    hide *;
  }

  lemma CancelAttempts(record: Record, exec: Exec)
    requires AttemptsOk(record, exec)
    ensures AttemptsOk(CancelRecord(record), exec)
    ensures AllOnce(CancelRecord(record)) <==> AllOnce(record)
  {
    hide PassOk;
    var after := CancelRecord(record);
    assert forall p :: 0 <= p < |record.steps| ==> after.steps[p].attempts == record.steps[p].attempts;
  }

  // ---------- whole histories ----------

  lemma NothingAttempted(record: Record, exec: Exec)
    requires Inv(record, exec) && exec.pc == AtStart
    ensures AttemptsOk(record, exec) && (exec.mode != Local ==> AllOnce(record))
  {
    hide SumAttempts;
  }

  /** A failed step was started again. */
  ghost predicate Restarted(log: seq<Moment>) {
    exists i :: 0 <= i < |log| && Restarts(log[i].record, log[i].exec.pc)
  }

  lemma RestartedGrows(log: seq<Moment>, last: Moment)
    ensures Restarted(log + [last]) <==> Restarted(log) || Restarts(last.record, last.exec.pc)
  {
    hide Restarts;
    var longer := log + [last];
    if Restarted(log) {
      var i :| 0 <= i < |log| && Restarts(log[i].record, log[i].exec.pc);
      assert longer[i] == log[i];
    }
    assert longer[|log|] == last;
  }

  lemma NotRestarted()
    ensures !Restarted([])
  {
  }

  /** Outside local mode every step was attempted at most once if and only if no failed
      step was started again. */
  lemma {:induction false} OnceIffNoRestart(log: seq<Moment>, record: Record, exec: Exec)
    requires History(log, record, exec) && exec.mode != Local
    ensures AttemptsOk(record, exec) && (AllOnce(record) <==> !Restarted(log))
    decreases |log|
  {
    hide *;
    HistoryIsSound(log, record, exec);
    if log == [] {
      NothingAttempted(record, exec);
      NotRestarted();
    } else {
      var front, last, after := LastStep(log, record, exec);
      StaysDecided(last.record, last.exec, last.choice, after, exec);
      OnceIffNoRestart(front, last.record, last.exec);
      StepAttempts(last.record, last.exec, last.choice, after, exec);
      RestartedGrows(front, last);
      CancelAttempts(after, exec);
    }
  }

  /** An answer that names a step twice is being read. */
  ghost predicate ReadsTwiceNamed(log: seq<Moment>) {
    exists i :: 0 <= i < |log| && log[i].exec.pc.AtSyncStart? && NamesTwice(log[i].exec.pc.sync.run)
  }

  lemma RestartPoint(record: Record, exec: Exec)
    requires Inv(record, exec) && Restarts(record, exec.pc)
    ensures exec.mode == External && exec.pc.AtSyncStart?
  {
  }

  /** In external mode a step is attempted at most once as long as no answer the thread
      reads names a step twice. */
  lemma OnceUnlessNamedTwice(log: seq<Moment>, record: Record, exec: Exec)
    requires History(log, record, exec) && exec.mode != Local && !ReadsTwiceNamed(log)
    ensures AllOnce(record)
  {
    OnceIffNoRestart(log, record, exec);
    forall i | 0 <= i < |log| ensures !Restarts(log[i].record, log[i].exec.pc) {
      if Restarts(log[i].record, log[i].exec.pc) {
        HistoryUpTo(log, record, exec, i);
        RestartPoint(log[i].record, log[i].exec);
        OnceIffNoRestart(log[..i], log[i].record, log[i].exec);
        RestartIsNamedTwice(log[i].record, log[i].exec);
        assert false;
      }
    }
    hide *;
    hide Restarted;
  }
}
