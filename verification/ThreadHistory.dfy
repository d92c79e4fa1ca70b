/** How a thread got where it is: the moments at which it stepped, each with the record it
    found and the choice it got. What holds of every history holds of every run. */
module ThreadHistory {
  import opened Wrappers
  import opened Ledger
  import opened Executor
  import opened ExecutorInvariant
  import opened ExecutorSafety
  import opened ExecutorDeath

  /** One step of a thread: the record it found, the thread, and the choice it got. */
  datatype Moment = Moment(record: Record, exec: Exec, choice: Choice)

  /** The step leads there; an API request may cancel the run afterwards. */
  ghost predicate LeadsTo(moment: Moment, record: Record, exec: Exec) {
    && !Ended(moment.exec.pc) && CanChoose(moment.exec.pc, moment.choice)
    && var (after, next) := StepExec(moment.record, moment.exec, moment.choice);
       exec == next && (record == after || record == CancelRecord(after))
  }

  /** The moments at which a thread stepped, from its start to where it is. */
  ghost predicate History(log: seq<Moment>, record: Record, exec: Exec)
    decreases |log|
  {
    && Inv(record, exec) && WellPlanned(exec)
    && if log == [] then exec.pc == AtStart && record.runtimeRunId.None? else
         var last := log[|log| - 1];
         LeadsTo(last, record, exec) && History(log[..|log| - 1], last.record, last.exec)
  }

  lemma StartOfHistory(record: Record, exec: Exec)
    requires Inv(record, exec) && WellPlanned(exec) && exec.pc == AtStart && record.runtimeRunId.None?
    ensures History([], record, exec)
  {
  }

  lemma HistoryIsSound(log: seq<Moment>, record: Record, exec: Exec)
    requires History(log, record, exec)
    ensures Inv(record, exec) && WellPlanned(exec)
    ensures log == [] ==> exec.pc == AtStart && record.runtimeRunId.None?
  {
  }

  lemma CancelledTwice(record: Record)
    ensures CancelRecord(CancelRecord(record)) == CancelRecord(record)
  {
  }

  lemma HistoryCancelled(log: seq<Moment>, record: Record, exec: Exec)
    requires History(log, record, exec)
    ensures History(log, CancelRecord(record), exec)
  {
    CancelKeepsInv(record, exec);
    if log != [] {
      var last := log[|log| - 1];
      CancelledTwice(StepExec(last.record, last.exec, last.choice).0);
    }
    hide Inv;
    hide StepExec;
    hide CancelRecord;
  }

  lemma MomentLeads(record: Record, exec: Exec, choice: Choice, record': Record, exec': Exec)
    requires !Ended(exec.pc) && Steps(record, exec, choice, record', exec')
    ensures LeadsTo(Moment(record, exec, choice), record', exec')
  {
  }

  lemma PlanKept(record: Record, exec: Exec, choice: Choice, record': Record, exec': Exec)
    requires Steps(record, exec, choice, record', exec') && WellPlanned(exec)
    ensures WellPlanned(exec')
  {
    hide Advance;
    hide StoreEffect;
  }

  lemma HistoryGrows(log: seq<Moment>, record: Record, exec: Exec, choice: Choice, record': Record, exec': Exec)
    requires History(log, record, exec) && !Ended(exec.pc) && Steps(record, exec, choice, record', exec')
    ensures History(log + [Moment(record, exec, choice)], record', exec')
  {
    StepKeepsInv(record, exec, choice, record', exec');
    MomentLeads(record, exec, choice, record', exec');
    var longer := log + [Moment(record, exec, choice)];
    assert longer[..|longer| - 1] == log;
    PlanKept(record, exec, choice, record', exec');
    hide Inv;
    hide LeadsTo;
    hide Steps;
  }

  /** The last step of a history, and what it led to before a cancellation. */
  lemma LastStep(log: seq<Moment>, record: Record, exec: Exec) returns (front: seq<Moment>, last: Moment, after: Record)
    requires History(log, record, exec) && log != []
    ensures log == front + [last] && History(front, last.record, last.exec)
    ensures Inv(last.record, last.exec) && WellPlanned(last.exec) && !Ended(last.exec.pc) && CanChoose(last.exec.pc, last.choice)
    ensures Steps(last.record, last.exec, last.choice, after, exec) && Inv(after, exec)
    ensures record == after || record == CancelRecord(after)
  {
    front, last := log[..|log| - 1], log[|log| - 1];
    after := StepExec(last.record, last.exec, last.choice).0;
    HistoryIsSound(front, last.record, last.exec);
    StepKeepsInv(last.record, last.exec, last.choice, after, exec);
    hide Inv;
    hide StepExec;
    hide CancelRecord;
  }

  /** Every moment has a history of its own. */
  lemma {:induction false} HistoryUpTo(log: seq<Moment>, record: Record, exec: Exec, i: nat)
    requires History(log, record, exec) && i < |log|
    ensures History(log[..i], log[i].record, log[i].exec) && Inv(log[i].record, log[i].exec)
    ensures !Ended(log[i].exec.pc) && CanChoose(log[i].exec.pc, log[i].choice)
    decreases |log|
  {
    hide *;
    var front, last, after := LastStep(log, record, exec);
    if i < |front| {
      HistoryUpTo(front, last.record, last.exec, i);
      assert front[..i] == log[..i];
    } else {
      assert log[..i] == front;
    }
  }

  // ---------- death ----------

  ghost predicate Killed(log: seq<Moment>) {
    exists i :: 0 <= i < |log| && Kills(log[i].record, log[i].exec.pc)
  }

  lemma KilledGrows(log: seq<Moment>, last: Moment)
    ensures Killed(log + [last]) <==> Killed(log) || Kills(last.record, last.exec.pc)
  {
    hide Kills;
    var longer := log + [last];
    if Killed(log) {
      var i :| 0 <= i < |log| && Kills(log[i].record, log[i].exec.pc);
      assert longer[i] == log[i];
    }
    assert longer[|log|] == last;
  }

  lemma DeadMode(record: Record, exec: Exec)
    requires Inv(record, exec)
    ensures exec.pc.Died? ==> exec.mode == External
    ensures exec.pc == AtStart ==> !exec.pc.Died?
  {
  }

  lemma NotEnded(pc: Pc)
    ensures !Ended(pc) <==> !pc.Exited? && !pc.Died?
  {
  }

  /** A thread is dead exactly when one of its steps killed it, in external mode. */
  lemma {:induction false} DeadIffKilled(log: seq<Moment>, record: Record, exec: Exec)
    requires History(log, record, exec)
    ensures exec.pc.Died? <==> Killed(log)
    ensures Killed(log) ==> exec.mode == External
    decreases |log|
  {
    HistoryIsSound(log, record, exec);
    DeadMode(record, exec);
    if log != [] {
      hide *;
      var front, last, after := LastStep(log, record, exec);
      DeadIffKilled(front, last.record, last.exec);
      StepKillsIff(last.record, last.exec, last.choice, after, exec);
      KilledGrows(front, last);
      NotEnded(last.exec.pc);
    }
  }
}
