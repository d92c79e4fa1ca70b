/** Exactly when an executor step kills its thread: reading an external answer raises at
    the first entry that cannot be read, unless an earlier one makes a store call. */
module ExecutorDeath {
  import opened Wrappers
  import opened Ledger
  import opened Runtime
  import opened Executor
  import opened ExecutorInvariant
  import opened ExecutorSafety
  import opened ExecutorProgress
  import Kahn

  /** Entry `k` raises when its turn comes: its name cannot be looked up, or it has
      succeeded with no whole numbers for a step that needs no start. */
  predicate Deadly(sync: Sync)
    requires sync.k < |sync.run.steps|
  {
    || Unhashable(sync)
    || (Target(sync).Some? && Target(sync).value.1 == "succeeded" && sync.local[Target(sync).value.0].status != Queued
        && sync.run.steps[sync.k].value.numbers.None?)
  }

  /** An entry that raises if it is read to its end. */
  predicate Faulty(entry: Option<ExternalStep>) {
    entry.Some? && (!entry.value.hashable || (NormalizeStatus(entry.value.status) == "succeeded" && entry.value.numbers.None?))
  }

  /** Entry `k` is passed over without a store call. */
  predicate Silent(sync: Sync)
    requires sync.k < |sync.run.steps|
  {
    !Unhashable(sync) &&
    match Target(sync)
    case None => true
    case Some((position, status)) =>
      status !in ["running", "succeeded", "failed"] || (status == "running" && sync.local[position].status != Queued)
  }

  /** Entry `j` is the first one that is not passed over, and it raises. */
  predicate DiesAt(sync: Sync, j: nat) {
    && sync.k <= j < |sync.run.steps| && Deadly(sync.(k := j))
    && forall i :: sync.k <= i < j ==> Silent(sync.(k := i))
  }

  ghost predicate DeadlyFrom(sync: Sync) {
    exists j: nat :: DiesAt(sync, j)
  }

  lemma SilentPassesOn(sync: Sync)
    requires sync.k < |sync.run.steps| && Silent(sync)
    ensures SyncFrom(sync) == SyncFrom(sync.(k := sync.k + 1))
  {
    hide NormalizeStatus;
  }

  lemma SilentIsNotDeadly(sync: Sync)
    requires sync.k < |sync.run.steps| && Silent(sync)
    ensures !Deadly(sync)
  {
    hide NormalizeStatus;
  }

  lemma SilentShifts(sync: Sync, j: nat)
    requires sync.k < |sync.run.steps| && Silent(sync)
    ensures DiesAt(sync, j) <==> DiesAt(sync.(k := sync.k + 1), j)
  {
    var rest := sync.(k := sync.k + 1);
    hide Silent;
    hide Target;
    hide NormalizeStatus;
    assert sync.(k := sync.k) == sync;
    assert forall i :: rest.(k := i) == sync.(k := i);
    if j == sync.k { SilentIsNotDeadly(sync); }
  }

  lemma DeadlyDies(sync: Sync)
    requires sync.k < |sync.run.steps| && Deadly(sync)
    ensures SyncFrom(sync).Died?
  {
    hide NormalizeStatus;
  }

  lemma NeitherSurvives(sync: Sync)
    requires sync.k < |sync.run.steps| && !Silent(sync) && !Deadly(sync)
    ensures !SyncFrom(sync).Died?
  {
    hide NormalizeStatus;
  }

  lemma {:induction false} PassDiesIff(sync: Sync)
    ensures SyncFrom(sync).Died? <==> DeadlyFrom(sync)
    decreases |sync.run.steps| - sync.k
  {
    if sync.k < |sync.run.steps| {
      if Silent(sync) {
        var rest := sync.(k := sync.k + 1);
        PassDiesIff(rest);
        SilentPassesOn(sync);
        forall j: nat ensures DiesAt(sync, j) <==> DiesAt(rest, j) {
          SilentShifts(sync, j);
        }
      } else if Deadly(sync) {
        DeadlyDies(sync);
        assert DiesAt(sync, sync.k);
      } else {
        NeitherSurvives(sync);
        forall j: nat ensures !DiesAt(sync, j) {
          if j > sync.k { assert sync.(k := sync.k) == sync; }
        }
      }
    }
  }

  // ---------- the step that kills ----------

  /** `start_step` would take the step the entry is about. */
  predicate Startable(record: Record, sync: Sync)
    requires sync.k < |sync.run.steps| && Target(sync).Some?
  {
    var position := Target(sync).value.0;
    !record.cancelled && position < |record.steps| && record.steps[position].status in {Queued, Failed}
  }

  /** Whether the next step raises, from the stored record and the answer in hand: at
      the start of a pass the answer is no list or one of its entries is deadly; after a
      step was started, its entry is what counts, and else the entries that follow. */
  ghost predicate Kills(record: Record, pc: Pc) {
    match pc
    case AtSyncGet(run, timer) => !run.iterable || DeadlyFrom(Sync(record.steps, run, 0, timer))
    case AtSyncStart(sync) =>
      if sync.k < |sync.run.steps| && Target(sync).Some? && Target(sync).value.1 != "running" && Startable(record, sync)
      then Target(sync).value.1 == "succeeded" && sync.run.steps[sync.k].value.numbers.None?
      else DeadlyFrom(sync.(k := sync.k + 1))
    case AtSyncFinish(sync) => DeadlyFrom(sync.(k := sync.k + 1))
    case _ => false
  }

  predicate InPass(pc: Pc) {
    pc.AtSyncGet? || pc.AtSyncStart? || pc.AtSyncFinish?
  }

  lemma OnlyPassesDie(record: Record, exec: Exec, choice: Choice, record': Record, exec': Exec)
    requires Inv(record, exec) && Steps(record, exec, choice, record', exec') && !exec.pc.Died?
    ensures exec'.pc.Died? ==> InPass(exec.pc)
    ensures InPass(exec.pc) ==> exec.mode == External
    ensures !InPass(exec.pc) ==> !Kills(record, exec.pc)
  {
    hide Kahn.Order;
    hide SyncAll;
    hide SyncFrom;
    hide RuntimeFloat;
  }

  lemma GetKillsIff(record: Record, pc: Pc)
    requires pc.AtSyncGet?
    ensures SyncAll(record.steps, pc.run, pc.timer).Died? <==> Kills(record, pc)
  {
    PassDiesIff(Sync(record.steps, pc.run, 0, pc.timer));
    hide SyncFrom;
    hide DeadlyFrom;
  }

  lemma SyncStartBranch(record: Record, exec: Exec, choice: Choice, record': Record, exec': Exec)
    requires exec.pc.AtSyncStart? && SyncOk(exec.pc.sync, record) && Steps(record, exec, choice, record', exec')
    ensures var sync := exec.pc.sync;
      exec'.pc == if Target(sync).value.1 != "running" && Startable(record, sync) then FinishFrom(sync)
                  else SyncFrom(sync.(k := sync.k + 1))
  {
    hide SyncFrom;
    var p := Target(exec.pc.sync).value.0;
    assert StoreEffect(record, exec.pc) == Apply(record, StartStep(p));
  }

  lemma StartKillsIff(record: Record, exec: Exec, choice: Choice, record': Record, exec': Exec)
    requires exec.pc.AtSyncStart? && SyncOk(exec.pc.sync, record) && Steps(record, exec, choice, record', exec')
    ensures exec'.pc.Died? <==> Kills(record, exec.pc)
  {
    SyncStartBranch(record, exec, choice, record', exec');
    PassDiesIff(exec.pc.sync.(k := exec.pc.sync.k + 1));
    hide Steps;
    hide SyncFrom;
    hide DeadlyFrom;
  }

  lemma FinishKillsIff(record: Record, exec: Exec, choice: Choice, record': Record, exec': Exec)
    requires exec.pc.AtSyncFinish? && SyncOk(exec.pc.sync, record) && Steps(record, exec, choice, record', exec')
    ensures exec'.pc.Died? <==> Kills(record, exec.pc)
  {
    SyncFinishEffect(record, exec, choice, record', exec');
    PassDiesIff(exec.pc.sync.(k := exec.pc.sync.k + 1));
    hide Steps;
    hide SyncFrom;
    hide DeadlyFrom;
  }

  lemma PassPoint(record: Record, exec: Exec)
    requires Inv(record, exec) && InPass(exec.pc) && !exec.pc.AtSyncGet?
    ensures (exec.pc.AtSyncStart? || exec.pc.AtSyncFinish?) && SyncOk(exec.pc.sync, record)
  {
    SyncPointOk(record, exec);
  }

  /** A step kills its thread if and only if the record and the answer say so; it is then
      reading an answer of the external runtime. */
  lemma StepKillsIff(record: Record, exec: Exec, choice: Choice, record': Record, exec': Exec)
    requires Inv(record, exec) && Steps(record, exec, choice, record', exec') && !exec.pc.Died?
    ensures exec'.pc.Died? <==> Kills(record, exec.pc)
    ensures Kills(record, exec.pc) ==> exec.mode == External
  {
    OnlyPassesDie(record, exec, choice, record', exec');
    if InPass(exec.pc) {
      hide *;
      if exec.pc.AtSyncGet? {
        SyncGetEffect(record, exec, choice, record', exec');
        GetKillsIff(record, exec.pc);
      } else {
        PassPoint(record, exec);
        if exec.pc.AtSyncStart? {
          StartKillsIff(record, exec, choice, record', exec');
        } else {
          FinishKillsIff(record, exec, choice, record', exec');
        }
      }
    }
  }

  /** A thread that has ended leaves its run terminal if and only if it was not killed,
      or the run had been cancelled. */
  lemma EndedIsTerminalIff(record: Record, exec: Exec)
    requires Inv(record, exec) && Ended(exec.pc)
    ensures Terminal(record.status) <==> !exec.pc.Died? || record.cancelled
  {
  }
}
