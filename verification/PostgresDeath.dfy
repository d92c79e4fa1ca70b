/** Over PostgreSQL an executor also stops for good when a statement refuses a number:
    exactly when that happens, and what it leaves behind. */
module PostgresDeath {
  import opened Wrappers
  import opened Ledger
  import opened Database
  import opened Simulation
  import opened Executor
  import opened ExecutorInvariant
  import opened ExecutorDeath
  import opened Protocol
  import opened ProtocolSafety
  import opened ProtocolRuns
  import opened ProtocolSimulation
  import Kahn

  /** The record the rows of a run spell out. */
  ghost function RowsRecord(t: RunTables, id: RunId): Record {
    Record(id, t.run.tenant, t.run.project, t.run.task, t.run.status, t.run.summary, t.run.cancelled,
           t.run.runtimeRunId, SelectSteps(t, t.run.tenant))
  }

  lemma RowsAreRecord(pg: PgSys, s: MemSys, id: RunId)
    requires Matches(pg, s) && id in pg.db.runs
    ensures id in s.mem.runs && RowsRecord(pg.db.runs[id], id) == s.mem.runs[id]
  {
    assert RunRepresented(pg.db.runs[id], id, s.mem.runs[id]);
    LoadAgrees(pg.db.runs[id], id, s.mem.runs[id]);
    hide SelectSteps;
  }

  /** The next statement would write a number its column cannot hold. */
  predicate Refused(record: Record, pc: Pc) {
    NextOp(pc).Some? && NumbersRefused(record, NextOp(pc).value)
  }

  /** The event is a step of the run's thread that raises, by the rows it works on. */
  ghost predicate Stops(pg: PgSys, event: Event, id: RunId) {
    && event.ExecStep? && event.id == id && id in pg.db.runs && id in pg.threads.execs
    && var record, pc := RowsRecord(pg.db.runs[id], id), pg.threads.execs[id].pc;
       Kills(record, pc) || Refused(record, pc)
  }

  predicate Stopped(exec: Exec) {
    exec.crashed || exec.pc.Died?
  }

  // ---------- one step ----------

  lemma RefusedStep(pg: PgSys, s: MemSys, event: Event, id: RunId)
    requires Matches(pg, s) && SysInv(s) && PgEnabled(pg, event) && event.ExecStep? && event.id == id
    requires id in s.mem.runs && id in s.threads.execs && Refused(s.mem.runs[id], s.threads.execs[id].pc)
    ensures id in PgNext(pg, event).threads.execs
    ensures PgNext(pg, event).threads.execs[id] == pg.threads.execs[id].(crashed := true)
  {
    ExecCallAgrees(pg, s, id);
    hide PgApply;
    hide SysInv;
    hide Represents;
    hide NumbersRefused;
    hide NextOp;
  }

  lemma AcceptedIsSame(pg: PgSys, s: MemSys, event: Event, id: RunId)
    requires Matches(pg, s) && SysInv(s) && PgEnabled(pg, event) && event.ExecStep? && event.id == id
    requires id in s.mem.runs && id in s.threads.execs && !Refused(s.mem.runs[id], s.threads.execs[id].pc)
    ensures InMemory(pg, event) == event
  {
    if NextOp(s.threads.execs[id].pc).Some? { ExecCallAgrees(pg, s, id); }
    hide PgApply;
    hide MemApply;
    hide SysInv;
    hide Represents;
    hide NumbersRefused;
    hide NextOp;
  }

  lemma StepNotCrashed(s: MemSys, event: Event, id: RunId)
    requires SysInv(s) && MemEnabled(s, event) && event.ExecStep? && event.id == id
    ensures id in MemNext(s, event).threads.execs && !MemNext(s, event).threads.execs[id].crashed
  {
    ExecStepEffect(s, event);
    hide SysInv;
    hide MemNext;
    hide StoreEffect;
    hide Advance;
  }

  lemma SameThreads(pg: PgSys, s: MemSys)
    requires Matches(pg, s)
    ensures pg.threads == s.threads && pg.db.runs.Keys == s.mem.runs.Keys
  {
    SameKeys(pg.db, s.mem);
  }

  lemma AcceptedStep(pg: PgSys, s: MemSys, event: Event, id: RunId)
    requires Matches(pg, s) && SysInv(s) && PgEnabled(pg, event) && event.ExecStep? && event.id == id
    requires id in s.mem.runs && id in s.threads.execs && !Refused(s.mem.runs[id], s.threads.execs[id].pc)
    ensures id in PgNext(pg, event).threads.execs && !PgNext(pg, event).threads.execs[id].crashed
    ensures PgNext(pg, event).threads.execs[id].pc.Died? <==> Kills(s.mem.runs[id], s.threads.execs[id].pc)
  {
    hide *;
    AcceptedIsSame(pg, s, event, id);
    StepSimulates(pg, s, event);
    OwnRun(s, id);
    StepNotCrashed(s, event, id);
    OwnStepDiesIff(s, event, id);
    SameThreads(PgNext(pg, event), MemNext(s, event));
  }

  lemma AliveBefore(pg: PgSys, event: Event)
    requires PgEnabled(pg, event) && event.ExecStep?
    ensures event.id in pg.threads.execs && !Stopped(pg.threads.execs[event.id])
  {
  }

  /** A step of the thread stops it exactly when the rows and the answer say so: a
      refused number leaves it where it was, a deadly answer ends it. */
  lemma OwnStepStopsIff(pg: PgSys, s: MemSys, event: Event, id: RunId)
    requires Matches(pg, s) && SysInv(s) && PgEnabled(pg, event) && event.ExecStep? && event.id == id
    ensures id in PgNext(pg, event).threads.execs
    ensures Stopped(PgNext(pg, event).threads.execs[id]) <==> Stops(pg, event, id)
    ensures PgNext(pg, event).threads.execs[id].crashed ==>
      PgNext(pg, event).threads.execs[id].pc == pg.threads.execs[id].pc && Refused(RowsRecord(pg.db.runs[id], id), pg.threads.execs[id].pc)
  {
    AliveBefore(pg, event);
    SameThreads(pg, s);
    OwnRun(s, id);
    RowsAreRecord(pg, s, id);
    if Refused(s.mem.runs[id], s.threads.execs[id].pc) { RefusedStep(pg, s, event, id); } else { AcceptedStep(pg, s, event, id); }
    hide Kills;
    hide Refused;
    hide PgNext;
    hide SysInv;
    hide Inv;
  }

  // ---------- whole runs ----------

  lemma OthersKeepThread(pg: PgSys, event: Event, id: RunId)
    requires PgEnabled(pg, event) && id in pg.threads.execs && !(event.ExecStep? && event.id == id) && event != Crash(id)
    ensures id in PgNext(pg, event).threads.execs && PgNext(pg, event).threads.execs[id] == pg.threads.execs[id]
  {
    hide SelectSteps;
    hide PgOn;
    hide AdvanceExec;
    hide Kahn.Order;
    hide RequestFits;
    hide RequestSpecs;
    hide StepsFit;
  }

  lemma NewThreadRuns(pg: PgSys, event: Event, id: RunId)
    requires PgEnabled(pg, event) && id !in pg.threads.execs && id in PgNext(pg, event).threads.execs
    ensures !Stopped(PgNext(pg, event).threads.execs[id]) && !PgNext(pg, event).threads.execs[id].crashed
  {
    hide PgCall;
    hide AdvanceExec;
  }

  /** A run over PostgreSQL beside the run over memory that matches it. */
  ghost predicate Beside(pgs: seq<PgSys>, states: seq<MemSys>, events: seq<Event>) {
    PgRun(pgs, events) && MemRun(states, EventsInMemory(pgs, events)) && RunsMatch(pgs, states, events)
  }

  lemma BesideAt(pgs: seq<PgSys>, states: seq<MemSys>, events: seq<Event>, n: nat)
    requires Beside(pgs, states, events) && n <= |events|
    ensures |pgs| == |states| == |events| + 1 && Matches(pgs[n], states[n]) && SysInv(states[n])
    ensures n < |events| ==> PgEnabled(pgs[n], events[n]) && pgs[n + 1] == PgNext(pgs[n], events[n])
  {
    RunKeepsInv(states, EventsInMemory(pgs, events), n);
    hide MemRun;
    hide PgNext;
    hide SysInv;
    hide Matches;
    hide RepliesMatch;
  }

  lemma ThreadsStay(pgs: seq<PgSys>, states: seq<MemSys>, events: seq<Event>, m: nat, n: nat, id: RunId)
    requires Beside(pgs, states, events) && m <= n <= |events| && id in pgs[m].threads.execs
    ensures id in pgs[n].threads.execs
  {
    BesideAt(pgs, states, events, m);
    BesideAt(pgs, states, events, n);
    OwnRun(states[m], id);
    RunsEvolve(states, EventsInMemory(pgs, events), m, n, id);
    hide SysInv;
    hide Inv;
    hide Represents;
  }

  lemma InitHasNoThread(pgs: seq<PgSys>, events: seq<Event>, id: RunId)
    requires PgRun(pgs, events)
    ensures |pgs| == |events| + 1 && id !in pgs[0].threads.execs
  {
  }

  ghost predicate StoppedBy(pgs: seq<PgSys>, events: seq<Event>, n: nat, id: RunId)
    requires n <= |events| && n <= |pgs|
  {
    exists m :: 0 <= m < n && Stops(pgs[m], events[m], id)
  }

  predicate Uncrashed(events: seq<Event>, n: nat, id: RunId)
    requires n <= |events|
  {
    forall m :: 0 <= m < n ==> events[m] != Crash(id)
  }

  lemma BesideIsRun(pgs: seq<PgSys>, states: seq<MemSys>, events: seq<Event>)
    requires Beside(pgs, states, events)
    ensures PgRun(pgs, events)
  {
  }

  lemma StopsKnown(pg: PgSys, event: Event, id: RunId)
    requires Stops(pg, event, id)
    ensures id in pg.threads.execs && event.ExecStep? && event.id == id
  {
  }

  /** The thread is about to start a step or to report its success. */
  predicate Writing(pc: Pc) {
    NextOp(pc).Some? && (NextOp(pc).value.StartStep? || NextOp(pc).value.SucceedStep?)
  }

  lemma LastStep(pg: PgSys, s: MemSys, event: Event, id: RunId)
    requires Matches(pg, s) && SysInv(s) && PgEnabled(pg, event) && id in pg.threads.execs && event != Crash(id)
    ensures id in PgNext(pg, event).threads.execs
    ensures Stopped(PgNext(pg, event).threads.execs[id]) <==> Stopped(pg.threads.execs[id]) || Stops(pg, event, id)
    ensures PgNext(pg, event).threads.execs[id].crashed ==>
      Writing(PgNext(pg, event).threads.execs[id].pc) || PgNext(pg, event).threads.execs[id] == pg.threads.execs[id]
  {
    if event.ExecStep? && event.id == id {
      AliveBefore(pg, event);
      OwnStepStopsIff(pg, s, event, id);
    } else {
      OthersKeepThread(pg, event, id);
    }
    hide PgNext;
    hide Kills;
    hide NextOp;
    hide SysInv;
    hide Matches;
    hide Stopped;
  }

  lemma UncrashedParts(events: seq<Event>, n: nat, id: RunId)
    requires n < |events| && Uncrashed(events, n + 1, id)
    ensures Uncrashed(events, n, id) && events[n] != Crash(id)
  {
  }

  lemma StoppedByGrows(pgs: seq<PgSys>, events: seq<Event>, n: nat, id: RunId)
    requires n < |events| && n < |pgs|
    ensures StoppedBy(pgs, events, n + 1, id) <==> StoppedBy(pgs, events, n, id) || Stops(pgs[n], events[n], id)
  {
    hide Stops;
  }

  lemma BornRunning(pgs: seq<PgSys>, states: seq<MemSys>, events: seq<Event>, n: nat, id: RunId)
    requires Beside(pgs, states, events) && n < |events| && |pgs| == |events| + 1
    requires id !in pgs[n].threads.execs && id in pgs[n + 1].threads.execs
    ensures !Stopped(pgs[n + 1].threads.execs[id]) && !pgs[n + 1].threads.execs[id].crashed && !StoppedBy(pgs, events, n + 1, id)
  {
    BesideAt(pgs, states, events, n);
    NewThreadRuns(pgs[n], events[n], id);
    forall m | 0 <= m <= n ensures !Stops(pgs[m], events[m], id) {
      if Stops(pgs[m], events[m], id) {
        StopsKnown(pgs[m], events[m], id);
        ThreadsStay(pgs, states, events, m, n, id);
      }
    }
    hide Stops;
    hide Stopped;
    hide Beside;
    hide PgNext;
    hide Matches;
    hide SysInv;
  }

  /** A thread whose process lives has stopped exactly when one of its steps so far
      stopped it; where it crashed, a statement was refused. */
  lemma {:induction false} StoppedIff(pgs: seq<PgSys>, states: seq<MemSys>, events: seq<Event>, n: nat, id: RunId)
    requires Beside(pgs, states, events) && n <= |events| && Uncrashed(events, n, id) && |pgs| == |events| + 1
    requires id in pgs[n].threads.execs
    ensures Stopped(pgs[n].threads.execs[id]) <==> StoppedBy(pgs, events, n, id)
    ensures pgs[n].threads.execs[id].crashed ==> Writing(pgs[n].threads.execs[id].pc)
    decreases n
  {
    hide *;
    BesideIsRun(pgs, states, events);
    InitHasNoThread(pgs, events, id);
    BesideAt(pgs, states, events, n - 1);
    UncrashedParts(events, n - 1, id);
    if id in pgs[n - 1].threads.execs {
      StoppedIff(pgs, states, events, n - 1, id);
      LastStep(pgs[n - 1], states[n - 1], events[n - 1], id);
      StoppedByGrows(pgs, events, n - 1, id);
    } else {
      BornRunning(pgs, states, events, n - 1, id);
    }
  }

  /** In every run over PostgreSQL a step of a thread stops it for good if and only if the
      rows and the answer in hand say so. */
  lemma ThreadStopsIff(pgs: seq<PgSys>, events: seq<Event>, n: nat, id: RunId)
    requires PgRun(pgs, events) && n < |events| && events[n].ExecStep? && events[n].id == id
    ensures |pgs| == |events| + 1 && id in pgs[n].threads.execs && id in pgs[n + 1].threads.execs
    ensures !Stopped(pgs[n].threads.execs[id])
    ensures Stopped(pgs[n + 1].threads.execs[id]) <==> Stops(pgs[n], events[n], id)
  {
    var states := PostgresRunIsMatched(pgs, events);
    BesideAt(pgs, states, events, n);
    AliveBefore(pgs[n], events[n]);
    OwnStepStopsIff(pgs[n], states[n], events[n], id);
    hide *;
  }

  lemma StoppedRecord(record: Record, exec: Exec)
    requires Inv(record, exec) && (Ended(exec.pc) || (exec.crashed && Writing(exec.pc))) && (exec.crashed ==> Writing(exec.pc))
    ensures Terminal(record.status) <==> record.cancelled || !Stopped(exec)
  {
  }

  /** Over PostgreSQL a thread that will make no more calls, in a process that lives,
      leaves its row terminal if and only if the run was cancelled or no step of the
      thread read an answer that kills it or wrote a number its column refuses. */
  lemma EndedRowIsTerminalIff(pgs: seq<PgSys>, events: seq<Event>, n: nat, id: RunId)
    requires PgRun(pgs, events) && n <= |events| && Uncrashed(events, n, id) && |pgs| == |events| + 1
    requires id in pgs[n].threads.execs && (Ended(pgs[n].threads.execs[id].pc) || pgs[n].threads.execs[id].crashed)
    ensures id in pgs[n].db.runs
    ensures var row := pgs[n].db.runs[id].run;
      Terminal(row.status) <==> row.cancelled || !StoppedBy(pgs, events, n, id)
  {
    var states := PostgresRunIsMatched(pgs, events);
    BesideAt(pgs, states, events, n);
    StoppedIff(pgs, states, events, n, id);
    OwnRun(states[n], id);
    RowsAreRecord(pgs[n], states[n], id);
    StoppedRecord(states[n].mem.runs[id], states[n].threads.execs[id]);
    SameThreads(pgs[n], states[n]);
    hide Inv;
    hide SysInv;
    hide Represents;
    hide PgRun;
    hide StoppedBy;
    hide Stopped;
    hide Writing;
  }
}
