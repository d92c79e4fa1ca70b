/** What the operator does not promise: that an early cancellation is final, and that a
    delete hits the AgentRun it was meant for. */
module OperatorLimits {
  import opened Wrappers
  import opened Status
  import opened LedgerView
  import opened Operator
  import opened OperatorRuns
  import Specs
  import L = Ledger

  // ---------- an early cancellation is not final ----------

  const EARLY := Specs.RunSpec("agent", "task", None, 1, 0, "k", true)

  const WHILE_CANCELLED := Cr(0, "uid", 1, "t", EARLY, EMPTY_STATUS, false, true)

  const EARLY_WORLD := World([WHILE_CANCELLED], false, "t", map[], 0, map[], [])

  const ACCEPTED := ControlRun("r", "queued", "", None, None, [])

  const EARLY_LEDGER: View := map["r" := Run("t", "k", L.Queued)]

  const EARLY_MOVES := [Read(0, 0), Branch(0, true, ""), Write(0, Stored), EditSpec(EARLY.(cancel := false)), Read(0, 2), Branch(0, true, ""),
                        CallSubmit(0, Ok(ACCEPTED), EARLY_LEDGER), Write(0, Stored)]

  lemma CancelledEarly() returns (worlds: seq<World>)
    ensures |worlds| == 5 && worlds[0] == EARLY_WORLD
    ensures forall n :: 0 <= n < 4 ==> Steps(worlds[n], EARLY_MOVES[n], worlds[n + 1])
    ensures var v1 := WHILE_CANCELLED.(version := 1, status := CancelledEarlyStatus(WHILE_CANCELLED, 0));
      worlds[4] == EARLY_WORLD.(history := [WHILE_CANCELLED, v1, v1.(version := 2, generation := 2, spec := EARLY.(cancel := false))],
                                workers := map[0 := Idle])
  {
    hide SetCondition;
    var w0 := EARLY_WORLD;
    var w1 := Apply(w0, EARLY_MOVES[0]);
    var w2 := Apply(w1, EARLY_MOVES[1]);
    var w3 := Apply(w2, EARLY_MOVES[2]);
    var w4 := Apply(w3, EARLY_MOVES[3]);
    worlds := [w0, w1, w2, w3, w4];
  }

  lemma SubmittedAfterAll(w4: World) returns (worlds: seq<World>)
    requires |w4.history| == 3 && !w4.gone && w4.tenant == "t" && w4.ledger == map[] && w4.workers == map[0 := Idle]
    requires var cr := w4.history[2];
      cr.version == 2 && cr.tenantLabel == "t" && cr.spec == EARLY.(cancel := false) && cr.finalizer && !cr.deleting && cr.status.backendRunId == ""
    ensures |worlds| == 5 && worlds[0] == w4
    ensures forall n :: 0 <= n < 4 ==> Steps(worlds[n], EARLY_MOVES[4 + n], worlds[n + 1])
    ensures |worlds[4].history| == 4 && worlds[4].history[..3] == w4.history && worlds[4].history[3].status.phase == Queued
  {
    hide SetCondition;
    hide ProjectNodes;
    hide ProjectPhase;
    NamesProject(L.Queued);
    var w5 := Apply(w4, EARLY_MOVES[4]);
    var w6 := Apply(w5, EARLY_MOVES[5]);
    var w7 := Apply(w6, EARLY_MOVES[6]);
    var w8 := Apply(w7, EARLY_MOVES[7]);
    worlds := [w4, w5, w6, w7, w8];
  }

  /** An AgentRun cancelled before its submission has no recorded run, and is submitted
      after all when `cancel` is unset: its phase goes back from Cancelled to Queued. */
  lemma EarlyCancellationCanBeUndone() returns (worlds: seq<World>)
    ensures OperatorRun(worlds, EARLY_MOVES) && |worlds[8].history| == 4
    ensures worlds[8].history[1].status.phase == Cancelled && worlds[8].history[3].status.phase == Queued
  {
    var first := CancelledEarly();
    var second := SubmittedAfterAll(first[4]);
    worlds := first + second[1..];
    hide Steps;
    forall n | 0 <= n < 8 ensures Steps(worlds[n], EARLY_MOVES[n], worlds[n + 1]) {
      if n >= 4 { assert Steps(second[n - 4], EARLY_MOVES[4 + (n - 4)], second[n - 3]); }
    }
    assert worlds[8].history[1] == worlds[8].history[..3][1];
  }

  // ---------- a delete by name can hit a new object ----------

  const AGING := Specs.RunSpec("agent", "task", None, 1, 1, "k", false)

  const AGED := Cr(0, "old", 1, "t", AGING, EMPTY_STATUS, false, true)

  const AGED_WORLD := World([AGED], false, "t", map[], 0, map[], [])

  const NEWBORN := Cr(4, "new", 1, "t", AGING, EMPTY_STATUS, false, false)

  const DONE := ControlRun("r", "succeeded", "", None, Some(0), [])

  const DONE_LEDGER: View := map["r" := Run("t", "k", L.Succeeded)]

  const AGED_MOVES := [Read(0, 0), Branch(0, true, ""), CallSubmit(0, Ok(DONE), DONE_LEDGER), Write(0, Stored),
                       Read(0, 1), Branch(0, true, ""), Tick(1_000_000_000), Ttl(0),
                       UserDelete, Read(1, 2), Branch(1, false, ""), Write(1, Stored), Recreate("new", "t", AGING), Delete(0, true)]

  lemma RunFinishes() returns (worlds: seq<World>)
    ensures |worlds| == 5 && worlds[0] == AGED_WORLD
    ensures forall n :: 0 <= n < 4 ==> Steps(worlds[n], AGED_MOVES[n], worlds[n + 1])
    ensures worlds[4].history == [AGED, AGED.(version := 1, status := SubmittedStatus(AGED, DONE, 0))]
    ensures !worlds[4].gone && worlds[4].tenant == "t" && worlds[4].clock == 0 && worlds[4].workers == map[0 := Idle]
    ensures var s := SubmittedStatus(AGED, DONE, 0); s.phase == Succeeded && s.backendRunId == "r" && s.finishedAt == Some(0)
  {
    hide SetCondition;
    hide ProjectNodes;
    hide ProjectPhase;
    NamesProject(L.Succeeded);
    var w1 := Apply(AGED_WORLD, AGED_MOVES[0]);
    var w2 := Apply(w1, AGED_MOVES[1]);
    var w3 := Apply(w2, AGED_MOVES[2]);
    var w4 := Apply(w3, AGED_MOVES[3]);
    worlds := [AGED_WORLD, w1, w2, w3, w4];
    assert w4.history == [AGED, AGED.(version := 1, status := SubmittedStatus(AGED, DONE, 0))];
  }

  /** What a submission stores needs no sanitising. */
  lemma SubmittedIsSanitized(cr: Cr, control: ControlRun, now: Time)
    ensures Sanitize(SubmittedStatus(cr, control, now), cr.generation) == SubmittedStatus(cr, control, now)
  {
    var s := SubmittedStatus(cr, control, now);
    var done, ready, refs := CompletedCondition(s.phase, cr.generation), ReadyCondition(cr.generation), ReferencesReady(cr.generation);
    var accepted := Condition(Accepted, True, ControlPlaneAccepted, Fixed(ControlPlaneAccepted), cr.generation);
    var c1 := SetCondition(cr.status.conditions, done);
    var c2 := SetCondition(c1, refs);
    var c3 := SetCondition(c2, ready);
    assert s.conditions == SetCondition(c3, accepted);
    SetThenFind(cr.status.conditions, done, done.kind);
    SetThenFind(c1, refs, done.kind);
    SetThenFind(c2, ready, done.kind);
    SetThenFind(c2, ready, ready.kind);
    SetThenFind(c3, accepted, done.kind);
    SetThenFind(c3, accepted, ready.kind);
    SanitizedIff(s, cr.generation);
  }

  lemma ExpiryIsFound(w4: World) returns (worlds: seq<World>)
    requires var s := SubmittedStatus(AGED, DONE, 0);
      s.phase == Succeeded && s.backendRunId == "r" && w4.history == [AGED, AGED.(version := 1, status := s)]
    requires !w4.gone && w4.tenant == "t" && w4.workers == map[0 := Idle]
    ensures |worlds| == 3 && worlds[0] == w4
    ensures forall n :: 0 <= n < 2 ==> Steps(worlds[n], AGED_MOVES[4 + n], worlds[n + 1])
    ensures worlds[2] == w4.(workers := map[0 := CheckingTtl(w4.history[1])])
  {
    SubmittedIsSanitized(AGED, DONE, 0);
    hide SubmittedStatus;
    hide Sanitize;
    hide RejectStatus;
    hide CancelledEarlyStatus;
    var w5 := Apply(w4, AGED_MOVES[4]);
    var w6 := Apply(w5, AGED_MOVES[5]);
    worlds := [w4, w5, w6];
  }

  lemma TimeRunsOut(w6: World) returns (worlds: seq<World>)
    requires |w6.history| == 2 && w6.workers == map[0 := CheckingTtl(w6.history[1])] && w6.clock == 0
    requires w6.history[1].spec == AGING && w6.history[1].status.finishedAt == Some(0)
    ensures |worlds| == 3 && worlds[0] == w6
    ensures forall n :: 0 <= n < 2 ==> Steps(worlds[n], AGED_MOVES[6 + n], worlds[n + 1])
    ensures worlds[2] == w6.(clock := 1_000_000_000, workers := map[0 := Deleting(w6.history[1])])
  {
    TtlDelayExactIff(1);
    var w7 := Apply(w6, AGED_MOVES[6]);
    var w8 := Apply(w7, AGED_MOVES[7]);
    worlds := [w6, w7, w8];
  }

  lemma ObjectIsReleased(w8: World) returns (worlds: seq<World>)
    requires |w8.history| == 2 && !w8.gone && w8.workers == map[0 := Deleting(w8.history[1])]
    requires w8.history[0].uid == w8.history[1].uid == "old" && w8.history[1].finalizer && !w8.history[1].deleting
    requires IsTerminal(w8.history[1].status.phase) && w8.history[1].version == 1
    ensures |worlds| == 5 && worlds[0] == w8
    ensures forall n :: 0 <= n < 4 ==> Steps(worlds[n], AGED_MOVES[8 + n], worlds[n + 1])
    ensures worlds[4].gone && |worlds[4].history| == 4 && worlds[4].history[..2] == w8.history
    ensures worlds[4].history[2].uid == worlds[4].history[3].uid == "old"
    ensures worlds[4].workers == map[0 := Deleting(w8.history[1]), 1 := Idle]
  {
    hide RejectStatus;
    hide Sanitize;
    hide CancelledEarlyStatus;
    var w9 := Apply(w8, AGED_MOVES[8]);
    assert w9.history[2].deleting && w9.history[2].finalizer && w9.history[2].uid == "old";
    var w10 := Apply(w9, AGED_MOVES[9]);
    var w11 := Apply(w10, AGED_MOVES[10]);
    assert w11.workers[1] == WritingMeta(w9.history[2].(finalizer := false));
    var w12 := Apply(w11, AGED_MOVES[11]);
    worlds := [w8, w9, w10, w11, w12];
  }

  lemma NewObjectIsHit(w12: World) returns (worlds: seq<World>)
    requires w12.gone && |w12.history| == 4 && 0 in w12.workers && w12.workers[0] == Deleting(w12.history[1])
    requires forall v :: 0 <= v < 4 ==> w12.history[v].uid == "old"
    ensures |worlds| == 3 && worlds[0] == w12
    ensures forall n :: 0 <= n < 2 ==> Steps(worlds[n], AGED_MOVES[12 + n], worlds[n + 1])
    ensures !worlds[1].gone && worlds[2].gone && worlds[1].history == w12.history + [NEWBORN] && worlds[1].workers == w12.workers
  {
    var w13 := Apply(w12, AGED_MOVES[12]);
    var w14 := Apply(w13, AGED_MOVES[13]);
    worlds := [w12, w13, w14];
  }

  lemma AgedIsFresh()
    ensures Fresh(AGED_WORLD)
  {
  }

  /** The first moves of that run. */
  ghost predicate Goes(worlds: seq<World>, from: nat, count: nat) {
    |worlds| == count + 1 && from + count <= |AGED_MOVES|
    && forall n :: 0 <= n < count ==> Steps(worlds[n], AGED_MOVES[from + n], worlds[n + 1])
  }

  lemma Joined(first: seq<World>, second: seq<World>, at: nat) returns (worlds: seq<World>)
    requires Goes(first, 0, at) && |second| > 0 && Goes(second, at, |second| - 1) && first[at] == second[0]
    ensures Goes(worlds, 0, at + |second| - 1)
    ensures worlds[0] == first[0] && forall n :: 0 <= n < |second| ==> worlds[at + n] == second[n]
  {
    hide Steps;
    worlds := first + second[1..];
    forall n | 0 <= n < at + |second| - 1 ensures Steps(worlds[n], AGED_MOVES[n], worlds[n + 1]) {
      if n < at {
        assert Steps(first[n], AGED_MOVES[0 + n], first[n + 1]);
      } else {
        assert Steps(second[n - at], AGED_MOVES[at + (n - at)], second[n - at + 1]);
      }
    }
  }

  /** A reconciler that read an expired AgentRun can delete a new one of the same name
      that has never run. */
  lemma DeleteCanHitNewObject() returns (worlds: seq<World>)
    ensures OperatorRun(worlds, AGED_MOVES) && worlds[13].history != []
    ensures 0 in worlds[13].workers && worlds[13].workers[0].Deleting? && worlds[13].workers[0].cr.uid == "old"
    ensures !worlds[13].gone && worlds[14].gone && Current(worlds[13]) == NEWBORN
  {
    var a := RunFinishes();
    var b := ExpiryIsFound(a[4]);
    var c := TimeRunsOut(b[2]);
    var d := ObjectIsReleased(c[2]);
    var e := NewObjectIsHit(d[4]);
    AgedIsFresh();
    worlds := Joined(a, b, 4);
    worlds := Joined(worlds, c, 6);
    worlds := Joined(worlds, d, 8);
    worlds := Joined(worlds, e, 12);
    hide Steps;
    hide Fresh;
  }

  // ---------- a time to live raised too late ----------

  const PROLONGED := AGING.(ttlSeconds := 1000)

  const PROLONGING_MOVES := AGED_MOVES[..8] + [EditSpec(PROLONGED), Delete(0, true)]

  lemma ProlongedTooLate(w8: World) returns (w9: World, w10: World)
    requires |w8.history| == 2 && !w8.gone && w8.clock == 1_000_000_000 && w8.workers == map[0 := Deleting(w8.history[1])]
    requires var cr := w8.history[1]; cr.spec == AGING && cr.status.finishedAt == Some(0) && cr.uid == "old" && cr.finalizer && !cr.deleting
    ensures Steps(w8, EditSpec(PROLONGED), w9) && Steps(w9, Delete(0, true), w10)
    ensures w9.history != [] && w10.history != [] && 0 in w9.workers && w9.workers[0] == Deleting(w8.history[1])
    ensures Current(w9).uid == "old" && Current(w9).spec == PROLONGED && !Expired(Current(w9), w9.clock)
    ensures !Current(w9).deleting && Current(w10).deleting && Current(w10).uid == "old"
  {
    TtlDelayExactIff(1000);
    w9 := Apply(w8, EditSpec(PROLONGED));
    w10 := Apply(w9, Delete(0, true));
  }

  /** An AgentRun whose time to live is raised after it was found expired is deleted all
      the same, before its new time is up. */
  lemma RaisedTimeToLiveIsMissed() returns (worlds: seq<World>)
    ensures OperatorRun(worlds, PROLONGING_MOVES) && worlds[9].history != [] && worlds[10].history != []
    ensures 0 in worlds[9].workers && worlds[9].workers[0].Deleting? && worlds[9].workers[0].cr.uid == Current(worlds[9]).uid
    ensures Current(worlds[9]).spec == PROLONGED && !Expired(Current(worlds[9]), worlds[9].clock)
    ensures !Current(worlds[9]).deleting && Current(worlds[10]).deleting && Current(worlds[10]).uid == Current(worlds[9]).uid
  {
    var a := RunFinishes();
    var b := ExpiryIsFound(a[4]);
    var c := TimeRunsOut(b[2]);
    AgedIsFresh();
    worlds := Joined(a, b, 4);
    worlds := Joined(worlds, c, 6);
    var first := worlds;
    var w9, w10 := ProlongedTooLate(first[8]);
    worlds := first + [w9, w10];
    hide Steps;
    hide Fresh;
    forall n | 0 <= n < 10 ensures Steps(worlds[n], PROLONGING_MOVES[n], worlds[n + 1]) {
      if n < 8 { assert Steps(first[n], AGED_MOVES[0 + n], first[n + 1]); }
    }
  }
}
