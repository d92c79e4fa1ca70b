/** What holds of every run of the operator: any number of overlapping reconcilers on
    stale copies, lost answers, failed writes, user edits and a ledger that moves on. */
module OperatorRuns {
  import opened Wrappers
  import opened Status
  import opened LedgerView
  import opened Operator
  import opened OperatorSafety
  import L = Ledger

  /** A newly created AgentRun, over whatever the ledger already holds. */
  ghost predicate Fresh(w: World) {
    && !w.gone && |w.history| == 1 && w.history[0].version == 0 && w.history[0].status == EMPTY_STATUS
    && UniqueKeys(w.ledger) && w.workers == map[] && w.submissions == []
  }

  ghost predicate Steps(w: World, m: Move, w': World) {
    w.history != [] && CanMove(w, m) && w' == Apply(w, m)
  }

  ghost predicate OperatorRun(worlds: seq<World>, moves: seq<Move>) {
    && |worlds| == |moves| + 1 && Fresh(worlds[0])
    && forall n :: 0 <= n < |moves| ==> Steps(worlds[n], moves[n], worlds[n + 1])
  }

  lemma FreshIsOk(w: World)
    requires Fresh(w)
    ensures WorldInv(w)
  {
    assert VersionOk(w, 0);
  }

  lemma {:induction false} RunKeepsInv(worlds: seq<World>, moves: seq<Move>, n: nat)
    requires OperatorRun(worlds, moves) && n < |worlds|
    ensures WorldInv(worlds[n])
  {
    if n == 0 {
      FreshIsOk(worlds[0]);
    } else {
      RunKeepsInv(worlds, moves, n - 1);
      assert Steps(worlds[n - 1], moves[n - 1], worlds[n]);
      MoveKeepsInv(worlds[n - 1], moves[n - 1]);
    }
  }

  lemma StepGrows(worlds: seq<World>, moves: seq<Move>, n: nat)
    requires OperatorRun(worlds, moves) && n < |moves| && WorldInv(worlds[n])
    ensures Grows(worlds[n], worlds[n + 1])
  {
    assert Steps(worlds[n], moves[n], worlds[n + 1]);
    MoveKeepsInv(worlds[n], moves[n]);
  }

  lemma GrowsReflexive(w: World)
    ensures Grows(w, w)
  {
  }

  lemma {:induction false} RunGrows(worlds: seq<World>, moves: seq<Move>, i: nat, j: nat)
    requires OperatorRun(worlds, moves) && i <= j < |worlds|
    ensures Grows(worlds[i], worlds[j])
    decreases j
  {
    hide Grows;
    hide WorldInv;
    hide Steps;
    hide Fresh;
    if i == j {
      GrowsReflexive(worlds[i]);
    } else {
      RunGrows(worlds, moves, i, j - 1);
      RunKeepsInv(worlds, moves, j - 1);
      StepGrows(worlds, moves, j - 1);
      GrowsTransitive(worlds[i], worlds[j - 1], worlds[j]);
    }
  }

  lemma {:induction false} VersionsForward(w: World, u: nat, v: nat)
    requires WorldInv(w) && u <= v < |w.history| && w.history[u].uid == w.history[v].uid
    ensures Forward(w.history[u].status, w.history[v].status)
    decreases v
  {
    if u < v {
      assert StepForward(w.history, v);
      VersionsForward(w, u, v - 1);
    }
  }

  /** A recorded run id never changes and the stored phase only moves forward, from any
      stored version of an AgentRun to any later one, at any later moment. */
  lemma RecordedRunIsForever(worlds: seq<World>, moves: seq<Move>, i: nat, j: nat, u: nat, v: nat)
    requires OperatorRun(worlds, moves) && i <= j < |worlds|
    requires u < |worlds[i].history| && u <= v < |worlds[j].history| && worlds[i].history[u].uid == worlds[j].history[v].uid
    requires worlds[i].history[u].status.backendRunId != ""
    ensures worlds[j].history[v].status.backendRunId == worlds[i].history[u].status.backendRunId
    ensures PhaseAdvances(worlds[i].history[u].status.phase, worlds[j].history[v].status.phase)
  {
    RunGrows(worlds, moves, i, j);
    RunKeepsInv(worlds, moves, j);
    VersionsForward(worlds[j], u, v);
  }

  /** A stored terminal phase is the ledger's status of the recorded run, then and ever after. */
  lemma TerminalPhaseAgrees(worlds: seq<World>, moves: seq<Move>, i: nat, j: nat, v: nat)
    requires OperatorRun(worlds, moves) && i <= j < |worlds| && v < |worlds[i].history|
    ensures var s := worlds[i].history[v].status;
      s.backendRunId != "" && IsTerminal(s.phase) ==>
        s.backendRunId in worlds[j].ledger && PhaseOf(worlds[j].ledger[s.backendRunId].status) == s.phase
  {
    RunGrows(worlds, moves, i, j);
    RunKeepsInv(worlds, moves, j);
    assert VersionOk(worlds[j], v);
  }

  /** A stored terminal phase comes with the time it finished. */
  lemma TerminalHasFinishTime(worlds: seq<World>, moves: seq<Move>, n: nat, v: nat)
    requires OperatorRun(worlds, moves) && n < |worlds| && v < |worlds[n].history|
    ensures IsTerminal(worlds[n].history[v].status.phase) ==> worlds[n].history[v].status.finishedAt.Some?
  {
    RunKeepsInv(worlds, moves, n);
    assert VersionOk(worlds[n], v);
  }

  lemma SameReasons(w: World, a: Cr, b: Cr)
    requires a.status == b.status && a.tenantLabel == b.tenantLabel
    ensures MayRelease(w, a) <==> MayRelease(w, b)
  {
  }

  lemma ReleaseIsJustified(w: World, m: Move)
    requires WorldInv(w) && CanMove(w, m)
    ensures Apply(w, m).history != []
    ensures Current(w).finalizer && !Current(Apply(w, m)).finalizer ==> Current(w).deleting && MayRelease(w, Current(w))
    ensures !w.gone && Apply(w, m).gone ==> !Current(Apply(w, m)).finalizer
  {
    hide Decide;
    hide AfterSubmit;
    hide AfterGet;
    hide AfterCancel;
    hide AfterCancelForDelete;
    hide MayAnswer;
    hide SubmitMayAnswer;
    hide Advances;
    hide MayRelease;
    hide Truthful;
    if m.Write? && m.result != Refused {
      assert VersionOk(w, |w.history| - 1);
      assert WorkerOk(w, w.workers[m.k]);
      if w.workers[m.k].WritingMeta? { SameReasons(w, w.workers[m.k].cr, Current(w)); }
    }
  }

  /** The finalizer goes only from an AgentRun being deleted, and only when no run was
      recorded, the recorded run is terminal, or it is not a run of the tenant the
      AgentRun is labelled with. While the finalizer is there, the object stays. */
  lemma FinalizerReleasedOnlyWhen(worlds: seq<World>, moves: seq<Move>, n: nat)
    requires OperatorRun(worlds, moves) && n < |moves|
    ensures worlds[n].history != [] && worlds[n + 1].history != []
    ensures var before, after := Current(worlds[n]), Current(worlds[n + 1]);
      before.finalizer && !after.finalizer ==>
        before.deleting &&
        (var id, ledger := before.status.backendRunId, worlds[n].ledger;
         id == "" || (id in ledger && (L.Terminal(ledger[id].status) || !Visible(ledger, id, before.tenantLabel))))
    ensures !worlds[n].gone && worlds[n + 1].gone ==> !Current(worlds[n + 1]).finalizer
  {
    RunKeepsInv(worlds, moves, n);
    RunKeepsInv(worlds, moves, n + 1);
    assert Steps(worlds[n], moves[n], worlds[n + 1]);
    ReleaseIsJustified(worlds[n], moves[n]);
  }

  lemma {:induction false} OneObjectBetween(w: World, u: nat, v: nat)
    requires WorldInv(w) && u <= v < |w.history| && w.history[u].uid == w.history[v].uid
    ensures forall x :: u <= x <= v ==> w.history[x].uid == w.history[u].uid
    decreases v
  {
    if u < v {
      assert StepForward(w.history, v);
      OneObjectBetween(w, u, v - 1);
    }
  }

  /** The operator deletes for age only on a stored version that is terminal, and only
      once the clock has reached its finishing time plus its time to live, as long as
      that many nanoseconds fit in an int64. The delete is by name: it hits the AgentRun
      that version was of, still terminal with the same run, if and only if no new AgentRun
      of the name has been created since; and that one is still past its time to live
      unless its time to live or its finishing time was changed after it was read. */
  lemma DeletesOnlyExpired(worlds: seq<World>, moves: seq<Move>, n: nat)
    requires OperatorRun(worlds, moves) && n < |moves| && moves[n].Delete?
    ensures moves[n].k in worlds[n].workers && worlds[n].workers[moves[n].k].Deleting? && worlds[n].history != []
    ensures var w, cr := worlds[n], worlds[n].workers[moves[n].k].cr;
      && IsVersion(w, cr) && cr.status.backendRunId != "" && IsTerminal(cr.status.phase)
      && cr.spec.ttlSeconds > 0 && cr.status.finishedAt.Some?
      && (cr.spec.ttlSeconds <= 9_223_372_036 ==> w.clock >= cr.status.finishedAt.value + cr.spec.ttlSeconds * 1_000_000_000)
      && (Current(w).uid == cr.uid ==>
            Current(w).status.backendRunId == cr.status.backendRunId && Current(w).status.phase == cr.status.phase)
      && (Current(w).uid == cr.uid && Current(w).spec.ttlSeconds == cr.spec.ttlSeconds && Current(w).status.finishedAt == cr.status.finishedAt ==>
            Expired(Current(w), w.clock))
      && (Current(w).uid == cr.uid <==> forall v :: cr.version <= v < |w.history| ==> w.history[v].uid == cr.uid)
  {
    var w := worlds[n];
    RunKeepsInv(worlds, moves, n);
    assert Steps(w, moves[n], worlds[n + 1]);
    assert WorkerOk(w, w.workers[moves[n].k]);
    var cr := w.workers[moves[n].k].cr;
    if Current(w).uid == cr.uid {
      VersionsForward(w, cr.version, |w.history| - 1);
      OneObjectBetween(w, cr.version, |w.history| - 1);
    }
    if cr.spec.ttlSeconds <= 9_223_372_036 { TtlDelayExactIff(cr.spec.ttlSeconds); }
  }

  /** Submissions reach the same run exactly when they carry the same tenant and key:
      lost answers, failed writes, stale copies and restarts create no second run. */
  lemma OneRunPerKey(worlds: seq<World>, moves: seq<Move>, n: nat, i: nat, j: nat)
    requires OperatorRun(worlds, moves) && n < |worlds|
    requires i < |worlds[n].submissions| && j < |worlds[n].submissions|
    ensures var a, b := worlds[n].submissions[i], worlds[n].submissions[j];
      a.id == b.id <==> a.tenant == b.tenant && a.key == b.key
  {
    RunKeepsInv(worlds, moves, n);
    assert SubmissionOk(worlds[n], i) && SubmissionOk(worlds[n], j);
  }

  /** The run an AgentRun records is one of its own submissions; so while its key stays
      the same, it is the run of that key and the AgentRun never submitted another. */
  lemma RecordedRunIsTheRun(worlds: seq<World>, moves: seq<Move>, n: nat, u: nat, key: string)
    requires OperatorRun(worlds, moves) && n < |worlds| && u < |worlds[n].history|
    requires worlds[n].history[u].status.backendRunId != ""
    requires forall v :: 0 <= v < |worlds[n].history| && worlds[n].history[v].uid == worlds[n].history[u].uid ==>
      EffectiveKey(worlds[n].history[v]) == key
    ensures var w, cr := worlds[n], worlds[n].history[u];
      && RunOf(w.ledger, cr.status.backendRunId, w.tenant, key)
      && forall j :: 0 <= j < |w.submissions| && w.submissions[j].uid == cr.uid ==>
        w.submissions[j] == Submitted(cr.uid, w.tenant, key, cr.status.backendRunId)
  {
    var w, cr := worlds[n], worlds[n].history[u];
    RunKeepsInv(worlds, moves, n);
    assert VersionOk(w, u);
    var i :| 0 <= i < |w.submissions| && w.submissions[i].uid == cr.uid && w.submissions[i].id == cr.status.backendRunId;
    assert SubmissionOk(w, i);
    forall j | 0 <= j < |w.submissions| && w.submissions[j].uid == cr.uid
      ensures w.submissions[j] == Submitted(cr.uid, w.tenant, key, cr.status.backendRunId)
    {
      assert SubmissionOk(w, j);
    }
  }

  /** From one stored version of an AgentRun to the next the phase goes back if and only
      if it was cancelled before any run was recorded, and the next version records a
      run that is not cancelled. */
  lemma PhaseGoesBackIff(worlds: seq<World>, moves: seq<Move>, n: nat, v: nat)
    requires OperatorRun(worlds, moves) && n < |worlds| && 0 < v < |worlds[n].history|
    requires worlds[n].history[v - 1].uid == worlds[n].history[v].uid
    ensures var a, b := worlds[n].history[v - 1].status, worlds[n].history[v].status;
      !PhaseAdvances(a.phase, b.phase) <==>
        a.phase == Cancelled && a.backendRunId == "" && b.backendRunId != "" && b.phase != Cancelled
  {
    RunKeepsInv(worlds, moves, n);
    assert VersionOk(worlds[n], v - 1) && VersionOk(worlds[n], v) && StepForward(worlds[n].history, v);
  }
}
