/** When the policy still permits the agent at the moment the run is submitted: whenever
    it was kept as it was approved, but not otherwise promised. */
module GovernanceLimits {
  import opened Wrappers
  import opened Status
  import opened Specs
  import opened Governance
  import opened GovernanceSafety

  /** The stored policy has kept its spec, and has been there, since it was read. */
  predicate KeptSince(versions: seq<Policy>, policy: Policy) {
    forall v :: policy.version <= v < |versions| ==> versions[v].present && versions[v].spec == policy.spec
  }

  /** Whichever stored policy an approval rests on: if it has not been edited or removed
      since, it is there now and permits what it was approved to. */
  lemma KeptApprovalStillPermits(worlds: seq<World>, moves: seq<Move>, n: nat, a: Approval)
    requires GovernedRun(worlds, moves) && n < |worlds| && a in worlds[n].approvals
    ensures var versions := VersionsOf(worlds[n].policies, a.spec.policyRef);
      && IsVersion(versions, a.policy)
      && (KeptSince(versions, a.policy) ==> Exists(versions) && Permits(versions[|versions| - 1].spec, a.spec))
  {
    RunKeepsInv(worlds, moves, n);
    assert ApprovalOk(worlds[n], a);
  }

  /** A submitted run's agent was approved, and if the policy of any of its approvals has
      been kept, the current policy permits it when the run is submitted. */
  lemma KeptPolicyStillPermits(worlds: seq<World>, moves: seq<Move>, n: nat)
    requires GovernedRun(worlds, moves) && n < |moves| && moves[n].SubmitRun?
    ensures |worlds[n + 1].handed| == |worlds[n].handed| + 1
    ensures var h, w := worlds[n + 1].handed[|worlds[n].handed|], worlds[n];
      var versions := VersionsOf(w.policies, h.agent.policyRef);
      && (exists a :: a in w.approvals && a.spec == h.agent)
      && forall a :: a in w.approvals && a.spec == h.agent && KeptSince(versions, a.policy) ==>
           Exists(versions) && Permits(versions[|versions| - 1].spec, h.agent)
  {
    var given := SubmissionsAreGoverned(worlds, moves, n);
    forall a | a in worlds[n].approvals { KeptApprovalStillPermits(worlds, moves, n, a); }
  }

  const NS := Namespace("t", {"t", "u"})

  const LOOSE := PolicySpec([], ["m/x"], true, "1")

  const STRICT := PolicySpec([], ["m/y"], true, "2")

  const WIDER := PolicySpec([], ["m/x", "m/y"], true, "2")

  const AGENT := AgentSpec("u", "", "m", "x", 0, [], "p", "", "")

  const RUN := RunSpec("a", "task", None, 1, 0, "", false)

  /** The policy and the agent come up; then the policy is edited, and a run is submitted
      before the agent has been looked at again. */
  function Moves(edited: PolicySpec): seq<Move> {
    [ChangePolicy("p", Create("t", LOOSE)), ReadPolicy(0, "p", 0), JudgePolicy(0, true, NoMessage), WritePolicy(0, true),
     ChangeAgent("a", Create("t", AGENT)), ReadAgent(0, "a", 0), JudgeAgent(0, true, Some(1), NoMessage), WriteAgent(0, true),
     ChangePolicy("p", EditSpec(edited)), CheckRun(0, true, "t", RUN, 1), SubmitRun(0)]
  }

  const EMPTY := World(NS, map[], map[], map[], [], [])

  ghost const POLICY0: Policy := Stored(0, 1, "t", LOOSE, UNJUDGED, true)

  ghost const POLICY1: Policy := JudgedPolicy(Some(NS), POLICY0, NoMessage).(version := 1)

  ghost const AGENT0: Agent := Stored(0, 1, "t", AGENT, UNJUDGED, true)

  ghost const AGENT1: Agent := JudgedAgent(Some(NS), AGENT0, Some(POLICY1), NoMessage).(version := 1)

  lemma LooseIsSound()
    ensures SoundPolicy(LOOSE)
  {
  }

  lemma PolicyComesUp(edited: PolicySpec) returns (worlds: seq<World>)
    ensures |worlds| == 5 && worlds[0] == EMPTY
    ensures forall n :: 0 <= n < 4 ==> Steps(worlds[n], Moves(edited)[n], worlds[n + 1])
    ensures worlds[4] == EMPTY.(policies := map["p" := [POLICY0, POLICY1]], workers := map[0 := Idle])
    ensures UpToDate(POLICY1)
  {
    hide SetCondition;
    hide SoundPolicy;
    assert SoundPolicy(LOOSE) by { LooseIsSound(); }
    var w1 := Apply(EMPTY, Moves(edited)[0]);
    var w2 := Apply(w1, Moves(edited)[1]);
    var w3 := Apply(w2, Moves(edited)[2]);
    var w4 := Apply(w3, Moves(edited)[3]);
    worlds := [EMPTY, w1, w2, w3, w4];
    assert w4.policies["p"] == [POLICY0, POLICY1];
  }

  lemma AgentComesUp(edited: PolicySpec, w: World) returns (worlds: seq<World>)
    requires w == EMPTY.(policies := map["p" := [POLICY0, POLICY1]], workers := map[0 := Idle]) && UpToDate(POLICY1)
    ensures |worlds| == 5 && worlds[0] == w
    ensures forall n :: 0 <= n < 4 ==> Steps(worlds[n], Moves(edited)[4 + n], worlds[n + 1])
    ensures worlds[4] == w.(agents := map["a" := [AGENT0, AGENT1]], approvals := [Approval(AGENT, POLICY1)])
    ensures UpToDate(AGENT1)
  {
    hide SetCondition;
    assert POLICY1.tenantLabel == "t" && POLICY1.spec == LOOSE;
    assert ModelRef(AGENT) == "m/x";
    hide JudgedPolicy;
    assert AgentIsReady(Some(NS), "t", AGENT, Some(POLICY1));
    var w1 := Apply(w, Moves(edited)[4]);
    var w2 := Apply(w1, Moves(edited)[5]);
    var w3 := Apply(w2, Moves(edited)[6]);
    var w4 := Apply(w3, Moves(edited)[7]);
    worlds := [w, w1, w2, w3, w4];
    assert w4.agents["a"] == [AGENT0, AGENT1];
  }

  lemma PolicyChangesInTime(edited: PolicySpec, w: World) returns (worlds: seq<World>)
    requires w.ns == NS && w.policies == map["p" := [POLICY0, POLICY1]] && w.agents == map["a" := [AGENT0, AGENT1]]
    requires w.workers == map[0 := Idle] && w.handed == [] && UpToDate(AGENT1) && POLICY1.present
    ensures |worlds| == 4 && worlds[0] == w
    ensures forall n :: 0 <= n < 3 ==> Steps(worlds[n], Moves(edited)[8 + n], worlds[n + 1])
    ensures worlds[3].handed == [Handed("t", RUN, AGENT)] && worlds[2].approvals == w.approvals
    ensures var versions := VersionsOf(worlds[2].policies, "p"); |versions| == 3 && versions[2].present && versions[2].spec == edited
  {
    hide SetCondition;
    assert AGENT1.tenantLabel == "t" && AGENT1.spec == AGENT;
    hide JudgedPolicy;
    hide JudgedAgent;
    var w1 := Apply(w, Moves(edited)[8]);
    var w2 := Apply(w1, Moves(edited)[9]);
    assert w2.workers[0] == Submitting(RUN, AGENT1);
    var w3 := Apply(w2, Moves(edited)[10]);
    worlds := [w, w1, w2, w3];
  }

  lemma EditedInTime(edited: PolicySpec) returns (worlds: seq<World>)
    ensures GovernedRun(worlds, Moves(edited)) && worlds[11].handed == [Handed("t", RUN, AGENT)]
    ensures worlds[10].approvals == [Approval(AGENT, POLICY1)] && POLICY1.version == 1 && POLICY1.spec == LOOSE
    ensures var versions := VersionsOf(worlds[10].policies, AGENT.policyRef);
      |versions| == 3 && versions[2].present && versions[2].spec == edited
  {
    var first := PolicyComesUp(edited);
    var second := AgentComesUp(edited, first[4]);
    var third := PolicyChangesInTime(edited, second[4]);
    worlds := first + second[1..] + third[1..];
    assert POLICY1.version == 1 && POLICY1.spec == LOOSE;
    hide JudgedPolicy;
    hide JudgedAgent;
    hide Steps;
    forall n | 0 <= n < 11 ensures Steps(worlds[n], Moves(edited)[n], worlds[n + 1]) {
      if n < 4 {
        assert Steps(first[n], Moves(edited)[n], first[n + 1]);
      } else if n < 8 {
        assert Steps(second[n - 4], Moves(edited)[4 + (n - 4)], second[n - 3]);
      } else {
        assert Steps(third[n - 8], Moves(edited)[8 + (n - 8)], third[n - 7]);
      }
    }
  }

  /** A run can be submitted for an agent that the current policy no longer permits; the
      approval it rests on is an earlier one. */
  lemma ApprovalMayBeOutdated() returns (worlds: seq<World>)
    ensures GovernedRun(worlds, Moves(STRICT)) && worlds[11].handed == [Handed("t", RUN, AGENT)]
    ensures var versions := VersionsOf(worlds[10].policies, AGENT.policyRef);
      Exists(versions) && !Permits(versions[|versions| - 1].spec, AGENT)
  {
    worlds := EditedInTime(STRICT);
    assert ModelRef(AGENT) == "m/x";
  }

  /** An edited policy can still permit the agent: being kept is not necessary. */
  lemma EditedPolicyMayStillPermit() returns (worlds: seq<World>)
    ensures GovernedRun(worlds, Moves(WIDER)) && worlds[11].handed == [Handed("t", RUN, AGENT)]
    ensures var versions := VersionsOf(worlds[10].policies, AGENT.policyRef);
      && (forall a :: a in worlds[10].approvals ==> !KeptSince(versions, a.policy))
      && Exists(versions) && Permits(versions[|versions| - 1].spec, AGENT)
  {
    worlds := EditedInTime(WIDER);
    assert ModelRef(AGENT) == "m/x";
    assert WIDER.allowedModels != LOOSE.allowedModels;
  }
}
