/** The parts of the custom resources' specs that the controllers read. */
module Specs {
  import opened Wrappers
  import opened Graph

  datatype DagNode = DagNode(name: string, role: string, dependsOn: seq<string>, prompt: string)

  /** The parts of an AgentRun's spec the controllers read. A nil DAG is None. */
  datatype RunSpec = RunSpec(agentRef: string, task: string, dag: Option<seq<DagNode>>, maxAttempts: nat,
                             ttlSeconds: nat, idempotencyKey: string, cancel: bool)

  /** The parts of an Agent's spec the controllers read. */
  datatype AgentSpec = AgentSpec(projectId: string, role: string, providerRef: string, model: string, maxTokens: nat,
                                 tools: seq<string>, policyRef: string, sandboxMode: string, runtimeClassName: string)

  function DagNodes(dag: seq<DagNode>): seq<Node> {
    seq(|dag|, i requires 0 <= i < |dag| => Node(dag[i].name, dag[i].dependsOn))
  }

  /** The graph `validateDAG` looks at. */
  function SpecDag(spec: RunSpec): Option<seq<Node>> {
    if spec.dag.None? then None else Some(DagNodes(spec.dag.value))
  }
}
