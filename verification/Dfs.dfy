/** The operator's `validateDAG`: a depth-first search that marks nodes as being
    visited and as visited. Go ranges over maps in an unspecified order, so every
    such loop here takes the remaining keys in an arbitrary order. */
module Dfs {
  import opened Wrappers
  import opened Graph

  datatype DagError =
    | Duplicated(name: string)
    | UnknownDependency(node: string, dependency: string)
    | CycleAt(node: string)

  /** The fault an error reports is really present in the node list. */
  ghost predicate Explains(nodes: seq<Node>, error: DagError) {
    match error
    case Duplicated(name) => exists i, j :: 0 <= i < j < |nodes| && nodes[i].name == nodes[j].name == name
    case UnknownDependency(node, dependency) => DependsOn(nodes, node, dependency) && dependency !in Names(nodes)
    case CycleAt(node) => exists cycle :: IsCycle(nodes, cycle) && cycle[0] == node
  }

  predicate Marked(marks: map<string, bool>, name: string) {
    name in marks && marks[name]
  }

  /** `dependencies` is the node list read as a map. */
  ghost predicate Represents(dependencies: map<string, seq<string>>, nodes: seq<Node>) {
    && dependencies.Keys == Names(nodes)
    && forall i :: 0 <= i < |nodes| ==> nodes[i].name in dependencies && dependencies[nodes[i].name] == nodes[i].deps
  }

  lemma RepresentsEdges(dependencies: map<string, seq<string>>, nodes: seq<Node>, a: string, b: string)
    requires Represents(dependencies, nodes)
    ensures DependsOn(nodes, a, b) <==> a in dependencies && b in dependencies[a]
  {
    if a in dependencies {
      var i :| 0 <= i < |nodes| && nodes[i].name == a;
    }
  }

  class Search {
    const dependencies: map<string, seq<string>>

    var visiting: map<string, bool>
    var visited: map<string, bool>

    ghost const nodes: seq<Node>

    ghost var finished: seq<string>  // visited names in the order the search left them

    /** The names being visited are the recursion stack, a walk; the visited ones
        form a dependency-first listing. */
    ghost predicate Valid(stack: seq<string>)
      reads this
    {
      && Represents(dependencies, nodes) && Declared(nodes)
      && IsWalk(nodes, stack)
      && (forall x :: Marked(visiting, x) <==> x in stack)
      && (forall x :: Marked(visited, x) <==> x in finished)
      && (forall x :: x in stack ==> x in dependencies && x !in finished)
      && DependenciesFirst(nodes, finished)
    }

    constructor (dependencies: map<string, seq<string>>, ghost nodes: seq<Node>)
      requires Represents(dependencies, nodes) && Declared(nodes)
      ensures this.dependencies == dependencies && this.nodes == nodes
      ensures Valid([])
    {
      this.dependencies, this.nodes := dependencies, nodes;
      visiting, visited, finished := map[], map[], [];
    }

    ghost function Unvisited(): set<string>
      reads this
    {
      set x | x in dependencies && !Marked(visiting, x)
    }

    lemma CycleThrough(stack: seq<string>, node: string)
      requires IsWalk(nodes, stack) && node in stack
      requires DependsOn(nodes, stack[|stack| - 1], node)
      ensures Explains(nodes, CycleAt(node))
    {
      var i :| 0 <= i < |stack| && stack[i] == node;
      WalkSuffix(nodes, stack, i);
      WalkExtends(nodes, stack[i..], node);
      assert IsCycle(nodes, stack[i..] + [node]);
    }

    method Enter(node: string, ghost stack: seq<string>)
      requires Valid(stack) && node in dependencies && node !in stack && node !in finished
      requires stack != [] ==> DependsOn(nodes, stack[|stack| - 1], node)
      modifies this`visiting
      ensures Valid(stack + [node])
    {
      WalkExtends(nodes, stack, node);
      visiting := visiting[node := true];
    }

    lemma FinishNode(done: seq<string>, node: string, deps: seq<string>)
      requires Represents(dependencies, nodes) && node in dependencies && deps == dependencies[node]
      requires DependenciesFirst(nodes, done) && node !in done
      requires forall d :: d in deps ==> d in done
      ensures DependenciesFirst(nodes, done + [node])
    {
      var longer := done + [node];
      forall j, d | 0 <= j < |longer| && DependsOn(nodes, longer[j], d) ensures d in longer[..j] {
        assert longer[..j] == done[..j];
        if j == |done| { RepresentsEdges(dependencies, nodes, node, d); }
      }
    }

    method Leave(node: string, ghost stack: seq<string>)
      requires Valid(stack + [node]) && node !in stack
      requires node in dependencies && forall d :: d in dependencies[node] ==> d in finished
      modifies this
      ensures Valid(stack) && finished == old(finished) + [node]
    {
      ghost var deeper := stack + [node];
      assert forall x :: x in deeper <==> x in stack || x == node;
      visiting := visiting[node := false];
      visited := visited[node := true];
      FinishNode(finished, node, dependencies[node]);
      WalkPrefix(nodes, deeper, |stack|);
      assert deeper[..|stack|] == stack;
      finished := finished + [node];
    }

    method Visit(node: string, ghost stack: seq<string>) returns (error: Option<DagError>)
      requires Valid(stack) && node in dependencies
      requires stack != [] ==> DependsOn(nodes, stack[|stack| - 1], node)
      modifies this
      ensures error.None? ==> Valid(stack) && node in finished && old(finished) <= finished
      ensures error.Some? ==> error.value.CycleAt? && Explains(nodes, error.value)
      decreases Unvisited()
    {
      if Marked(visiting, node) {
        CycleThrough(stack, node);
        return Some(CycleAt(node));
      }
      if Marked(visited, node) { return None; }
      Enter(node, stack);
      var deps := dependencies[node];
      for k := 0 to |deps|
        invariant Valid(stack + [node]) && old(finished) <= finished
        invariant forall j :: 0 <= j < k ==> deps[j] in finished
      {
        RepresentsEdges(dependencies, nodes, node, deps[k]);
        assert deps[k] in Names(nodes);
        assert Marked(visiting, node) && forall x :: Marked(visiting, x) <==> x in stack || x == node;
        assert Unvisited() <= old(Unvisited()) && node in old(Unvisited()) && node !in Unvisited();
        error := Visit(deps[k], stack + [node]);
        if error.Some? { return; }
      }
      Leave(node, stack);
      error := None;
    }
  }

  method CheckDeclared(nodes: seq<Node>, dependencies: map<string, seq<string>>) returns (error: Option<DagError>)
    requires Represents(dependencies, nodes)
    ensures error.None? <==> Declared(nodes)
    ensures error.Some? ==> Explains(nodes, error.value)
  {
    var rest := dependencies.Keys;
    while rest != {}
      invariant rest <= dependencies.Keys
      invariant forall a, d :: a in dependencies.Keys - rest && d in dependencies[a] ==> d in dependencies
    {
      var node :| node in rest;
      rest := rest - {node};
      var deps := dependencies[node];
      for k := 0 to |deps|
        invariant forall j :: 0 <= j < k ==> deps[j] in dependencies
      {
        if deps[k] !in dependencies {
          RepresentsEdges(dependencies, nodes, node, deps[k]);
          assert !Declared(nodes);
          return Some(UnknownDependency(node, deps[k]));
        }
      }
    }
    assert forall i :: 0 <= i < |nodes| ==> nodes[i].name in dependencies.Keys - rest;
    error := None;
  }

  method VisitAll(nodes: seq<Node>, dependencies: map<string, seq<string>>) returns (error: Option<DagError>)
    requires Represents(dependencies, nodes) && Declared(nodes)
    ensures error.None? <==> Acyclic(nodes)
    ensures error.Some? ==> Explains(nodes, error.value)
  {
    var search := new Search(dependencies, nodes);
    var rest := dependencies.Keys;
    while rest != {}
      invariant rest <= dependencies.Keys && search.Valid([])
      invariant forall name :: name in dependencies.Keys - rest ==> name in search.finished
    {
      var node :| node in rest;
      rest := rest - {node};
      ghost var before := search.finished;
      error := search.Visit(node, []);
      if error.Some? { return; }
      assert forall name :: name in before ==> name in search.finished;
    }
    ListingRefutesCycles(nodes, search.finished);
    error := None;
  }

  /** `validateDAG`: accepts exactly the valid node lists, whatever order the maps
      are ranged over, and reports a fault that is really there. */
  method ValidateDag(dag: Option<seq<Node>>) returns (error: Option<DagError>)
    ensures dag.None? ==> error.None?
    ensures dag.Some? ==> (error.None? <==> Graph.Valid(dag.value))
    ensures error.Some? ==> Explains(dag.value, error.value)
  {
    if dag.None? || |dag.value| == 0 {
      if dag.Some? { ListingRefutesCycles(dag.value, []); }
      return None;
    }
    var nodes := dag.value;
    var dependencies: map<string, seq<string>> := map[];
    for i := 0 to |nodes|
      invariant UniqueNames(nodes[..i]) && Represents(dependencies, nodes[..i])
    {
      if nodes[i].name in dependencies {
        assert nodes[i].name in Names(nodes[..i]);
        return Some(Duplicated(nodes[i].name));
      }
      dependencies := dependencies[nodes[i].name := nodes[i].deps];
      assert nodes[..i + 1] == nodes[..i] + [nodes[i]];
    }
    assert nodes[..|nodes|] == nodes;
    error := CheckDeclared(nodes, dependencies);
    if error.Some? { return; }
    error := VisitAll(nodes, dependencies);
  }
}
