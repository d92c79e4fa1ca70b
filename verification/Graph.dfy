/** The dependency graph of a run, shared by the two algorithms that check it.

    A node list is *valid* when its names are unique, every dependency names a
    declared node, and no walk along dependencies returns to its start. Validity
    says nothing about how either algorithm decides it. */
module Graph {
  datatype Node = Node(name: string, deps: seq<string>)

  function Names(nodes: seq<Node>): set<string> {
    set i | 0 <= i < |nodes| :: nodes[i].name
  }

  ghost predicate UniqueNames(nodes: seq<Node>) {
    forall i, j :: 0 <= i < j < |nodes| ==> nodes[i].name != nodes[j].name
  }

  ghost predicate Declared(nodes: seq<Node>) {
    forall i, d :: 0 <= i < |nodes| && d in nodes[i].deps ==> d in Names(nodes)
  }

  ghost predicate DependsOn(nodes: seq<Node>, a: string, b: string) {
    exists i :: 0 <= i < |nodes| && nodes[i].name == a && b in nodes[i].deps
  }

  ghost predicate IsWalk(nodes: seq<Node>, walk: seq<string>) {
    forall k :: 0 <= k < |walk| - 1 ==> DependsOn(nodes, walk[k], walk[k + 1])
  }

  ghost predicate IsCycle(nodes: seq<Node>, walk: seq<string>) {
    |walk| >= 2 && walk[0] == walk[|walk| - 1] && IsWalk(nodes, walk)
  }

  ghost predicate Acyclic(nodes: seq<Node>) {
    forall walk :: !IsCycle(nodes, walk)
  }

  ghost predicate Valid(nodes: seq<Node>) {
    UniqueNames(nodes) && Declared(nodes) && Acyclic(nodes)
  }

  // ---------- a dependency-first listing rules cycles out ----------

  /** `listing` names each node at most once, and each only after its dependencies. */
  ghost predicate DependenciesFirst(nodes: seq<Node>, listing: seq<string>) {
    && (forall i, j :: 0 <= i < j < |listing| ==> listing[i] != listing[j])
    && (forall j, d :: 0 <= j < |listing| && DependsOn(nodes, listing[j], d) ==> d in listing[..j])
  }

  /** Along a walk, positions in a dependency-first listing strictly decrease. */
  lemma {:induction false} WalkDescends(nodes: seq<Node>, listing: seq<string>, walk: seq<string>, j: nat)
    requires DependenciesFirst(nodes, listing)
    requires IsWalk(nodes, walk) && |walk| >= 2
    requires j < |listing| && listing[j] == walk[0]
    ensures walk[|walk| - 1] in listing[..j]
    decreases |walk|
  {
    assert DependsOn(nodes, walk[0], walk[1]);
    var i :| 0 <= i < j && listing[i] == walk[1];
    if |walk| > 2 {
      var rest := walk[1..];
      forall k | 0 <= k < |rest| - 1 ensures DependsOn(nodes, rest[k], rest[k + 1]) {
        assert DependsOn(nodes, walk[k + 1], walk[k + 2]);
      }
      WalkDescends(nodes, listing, rest, i);
      assert listing[..i] <= listing[..j];
    }
  }

  lemma ListingRefutesCycles(nodes: seq<Node>, listing: seq<string>)
    requires DependenciesFirst(nodes, listing)
    requires forall name :: name in Names(nodes) ==> name in listing
    ensures Acyclic(nodes)
  {
    forall walk | IsCycle(nodes, walk) ensures false {
      assert DependsOn(nodes, walk[0], walk[1]);
      assert walk[0] in Names(nodes);
      var j :| 0 <= j < |listing| && listing[j] == walk[0];
      WalkDescends(nodes, listing, walk, j);
    }
  }

  // ---------- a stuck set contains a cycle ----------

  ghost predicate Waits(nodes: seq<Node>, stuck: set<string>, a: string) {
    exists b :: b in stuck && DependsOn(nodes, a, b)
  }

  /** Every node of `stuck` waits for another node of `stuck`. */
  ghost predicate Stuck(nodes: seq<Node>, stuck: set<string>) {
    forall a {:trigger Waits(nodes, stuck, a)} :: a in stuck ==> Waits(nodes, stuck, a)
  }

  lemma {:induction false} Pigeonhole(s: seq<string>, names: set<string>)
    requires forall x :: x in s ==> x in names
    requires |s| > |names|
    ensures exists i, j :: 0 <= i < j < |s| && s[i] == s[j]
    decreases |s|
  {
    var last := s[|s| - 1];
    if last in s[..|s| - 1] {
      var i :| 0 <= i < |s| - 1 && s[i] == last;
    } else {
      Pigeonhole(s[..|s| - 1], names - {last});
      var i, j :| 0 <= i < j < |s| - 1 && s[..|s| - 1][i] == s[..|s| - 1][j];
      assert s[i] == s[j];
    }
  }

  lemma {:induction false} StuckWalk(nodes: seq<Node>, stuck: set<string>, a: string, length: nat)
      returns (walk: seq<string>)
    requires Stuck(nodes, stuck) && a in stuck && length >= 1
    ensures |walk| == length && walk[0] == a && IsWalk(nodes, walk)
    ensures forall x :: x in walk ==> x in stuck
    decreases length
  {
    if length == 1 {
      walk := [a];
    } else {
      assert Waits(nodes, stuck, a);
      var b :| b in stuck && DependsOn(nodes, a, b);
      var rest := StuckWalk(nodes, stuck, b, length - 1);
      walk := [a] + rest;
      forall k | 0 <= k < |walk| - 1 ensures DependsOn(nodes, walk[k], walk[k + 1]) {
        if k > 0 { assert DependsOn(nodes, rest[k - 1], rest[k]); }
      }
    }
  }

  /** Extracts a cycle that stays inside the stuck set. */
  lemma StuckHasCycle(nodes: seq<Node>, stuck: set<string>) returns (cycle: seq<string>)
    requires Stuck(nodes, stuck) && stuck != {}
    ensures IsCycle(nodes, cycle)
    ensures forall x :: x in cycle ==> x in stuck
  {
    var a :| a in stuck;
    var walk := StuckWalk(nodes, stuck, a, |stuck| + 1);
    Pigeonhole(walk, stuck);
    var i, j :| 0 <= i < j < |walk| && walk[i] == walk[j];
    cycle := walk[i..j + 1];
    forall k | 0 <= k < |cycle| - 1 ensures DependsOn(nodes, cycle[k], cycle[k + 1]) {
      assert DependsOn(nodes, walk[i + k], walk[i + k + 1]);
    }
  }

  /** A slice of a walk followed by one more dependency of its last node is a walk. */
  lemma WalkExtends(nodes: seq<Node>, walk: seq<string>, next: string)
    requires IsWalk(nodes, walk)
    requires |walk| > 0 ==> DependsOn(nodes, walk[|walk| - 1], next)
    ensures IsWalk(nodes, walk + [next])
  {
    var longer := walk + [next];
    forall k | 0 <= k < |longer| - 1 ensures DependsOn(nodes, longer[k], longer[k + 1]) {
      if k < |walk| - 1 { assert DependsOn(nodes, walk[k], walk[k + 1]); }
    }
  }

  lemma WalkSuffix(nodes: seq<Node>, walk: seq<string>, i: nat)
    requires IsWalk(nodes, walk) && i <= |walk|
    ensures IsWalk(nodes, walk[i..])
  {
    var rest := walk[i..];
    forall k | 0 <= k < |rest| - 1 ensures DependsOn(nodes, rest[k], rest[k + 1]) {
      assert DependsOn(nodes, walk[i + k], walk[i + k + 1]);
    }
  }

  lemma WalkPrefix(nodes: seq<Node>, walk: seq<string>, i: nat)
    requires IsWalk(nodes, walk) && i <= |walk|
    ensures IsWalk(nodes, walk[..i])
  {
    var front := walk[..i];
    forall k | 0 <= k < |front| - 1 ensures DependsOn(nodes, front[k], front[k + 1]) {
      assert DependsOn(nodes, walk[k], walk[k + 1]);
    }
  }
}
