/** The backend's `_topological_order`: Kahn's algorithm with an in-degree list
    and a FIFO queue of ready positions.

    `Order` is the specification function that the loop method computes; the
    lemmas below say, without mentioning the algorithm, what its result means. */
module Kahn {
  import opened Wrappers
  import opened Graph

  // ---------- positions ----------

  function PositionOf(nodes: seq<Node>, name: string): (p: nat)
    requires name in Names(nodes)
    ensures p < |nodes| && nodes[p].name == name
  {
    if nodes[|nodes| - 1].name == name then |nodes| - 1
    else
      assert name in Names(nodes[..|nodes| - 1]) by {
        var i :| 0 <= i < |nodes| && nodes[i].name == name;
        assert nodes[..|nodes| - 1][i].name == name;
      }
      PositionOf(nodes[..|nodes| - 1], name)
  }

  ghost function DepPositions(nodes: seq<Node>): (pdeps: seq<seq<nat>>)
    ensures |pdeps| == |nodes|
    ensures forall p :: 0 <= p < |nodes| ==> |pdeps[p]| == |nodes[p].deps|
    ensures forall p, k :: 0 <= p < |nodes| && 0 <= k < |nodes[p].deps| && nodes[p].deps[k] in Names(nodes) ==>
              pdeps[p][k] == PositionOf(nodes, nodes[p].deps[k])
  {
    seq(|nodes|, p requires 0 <= p < |nodes| =>
      seq(|nodes[p].deps|, k requires 0 <= k < |nodes[p].deps| =>
        if nodes[p].deps[k] in Names(nodes) then PositionOf(nodes, nodes[p].deps[k]) else 0))
  }

  ghost predicate Below(s: seq<nat>, n: nat) {
    forall i :: 0 <= i < |s| ==> s[i] < n
  }

  ghost predicate InRange(pdeps: seq<seq<nat>>) {
    forall p :: 0 <= p < |pdeps| ==> Below(pdeps[p], |pdeps|)
  }

  lemma DepPositionsInRange(nodes: seq<Node>)
    requires Declared(nodes)
    ensures InRange(DepPositions(nodes))
  {
    var pdeps := DepPositions(nodes);
    forall p | 0 <= p < |pdeps| ensures Below(pdeps[p], |pdeps|) {
      forall k | 0 <= k < |pdeps[p]| ensures pdeps[p][k] < |pdeps| {
        assert pdeps[p][k] == PositionOf(nodes, nodes[p].deps[k]);
      }
    }
  }

  // ---------- the algorithm as a function ----------

  ghost function Repeat(x: nat, n: nat): (s: seq<nat>)
    ensures |s| == n && forall k :: 0 <= k < n ==> s[k] == x
  {
    seq(n, _ => x)
  }

  /** Positions below `n` that depend on `q`, once for each time they name it. */
  ghost function Dependents(pdeps: seq<seq<nat>>, n: nat, q: nat): seq<nat>
    requires n <= |pdeps|
  {
    if n == 0 then [] else Dependents(pdeps, n - 1, q) + Repeat(n - 1, multiset(pdeps[n - 1])[q])
  }

  ghost function Positive(indegree: seq<int>): nat {
    if indegree == [] then 0
    else (if indegree[|indegree| - 1] > 0 then 1 else 0) + Positive(indegree[..|indegree| - 1])
  }

  lemma {:induction false} PositiveUpdate(indegree: seq<int>, p: nat, v: int)
    requires p < |indegree|
    ensures Positive(indegree[p := v]) + (if indegree[p] > 0 then 1 else 0)
         == Positive(indegree) + (if v > 0 then 1 else 0)
  {
    var n := |indegree| - 1;
    if p < n {
      assert indegree[p := v][..n] == indegree[..n][p := v];
      PositiveUpdate(indegree[..n], p, v);
    } else {
      assert indegree[p := v][..n] == indegree[..n];
    }
  }

  datatype Queue = Queue(indegree: seq<int>, ready: seq<nat>)

  ghost predicate QueueOk(q: Queue, n: nat) {
    |q.indegree| == n && Below(q.ready, n)
  }

  ghost function Decrement(q: Queue, n: nat, d: nat): (r: Queue)
    requires QueueOk(q, n) && d < n
    ensures QueueOk(r, n)
  {
    var indegree := q.indegree[d := q.indegree[d] - 1];
    Queue(indegree, if indegree[d] == 0 then q.ready + [d] else q.ready)
  }

  /** One pass over the dependents of a finished position. */
  ghost function Relax(q: Queue, n: nat, ds: seq<nat>): (r: Queue)
    requires QueueOk(q, n) && Below(ds, n)
    ensures QueueOk(r, n)
    ensures Positive(r.indegree) + |r.ready| <= Positive(q.indegree) + |q.ready|
    decreases |ds|
  {
    if ds == [] then q else
      PositiveUpdate(q.indegree, ds[0], q.indegree[ds[0]] - 1);
      Relax(Decrement(q, n, ds[0]), n, ds[1..])
  }

  lemma {:induction false} DependentsInRange(pdeps: seq<seq<nat>>, n: nat, q: nat)
    requires n <= |pdeps|
    ensures Below(Dependents(pdeps, n, q), n)
  {
    if n > 0 { DependentsInRange(pdeps, n - 1, q); }
  }

  ghost function Drain(pdeps: seq<seq<nat>>, q: Queue, order: seq<nat>): seq<nat>
    requires QueueOk(q, |pdeps|)
    decreases Positive(q.indegree) + |q.ready|
  {
    if q.ready == [] then order else
      var p := q.ready[0];
      DependentsInRange(pdeps, |pdeps|, p);
      Drain(pdeps, Relax(q.(ready := q.ready[1..]), |pdeps|, Dependents(pdeps, |pdeps|, p)), order + [p])
  }

  ghost predicate NoDup(s: seq<nat>) {
    forall i, j :: 0 <= i < j < |s| ==> s[i] != s[j]
  }

  ghost predicate Ascending(s: seq<nat>) {
    forall i, j :: 0 <= i < j < |s| ==> s[i] < s[j]
  }

  ghost function Zeros(indegree: seq<int>, n: nat): (zs: seq<nat>)
    requires n <= |indegree|
    ensures Below(zs, n) && forall p :: 0 <= p < n ==> (p in zs <==> indegree[p] == 0)
    ensures NoDup(zs)
  {
    if n == 0 then []
    else Zeros(indegree, n - 1) + (if indegree[n - 1] == 0 then [n - 1] else [])
  }

  lemma {:induction false} ZerosAscend(indegree: seq<int>, n: nat)
    requires n <= |indegree|
    ensures Ascending(Zeros(indegree, n))
  {
    if n > 0 { ZerosAscend(indegree, n - 1); }
  }

  ghost function InitialQueue(pdeps: seq<seq<nat>>): (q: Queue)
    ensures QueueOk(q, |pdeps|)
  {
    var indegree := seq(|pdeps|, p requires 0 <= p < |pdeps| => |pdeps[p]|);
    Queue(indegree, Zeros(indegree, |indegree|))
  }

  ghost function Processed(nodes: seq<Node>): seq<nat>
  {
    Drain(DepPositions(nodes), InitialQueue(DepPositions(nodes)), [])
  }

  ghost function Order(nodes: seq<Node>): Option<seq<nat>> {
    if !UniqueNames(nodes) || !Declared(nodes) then None
    else if |Processed(nodes)| == |nodes| then Some(Processed(nodes)) else None
  }

  // ---------- the invariant of the queue ----------

  /** How many entries of a dependency list are still unfinished. */
  ghost function Open(deps: seq<nat>, done: seq<nat>): nat {
    if deps == [] then 0
    else (if deps[|deps| - 1] in done then 0 else 1) + Open(deps[..|deps| - 1], done)
  }

  lemma {:induction false} OpenExtend(deps: seq<nat>, done: seq<nat>, p: nat)
    requires p !in done
    ensures Open(deps, done) == Open(deps, done + [p]) + multiset(deps)[p]
  {
    if deps != [] {
      var n := |deps| - 1;
      OpenExtend(deps[..n], done, p);
      assert deps == deps[..n] + [deps[n]];
    }
  }

  lemma {:induction false} OpenZero(deps: seq<nat>, done: seq<nat>)
    ensures Open(deps, done) == 0 <==> forall d :: d in deps ==> d in done
  {
    if deps != [] {
      OpenZero(deps[..|deps| - 1], done);
      assert deps == deps[..|deps| - 1] + [deps[|deps| - 1]];
    }
  }

  lemma {:induction false} OpenNothingDone(deps: seq<nat>)
    ensures Open(deps, []) == |deps|
  {
    if deps != [] { OpenNothingDone(deps[..|deps| - 1]); }
  }

  lemma {:induction false} RepeatCount(x: nat, n: nat, y: nat)
    ensures multiset(Repeat(x, n))[y] == if x == y then n else 0
  {
    if n > 0 {
      RepeatCount(x, n - 1, y);
      assert Repeat(x, n) == Repeat(x, n - 1) + [x];
    }
  }

  /** The built dependents lists are the transpose of the dependency lists. */
  lemma {:induction false} DependentsTranspose(pdeps: seq<seq<nat>>, n: nat, q: nat, p: nat)
    requires n <= |pdeps|
    ensures multiset(Dependents(pdeps, n, q))[p] == if p < n then multiset(pdeps[p])[q] else 0
  {
    if n > 0 {
      DependentsTranspose(pdeps, n - 1, q, p);
      RepeatCount(n - 1, multiset(pdeps[n - 1])[q], p);
    }
  }

  /** A queue holds positions once each, all of in-degree zero. */
  ghost predicate ReadyOk(q: Queue, n: nat) {
    QueueOk(q, n) && NoDup(q.ready) && forall p :: 0 <= p < n && p in q.ready ==> q.indegree[p] == 0
  }

  lemma DecrementEffect(q: Queue, n: nat, d: nat)
    requires ReadyOk(q, n) && d < n && q.indegree[d] >= 1
    ensures var r := Decrement(q, n, d);
      && ReadyOk(r, n) && q.ready <= r.ready && r.indegree == q.indegree[d := q.indegree[d] - 1]
      && (forall p :: 0 <= p < n ==> (p in r.ready <==> p in q.ready || (q.indegree[p] > 0 && r.indegree[p] == 0)))
  {
  }

  /** Relaxing subtracts multiplicities and appends exactly the positions that reach zero. */
  lemma {:induction false} RelaxEffect(q: Queue, n: nat, ds: seq<nat>)
    requires ReadyOk(q, n) && Below(ds, n)
    requires forall p :: 0 <= p < n ==> q.indegree[p] >= multiset(ds)[p]
    ensures var r := Relax(q, n, ds);
      && (forall p :: 0 <= p < n ==> r.indegree[p] == q.indegree[p] - multiset(ds)[p])
      && NoDup(r.ready) && q.ready <= r.ready
      && (forall p :: 0 <= p < n ==> (p in r.ready <==> p in q.ready || (q.indegree[p] > 0 && r.indegree[p] == 0)))
    decreases |ds|
  {
    if ds != [] {
      var d, next := ds[0], Decrement(q, n, ds[0]);
      assert ds == [d] + ds[1..];
      assert multiset(ds)[d] >= 1;
      DecrementEffect(q, n, d);
      hide Decrement;
      hide ReadyOk;
      hide NoDup;
      RelaxEffect(next, n, ds[1..]);
    }
  }

  /** A position is finished or ready exactly when none of its dependencies is open. */
  ghost predicate DegreesMatch(pdeps: seq<seq<nat>>, q: Queue, order: seq<nat>) {
    && InRange(pdeps) && QueueOk(q, |pdeps|)
    && NoDup(order) && NoDup(q.ready)
    && Below(order, |pdeps|) && (forall p :: p in order ==> p !in q.ready)
    && (forall p :: 0 <= p < |pdeps| ==> q.indegree[p] == Open(pdeps[p], order))
    && (forall p :: 0 <= p < |pdeps| ==> (p in order || p in q.ready <==> q.indegree[p] == 0))
  }

  ghost predicate DepsFirst(pdeps: seq<seq<nat>>, order: seq<nat>) {
    forall j, d :: 0 <= j < |order| && order[j] < |pdeps| && d in pdeps[order[j]] ==> d in order[..j]
  }

  ghost predicate Inv(pdeps: seq<seq<nat>>, q: Queue, order: seq<nat>) {
    DegreesMatch(pdeps, q, order) && DepsFirst(pdeps, order)
  }

  ghost function Pop(pdeps: seq<seq<nat>>, q: Queue): Queue
    requires QueueOk(q, |pdeps|) && q.ready != []
  {
    DependentsInRange(pdeps, |pdeps|, q.ready[0]);
    Relax(q.(ready := q.ready[1..]), |pdeps|, Dependents(pdeps, |pdeps|, q.ready[0]))
  }

  lemma DegreeDrop(pdeps: seq<seq<nat>>, order: seq<nat>, p: nat, x: nat)
    requires x < |pdeps| && p !in order
    ensures Open(pdeps[x], order) == Open(pdeps[x], order + [p]) + multiset(Dependents(pdeps, |pdeps|, p))[x]
  {
    DependentsTranspose(pdeps, |pdeps|, p, x);
    OpenExtend(pdeps[x], order, p);
  }

  lemma PopKeepsDegrees(pdeps: seq<seq<nat>>, q: Queue, order: seq<nat>)
    requires DegreesMatch(pdeps, q, order) && q.ready != []
    ensures var r, p := Pop(pdeps, q), q.ready[0];
      && QueueOk(r, |pdeps|) && NoDup(r.ready)
      && (forall x :: 0 <= x < |pdeps| ==> r.indegree[x] == Open(pdeps[x], order + [p]))
      && (forall x :: 0 <= x < |pdeps| ==> (x in r.ready <==> x in q.ready[1..] || (r.indegree[x] == 0 && q.indegree[x] > 0)))
  {
    var n, p := |pdeps|, q.ready[0];
    DependentsInRange(pdeps, n, p);
    var rest := q.(ready := q.ready[1..]);
    assert p in q.ready && QueueOk(rest, n) && NoDup(rest.ready);
    forall x | 0 <= x < n && x in rest.ready ensures rest.indegree[x] == 0 { assert x in q.ready; }
    var drop: multiset<nat> := multiset(Dependents(pdeps, n, p));
    forall x: nat | x < n ensures q.indegree[x] == Open(pdeps[x], order + [p]) + drop[x] {
      DegreeDrop(pdeps, order, p, x);
    }
    assert forall x: nat :: x < n ==> rest.indegree[x] >= drop[x];
    RelaxEffect(rest, n, Dependents(pdeps, n, p));
  }

  lemma PopKeepsMatch(pdeps: seq<seq<nat>>, q: Queue, order: seq<nat>)
    requires DegreesMatch(pdeps, q, order) && q.ready != []
    ensures DegreesMatch(pdeps, Pop(pdeps, q), order + [q.ready[0]])
  {
    PopKeepsDegrees(pdeps, q, order);
    var r, p, rest := Pop(pdeps, q), q.ready[0], q.ready[1..];
    assert q.ready == [p] + rest && p !in rest;
    assert p in q.ready && p !in order;
    forall x | 0 <= x < |pdeps|
      ensures x in order + [p] || x in r.ready <==> r.indegree[x] == 0
      ensures x in order + [p] ==> x !in r.ready
    {
      assert x in q.ready <==> x == p || x in rest;
      OpenExtend(pdeps[x], order, p);
    }
  }

  lemma DepsFirstExtends(pdeps: seq<seq<nat>>, order: seq<nat>, p: nat)
    requires DepsFirst(pdeps, order)
    requires p < |pdeps| && forall d :: d in pdeps[p] ==> d in order
    ensures DepsFirst(pdeps, order + [p])
  {
    assert forall j :: 0 <= j <= |order| ==> (order + [p])[..j] == order[..j];
  }

  lemma PopKeepsInv(pdeps: seq<seq<nat>>, q: Queue, order: seq<nat>)
    requires Inv(pdeps, q, order) && q.ready != []
    ensures Inv(pdeps, Pop(pdeps, q), order + [q.ready[0]])
  {
    var p := q.ready[0];
    PopKeepsMatch(pdeps, q, order);
    OpenZero(pdeps[p], order);
    DepsFirstExtends(pdeps, order, p);
  }

  lemma {:induction false} DrainKeepsInv(pdeps: seq<seq<nat>>, q: Queue, order: seq<nat>)
    requires Inv(pdeps, q, order)
    ensures exists indegree :: Inv(pdeps, Queue(indegree, []), Drain(pdeps, q, order))
    decreases Positive(q.indegree) + |q.ready|
  {
    if q.ready == [] {
      assert q == Queue(q.indegree, []);
    } else {
      PopKeepsInv(pdeps, q, order);
      DrainKeepsInv(pdeps, Pop(pdeps, q), order + [q.ready[0]]);
    }
  }

  lemma InitialInv(pdeps: seq<seq<nat>>)
    requires InRange(pdeps)
    ensures Inv(pdeps, InitialQueue(pdeps), [])
  {
    forall p | 0 <= p < |pdeps| ensures Open(pdeps[p], []) == |pdeps[p]| {
      OpenNothingDone(pdeps[p]);
    }
  }

  // ---------- what the result means ----------

  /** Every position exactly once. */
  ghost predicate IsPermutation(order: seq<nat>, n: nat) {
    |order| == n && Below(order, n) && NoDup(order) && forall p :: 0 <= p < n ==> p in order
  }

  ghost predicate IsTopological(nodes: seq<Node>, order: seq<nat>) {
    && IsPermutation(order, |nodes|)
    && forall i, j :: 0 <= i < |nodes| && 0 <= j < |nodes| && nodes[order[i]].name in nodes[order[j]].deps ==> i < j
  }

  ghost predicate Blocked(deps: seq<nat>, done: seq<nat>) {
    exists d :: d in deps && d !in done
  }

  ghost predicate Finished(pdeps: seq<seq<nat>>, order: seq<nat>) {
    && InRange(pdeps) && NoDup(order) && DepsFirst(pdeps, order)
    && Below(order, |pdeps|)
    && (forall p {:trigger Blocked(pdeps[p], order)} :: 0 <= p < |pdeps| && p !in order ==> Blocked(pdeps[p], order))
  }

  /** When the queue runs dry, exactly the positions waiting for an unfinished one remain. */
  lemma ProcessedFinished(nodes: seq<Node>)
    requires Declared(nodes)
    ensures Finished(DepPositions(nodes), Processed(nodes))
  {
    var pdeps := DepPositions(nodes);
    DepPositionsInRange(nodes);
    InitialInv(pdeps);
    DrainKeepsInv(pdeps, InitialQueue(pdeps), []);
    var order := Processed(nodes);
    var indegree :| Inv(pdeps, Queue(indegree, []), order);
    forall p | 0 <= p < |pdeps| && p !in order ensures Blocked(pdeps[p], order) {
      OpenZero(pdeps[p], order);
    }
  }

  ghost function RangeSet(n: nat): (s: set<nat>)
    ensures |s| == n && forall p :: p in s <==> 0 <= p < n
  {
    if n == 0 then {} else RangeSet(n - 1) + {n - 1}
  }

  lemma {:induction false} NoDupSize(s: seq<nat>, range: set<nat>)
    requires NoDup(s) && forall p :: p in s ==> p in range
    ensures |s| <= |range|
    ensures |s| == |range| ==> forall p :: p in range ==> p in s
    ensures |s| < |range| ==> exists p :: p in range && p !in s
    decreases |s|
  {
    if s == [] {
      if |range| > 0 { var p :| p in range; }
    } else {
      var n := |s| - 1;
      assert s[n] in s && s[n] !in s[..n];
      NoDupSize(s[..n], range - {s[n]});
      assert s == s[..n] + [s[n]];
      if |s| < |range| {
        var p :| p in range - {s[n]} && p !in s[..n];
      }
    }
  }

  lemma NameOfDependency(nodes: seq<Node>, p: nat, d: nat)
    requires UniqueNames(nodes) && Declared(nodes) && p < |nodes| && d < |nodes|
    ensures d in DepPositions(nodes)[p] <==> nodes[d].name in nodes[p].deps
    ensures d in DepPositions(nodes)[p] <==> DependsOn(nodes, nodes[p].name, nodes[d].name)
  {
    var pdeps := DepPositions(nodes);
    if nodes[d].name in nodes[p].deps {
      var k :| 0 <= k < |nodes[p].deps| && nodes[p].deps[k] == nodes[d].name;
      assert pdeps[p][k] == PositionOf(nodes, nodes[d].name) == d;
    }
    if d in pdeps[p] {
      var k :| 0 <= k < |pdeps[p]| && pdeps[p][k] == d;
      assert nodes[p].deps[k] == nodes[d].name;
    }
  }

  /** The order is a permutation of all positions that puts every dependency
      first, also when a dependency is named twice. */
  lemma OrderIsTopological(nodes: seq<Node>)
    requires Order(nodes).Some?
    ensures IsTopological(nodes, Order(nodes).value)
  {
    var pdeps, order := DepPositions(nodes), Processed(nodes);
    ProcessedFinished(nodes);
    NoDupSize(order, RangeSet(|nodes|));
    forall i, j | 0 <= i < |nodes| && 0 <= j < |nodes| && nodes[order[i]].name in nodes[order[j]].deps ensures i < j {
      NameOfDependency(nodes, order[j], order[i]);
      assert order[i] in order[..j];
    }
  }

  ghost function Listing(nodes: seq<Node>, order: seq<nat>): seq<string>
    requires Below(order, |nodes|)
  {
    seq(|order|, j requires 0 <= j < |order| => nodes[order[j]].name)
  }

  /** The names in a topological order are a dependency-first listing. */
  lemma ListingIsDependenciesFirst(nodes: seq<Node>, order: seq<nat>)
    requires UniqueNames(nodes) && Declared(nodes) && IsTopological(nodes, order)
    ensures DependenciesFirst(nodes, Listing(nodes, order))
    ensures forall name :: name in Names(nodes) ==> name in Listing(nodes, order)
  {
    var listing := Listing(nodes, order);
    forall i, j | 0 <= i < j < |listing| ensures listing[i] != listing[j] {
      assert order[i] != order[j];
    }
    forall name | name in Names(nodes) ensures name in listing {
      var p :| 0 <= p < |nodes| && nodes[p].name == name;
      assert p in order;
      var j :| 0 <= j < |order| && order[j] == p;
      assert listing[j] == name;
    }
    forall j, d | 0 <= j < |listing| && DependsOn(nodes, listing[j], d) ensures d in listing[..j] {
      assert d in nodes[order[j]].deps;
      assert d in listing;
      var i :| 0 <= i < |listing| && listing[i] == d;
      assert i < j;
      assert listing[..j][i] == d;
    }
  }

  /** A topological order rules cycles out. */
  lemma TopologicalIsAcyclic(nodes: seq<Node>, order: seq<nat>)
    requires UniqueNames(nodes) && Declared(nodes) && IsTopological(nodes, order)
    ensures Acyclic(nodes)
  {
    ListingIsDependenciesFirst(nodes, order);
    ListingRefutesCycles(nodes, Listing(nodes, order));
  }

  ghost function Unprocessed(nodes: seq<Node>): set<string>
    requires Declared(nodes)
  {
    set p | 0 <= p < |nodes| && p !in Processed(nodes) :: nodes[p].name
  }

  lemma UnprocessedIsStuck(nodes: seq<Node>)
    requires UniqueNames(nodes) && Declared(nodes)
    ensures Stuck(nodes, Unprocessed(nodes))
  {
    var pdeps, order, stuck := DepPositions(nodes), Processed(nodes), Unprocessed(nodes);
    ProcessedFinished(nodes);
    forall a | a in stuck ensures Waits(nodes, stuck, a) {
      var p: nat :| p < |nodes| && p !in order && nodes[p].name == a;
      assert Blocked(pdeps[p], order);
      var d :| d in pdeps[p] && d !in order;
      NameOfDependency(nodes, p, d);
      assert nodes[d].name in stuck;
    }
  }

  /** With unique names and known dependencies, getting stuck exhibits a cycle
      that runs through unprocessed nodes only. */
  lemma StuckMeansCycle(nodes: seq<Node>) returns (cycle: seq<string>)
    requires UniqueNames(nodes) && Declared(nodes) && Order(nodes).None?
    ensures IsCycle(nodes, cycle)
    ensures forall name :: name in cycle ==> name in Unprocessed(nodes)
  {
    var order := Processed(nodes);
    ProcessedFinished(nodes);
    UnprocessedIsStuck(nodes);
    NoDupSize(order, RangeSet(|nodes|));
    var first :| first in RangeSet(|nodes|) && first !in order;
    assert nodes[first].name in Unprocessed(nodes);
    cycle := StuckHasCycle(nodes, Unprocessed(nodes));
  }

  /** `_topological_order` returns an order exactly for valid node lists. */
  lemma OrderIffValid(nodes: seq<Node>)
    ensures Order(nodes).Some? <==> Valid(nodes)
  {
    if Order(nodes).Some? {
      OrderIsTopological(nodes);
      TopologicalIsAcyclic(nodes, Order(nodes).value);
    } else if UniqueNames(nodes) && Declared(nodes) {
      var cycle := StuckMeansCycle(nodes);
    }
  }

  // ---------- first in, first out ----------

  /** Where the last of these dependencies stands in an order, or -1 if none does. */
  ghost function Latest(deps: seq<nat>, order: seq<nat>): (l: int)
    ensures -1 <= l < |order| && (l >= 0 ==> order[l] in deps)
    ensures forall i :: l < i < |order| ==> order[i] !in deps
  {
    if order == [] then -1
    else if order[|order| - 1] in deps then |order| - 1
    else Latest(deps, order[..|order| - 1])
  }

  /** `x` became ready earlier than `y`, or at the same time and is listed earlier. */
  ghost predicate Before(pdeps: seq<seq<nat>>, order: seq<nat>, x: nat, y: nat)
    requires x < |pdeps| && y < |pdeps|
  {
    || Latest(pdeps[x], order) < Latest(pdeps[y], order)
    || (Latest(pdeps[x], order) == Latest(pdeps[y], order) && x < y)
  }

  ghost predicate InLine(pdeps: seq<seq<nat>>, order: seq<nat>, line: seq<nat>) {
    Below(line, |pdeps|) && forall i, j :: 0 <= i < j < |line| ==> Before(pdeps, order, line[i], line[j])
  }

  ghost predicate NonDescending(s: seq<nat>) {
    forall i, j :: 0 <= i < j < |s| ==> s[i] <= s[j]
  }

  lemma {:induction false} DependentsInOrder(pdeps: seq<seq<nat>>, n: nat, q: nat)
    requires n <= |pdeps|
    ensures NonDescending(Dependents(pdeps, n, q))
  {
    if n > 0 {
      DependentsInOrder(pdeps, n - 1, q);
      DependentsInRange(pdeps, n - 1, q);
    }
  }

  /** What relaxing appends to the queue. */
  ghost function Appended(q: Queue, n: nat, ds: seq<nat>): seq<nat>
    requires QueueOk(q, n) && Below(ds, n)
    decreases |ds|
  {
    if ds == [] then []
    else (if q.indegree[ds[0]] == 1 then [ds[0]] else []) + Appended(Decrement(q, n, ds[0]), n, ds[1..])
  }

  lemma Associative(a: seq<nat>, b: seq<nat>, c: seq<nat>)
    ensures a + b + c == a + (b + c)
  {
  }

  lemma {:induction false} RelaxAppends(q: Queue, n: nat, ds: seq<nat>)
    requires QueueOk(q, n) && Below(ds, n)
    ensures Relax(q, n, ds).ready == q.ready + Appended(q, n, ds)
    decreases |ds|
  {
    if ds != [] {
      var next, d := Decrement(q, n, ds[0]), ds[0];
      var first: seq<nat> := if q.indegree[d] == 1 then [d] else [];
      assert next.ready == q.ready + first;
      assert Relax(q, n, ds) == Relax(next, n, ds[1..]);
      assert Appended(q, n, ds) == first + Appended(next, n, ds[1..]);
      hide *;
      RelaxAppends(next, n, ds[1..]);
      Associative(q.ready, first, Appended(next, n, ds[1..]));
    }
  }

  lemma FrontOfRest(d: nat, rest: seq<nat>, ds: seq<nat>)
    requires ds != [] && ds[0] == d && NonDescending(ds) && NonDescending(rest) && forall p :: p in rest ==> p in ds[1..]
    ensures NonDescending([d] + rest) && forall p :: p in [d] + rest ==> p in ds
  {
    var both := [d] + rest;
    forall i, j | 0 <= i < j < |both| ensures both[i] <= both[j] {
      assert both[j] == rest[j - 1] && both[j] in ds[1..];
    }
  }

  /** It comes from the dependents, in their order. */
  lemma {:induction false} AppendedInOrder(q: Queue, n: nat, ds: seq<nat>)
    requires QueueOk(q, n) && Below(ds, n) && NonDescending(ds)
    ensures NonDescending(Appended(q, n, ds)) && forall p :: p in Appended(q, n, ds) ==> p in ds
    decreases |ds|
  {
    if ds != [] {
      var rest := Appended(Decrement(q, n, ds[0]), n, ds[1..]);
      AppendedInOrder(Decrement(q, n, ds[0]), n, ds[1..]);
      FrontOfRest(ds[0], rest, ds);
      assert [] + rest == rest && Appended(q, n, ds) == (if q.indegree[ds[0]] == 1 then [ds[0]] else []) + rest;
      hide *;
      hide NonDescending;
    }
  }

  lemma NoDupSuffix(a: seq<nat>, b: seq<nat>)
    requires NoDup(a + b)
    ensures NoDup(b)
  {
    forall i, j | 0 <= i < j < |b| ensures b[i] != b[j] {
      assert (a + b)[|a| + i] == b[i] && (a + b)[|a| + j] == b[j];
    }
  }

  lemma PopAppends(pdeps: seq<seq<nat>>, q: Queue, order: seq<nat>) returns (added: seq<nat>)
    requires Inv(pdeps, q, order) && q.ready != []
    ensures Pop(pdeps, q).ready == q.ready[1..] + added
    ensures Ascending(added) && forall x :: x in added ==> x < |pdeps| && q.ready[0] in pdeps[x]
  {
    var p, n := q.ready[0], |pdeps|;
    var rest, ds := q.(ready := q.ready[1..]), Dependents(pdeps, |pdeps|, q.ready[0]);
    DependentsInRange(pdeps, n, p);
    DependentsInOrder(pdeps, n, p);
    RelaxAppends(rest, n, ds);
    AppendedInOrder(rest, n, ds);
    added := Appended(rest, n, ds);
    forall x | x in added ensures x < n && p in pdeps[x] {
      var dependents: multiset<nat> := multiset(ds);
      assert x in ds && dependents[x] > 0;
      DependentsTranspose(pdeps, n, p, x);
    }
    PopKeepsInv(pdeps, q, order);
    NoDupSuffix(q.ready[1..], added);
  }

  lemma LatestNext(deps: seq<nat>, order: seq<nat>, p: nat)
    ensures Latest(deps, order + [p]) == if p in deps then |order| else Latest(deps, order)
  {
    assert (order + [p])[..|order|] == order;
  }

  /** Those already in line do not depend on the first of the queue. */
  lemma SettledIsKnown(pdeps: seq<seq<nat>>, q: Queue, order: seq<nat>, x: nat)
    requires Inv(pdeps, q, order) && q.ready != [] && x in order + q.ready
    ensures x < |pdeps| && q.ready[0] !in pdeps[x]
  {
    assert x in order || x in q.ready;
    assert q.ready[0] in q.ready;
    OpenZero(pdeps[x], order);
  }

  lemma LineJoins(pdeps: seq<seq<nat>>, order: seq<nat>, order': seq<nat>, line: seq<nat>, added: seq<nat>)
    requires InLine(pdeps, order, line) && Below(added, |pdeps|) && Ascending(added)
    requires forall x :: x in line && x < |pdeps| ==> Latest(pdeps[x], order') == Latest(pdeps[x], order)
    requires forall x :: x in added && x < |pdeps| ==> Latest(pdeps[x], order') == |order|
    ensures InLine(pdeps, order', line + added)
  {
    var both := line + added;
    forall i, j | 0 <= i < j < |both| ensures both[i] < |pdeps| && both[j] < |pdeps| && Before(pdeps, order', both[i], both[j]) {
      if i >= |line| {
        assert both[i] in added && both[j] in added;
      } else {
        assert both[i] in line;
        if j >= |line| { assert both[j] in added; } else { assert both[j] in line && Before(pdeps, order, line[i], line[j]); }
      }
    }
  }

  lemma Regrouped(order: seq<nat>, ready: seq<nat>, added: seq<nat>)
    requires ready != []
    ensures order + [ready[0]] + (ready[1..] + added) == order + ready + added
  {
  }

  lemma PopKeepsLine(pdeps: seq<seq<nat>>, q: Queue, order: seq<nat>)
    requires Inv(pdeps, q, order) && q.ready != [] && InLine(pdeps, order, order + q.ready)
    ensures InLine(pdeps, order + [q.ready[0]], order + [q.ready[0]] + Pop(pdeps, q).ready)
  {
    var p, next := q.ready[0], order + [q.ready[0]];
    var added := PopAppends(pdeps, q, order);
    Regrouped(order, q.ready, added);
    assert Below(added, |pdeps|) by { assert forall i :: 0 <= i < |added| ==> added[i] in added; }
    hide Below;
    hide Ascending;
    hide Inv;
    hide Pop;
    hide InLine;
    hide Latest;
    forall x | x in order + q.ready && x < |pdeps| ensures Latest(pdeps[x], next) == Latest(pdeps[x], order) {
      SettledIsKnown(pdeps, q, order, x);
      LatestNext(pdeps[x], order, p);
    }
    forall x | x in added && x < |pdeps| ensures Latest(pdeps[x], next) == |order| {
      LatestNext(pdeps[x], order, p);
    }
    LineJoins(pdeps, order, next, order + q.ready, added);
  }

  lemma {:induction false} DrainKeepsLine(pdeps: seq<seq<nat>>, q: Queue, order: seq<nat>)
    requires Inv(pdeps, q, order) && InLine(pdeps, order, order + q.ready)
    ensures InLine(pdeps, Drain(pdeps, q, order), Drain(pdeps, q, order))
    decreases Positive(q.indegree) + |q.ready|
  {
    if q.ready == [] {
      assert order + q.ready == order;
    } else {
      PopKeepsLine(pdeps, q, order);
      PopKeepsInv(pdeps, q, order);
      DrainKeepsLine(pdeps, Pop(pdeps, q), order + [q.ready[0]]);
    }
  }

  lemma InitialInLine(pdeps: seq<seq<nat>>)
    ensures InLine(pdeps, [], [] + InitialQueue(pdeps).ready)
  {
    var q := InitialQueue(pdeps);
    ZerosAscend(q.indegree, |q.indegree|);
    assert [] + q.ready == q.ready;
    hide Zeros;
    hide Repeat;
    forall i, j | 0 <= i < j < |q.ready| ensures Before(pdeps, [], q.ready[i], q.ready[j]) {
    }
  }

  lemma ProcessedIsDrain(nodes: seq<Node>)
    ensures Processed(nodes) == Drain(DepPositions(nodes), InitialQueue(DepPositions(nodes)), [])
  {
  }

  lemma ProcessedInLine(nodes: seq<Node>)
    requires Declared(nodes)
    ensures InLine(DepPositions(nodes), Processed(nodes), Processed(nodes))
  {
    var pdeps := DepPositions(nodes);
    DepPositionsInRange(nodes);
    InitialInv(pdeps);
    InitialInLine(pdeps);
    hide *;
    DrainKeepsLine(pdeps, InitialQueue(pdeps), []);
    assert Processed(nodes) == Drain(pdeps, InitialQueue(pdeps), []) by { ProcessedIsDrain(nodes); }
  }

  /** Where the last dependency of node `p` stands in an order, or -1 if none does. */
  ghost function LastDependency(nodes: seq<Node>, order: seq<nat>, p: nat): (l: int)
    requires p < |nodes| && Below(order, |nodes|)
    ensures -1 <= l < |order| && (l >= 0 ==> nodes[order[l]].name in nodes[p].deps)
    ensures forall i :: l < i < |order| ==> nodes[order[i]].name !in nodes[p].deps
  {
    if order == [] then -1
    else if nodes[order[|order| - 1]].name in nodes[p].deps then |order| - 1
    else LastDependency(nodes, order[..|order| - 1], p)
  }

  ghost predicate Earlier(nodes: seq<Node>, order: seq<nat>, x: nat, y: nat)
    requires x < |nodes| && y < |nodes| && Below(order, |nodes|)
  {
    || LastDependency(nodes, order, x) < LastDependency(nodes, order, y)
    || (LastDependency(nodes, order, x) == LastDependency(nodes, order, y) && x < y)
  }

  /** Nodes come in the order in which their last dependencies do; those that wait for the
      same one, or for none, come in the order in which they are listed. */
  ghost predicate FirstInFirstOut(nodes: seq<Node>, order: seq<nat>) {
    Below(order, |nodes|) && forall i, j :: 0 <= i < j < |order| ==> Earlier(nodes, order, order[i], order[j])
  }

  lemma LatestIsLast(nodes: seq<Node>, order: seq<nat>, p: nat)
    requires UniqueNames(nodes) && Declared(nodes) && p < |nodes| && Below(order, |nodes|)
    ensures Latest(DepPositions(nodes)[p], order) == LastDependency(nodes, order, p)
  {
    forall i | 0 <= i < |order| ensures order[i] in DepPositions(nodes)[p] <==> nodes[order[i]].name in nodes[p].deps {
      NameOfDependency(nodes, p, order[i]);
    }
  }

  lemma OrderIsFirstInFirstOut(nodes: seq<Node>)
    requires Order(nodes).Some?
    ensures FirstInFirstOut(nodes, Order(nodes).value)
  {
    var order := Order(nodes).value;
    ProcessedInLine(nodes);
    forall p | 0 <= p < |nodes| ensures Latest(DepPositions(nodes)[p], order) == LastDependency(nodes, order, p) {
      LatestIsLast(nodes, order, p);
    }
  }

  /** Where two orders begin alike, the dependencies of the next node stand alike. */
  lemma LastIsSame(nodes: seq<Node>, a: seq<nat>, b: seq<nat>, k: nat)
    requires IsTopological(nodes, a) && IsTopological(nodes, b) && k < |nodes|
    requires forall h :: 0 <= h < k ==> a[h] == b[h]
    ensures LastDependency(nodes, a, a[k]) == LastDependency(nodes, b, a[k])
  {
    hide LastDependency;
    var deps := nodes[a[k]].deps;
    forall m | 0 <= m < |b| && nodes[b[m]].name in deps ensures m < k {
      assert b[m] in a;
      var h :| 0 <= h < |a| && a[h] == b[m];
      assert h < k;
      assert b[h] == b[m];
    }
    assert forall h :: 0 <= h < |a| && nodes[a[h]].name in deps ==> h < k;
  }

  /** With the same beginning, the same node comes next. */
  lemma SameNext(nodes: seq<Node>, a: seq<nat>, b: seq<nat>, k: nat)
    requires IsTopological(nodes, a) && IsTopological(nodes, b) && FirstInFirstOut(nodes, a) && FirstInFirstOut(nodes, b)
    requires k < |nodes| && forall h :: 0 <= h < k ==> a[h] == b[h]
    ensures a[k] == b[k]
  {
    var x, y := a[k], b[k];
    assert x in b && y in a;
    var i :| 0 <= i < |b| && b[i] == x;
    var j :| 0 <= j < |a| && a[j] == y;
    LastIsSame(nodes, a, b, k);
    LastIsSame(nodes, b, a, k);
    hide LastDependency;
    assert i >= k && j >= k;
  }

  lemma {:induction false} OnlyOneOrder(nodes: seq<Node>, a: seq<nat>, b: seq<nat>, k: nat)
    requires IsTopological(nodes, a) && IsTopological(nodes, b) && FirstInFirstOut(nodes, a) && FirstInFirstOut(nodes, b)
    requires k <= |nodes|
    ensures forall h :: 0 <= h < k ==> a[h] == b[h]
  {
    if k > 0 {
      OnlyOneOrder(nodes, a, b, k - 1);
      SameNext(nodes, a, b, k - 1);
    }
  }

  /** `_topological_order` returns the one topological order that is first in, first out. */
  lemma OrderIsExactly(nodes: seq<Node>, order: seq<nat>)
    ensures Order(nodes) == Some(order) <==> Valid(nodes) && IsTopological(nodes, order) && FirstInFirstOut(nodes, order)
  {
    OrderIffValid(nodes);
    if Valid(nodes) {
      OrderIsTopological(nodes);
      OrderIsFirstInFirstOut(nodes);
      if IsTopological(nodes, order) && FirstInFirstOut(nodes, order) {
        OnlyOneOrder(nodes, Order(nodes).value, order, |nodes|);
        assert Order(nodes).value == order;
      }
    }
  }

  // ---------- the loops ----------

  /** The first loop: a position for every name, or None at a duplicate. */
  method IndexNames(nodes: seq<Node>) returns (positions: Option<map<string, nat>>)
    ensures positions.Some? <==> UniqueNames(nodes)
    ensures positions.Some? ==> positions.value.Keys == Names(nodes)
    ensures positions.Some? ==> forall name :: name in positions.value ==> positions.value[name] == PositionOf(nodes, name)
  {
    var index: map<string, nat> := map[];
    for p := 0 to |nodes|
      invariant index.Keys == Names(nodes[..p]) && UniqueNames(nodes[..p])
      invariant forall name :: name in index ==> index[name] < p && nodes[index[name]].name == name
    {
      if nodes[p].name in index {
        assert nodes[index[nodes[p].name]].name == nodes[p].name;
        return None;
      }
      index := index[nodes[p].name := p];
      assert nodes[..p + 1] == nodes[..p] + [nodes[p]];
    }
    assert nodes[..|nodes|] == nodes;
    positions := Some(index);
  }

  lemma RepeatSnoc(x: nat, n: nat)
    ensures Repeat(x, n + 1) == Repeat(x, n) + [x]
  {
  }

  method CountNode(deps: seq<string>, positions: map<string, nat>, ghost pdeps: seq<nat>,
                   p: nat, indegree: array<int>, dependents: array<seq<nat>>)
      returns (known: bool)
    requires p < indegree.Length == dependents.Length && |pdeps| == |deps|
    requires forall k :: 0 <= k < |deps| && deps[k] in positions ==> positions[deps[k]] == pdeps[k] < dependents.Length
    requires indegree[p] == 0
    modifies indegree, dependents
    ensures known <==> forall d :: d in deps ==> d in positions
    ensures known ==> indegree[..] == old(indegree[..])[p := |deps|]
    ensures known ==> forall q: nat :: q < dependents.Length ==>
              dependents[q] == old(dependents[q]) + Repeat(p, multiset(pdeps)[q])
  {
    for k := 0 to |deps|
      invariant forall j :: 0 <= j < k ==> deps[j] in positions
      invariant indegree[..] == old(indegree[..])[p := k]
      invariant forall q: nat :: q < dependents.Length ==>
        dependents[q] == old(dependents[q]) + Repeat(p, multiset(pdeps[..k])[q])
    {
      if deps[k] !in positions { return false; }
      var q := positions[deps[k]];
      indegree[p] := indegree[p] + 1;
      assert pdeps[..k + 1] == pdeps[..k] + [q];
      RepeatSnoc(p, multiset(pdeps[..k])[q]);
      assert dependents[q] + [p] == old(dependents[q]) + Repeat(p, multiset(pdeps[..k + 1])[q]);
      dependents[q] := dependents[q] + [p];
    }
    assert pdeps[..|deps|] == pdeps;
    known := true;
  }

  /** The second loop: in-degrees and dependents lists, or failure at an unknown name. */
  method CountDependencies(nodes: seq<Node>, positions: map<string, nat>)
      returns (known: bool, indegree: array<int>, dependents: array<seq<nat>>)
    requires positions.Keys == Names(nodes)
    requires forall name :: name in positions ==> positions[name] == PositionOf(nodes, name)
    ensures known <==> Declared(nodes)
    ensures fresh(indegree) && fresh(dependents)
    ensures known ==> indegree.Length == dependents.Length == |nodes|
    ensures known ==> forall p :: 0 <= p < |nodes| ==> indegree[p] == |DepPositions(nodes)[p]|
    ensures known ==> forall q :: 0 <= q < |nodes| ==> dependents[q] == Dependents(DepPositions(nodes), |nodes|, q)
  {
    var n := |nodes|;
    ghost var pdeps := DepPositions(nodes);
    indegree := new int[n](_ => 0);
    dependents := new seq<nat>[n](_ => []);
    for p := 0 to n
      invariant forall i, d :: 0 <= i < p && d in nodes[i].deps ==> d in Names(nodes)
      invariant forall i :: 0 <= i < n ==> indegree[i] == if i < p then |pdeps[i]| else 0
      invariant forall q :: 0 <= q < n ==> dependents[q] == Dependents(pdeps, p, q)
    {
      known := CountNode(nodes[p].deps, positions, pdeps[p], p, indegree, dependents);
      if !known { return; }
    }
    known := true;
  }

  /** The inner loop over the dependents of the position just taken from the queue. */
  method RelaxAll(indegree: array<int>, queue: seq<nat>, ds: seq<nat>) returns (ready: seq<nat>)
    requires QueueOk(Queue(indegree[..], queue), indegree.Length) && Below(ds, indegree.Length)
    modifies indegree
    ensures Queue(indegree[..], ready) == Relax(Queue(old(indegree[..]), queue), indegree.Length, ds)
  {
    ready := queue;
    ghost var n, before := indegree.Length, Queue(indegree[..], queue);
    assert ds[0..] == ds;
    for k := 0 to |ds|
      invariant QueueOk(Queue(indegree[..], ready), n)
      invariant Relax(Queue(indegree[..], ready), n, ds[k..]) == Relax(before, n, ds)
    {
      var d := ds[k];
      ghost var current := Queue(indegree[..], ready);
      assert ds[k..][0] == d && ds[k..][1..] == ds[k + 1..];
      indegree[d] := indegree[d] - 1;
      if indegree[d] == 0 { ready := ready + [d]; }
      assert Queue(indegree[..], ready) == Decrement(current, n, d);
    }
  }

  method FindReady(indegree: array<int>) returns (ready: seq<nat>)
    ensures ready == Zeros(indegree[..], indegree.Length)
    ensures Ascending(ready) && Below(ready, indegree.Length)
    ensures forall p :: 0 <= p < indegree.Length ==> (p in ready <==> indegree[p] == 0)
  {
    ready := [];
    for p := 0 to indegree.Length
      invariant ready == Zeros(indegree[..], p)
    {
      if indegree[p] == 0 { ready := ready + [p]; }
    }
    ZerosAscend(indegree[..], indegree.Length);
  }

  /** The main loop: take the oldest ready position until none is left. */
  method DrainQueue(ghost pdeps: seq<seq<nat>>, indegree: array<int>, dependents: array<seq<nat>>, queue: seq<nat>)
      returns (order: seq<nat>)
    requires QueueOk(Queue(indegree[..], queue), |pdeps|) && dependents.Length == |pdeps|
    requires forall q :: 0 <= q < |pdeps| ==> dependents[q] == Dependents(pdeps, |pdeps|, q)
    modifies indegree
    ensures order == Drain(pdeps, Queue(old(indegree[..]), queue), [])
  {
    var ready := queue;
    order := [];
    while ready != []
      invariant QueueOk(Queue(indegree[..], ready), |pdeps|)
      invariant Drain(pdeps, Queue(indegree[..], ready), order) == Drain(pdeps, Queue(old(indegree[..]), queue), [])
      decreases Positive(indegree[..]) + |ready|
    {
      var position := ready[0];
      DependentsInRange(pdeps, |pdeps|, position);
      order := order + [position];
      ready := RelaxAll(indegree, ready[1..], dependents[position]);
    }
  }

  /** `_topological_order`. */
  method TopologicalOrder(nodes: seq<Node>) returns (result: Option<seq<nat>>)
    ensures result == Order(nodes)
    ensures result.Some? <==> Valid(nodes)
    ensures result.Some? ==> IsTopological(nodes, result.value) && FirstInFirstOut(nodes, result.value)
  {
    OrderIffValid(nodes);
    if Order(nodes).Some? { OrderIsExactly(nodes, Order(nodes).value); }
    var positions := IndexNames(nodes);
    if positions.None? { return None; }
    var known, indegree, dependents := CountDependencies(nodes, positions.value);
    if !known { return None; }
    ghost var pdeps := DepPositions(nodes);
    var ready := FindReady(indegree);
    assert indegree[..] == InitialQueue(pdeps).indegree;
    var order := DrainQueue(pdeps, indegree, dependents, ready);
    result := if |order| == |nodes| then Some(order) else None;
  }
}
