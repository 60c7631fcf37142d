/** Jena's `ResourceUtils.reachableClosure` and the mark-and-sweep that the
    catalog runs with it: a node is reachable when it is the root or a
    resource object of a triple whose subject is reachable, and the closure
    keeps exactly the triples whose subject is reachable. */
module Closure {
  import opened Rdf

  function NodesOf(g: Graph): set<Node> {
    (set t | t in g :: t.s) + (set t | t in g :: t.o)
  }

  /** A node set that the walk cannot leave: every resource object of a
      triple whose subject is in the set is in the set too. */
  predicate Closed(g: Graph, nodes: set<Node>) {
    forall t :: t in g && t.s in nodes && IsResource(t.o) ==> t.o in nodes
  }

  /** The resource objects of the triples leaving `seen`. */
  function Successors(g: Graph, seen: set<Node>): (r: set<Node>)
    ensures r <= NodesOf(g)
    ensures forall t :: t in g && t.s in seen && IsResource(t.o) ==> t.o in r
  {
    set t | t in g && t.s in seen && IsResource(t.o) :: t.o
  }

  lemma ProperSubsetSmaller(a: set<Node>, b: set<Node>)
    requires a < b
    ensures |a| < |b|
  {
    assert b - a != {};
    var x :| x in b - a;
    assert a <= b - {x};
    SubsetNotLarger(a, b - {x});
  }

  lemma {:induction false} SubsetNotLarger(a: set<Node>, b: set<Node>)
    requires a <= b
    ensures |a| <= |b|
    decreases |a|
  {
    if a != {} {
      var x :| x in a;
      SubsetNotLarger(a - {x}, b - {x});
    }
  }

  /** The breadth-first walk from `seen` until nothing new is found. */
  function Walk(g: Graph, seen: set<Node>): (r: set<Node>)
    ensures seen <= r <= seen + NodesOf(g)
    ensures Closed(g, r)
    decreases |NodesOf(g) - seen|
  {
    var next := seen + Successors(g, seen);
    if next <= seen then seen
    else
      ProperSubsetSmaller(NodesOf(g) - next, NodesOf(g) - seen);
      Walk(g, next)
  }

  /** The walk never goes beyond a closed set that contains its start. */
  lemma {:induction false} WalkIsLeast(g: Graph, seen: set<Node>, bound: set<Node>)
    requires seen <= bound && Closed(g, bound)
    ensures Walk(g, seen) <= bound
    decreases |NodesOf(g) - seen|
  {
    var next := seen + Successors(g, seen);
    if !(next <= seen) {
      ProperSubsetSmaller(NodesOf(g) - next, NodesOf(g) - seen);
      assert next <= bound;
      WalkIsLeast(g, next, bound);
    }
  }

  /** The nodes reachable from `root`. */
  function Reachable(g: Graph, root: Node): set<Node> {
    Walk(g, {root})
  }

  /** `Reachable` is the least closed node set containing the root. */
  lemma ReachableIsLeastClosed(g: Graph, root: Node, bound: set<Node>)
    ensures root in Reachable(g, root) && Closed(g, Reachable(g, root))
    ensures root in bound && Closed(g, bound) ==> Reachable(g, root) <= bound
  {
    if root in bound && Closed(g, bound) {
      WalkIsLeast(g, {root}, bound);
    }
  }

  /** `ResourceUtils.reachableClosure(root)`: the triples whose subject is reachable. */
  function ReachableClosure(g: Graph, root: Node): (r: Graph)
    ensures r <= g
    ensures forall t :: t in g && t.s == root ==> t in r
    ensures forall t :: t in r && IsResource(t.o) ==> t.o in Reachable(g, root)
    ensures forall t :: t in g && t.s !in Reachable(g, root) ==> t !in r
  {
    set t | t in g && t.s in Reachable(g, root)
  }

  /** `model.remove(model.difference(closure))`: delete every statement of the
      model that is not in the closure. */
  function Sweep(g: Graph, root: Node): Graph {
    g - (g - ReachableClosure(g, root))
  }

  /** The sweep leaves exactly the reachable closure: a subset of the input
      that keeps every triple about the root and drops every triple whose
      subject can no longer be reached. */
  lemma SweepIsClosure(g: Graph, root: Node)
    ensures Sweep(g, root) == ReachableClosure(g, root)
    ensures Sweep(g, root) <= g
    ensures forall t :: t in g && t.s == root ==> t in Sweep(g, root)
    ensures forall t :: t in Sweep(g, root) <==> t in g && t.s in Reachable(g, root)
  {
  }

  /** Pruning does not change what is reachable. */
  lemma {:induction false} ReachableAfterSweep(g: Graph, root: Node)
    ensures Reachable(ReachableClosure(g, root), root) == Reachable(g, root)
  {
    var c := ReachableClosure(g, root);
    var r := Reachable(g, root);
    ReachableIsLeastClosed(g, root, r);
    // r is closed in the smaller graph c, so the walk in c stays inside r.
    assert Closed(c, r);
    ReachableIsLeastClosed(c, root, r);
    var rc := Reachable(c, root);
    // rc is closed in g: an edge of g leaving rc leaves r, so it is in c.
    forall t | t in g && t.s in rc && IsResource(t.o)
      ensures t.o in rc
    {
      assert t in c;
    }
    ReachableIsLeastClosed(g, root, rc);
  }

  /** Sweeping an already swept graph removes nothing. */
  lemma SweepIdempotent(g: Graph, root: Node)
    ensures Sweep(Sweep(g, root), root) == Sweep(g, root)
  {
    SweepIsClosure(g, root);
    var c := ReachableClosure(g, root);
    SweepIsClosure(c, root);
    ReachableAfterSweep(g, root);
  }
}
