/** Dependency graphs as the dump planner builds them: a list of node ids and, per id, the ids it depends on. */
module Graphs {
  // An edge whose target is not a listed name is a boundary edge and is no edge of the graph.  A missing map
  // entry reads as the empty list, as in Go.

  type Id = string

  datatype Graph = Graph(names: seq<Id>, deps: map<Id, seq<Id>>)

  function DepsOf(deps: map<Id, seq<Id>>, v: Id): seq<Id> {
    if v in deps then deps[v] else []
  }

  ghost predicate Edge(g: Graph, u: Id, v: Id) {
    u in g.names && v in g.names && v in DepsOf(g.deps, u)
  }

  ghost predicate IsPath(g: Graph, p: seq<Id>) {
    |p| > 0 && forall i :: 0 <= i < |p| - 1 ==> Edge(g, p[i], p[i + 1])
  }

  ghost predicate PathFromTo(g: Graph, p: seq<Id>, u: Id, v: Id) {
    IsPath(g, p) && p[0] == u && p[|p| - 1] == v
  }

  /** u depends on v, directly or through others; every node reaches itself. */
  ghost predicate Reach(g: Graph, u: Id, v: Id) {
    exists p :: PathFromTo(g, p, u, v)
  }

  /** x lies on a dependency cycle; a self-edge is one. */
  ghost predicate OnCycle(g: Graph, x: Id) {
    exists y :: Edge(g, x, y) && Reach(g, y, x)
  }

  ghost predicate Acyclic(g: Graph) {
    forall x :: x in g.names ==> !OnCycle(g, x)
  }

  ghost predicate Mutual(g: Graph, u: Id, v: Id) {
    Reach(g, u, v) && Reach(g, v, u)
  }

  ghost predicate ClosedSet(g: Graph, S: set<Id>) {
    forall u, v :: u in S && Edge(g, u, v) ==> v in S
  }

  lemma ReachRefl(g: Graph, u: Id)
    ensures Reach(g, u, u)
  {
    assert PathFromTo(g, [u], u, u);
  }

  lemma ReachEdge(g: Graph, u: Id, v: Id)
    requires Edge(g, u, v)
    ensures Reach(g, u, v)
  {
    assert PathFromTo(g, [u, v], u, v);
  }

  lemma ReachTrans(g: Graph, u: Id, v: Id, w: Id)
    requires Reach(g, u, v) && Reach(g, v, w)
    ensures Reach(g, u, w)
  {
    var p :| PathFromTo(g, p, u, v);
    var q :| PathFromTo(g, q, v, w);
    var r := p + q[1..];
    assert PathFromTo(g, r, u, w);
  }

  /** A path that leaves its source takes a first edge. */
  lemma ReachFirst(g: Graph, u: Id, v: Id) returns (w: Id)
    requires Reach(g, u, v) && u != v
    ensures Edge(g, u, w) && Reach(g, w, v)
  {
    var p :| PathFromTo(g, p, u, v);
    w := p[1];
    assert PathFromTo(g, p[1..], w, v);
  }

  /** ... and a last one. */
  lemma ReachLast(g: Graph, u: Id, v: Id) returns (w: Id)
    requires Reach(g, u, v) && u != v
    ensures Reach(g, u, w) && Edge(g, w, v)
  {
    var p :| PathFromTo(g, p, u, v);
    w := p[|p| - 2];
    assert PathFromTo(g, p[..|p| - 1], u, w);
  }

  /** A set closed under edges cannot be left. */
  lemma {:induction false} ReachClosed(g: Graph, S: set<Id>, u: Id, v: Id)
    requires Reach(g, u, v) && u in S && ClosedSet(g, S)
    ensures v in S
  {
    var p :| PathFromTo(g, p, u, v);
    var i := 0;
    while i < |p| - 1
      invariant 0 <= i < |p| && p[i] in S
    {
      assert Edge(g, p[i], p[i + 1]);
      i := i + 1;
    }
  }

  /** Leaving a set takes an edge that crosses its border. */
  lemma {:induction false} ReachCrosses(g: Graph, S: set<Id>, u: Id, v: Id) returns (a: Id, b: Id)
    requires Reach(g, u, v) && u in S && v !in S
    ensures a in S && b !in S && Edge(g, a, b)
    ensures Reach(g, u, a) && Reach(g, b, v)
  {
    var p :| PathFromTo(g, p, u, v);
    var i := 0;
    while p[i + 1] in S
      invariant 0 <= i < |p| - 1 && p[i] in S
      decreases |p| - i
    {
      i := i + 1;
    }
    a, b := p[i], p[i + 1];
    assert PathFromTo(g, p[..i + 1], u, a);
    assert PathFromTo(g, p[i + 1..], b, v);
  }

  /** Reachability through a renaming of nodes: if every edge of g becomes a path of h, so does every path. */
  lemma {:induction false} ReachMapped(g: Graph, h: Graph, f: Id -> Id, u: Id, v: Id)
    requires Reach(g, u, v)
    requires forall x, y :: Edge(g, x, y) ==> Reach(h, f(x), f(y))
    ensures Reach(h, f(u), f(v))
  {
    var p :| PathFromTo(g, p, u, v);
    ReachRefl(h, f(u));
    var i := 0;
    while i < |p| - 1
      invariant 0 <= i < |p| && Reach(h, f(u), f(p[i]))
    {
      assert Edge(g, p[i], p[i + 1]);
      ReachTrans(h, f(u), f(p[i]), f(p[i + 1]));
      i := i + 1;
    }
  }

  /** Fewer edges, fewer paths. */
  lemma ReachMonotone(g: Graph, h: Graph, u: Id, v: Id)
    requires Reach(g, u, v)
    requires forall x, y :: Edge(g, x, y) ==> Edge(h, x, y)
    ensures Reach(h, u, v)
  {
    var p :| PathFromTo(g, p, u, v);
    assert PathFromTo(h, p, u, v);
  }

  /** Two distinct nodes that reach each other are both on a cycle. */
  lemma MutualOnCycle(g: Graph, u: Id, v: Id)
    requires Mutual(g, u, v) && u != v
    ensures OnCycle(g, u) && OnCycle(g, v)
  {
    var a := ReachFirst(g, u, v);
    ReachTrans(g, a, v, u);
    var b := ReachFirst(g, v, u);
    ReachTrans(g, b, u, v);
  }
}
