/** driver.TopoOrder: a depth-first, input-stable order that puts dependencies first and tolerates cycles. */
module TopoOrder {
  import opened Graphs

  ghost predicate Distinct(s: seq<Id>) {
    forall i, j :: 0 <= i < j < |s| ==> s[i] != s[j]
  }

  /** a stands before b in s. */
  ghost predicate Before(s: seq<Id>, a: Id, b: Id) {
    exists i, j :: 0 <= i < j < |s| && s[i] == a && s[j] == b
  }

  /** Every edge is honoured, except one whose ends lie on a common cycle. */
  ghost predicate Ordered(g: Graph, out: seq<Id>) {
    forall i, y :: 0 <= i < |out| && Edge(g, out[i], y) && y != out[i] ==>
                     y in out[..i] || Reach(g, y, out[i])
  }

  ghost predicate Permutes(g: Graph, out: seq<Id>) {
    Distinct(out) && forall n :: n in out <==> n in g.names
  }

  /** No other name depends on n. */
  ghost predicate Undepended(g: Graph, n: Id) {
    forall x :: Edge(g, x, n) ==> x == n
  }

  /** The input is already in dependency order. */
  ghost predicate Sorted(g: Graph) {
    && Distinct(g.names)
    && forall i, y :: 0 <= i < |g.names| && Edge(g, g.names[i], y) && y != g.names[i] ==> y in g.names[..i]
  }

  /** out is was followed by names that n depends on. */
  ghost predicate Extends(g: Graph, n: Id, was: seq<Id>, out: seq<Id>) {
    was <= out && forall i :: |was| <= i < |out| ==> Reach(g, n, out[i])
  }

  lemma ExtendsTrans(g: Graph, n: Id, dep: Id, was: seq<Id>, mid: seq<Id>, out: seq<Id>)
    requires Extends(g, n, was, mid) && Extends(g, dep, mid, out) && Reach(g, n, dep)
    ensures Extends(g, n, was, out)
  {
    forall i | |was| <= i < |out| ensures Reach(g, n, out[i]) {
      if i < |mid| {
        assert out[i] == mid[i];
      } else {
        ReachTrans(g, n, dep, out[i]);
      }
    }
  }

  lemma ExtendsSelf(g: Graph, n: Id, out: seq<Id>)
    ensures Extends(g, n, out, out)
  {
  }

  lemma ExtendsOne(g: Graph, n: Id, was: seq<Id>, mid: seq<Id>)
    requires Extends(g, n, was, mid) && Reach(g, n, n)
    ensures Extends(g, n, was, mid + [n])
  {
    hide Reach;
  }

  /** The closure variables of the Go function: visited is 0 for a name not in the map, 1 in
      progress, 2 done. */
  class Sorter {
    const g: Graph
    var visited: map<Id, int>
    var out: seq<Id>
    ghost var active: set<Id> // the names in progress

    constructor (g: Graph)
      ensures this.g == g && visited == map[] && out == [] && active == {}
    {
      this.g := g;
      visited, out, active := map[], [], {};
    }

    ghost predicate Valid()
      reads this
    {
      && (forall n :: n in visited ==> n in g.names && 1 <= visited[n] <= 2)
      && (forall n :: n in active <==> n in visited && visited[n] == 1)
      && (forall n :: n in out <==> n in visited && visited[n] == 2)
      && Distinct(out)
      && Ordered(g, out)
    }

    method Visit(n: Id)
      requires Valid() && n in g.names
      requires forall x :: x in active ==> Reach(g, x, n)
      modifies this
      ensures Valid() && active == old(active)
      ensures old(visited.Keys) <= visited.Keys && n in visited
      ensures Extends(g, n, old(out), out)
      ensures n in old(visited) ==> out == old(out)
      ensures n !in old(visited) ==> n in out
      ensures n !in old(visited) && (forall y :: Edge(g, n, y) && y != n ==> y in old(visited)) ==>
                out == old(out) + [n]
      decreases (set x | x in g.names) - visited.Keys
    {
      hide Ordered, Distinct, Reach, Extends;
      ExtendsSelf(g, n, out);
      if n in visited {
        return; // done, or a cycle back-edge
      }
      ghost var was, gray := out, active;
      ghost var seen := visited.Keys;
      visited, active := visited[n := 1], active + {n};
      ReachRefl(g, n);
      var deps := DepsOf(g.deps, n);
      var k := 0;
      while k < |deps|
        invariant 0 <= k <= |deps|
        invariant Valid() && active == gray + {n}
        invariant seen + {n} <= visited.Keys
        invariant n !in out && Extends(g, n, was, out)
        invariant forall j :: 0 <= j < k && deps[j] in g.names && deps[j] != n ==> deps[j] in visited
        invariant (forall y :: Edge(g, n, y) && y != n ==> y in seen) ==> out == was
      {
        var dep := deps[k];
        if dep in g.names && dep != n {
          ghost var before := out;
          assert Edge(g, n, dep);
          ReachEdge(g, n, dep);
          forall x | x in active ensures Reach(g, x, dep) {
            ReachTrans(g, x, n, dep);
          }
          Visit(dep);
          ExtendsTrans(g, n, dep, was, before, out);
        }
        k := k + 1;
      }
      ghost var mid := out;
      Finish(n, gray);
      ExtendsOne(g, n, was, mid);
    }

    /** The last two statements of visit, where the order is decided. */
    method Finish(n: Id, ghost gray: set<Id>)
      requires Valid() && n in g.names && n in visited && visited[n] == 1
      requires active == gray + {n} && n !in gray
      requires forall x :: x in gray ==> Reach(g, x, n)
      requires forall y :: Edge(g, n, y) && y != n ==> y in visited
      modifies this
      ensures Valid() && active == gray
      ensures visited.Keys == old(visited.Keys) && out == old(out) + [n]
    {
      hide Reach;
      ghost var was := out;
      forall y | Edge(g, n, y) && y != n ensures y in was || Reach(g, y, n) {
        assert y in visited;
        assert y in active || y in was;
      }
      visited, active := visited[n := 2], gray;
      out := out + [n];
      forall i, y | 0 <= i < |out| && Edge(g, out[i], y) && y != out[i]
        ensures y in out[..i] || Reach(g, y, out[i])
      {
        if i < |was| {
          assert out[..i] == was[..i];
        } else {
          assert out[..i] == was;
        }
      }
    }

    /** What the order looks like once the first k names have been visited. */
    ghost predicate Done(k: nat)
      requires k <= |g.names|
      reads this
    {
      && Valid() && active == {}
      && (forall n :: n in g.names[..k] ==> n in out)
      && FromNames(g, out, k)
      && (Sorted(g) ==> out == g.names[..k])
      && RootsFollow(g, out, k)
    }

    method VisitName(k: nat)
      requires k < |g.names| && Done(k)
      modifies this
      ensures Done(k + 1)
    {
      hide Ordered, Distinct, Reach, Extends, FromNames, RootsFollow, Sorted, Edge;
      var n := g.names[k];
      ghost var was, seen := out, visited.Keys;
      NextName(g, k);
      if Sorted(g) {
        SortedStep(g, k);
      }
      assert Sorted(g) ==> n !in seen && forall y :: Edge(g, n, y) && y != n ==> y in seen;
      Visit(n);
      ExtendsPrefix(g, n, was, out);
      FromNamesStep(g, was, out, k);
      RootFollows(g, was, out, k);
    }
  }

  lemma NextName(g: Graph, k: nat)
    requires k < |g.names|
    ensures g.names[..k + 1] == g.names[..k] + [g.names[k]]
  {
  }

  lemma ExtendsPrefix(g: Graph, n: Id, was: seq<Id>, out: seq<Id>)
    requires Extends(g, n, was, out)
    ensures was <= out
  {
  }

  /** x was reached from one of the first k names. */
  ghost predicate FromName(g: Graph, k: nat, x: Id)
    requires k <= |g.names|
  {
    exists j :: 0 <= j < k && Reach(g, g.names[j], x)
  }

  ghost predicate FromNames(g: Graph, out: seq<Id>, k: nat)
    requires k <= |g.names|
  {
    forall i :: 0 <= i < |out| ==> FromName(g, k, out[i])
  }

  lemma FromNamesStep(g: Graph, was: seq<Id>, out: seq<Id>, k: nat)
    requires k < |g.names| && FromNames(g, was, k) && Extends(g, g.names[k], was, out)
    ensures FromNames(g, out, k + 1)
  {
    forall i | 0 <= i < |out| ensures FromName(g, k + 1, out[i]) {
      if i < |was| {
        assert out[i] == was[i] && FromName(g, k, was[i]);
      } else {
        assert Reach(g, g.names[k], out[i]);
      }
    }
  }

  lemma SortedStep(g: Graph, k: nat)
    requires k < |g.names| && Sorted(g)
    ensures g.names[k] !in g.names[..k] && g.names[..k + 1] == g.names[..k] + [g.names[k]]
    ensures forall y :: Edge(g, g.names[k], y) && y != g.names[k] ==> y in g.names[..k]
  {
  }

  /** Among the first k names, one that no other depends on follows all those before it. */
  ghost predicate RootsFollow(g: Graph, out: seq<Id>, k: nat)
    requires k <= |g.names|
  {
    forall i, j :: 0 <= j < i < k && Undepended(g, g.names[i]) && g.names[i] !in g.names[..i] ==>
                     Before(out, g.names[j], g.names[i])
  }

  lemma RootFollows(g: Graph, was: seq<Id>, out: seq<Id>, k: nat)
    requires k < |g.names| && RootsFollow(g, was, k) && was <= out && g.names[k] in out
    requires forall n :: n in g.names[..k] ==> n in was
    requires FromNames(g, was, k)
    ensures RootsFollow(g, out, k + 1)
  {
    forall i, j | 0 <= j < i < k + 1 && Undepended(g, g.names[i]) && g.names[i] !in g.names[..i]
      ensures Before(out, g.names[j], g.names[i])
    {
      if i < k {
        assert Before(was, g.names[j], g.names[i]);
        var a, b :| 0 <= a < b < |was| && was[a] == g.names[j] && was[b] == g.names[i];
        assert out[a] == was[a] && out[b] == was[b];
      } else {
        FreshRoot(g, was, k);
        assert g.names[j] in g.names[..k];
        var a :| 0 <= a < |was| && was[a] == g.names[j];
        var b :| 0 <= b < |out| && out[b] == g.names[k];
        assert g.names[k] !in was && out[..|was|] == was;
        assert b >= |was| by {
          assert forall c :: 0 <= c < |was| ==> out[c] == was[c];
        }
        assert out[a] == g.names[j] && out[b] == g.names[k];
      }
    }
  }

  /** A name nobody depends on cannot have been reached from an earlier one. */
  lemma FreshRoot(g: Graph, was: seq<Id>, k: nat)
    requires k < |g.names| && Undepended(g, g.names[k]) && g.names[k] !in g.names[..k]
    requires FromNames(g, was, k)
    ensures g.names[k] !in was
  {
    var n := g.names[k];
    if n in was {
      assert FromName(g, k, n);
      var j :| 0 <= j < k && Reach(g, g.names[j], n);
      assert g.names[j] in g.names[..k];
      var a, b := ReachCrosses(g, (set x | x in g.names) - {n}, g.names[j], n);
    }
  }

  method TopoOrder(g: Graph) returns (out: seq<Id>)
    // each distinct name exactly once, cycles or not
    ensures Permutes(g, out)
    // a dependency comes first unless the two lie on a common cycle
    ensures Ordered(g, out)
    // an input already in order is returned unchanged
    ensures Sorted(g) ==> out == g.names
    // a name nobody depends on keeps following everything that stood before it
    ensures RootsFollow(g, out, |g.names|)
  {
    var s := new Sorter(g);
    var k := 0;
    while k < |g.names|
      invariant 0 <= k <= |g.names| && s.g == g && fresh(s)
      invariant s.Done(k)
    {
      s.VisitName(k);
      k := k + 1;
    }
    assert g.names[..k] == g.names;
    out := s.out;
  }

  /** On an acyclic graph the exception disappears: the order is topological. */
  lemma AcyclicOrdered(g: Graph, out: seq<Id>, i: nat, y: Id)
    requires Acyclic(g) && Ordered(g, out) && i < |out| && Edge(g, out[i], y)
    ensures y in out[..i]
  {
    ReachRefl(g, y);
    assert !OnCycle(g, out[i]);
    assert !Reach(g, y, out[i]);
  }
}
