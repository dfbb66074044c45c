/** driver.SCC: Tarjan's algorithm, with numbers, low links and the node stack in variables that the recursion updates. */
module Tarjan {
  import opened Graphs
  import opened TopoOrder

  /** A maximal set of mutually reachable names, listed without repetition. */
  ghost predicate IsComponent(g: Graph, comp: seq<Id>) {
    && |comp| > 0 && Distinct(comp)
    && (forall x :: x in comp ==> x in g.names)
    && (forall x, y :: x in comp && y in comp ==> Reach(g, x, y))
    && (forall x, y :: x in comp && Mutual(g, x, y) ==> y in comp)
  }

  ghost predicate InSome(out: seq<seq<Id>>, x: Id) {
    exists c :: 0 <= c < |out| && x in out[c]
  }

  /** The components are pairwise disjoint. */
  ghost predicate Disjoint(out: seq<seq<Id>>) {
    forall c, d, x :: 0 <= c < d < |out| && x in out[c] ==> x !in out[d]
  }

  /** No component depends on a later one. */
  ghost predicate DependenciesFirst(g: Graph, out: seq<seq<Id>>) {
    forall c, x, y :: 0 <= c < |out| && x in out[c] && Edge(g, x, y) ==> InSome(out[..c + 1], y)
  }

  ghost predicate AllComponents(g: Graph, out: seq<seq<Id>>) {
    forall c :: 0 <= c < |out| ==> IsComponent(g, out[c])
  }

  /** What SCC promises: the strongly connected components, each once, dependencies first. */
  ghost predicate IsDecomposition(g: Graph, out: seq<seq<Id>>) {
    && AllComponents(g, out) && Disjoint(out) && DependenciesFirst(g, out)
    && forall x :: x in g.names <==> InSome(out, x)
  }

  /** A snapshot of the search: num is -1 for an unvisited name; gray are the names whose
      strongconnect call has not returned. */
  datatype Env = Env(num: map<Id, int>, stack: seq<Id>, out: seq<seq<Id>>, counter: nat, gray: set<Id>)

  ghost function Num(e: Env, x: Id): int {
    if x in e.num then e.num[x] else -1
  }

  ghost predicate Visited(e: Env, x: Id) {
    Num(e, x) != -1
  }

  ghost predicate Finished(e: Env, x: Id) {
    Visited(e, x) && x !in e.stack
  }

  ghost predicate Numbered(g: Graph, e: Env) {
    && (forall x :: x in e.num <==> x in g.names)
    && (forall x :: x in e.num ==> -1 <= Num(e, x) < e.counter)
    && (forall i :: 0 <= i < |e.stack| ==> Visited(e, e.stack[i]))
    && (forall x :: x in e.gray ==> x in e.stack)
  }

  /** Names were stacked in the order they were discovered. */
  ghost predicate Ascending(e: Env) {
    forall i, j :: 0 <= i < j < |e.stack| ==> Num(e, e.stack[i]) < Num(e, e.stack[j])
  }

  ghost predicate EdgesOk(g: Graph, e: Env) {
    && (forall u, v :: Edge(g, u, v) && Visited(e, u) && u !in e.gray ==> Visited(e, v))
    && (forall u, v :: Edge(g, u, v) && Finished(e, u) ==> Finished(e, v))
  }

  /** x can still get back to an open call at or below it. */
  ghost predicate Anchored(g: Graph, e: Env, x: Id) {
    exists y :: y in e.gray && Num(e, y) <= Num(e, x) && Reach(g, x, y)
  }

  ghost predicate AllAnchored(g: Graph, e: Env) {
    forall i :: 0 <= i < |e.stack| ==> Anchored(g, e, e.stack[i])
  }

  /** An open call reaches everything stacked after it. */
  ghost predicate Spine(g: Graph, e: Env) {
    forall x, i :: x in e.gray && 0 <= i < |e.stack| && Num(e, x) <= Num(e, e.stack[i]) ==> Reach(g, x, e.stack[i])
  }

  ghost predicate OutOk(g: Graph, e: Env) {
    && AllComponents(g, e.out) && Disjoint(e.out) && DependenciesFirst(g, e.out)
    && forall x :: Finished(e, x) <==> InSome(e.out, x)
  }

  ghost predicate Wf(g: Graph, e: Env) {
    Numbered(g, e) && Ascending(e) && EdgesOk(g, e) && AllAnchored(g, e) && Spine(g, e) && OutOk(g, e)
  }

  /** Entering strongconnect(v). */
  ghost function Push(e: Env, v: Id): Env {
    Env(e.num[v := e.counter], e.stack + [v], e.out, e.counter + 1, e.gray + {v})
  }

  lemma PushWf(g: Graph, e: Env, v: Id)
    requires Wf(g, e) && v in g.names && !Visited(e, v)
    requires forall x :: x in e.gray ==> Reach(g, x, v)
    ensures Wf(g, Push(e, v))
  {
    hide Reach, AllComponents, Disjoint, DependenciesFirst, AllAnchored, Spine;
    var f := Push(e, v);
    assert forall x :: Visited(f, x) <==> Visited(e, x) || x == v;
    assert v !in e.stack;
    assert forall x :: Finished(f, x) <==> Finished(e, x);
    PushStack(g, e, v);
  }

  lemma PushStack(g: Graph, e: Env, v: Id)
    requires Numbered(g, e) && AllAnchored(g, e) && Spine(g, e) && v in g.names && !Visited(e, v)
    requires forall x :: x in e.gray ==> Reach(g, x, v)
    ensures AllAnchored(g, Push(e, v)) && Spine(g, Push(e, v))
  {
    hide Reach;
    var f := Push(e, v);
    ReachRefl(g, v);
    assert forall x :: x in e.stack ==> x != v && Num(f, x) == Num(e, x);
    forall i | 0 <= i < |f.stack| ensures Anchored(g, f, f.stack[i]) {
      if i < |e.stack| {
        assert Anchored(g, e, e.stack[i]);
        var y :| y in e.gray && Num(e, y) <= Num(e, e.stack[i]) && Reach(g, e.stack[i], y);
        assert y in f.gray && Num(f, y) <= Num(f, f.stack[i]);
      } else {
        assert v in f.gray;
      }
    }
  }

  /** The state inside strongconnect(v), called in state e0, once the first k edges of v are done. */
  ghost predicate Inside(g: Graph, e0: Env, e: Env, v: Id, low: int, k: nat) {
    && Wf(g, e) && e.gray == e0.gray + {v} && v !in e0.gray
    && Stacked(g, e0, e, v) && |e0.stack| < |e.stack| && e.stack[|e0.stack|] == v && Num(e, v) == e0.counter
    && LowOk(g, e0, e, v, low) && LinksAbove(g, e0, e, |e0.stack| + 1, low)
    && k <= |DepsOf(g.deps, v)| && EdgesDone(g, e0, e, DepsOf(g.deps, v)[..k], low)
  }

  /** low is a lower bound for the edges from stack position p on into the older stack. */
  ghost predicate LinksAbove(g: Graph, e0: Env, e: Env, p: nat, low: int) {
    forall i, j :: p <= i < |e.stack| && 0 <= j < |e0.stack| && Edge(g, e.stack[i], e0.stack[j]) ==>
                     low <= Num(e0, e0.stack[j])
  }

  /** The edge targets in done are visited, and low is a lower bound for those on the older stack. */
  ghost predicate EdgesDone(g: Graph, e0: Env, e: Env, done: seq<Id>, low: int) {
    && (forall w :: w in done && w in g.names ==> Visited(e, w))
    && (forall j :: 0 <= j < |e0.stack| && e0.stack[j] in done ==> low <= Num(e0, e0.stack[j]))
  }

  /** e continues e0, and what it added to the stack v reaches. */
  ghost predicate Stacked(g: Graph, e0: Env, e: Env, v: Id) {
    && Numbered(g, e0) && Numbered(g, e) && e0.stack <= e.stack && e0.out <= e.out
    && (forall x :: Visited(e0, x) ==> Visited(e, x) && Num(e, x) == Num(e0, x))
    && (forall i :: |e0.stack| <= i < |e.stack| ==> Reach(g, v, e.stack[i]))
    && Visited(e, v)
  }

  /** low is v's own number or the number of an older stack entry that v reaches. */
  ghost predicate LowOk(g: Graph, e0: Env, e: Env, v: Id, low: int)
  {
    && low <= Num(e, v)
    && (low < Num(e, v) ==> exists j :: 0 <= j < |e0.stack| && Num(e0, e0.stack[j]) == low && Reach(g, v, e0.stack[j]))
  }

  /** What a finished strongconnect(v) has done to state e0. */
  ghost predicate Connected(g: Graph, e0: Env, e: Env, v: Id, low: int) {
    && Wf(g, e) && e.gray == e0.gray && Stacked(g, e0, e, v) && Num(e, v) == e0.counter
    && LowOk(g, e0, e, v, low)
    && (low == Num(e, v) ==> e.stack == e0.stack)
    && LinksAbove(g, e0, e, |e0.stack|, low)
  }

  lemma Enter(g: Graph, e: Env, v: Id)
    requires Wf(g, e) && v in g.names && !Visited(e, v)
    requires forall x :: x in e.gray ==> Reach(g, x, v)
    ensures Inside(g, e, Push(e, v), v, e.counter, 0)
  {
    hide Reach, Numbered, Ascending, EdgesOk, AllAnchored, Spine, OutOk, LinksAbove, EdgesDone, Stacked;
    var f := Push(e, v);
    PushWf(g, e, v);
    PushStacked(g, e, v);
    NoEdges(g, e, f);
    assert DepsOf(g.deps, v)[..0] == [];
  }

  lemma PushStacked(g: Graph, e: Env, v: Id)
    requires Wf(g, e) && Wf(g, Push(e, v)) && v in g.names && !Visited(e, v)
    ensures Stacked(g, e, Push(e, v), v) && v !in e.gray
  {
    hide Reach, Ascending, EdgesOk, AllAnchored, Spine, OutOk;
    var f := Push(e, v);
    ReachRefl(g, v);
    assert v !in e.stack;
    assert forall x :: Visited(e, x) ==> Num(f, x) == Num(e, x);
  }

  lemma NoEdges(g: Graph, e: Env, f: Env)
    ensures EdgesDone(g, e, f, [], e.counter)
    ensures |f.stack| == |e.stack| + 1 ==> LinksAbove(g, e, f, |e.stack| + 1, e.counter)
  {
  }

  /** A name lower in number than v stands below it on the stack. */
  lemma Below(g: Graph, e0: Env, e: Env, v: Id, i: nat)
    requires e0.stack <= e.stack && Ascending(e) && |e0.stack| < |e.stack| && e.stack[|e0.stack|] == v
    requires i < |e.stack| && Num(e, e.stack[i]) < Num(e, v)
    ensures i < |e0.stack| && e.stack[i] == e0.stack[i]
  {
  }

  /** The older stack is still there, with its numbers, and below v. */
  lemma Older(g: Graph, e0: Env, e: Env, v: Id, j: nat)
    requires Stacked(g, e0, e, v) && j < |e0.stack|
    ensures e.stack[j] == e0.stack[j] && Visited(e0, e0.stack[j]) && Num(e, e.stack[j]) == Num(e0, e0.stack[j])
  {
  }

  lemma NextEdge(g: Graph, e0: Env, e: Env, f: Env, v: Id, k: nat, low: int, low': int)
    requires k < |DepsOf(g.deps, v)| && EdgesDone(g, e0, e, DepsOf(g.deps, v)[..k], low) && low' <= low
    requires forall x :: Visited(e, x) ==> Visited(f, x)
    requires DepsOf(g.deps, v)[k] in g.names ==> Visited(f, DepsOf(g.deps, v)[k])
    requires DepsOf(g.deps, v)[k] in e0.stack ==> low' <= Num(e0, DepsOf(g.deps, v)[k])
    ensures EdgesDone(g, e0, f, DepsOf(g.deps, v)[..k + 1], low')
  {
    assert DepsOf(g.deps, v)[..k + 1] == DepsOf(g.deps, v)[..k] + [DepsOf(g.deps, v)[k]];
  }

  /** An edge of v into a finished name, or out of the graph, changes nothing. */
  lemma SkipFinished(g: Graph, e0: Env, e: Env, v: Id, low: int, k: nat)
    requires Inside(g, e0, e, v, low, k) && k < |DepsOf(g.deps, v)|
    requires var w := DepsOf(g.deps, v)[k]; w !in g.names || (Visited(e, w) && w !in e.stack)
    ensures Inside(g, e0, e, v, low, k + 1)
  {
    hide Reach, Ascending, EdgesOk, AllAnchored, Spine, OutOk, EdgesDone, LinksAbove, LowOk;
    assert forall x :: x in e0.stack ==> x in e.stack && x in g.names;
    NextEdge(g, e0, e, e, v, k, low, low);
  }

  /** An edge of v into the stack lowers v's link to that entry's number at most. */
  lemma SeeStacked(g: Graph, e0: Env, e: Env, v: Id, low: int, k: nat, i: nat)
    requires Inside(g, e0, e, v, low, k) && k < |DepsOf(g.deps, v)| && v in g.names
    requires i < |e.stack| && DepsOf(g.deps, v)[k] == e.stack[i]
    ensures Inside(g, e0, e, v, if Num(e, e.stack[i]) < low then Num(e, e.stack[i]) else low, k + 1)
  {
    hide Reach, Ascending, EdgesOk, AllAnchored, Spine, OutOk, EdgesDone;
    var w := e.stack[i];
    var low' := if Num(e, w) < low then Num(e, w) else low;
    assert Visited(e, w);
    assert Edge(g, v, w);
    ReachEdge(g, v, w);
    if Num(e, w) < low {
      Below(g, e0, e, v, i);
      Older(g, e0, e, v, i);
    }
    if w in e0.stack {
      var j :| 0 <= j < |e0.stack| && e0.stack[j] == w;
      Older(g, e0, e, v, j);
    }
    NextEdge(g, e0, e, e, v, k, low, low');
  }

  /** An edge of v into an unvisited name recurses. */
  lemma AfterCall(g: Graph, e0: Env, e: Env, f: Env, v: Id, low: int, k: nat, lw: int)
    requires Inside(g, e0, e, v, low, k) && k < |DepsOf(g.deps, v)| && v in g.names
    requires var w := DepsOf(g.deps, v)[k]; w in g.names && !Visited(e, w) && Connected(g, e, f, w, lw)
    ensures Inside(g, e0, f, v, if lw < low then lw else low, k + 1)
  {
    hide Reach, Ascending, EdgesOk, AllAnchored, Spine, OutOk, EdgesDone, LinksAbove, LowOk;
    var w, b := DepsOf(g.deps, v)[k], |e0.stack|;
    var low' := if lw < low then lw else low;
    assert Edge(g, v, w);
    ReachEdge(g, v, w);
    assert e.stack[b] == v == f.stack[b];
    assert Stacked(g, e0, f, v) by { StackedTrans(g, e0, e, f, v, w); }
    CallLow(g, e0, e, f, v, low, lw, w);
    CallLinks(g, e0, e, f, v, low, lw, w);
    assert w !in e0.stack by {
      assert forall x :: x in e0.stack ==> Visited(e0, x);
    }
    NextEdge(g, e0, e, f, v, k, low, low');
  }

  lemma StackedTrans(g: Graph, e0: Env, e: Env, f: Env, v: Id, w: Id)
    requires Stacked(g, e0, e, v) && Stacked(g, e, f, w) && Reach(g, v, w)
    ensures Stacked(g, e0, f, v)
  {
    hide Reach;
    forall i | |e0.stack| <= i < |f.stack| ensures Reach(g, v, f.stack[i]) {
      if i < |e.stack| {
        assert f.stack[i] == e.stack[i];
      } else {
        ReachTrans(g, v, w, f.stack[i]);
      }
    }
  }

  lemma CallLow(g: Graph, e0: Env, e: Env, f: Env, v: Id, low: int, lw: int, w: Id)
    requires Stacked(g, e0, e, v) && Stacked(g, e, f, w) && Reach(g, v, w) && Ascending(e)
    requires |e0.stack| < |e.stack| && e.stack[|e0.stack|] == v
    requires LowOk(g, e0, e, v, low) && LowOk(g, e, f, w, lw) && Num(f, w) == e.counter
    ensures LowOk(g, e0, f, v, if lw < low then lw else low)
  {
    hide Reach, Ascending;
    assert Num(f, v) == Num(e, v);
    if lw < low {
      var j :| 0 <= j < |e.stack| && Num(e, e.stack[j]) == lw && Reach(g, w, e.stack[j]);
      Below(g, e0, e, v, j);
      Older(g, e0, e, v, j);
      ReachTrans(g, v, w, e.stack[j]);
    }
  }

  lemma CallLinks(g: Graph, e0: Env, e: Env, f: Env, v: Id, low: int, lw: int, w: Id)
    requires Stacked(g, e0, e, v) && Stacked(g, e, f, w)
    requires LinksAbove(g, e0, e, |e0.stack| + 1, low) && LinksAbove(g, e, f, |e.stack|, lw)
    ensures LinksAbove(g, e0, f, |e0.stack| + 1, if lw < low then lw else low)
  {
    hide Reach, Edge;
    forall i, j | |e0.stack| + 1 <= i < |f.stack| && 0 <= j < |e0.stack| && Edge(g, f.stack[i], e0.stack[j])
      ensures (if lw < low then lw else low) <= Num(e0, e0.stack[j])
    {
      Older(g, e0, e, v, j);
      if i < |e.stack| {
        assert f.stack[i] == e.stack[i];
      } else {
        assert Edge(g, f.stack[i], e.stack[j]);
      }
    }
  }

  /** Leaving strongconnect(v) while something older is still reachable. */
  ghost function Close(e: Env, v: Id): Env {
    e.(gray := e.gray - {v})
  }

  lemma CloseWf(g: Graph, e0: Env, e: Env, v: Id, low: int)
    requires Inside(g, e0, e, v, low, |DepsOf(g.deps, v)|) && v in g.names && low < Num(e, v)
    ensures Connected(g, e0, Close(e, v), v, low)
  {
    hide Reach, OutOk, AllAnchored, Spine, LinksAbove;
    var f := Close(e, v);
    assert forall x :: Num(f, x) == Num(e, x);
    assert forall x :: Finished(f, x) <==> Finished(e, x);
    EdgesVisited(g, e0, e, v, low);
    assert AllAnchored(g, f) by { CloseAnchored(g, e0, e, v, low); }
    assert Spine(g, f) by { CloseSpine(g, e, v); }
    assert OutOk(g, f) by { CloseOut(g, e, v); }
    AllLinks(g, e0, e, f, v, low);
  }

  /** All edges of v done, low bounds v's own links too. */
  lemma AllLinks(g: Graph, e0: Env, e: Env, f: Env, v: Id, low: int)
    requires |e0.stack| < |e.stack| && e.stack[|e0.stack|] == v && f.stack == e.stack
    requires LinksAbove(g, e0, e, |e0.stack| + 1, low)
    requires EdgesDone(g, e0, e, DepsOf(g.deps, v)[..|DepsOf(g.deps, v)|], low)
    ensures LinksAbove(g, e0, f, |e0.stack|, low)
  {
    assert DepsOf(g.deps, v)[..|DepsOf(g.deps, v)|] == DepsOf(g.deps, v);
  }

  lemma CloseAnchored(g: Graph, e0: Env, e: Env, v: Id, low: int)
    requires Inside(g, e0, e, v, low, |DepsOf(g.deps, v)|) && low < Num(e, v)
    ensures AllAnchored(g, Close(e, v))
  {
    hide Reach, EdgesOk, Spine, OutOk, Numbered;
    var f := Close(e, v);
    var z := OlderAnchor(g, e0, e, v, low);
    forall i | 0 <= i < |f.stack| ensures Anchored(g, f, f.stack[i]) {
      assert Anchored(g, e, e.stack[i]);
      var y :| y in e.gray && Num(e, y) <= Num(e, e.stack[i]) && Reach(g, e.stack[i], y);
      if y == v {
        ReachTrans(g, e.stack[i], v, z);
        assert z in f.gray && Num(f, z) <= Num(f, f.stack[i]);
      } else {
        assert y in f.gray && Num(f, y) <= Num(f, f.stack[i]);
      }
    }
  }

  lemma CloseSpine(g: Graph, e: Env, v: Id)
    requires Spine(g, e)
    ensures Spine(g, Close(e, v))
  {
    hide Reach;
    assert forall x :: Num(Close(e, v), x) == Num(e, x);
  }

  lemma CloseOut(g: Graph, e: Env, v: Id)
    requires OutOk(g, e)
    ensures OutOk(g, Close(e, v))
  {
    hide Reach, AllComponents, Disjoint, DependenciesFirst;
    assert forall x :: Finished(Close(e, v), x) <==> Finished(e, x);
  }

  lemma EdgesVisited(g: Graph, e0: Env, e: Env, v: Id, low: int)
    requires EdgesDone(g, e0, e, DepsOf(g.deps, v)[..|DepsOf(g.deps, v)|], low)
    ensures forall w :: Edge(g, v, w) ==> Visited(e, w)
  {
    assert DepsOf(g.deps, v)[..|DepsOf(g.deps, v)|] == DepsOf(g.deps, v);
  }

  /** The open call that v reaches through its low link. */
  lemma OlderAnchor(g: Graph, e0: Env, e: Env, v: Id, low: int) returns (y: Id)
    requires Wf(g, e) && Stacked(g, e0, e, v) && LowOk(g, e0, e, v, low) && low < Num(e, v)
    ensures y in e.gray && y != v && Visited(e, y) && Num(e, y) < Num(e, v) && Reach(g, v, y)
  {
    hide Reach, EdgesOk, Spine, OutOk;
    var j :| 0 <= j < |e0.stack| && Num(e0, e0.stack[j]) == low && Reach(g, v, e0.stack[j]);
    var z := e.stack[j];
    assert z == e0.stack[j] && Visited(e0, z);
    assert Anchored(g, e, z);
    y :| y in e.gray && Num(e, y) <= Num(e, z) && Reach(g, z, y);
    ReachTrans(g, v, z, y);
  }

  /** Leaving strongconnect(v) with a component: everything above v's position is popped. */
  ghost function Pop(e0: Env, e: Env, v: Id, comp: seq<Id>): Env {
    Env(e.num, e0.stack, e.out + [comp], e.counter, e.gray - {v})
  }

  lemma PopWf(g: Graph, e0: Env, e: Env, v: Id, comp: seq<Id>)
    requires Inside(g, e0, e, v, Num(e, v), |DepsOf(g.deps, v)|) && v in g.names
    requires Distinct(comp) && forall x :: x in comp <==> x in e.stack[|e0.stack|..]
    ensures Connected(g, e0, Pop(e0, e, v, comp), v, Num(e, v))
  {
    hide Reach, IsComponent, OutOk, AllAnchored, Spine, LinksAbove, EdgesDone, Ascending, Numbered;
    var f := Pop(e0, e, v, comp);
    EdgesVisited(g, e0, e, v, Num(e, v));
    PopFinished(g, e0, e, v, comp);
    CompEdges(g, e0, e, v, comp);
    CompIsComponent(g, e0, e, v, comp);
    PopNumbered(g, e0, e, v, comp);
    PopAnchored(g, e0, e, v, comp);
    PopSpine(g, e0, e, v, comp);
    PopOutOk(g, e0, e, v, comp);
    assert forall x :: Num(f, x) == Num(e, x);
    assert EdgesOk(g, f);
    assert LinksAbove(g, e0, f, |e0.stack|, Num(e, v)) by { NoLinks(g, e0, f, Num(e, v)); }
  }

  lemma NoLinks(g: Graph, e0: Env, f: Env, low: int)
    requires f.stack == e0.stack
    ensures LinksAbove(g, e0, f, |e0.stack|, low)
  {
  }

  /** Popping finishes exactly the popped names. */
  lemma PopFinished(g: Graph, e0: Env, e: Env, v: Id, comp: seq<Id>)
    requires Numbered(g, e) && Ascending(e) && e0.stack <= e.stack
    requires forall x :: x in comp <==> x in e.stack[|e0.stack|..]
    ensures forall x :: Finished(Pop(e0, e, v, comp), x) <==> Finished(e, x) || x in comp
    ensures forall x :: x in comp ==> x in e.stack
  {
    hide Numbered, Ascending, Visited;
    var f, b := Pop(e0, e, v, comp), |e0.stack|;
    StackSplits(e0, e);
    forall x | x in comp ensures x !in e0.stack && Visited(e, x) {
      PoppedApart(g, e0, e, x);
    }
    PopVisits(e0, e, v, comp);
  }

  lemma StackSplits(e0: Env, e: Env)
    requires e0.stack <= e.stack
    ensures forall x :: x in e.stack <==> x in e0.stack || x in e.stack[|e0.stack|..]
  {
    assert e.stack == e0.stack + e.stack[|e0.stack|..];
  }

  lemma PoppedApart(g: Graph, e0: Env, e: Env, x: Id)
    requires Numbered(g, e) && Ascending(e) && e0.stack <= e.stack && x in e.stack[|e0.stack|..]
    ensures x !in e0.stack && Visited(e, x)
  {
    var b := |e0.stack|;
    var j :| b <= j < |e.stack| && e.stack[j] == x;
    assert e.stack[j] in e.stack;
    forall i | 0 <= i < b ensures e0.stack[i] != x {
      assert e.stack[i] == e0.stack[i] && Num(e, e.stack[i]) < Num(e, e.stack[j]);
    }
  }

  lemma PopVisits(e0: Env, e: Env, v: Id, comp: seq<Id>)
    ensures forall x :: Visited(Pop(e0, e, v, comp), x) <==> Visited(e, x)
    ensures Pop(e0, e, v, comp).stack == e0.stack
  {
  }

  lemma PopNumbered(g: Graph, e0: Env, e: Env, v: Id, comp: seq<Id>)
    requires Inside(g, e0, e, v, Num(e, v), |DepsOf(g.deps, v)|)
    ensures Numbered(g, Pop(e0, e, v, comp)) && Ascending(Pop(e0, e, v, comp))
    ensures Stacked(g, e0, Pop(e0, e, v, comp), v)
  {
    hide Reach, EdgesOk, AllAnchored, Spine, OutOk;
    var f := Pop(e0, e, v, comp);
    assert forall i :: 0 <= i < |e0.stack| ==> e0.stack[i] == e.stack[i];
    assert forall x :: Visited(f, x) <==> Visited(e, x);
  }

  lemma PopAnchored(g: Graph, e0: Env, e: Env, v: Id, comp: seq<Id>)
    requires AllAnchored(g, e) && Ascending(e)
    requires e0.stack <= e.stack && |e0.stack| < |e.stack| && e.stack[|e0.stack|] == v
    ensures AllAnchored(g, Pop(e0, e, v, comp))
  {
    hide Reach;
    var f := Pop(e0, e, v, comp);
    forall i | 0 <= i < |f.stack| ensures Anchored(g, f, f.stack[i]) {
      assert f.stack[i] == e.stack[i] && Anchored(g, e, e.stack[i]);
      var y :| y in e.gray && Num(e, y) <= Num(e, e.stack[i]) && Reach(g, e.stack[i], y);
      assert Num(e, e.stack[i]) < Num(e, e.stack[|e0.stack|]);
      assert y in f.gray && Num(f, y) <= Num(f, f.stack[i]);
    }
  }

  lemma PopSpine(g: Graph, e0: Env, e: Env, v: Id, comp: seq<Id>)
    requires Inside(g, e0, e, v, Num(e, v), |DepsOf(g.deps, v)|)
    ensures Spine(g, Pop(e0, e, v, comp))
  {
    hide Reach, EdgesOk, AllAnchored, OutOk, LowOk, Numbered;
    var f := Pop(e0, e, v, comp);
    assert forall i :: 0 <= i < |e0.stack| ==> e0.stack[i] == e.stack[i];
    assert forall x :: Num(f, x) == Num(e, x);
  }

  /** With the low link at v's own number, edges out of the popped names stay inside or end in
      finished names. */
  lemma CompEdges(g: Graph, e0: Env, e: Env, v: Id, comp: seq<Id>)
    requires Inside(g, e0, e, v, Num(e, v), |DepsOf(g.deps, v)|) && v in g.names
    requires forall x :: x in comp <==> x in e.stack[|e0.stack|..]
    ensures forall x, y :: x in comp && Edge(g, x, y) ==> Visited(e, y) && (y in comp || Finished(e, y))
  {
    hide Reach, AllAnchored, Spine, OutOk, Ascending, LinksAbove, EdgesDone;
    var b := |e0.stack|;
    EdgesVisited(g, e0, e, v, Num(e, v));
    forall x, y | x in comp && Edge(g, x, y) ensures Visited(e, y) && (y in comp || Finished(e, y)) {
      var i :| b <= i < |e.stack| && e.stack[i] == x;
      if i != b {
        NotGray(g, e0, e, v, i);
      }
      assert Visited(e, y);
      if y in e.stack {
        var j :| 0 <= j < |e.stack| && e.stack[j] == y;
        assert j >= b by {
          if j < b { NoEdgeBelow(g, e0, e, v, i, j); }
        }
        assert y in e.stack[b..];
      }
    }
  }

  lemma NoEdgeBelow(g: Graph, e0: Env, e: Env, v: Id, i: nat, j: nat)
    requires Inside(g, e0, e, v, Num(e, v), |DepsOf(g.deps, v)|)
    requires |e0.stack| <= i < |e.stack| && j < |e0.stack|
    ensures !Edge(g, e.stack[i], e.stack[j])
  {
    hide Reach, AllAnchored, Spine, OutOk, EdgesOk, LowOk, EdgesDone;
    AllLinks(g, e0, e, e, v, Num(e, v));
    Older(g, e0, e, v, j);
    assert Num(e, e.stack[j]) < Num(e, e.stack[|e0.stack|]);
  }

  lemma NotGray(g: Graph, e0: Env, e: Env, v: Id, i: nat)
    requires Numbered(g, e0) && Ascending(e) && e0.stack <= e.stack && e.gray == e0.gray + {v}
    requires |e0.stack| < |e.stack| && e.stack[|e0.stack|] == v && |e0.stack| < i < |e.stack|
    ensures e.stack[i] !in e.gray
  {
    assert forall j :: 0 <= j < i ==> Num(e, e.stack[j]) < Num(e, e.stack[i]);
    assert forall j :: 0 <= j < |e0.stack| ==> e0.stack[j] == e.stack[j];
  }

  lemma CompIsComponent(g: Graph, e0: Env, e: Env, v: Id, comp: seq<Id>)
    requires Inside(g, e0, e, v, Num(e, v), |DepsOf(g.deps, v)|) && v in g.names
    requires Distinct(comp) && forall x :: x in comp <==> x in e.stack[|e0.stack|..]
    requires forall x, y :: x in comp && Edge(g, x, y) ==> y in comp || Finished(e, y)
    ensures IsComponent(g, comp)
  {
    hide Reach, OutOk, AllAnchored, Spine, Numbered;
    var b := |e0.stack|;
    var C := set x | x in comp;
    var D := set x | x in e.num && Finished(e, x);
    assert ClosedSet(g, C + D) && ClosedSet(g, D);
    assert v in comp by { assert e.stack[b..][0] == v; }
    forall x | x in comp ensures x in g.names && Reach(g, v, x) && Reach(g, x, v) && x !in D {
      var i :| b <= i < |e.stack| && e.stack[i] == x;
      assert e.stack[i] in e.stack;
      CompReaches(g, e0, e, v, i, C, D);
    }
    forall x, y | x in comp && y in comp ensures Reach(g, x, y) {
      ReachTrans(g, x, v, y);
    }
    forall x, y | x in comp && Mutual(g, x, y) ensures y in comp {
      ReachClosed(g, C + D, x, y);
      if y in D {
        ReachClosed(g, D, y, x);
      }
    }
  }

  /** A popped name reaches v: its anchor is an open call it can reach, and v is the only one. */
  lemma CompReaches(g: Graph, e0: Env, e: Env, v: Id, i: nat, C: set<Id>, D: set<Id>)
    requires Numbered(g, e0) && Numbered(g, e) && Ascending(e) && AllAnchored(g, e) && e0.stack <= e.stack
    requires e.gray == e0.gray + {v} && |e0.stack| <= i < |e.stack| && e.stack[|e0.stack|] == v
    requires ClosedSet(g, C + D) && forall x :: x in C <==> x in e.stack[|e0.stack|..]
    requires forall x :: x in D ==> x !in e.stack
    ensures e.stack[i] in g.names && Reach(g, e.stack[i], v)
  {
    hide Reach, Numbered, Ascending, AllAnchored, ClosedSet, Num;
    var b, x := |e0.stack|, e.stack[i];
    StackNames(g, e, i);
    var y := AnchorOf(g, e, i);
    assert x == e.stack[b..][i - b];
    ReachClosed(g, C + D, x, y);
    assert y in C;
    OpenPopped(g, e0, e, v, y);
  }

  lemma AnchorOf(g: Graph, e: Env, i: nat) returns (y: Id)
    requires AllAnchored(g, e) && i < |e.stack|
    ensures y in e.gray && Reach(g, e.stack[i], y)
  {
    hide Reach, Num;
    assert Anchored(g, e, e.stack[i]);
    y :| y in e.gray && Num(e, y) <= Num(e, e.stack[i]) && Reach(g, e.stack[i], y);
  }

  /** The only open call among the popped names is v. */
  lemma OpenPopped(g: Graph, e0: Env, e: Env, v: Id, y: Id)
    requires Numbered(g, e0) && Ascending(e) && e0.stack <= e.stack && e.gray == e0.gray + {v}
    requires |e0.stack| < |e.stack| && e.stack[|e0.stack|] == v && y in e.stack[|e0.stack|..] && y in e.gray
    ensures y == v
  {
    hide Numbered, Ascending;
    var j :| |e0.stack| <= j < |e.stack| && e.stack[j] == y;
    if j != |e0.stack| {
      NotGray(g, e0, e, v, j);
    }
  }

  lemma StackNames(g: Graph, e: Env, i: nat)
    requires Numbered(g, e) && i < |e.stack|
    ensures e.stack[i] in g.names && forall y :: y in e.gray ==> y in e.stack
  {
  }

  lemma PopOutOk(g: Graph, e0: Env, e: Env, v: Id, comp: seq<Id>)
    requires Wf(g, e) && IsComponent(g, comp) && e0.stack <= e.stack
    requires forall x, y :: x in comp && Edge(g, x, y) ==> y in comp || Finished(e, y)
    requires forall x :: x in comp ==> x in e.stack
    requires forall x :: Finished(Pop(e0, e, v, comp), x) <==> Finished(e, x) || x in comp
    ensures OutOk(g, Pop(e0, e, v, comp))
  {
    hide Reach, IsComponent, EdgesOk, AllAnchored, Spine, Numbered;
    var f := Pop(e0, e, v, comp);
    var n := |e.out|;
    assert f.out[n] == comp && f.out[..n] == e.out && f.out[..n + 1] == f.out;
    forall x ensures InSome(f.out, x) <==> InSome(e.out, x) || x in comp {
      if InSome(e.out, x) {
        var c :| 0 <= c < n && x in e.out[c];
        assert x in f.out[c];
      }
      if x in comp { assert x in f.out[n]; }
    }
    forall c, d, x | 0 <= c < d < |f.out| && x in f.out[c] ensures x !in f.out[d] {
      if d == n {
        assert InSome(e.out, x);
        assert Finished(e, x);
      }
    }
    forall c, x, y | 0 <= c < |f.out| && x in f.out[c] && Edge(g, x, y) ensures InSome(f.out[..c + 1], y) {
      if c < n {
        assert f.out[..c + 1] == e.out[..c + 1];
      }
    }
  }

  /** Every open call reaches the next callee. */
  lemma CallReach(g: Graph, e0: Env, e: Env, v: Id, low: int, k: nat, w: Id)
    requires Inside(g, e0, e, v, low, k) && Edge(g, v, w)
    ensures forall x :: x in e.gray ==> Reach(g, x, w)
  {
    hide Reach, AllAnchored, EdgesOk, OutOk, LinksAbove, EdgesDone, LowOk;
    ReachEdge(g, v, w);
    forall x | x in e.gray ensures Reach(g, x, w) {
      var i :| 0 <= i < |e.stack| && e.stack[i] == x;
      if x in e0.gray {
        var j :| 0 <= j < |e0.stack| && e0.stack[j] == x;
        assert e.stack[j] == x;
        assert Num(e, e.stack[j]) < Num(e, e.stack[|e0.stack|]);
      }
      assert Num(e, x) <= Num(e, e.stack[|e0.stack|]);
      assert Reach(g, x, v);
      ReachTrans(g, x, v, w);
    }
  }

  /** The closure variables of the Go function. */
  class Search {
    const g: Graph
    var num: map<Id, int>
    var lowlink: map<Id, int>
    var onStack: map<Id, bool>
    var stack: seq<Id>
    var out: seq<seq<Id>>
    var counter: nat
    ghost var gray: set<Id>

    constructor (g: Graph)
      ensures this.g == g && Valid() && stack == [] && out == [] && gray == {}
      ensures forall x :: !Visited(Snapshot(), x)
    {
      this.g := g;
      num := map x | x in g.names :: -1;
      lowlink, onStack, stack, out, counter, gray := map[], map[], [], [], 0, {};
    }

    ghost function Snapshot(): Env
      reads this
    {
      Env(num, stack, out, counter, gray)
    }

    ghost predicate Valid()
      reads this
    {
      && Wf(g, Snapshot())
      && (forall x :: x in onStack && onStack[x] <==> x in stack)
      && (forall x :: Visited(Snapshot(), x) ==> x in lowlink)
    }

    ghost function Unvisited(): set<Id>
      reads this
    {
      set x | x in g.names && !Visited(Snapshot(), x)
    }

    method StrongConnect(v: Id)
      requires Valid() && v in g.names && num[v] == -1
      requires forall x :: x in gray ==> Reach(g, x, v)
      modifies this
      ensures Valid() && v in lowlink && Connected(g, old(Snapshot()), Snapshot(), v, lowlink[v])
      ensures forall x :: old(Visited(Snapshot(), x)) ==> lowlink[x] == old(lowlink[x])
      decreases Unvisited(), 0
    {
      hide Reach, Wf, Stacked, LowOk, Inside, Connected;
      ghost var e0, links := Snapshot(), lowlink;
      Begin(v);
      assert v in old(Unvisited());
      var deps := DepsOf(g.deps, v);
      var k := 0;
      while k < |deps|
        invariant 0 <= k <= |deps| && Valid() && v in lowlink
        invariant Inside(g, e0, Snapshot(), v, lowlink[v], k)
        invariant forall x :: Visited(e0, x) || x == v ==> Visited(Snapshot(), x)
        invariant forall x :: Visited(e0, x) ==> lowlink[x] == links[x]
      {
        FollowEdge(v, k, e0);
        k := k + 1;
      }
      InsideFacts(g, e0, Snapshot(), v, lowlink[v], k);
      if lowlink[v] == num[v] {
        PopComponent(v, e0);
      } else {
        ghost var e1 := Snapshot();
        CloseWf(g, e0, e1, v, lowlink[v]);
        gray := gray - {v};
        assert Snapshot() == Close(e1, v);
      }
      ConnectedFacts(g, e0, Snapshot(), v, lowlink[v]);
    }

    /** Number v and push it. */
    method Begin(v: Id)
      requires Valid() && v in g.names && num[v] == -1
      requires forall x :: x in gray ==> Reach(g, x, v)
      modifies this
      ensures Valid() && v in lowlink && Inside(g, old(Snapshot()), Snapshot(), v, lowlink[v], 0)
      ensures forall x :: Visited(Snapshot(), x) <==> old(Visited(Snapshot(), x)) || x == v
      ensures lowlink == old(lowlink)[v := lowlink[v]]
    {
      hide Reach, Wf, Inside;
      ghost var e0 := Snapshot();
      Enter(g, e0, v);
      EnterFacts(g, e0, v);
      num := num[v := counter];
      lowlink := lowlink[v := counter];
      counter := counter + 1;
      stack := stack + [v];
      onStack := onStack[v := true];
      gray := gray + {v};
      assert Snapshot() == Push(e0, v);
    }

    /** One turn of the edge loop. */
    method FollowEdge(v: Id, k: nat, ghost e0: Env)
      requires Valid() && v in lowlink && k < |DepsOf(g.deps, v)| && v in g.names
      requires Inside(g, e0, Snapshot(), v, lowlink[v], k) && Visited(Snapshot(), v)
      modifies this
      ensures Valid() && v in lowlink && Inside(g, e0, Snapshot(), v, lowlink[v], k + 1)
      ensures forall x :: old(Visited(Snapshot(), x)) ==> Visited(Snapshot(), x)
      ensures forall x :: old(Visited(Snapshot(), x)) && x != v ==> lowlink[x] == old(lowlink[x])
      decreases Unvisited(), 1
    {
      hide Reach, Wf, Stacked, LowOk, Inside, Connected;
      ghost var e := Snapshot();
      var w := DepsOf(g.deps, v)[k];
      NamesNumbered(g, e);
      if w !in g.names {
        SkipFinished(g, e0, e, v, lowlink[v], k); // boundary edge
      } else if num[w] == -1 {
        CallReach(g, e0, e, v, lowlink[v], k, w);
        StrongConnect(w);
        ConnectedFacts(g, e, Snapshot(), w, lowlink[w]);
        AfterCall(g, e0, e, Snapshot(), v, lowlink[v], k, lowlink[w]);
        if lowlink[w] < lowlink[v] {
          lowlink := lowlink[v := lowlink[w]];
        }
      } else if w in onStack && onStack[w] {
        ghost var i :| 0 <= i < |stack| && stack[i] == w;
        SeeStacked(g, e0, e, v, lowlink[v], k, i);
        if num[w] < lowlink[v] {
          lowlink := lowlink[v := num[w]];
        }
      } else {
        SkipFinished(g, e0, e, v, lowlink[v], k);
      }
    }

    /** v is the root of a component: pop it. */
    method PopComponent(v: Id, ghost e0: Env)
      requires v in lowlink && v in g.names && lowlink[v] == Num(Snapshot(), v)
      requires Valid() && Inside(g, e0, Snapshot(), v, lowlink[v], |DepsOf(g.deps, v)|)
      modifies this
      ensures lowlink == old(lowlink) && num == old(num)
      ensures Valid() && Connected(g, e0, Snapshot(), v, lowlink[v])
    {
      hide Reach, Wf, Inside, Connected;
      ghost var e, b := Snapshot(), |e0.stack|;
      InsideFacts(g, e0, e, v, lowlink[v], |DepsOf(g.deps, v)|);
      var comp := Unstack(v, b);
      assert stack == e0.stack;
      PopWf(g, e0, e, v, comp);
      out := out + [comp];
      gray := gray - {v};
      assert Snapshot() == Pop(e0, e, v, comp);
      ConnectedFacts(g, e0, Snapshot(), v, lowlink[v]);
      assert forall x :: Num(Snapshot(), x) == Num(e, x);
    }

    /** Pop down to v, which stands at position b. */
    method Unstack(v: Id, ghost b: nat) returns (comp: seq<Id>)
      requires b < |stack| && stack[b] == v && Distinct(stack)
      requires forall x :: x in onStack && onStack[x] <==> x in stack
      modifies this`stack, this`onStack
      ensures stack == old(stack)[..b] && Distinct(comp)
      ensures forall x :: x in comp <==> x in old(stack)[b..]
      ensures forall x :: x in onStack && onStack[x] <==> x in stack
    {
      ghost var s := stack;
      comp := [];
      while true
        invariant b < |stack| <= |s| && stack == s[..|stack|]
        invariant |comp| == |s| - |stack|
        invariant forall i :: 0 <= i < |comp| ==> comp[i] == s[|s| - 1 - i]
        invariant forall x :: x in onStack && onStack[x] <==> x in stack
        decreases |stack|
      {
        var w := stack[|stack| - 1];
        assert stack == stack[..|stack| - 1] + [w];
        assert stack[..|stack| - 1] == s[..|stack| - 1];
        stack := stack[..|stack| - 1];
        onStack := onStack[w := false];
        comp := comp + [w];
        if w == v {
          break;
        }
      }
      Reversed(s, b, comp);
    }
  }

  lemma Reversed(s: seq<Id>, b: nat, comp: seq<Id>)
    requires b <= |s| && |comp| == |s| - b
    requires forall i :: 0 <= i < |comp| ==> comp[i] == s[|s| - 1 - i]
    ensures forall x :: x in comp <==> x in s[b..]
  {
    forall x | x in s[b..] ensures x in comp {
      var i :| b <= i < |s| && s[i] == x;
      assert comp[|s| - 1 - i] == x;
    }
  }

  lemma NamesNumbered(g: Graph, e: Env)
    requires Wf(g, e)
    ensures forall x :: x in e.num <==> x in g.names
  {
    hide Ascending, EdgesOk, AllAnchored, Spine, OutOk;
  }

  lemma InsideFacts(g: Graph, e0: Env, e: Env, v: Id, low: int, k: nat)
    requires Inside(g, e0, e, v, low, k)
    ensures e0.stack <= e.stack && |e0.stack| < |e.stack| && e.stack[|e0.stack|] == v
    ensures low <= Num(e, v) && v in e.num && Distinct(e.stack)
  {
    hide Reach, EdgesOk, AllAnchored, Spine, OutOk, LinksAbove, EdgesDone;
    forall i, j | 0 <= i < j < |e.stack| ensures e.stack[i] != e.stack[j] {
      assert Num(e, e.stack[i]) < Num(e, e.stack[j]);
    }
  }

  lemma ConnectedFacts(g: Graph, e0: Env, e: Env, v: Id, low: int)
    requires Connected(g, e0, e, v, low)
    ensures Wf(g, e) && v in e.num && forall x :: Visited(e0, x) ==> Visited(e, x)
  {
    hide Reach, EdgesOk, AllAnchored, Spine, OutOk, LinksAbove;
  }

  lemma EnterFacts(g: Graph, e: Env, v: Id)
    requires Wf(g, e) && v in g.names && !Visited(e, v)
    requires forall x :: x in e.gray ==> Reach(g, x, v)
    ensures v !in e.stack && Wf(g, Push(e, v)) && Visited(Push(e, v), v)
    ensures forall x :: Visited(Push(e, v), x) <==> Visited(e, x) || x == v
  {
    hide Reach, EdgesOk, AllAnchored, Spine, OutOk;
    assert forall x :: x in e.stack ==> Visited(e, x);
    PushWf(g, e, v);
  }

  method SCC(g: Graph) returns (out: seq<seq<Id>>)
    ensures IsDecomposition(g, out)
  {
    hide Reach, Numbered, Ascending, EdgesOk, AllAnchored, Spine, OutOk, Stacked, LowOk, LinksAbove;
    var s := new Search(g);
    var k := 0;
    while k < |g.names|
      invariant 0 <= k <= |g.names| && s.g == g && fresh(s)
      invariant s.Valid() && s.gray == {} && s.stack == []
      invariant forall n :: n in g.names[..k] ==> Visited(s.Snapshot(), n)
    {
      var n := g.names[k];
      assert n in s.num by { NumKeys(g, s.Snapshot(), n); }
      ghost var e := s.Snapshot();
      if s.num[n] == -1 {
        s.StrongConnect(n);
        NothingLeft(g, e, s.Snapshot(), n, s.lowlink[n]);
      }
      assert g.names[..k + 1] == g.names[..k] + [n];
      k := k + 1;
    }
    assert g.names[..k] == g.names;
    out := s.out;
    AllFinished(g, s.Snapshot());
  }

  lemma NumKeys(g: Graph, e: Env, n: Id)
    requires Numbered(g, e) && n in g.names
    ensures n in e.num
  {
  }

  /** A call from an empty stack leaves it empty. */
  lemma NothingLeft(g: Graph, e: Env, f: Env, v: Id, low: int)
    requires Connected(g, e, f, v, low) && e.stack == []
    ensures f.stack == [] && Visited(f, v) && forall x :: Visited(e, x) ==> Visited(f, x)
  {
    hide Reach, EdgesOk, AllAnchored, Spine, OutOk;
  }

  lemma AllFinished(g: Graph, e: Env)
    requires Wf(g, e) && e.stack == [] && forall n :: n in g.names ==> Visited(e, n)
    ensures IsDecomposition(g, e.out)
  {
    hide Reach, AllComponents, Disjoint, DependenciesFirst;
    assert forall x :: Finished(e, x) <==> x in g.names;
  }

  /** HasSelfEdge, with the component list, is an exact test for cycles. */
  predicate HasSelfEdge(name: Id, deps: map<Id, seq<Id>>) {
    name in DepsOf(deps, name)
  }

  /** The planner's test: a component of several names, or of one that depends on itself. */
  predicate BadComponent(g: Graph, comp: seq<Id>)
    requires |comp| > 0
  {
    |comp| > 1 || HasSelfEdge(comp[0], g.deps)
  }

  /** A component fails the planner's test exactly when its members lie on cycles. */
  lemma BadIffOnCycle(g: Graph, comp: seq<Id>, x: Id)
    requires IsComponent(g, comp) && x in comp
    ensures BadComponent(g, comp) <==> OnCycle(g, x)
  {
    hide Reach;
    if |comp| > 1 {
      var i :| 0 <= i < |comp| && comp[i] == x;
      var y := comp[if i == 0 then 1 else 0];
      assert y in comp && y != x;
      MutualOnCycle(g, x, y);
    } else {
      assert comp == [x];
      if HasSelfEdge(x, g.deps) {
        ReachRefl(g, x);
        assert Edge(g, x, x);
      }
      if OnCycle(g, x) {
        var y :| Edge(g, x, y) && Reach(g, y, x);
        ReachEdge(g, x, y);
        assert Mutual(g, x, y);
        assert y in comp;
      }
    }
  }

  /** The components to break: exactly the cycles. */
  ghost predicate IsCycles(g: Graph, bad: seq<seq<Id>>) {
    && AllComponents(g, bad) && Disjoint(bad)
    && forall x :: InSome(bad, x) <==> x in g.names && OnCycle(g, x)
  }

  /** The filter every caller applies to SCC: keep the components that are cycles. */
  method BadComponents(g: Graph) returns (bad: seq<seq<Id>>)
    ensures IsCycles(g, bad)
    ensures bad == [] <==> Acyclic(g)
  {
    hide OnCycle, DependenciesFirst;
    var comps := SCC(g);
    bad := [];
    ghost var from: seq<nat> := [];
    for c := 0 to |comps|
      invariant AllComponents(g, bad)
      invariant forall x :: InSome(bad, x) <==> InSome(comps[..c], x) && OnCycle(g, x)
      invariant |from| == |bad| && forall k :: 0 <= k < |bad| ==> from[k] < c && bad[k] == comps[from[k]]
      invariant forall k, l :: 0 <= k < l < |bad| ==> from[k] < from[l]
    {
      var comp := comps[c];
      assert IsComponent(g, comp);
      var test := BadComponent(g, comp);
      forall x | x in comp ensures test <==> OnCycle(g, x) {
        BadIffOnCycle(g, comp, x);
      }
      SomeStep(comps, c);
      SomeAppend(bad, comp);
      if test {
        bad := bad + [comp];
        from := from + [c];
      }
    }
    assert comps[..|comps|] == comps;
    assert Disjoint(bad);
    if bad == [] {
      assert forall x :: !InSome(bad, x);
    } else {
      assert bad[0][0] in bad[0];
      assert InSome(bad, bad[0][0]);
    }
  }

  lemma SomeStep(out: seq<seq<Id>>, c: nat)
    requires c < |out|
    ensures forall x :: InSome(out[..c + 1], x) <==> InSome(out[..c], x) || x in out[c]
  {
    assert out[..c + 1] == out[..c] + [out[c]];
    SomeAppend(out[..c], out[c]);
  }

  lemma SomeAppend(out: seq<seq<Id>>, comp: seq<Id>)
    ensures forall x :: InSome(out + [comp], x) <==> InSome(out, x) || x in comp
  {
    forall x ensures InSome(out + [comp], x) <==> InSome(out, x) || x in comp {
      if x in comp { assert x in (out + [comp])[|out|]; }
      if InSome(out, x) {
        var c :| 0 <= c < |out| && x in out[c];
        assert x in (out + [comp])[c];
      }
    }
  }
}
