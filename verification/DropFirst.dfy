/** From a resolved stream to its teardown: without a cycle nothing is cut or staged, and the reversed stream is a RESTRICT order. */
module DropFirst {
  import opened Wrappers
  import opened Graphs
  import opened TopoOrder
  import opened PlanModel
  import opened PlanTheorems
  import opened Resolver
  import opened Materialize
  import opened Teardown
  import opened TeardownTheorems
  import P = Planner

  /** What the teardown reads of the resolved stream. */
  function EntriesOf(order: seq<Item>): seq<Entry>
    reads order
  {
    seq(|order|, k requires 0 <= k < |order| reads order => Entry(order[k].id, order[k].src, order[k].create, order[k].fullDeps))
  }

  /** An edge of the collected graph that lies on a cycle puts its item on one. */
  lemma NothingCloses(vs: seq<ItemValue>, i: nat, deps: seq<Id>)
    requires Input(vs) && Acyclic(GraphOf(vs)) && i < |vs|
    requires forall d :: d in deps ==> Mentions(vs[i], d)
    ensures !ClosesCycle(GraphOf(vs), vs[i].id, deps)
  {
    hide Reach, GraphOf, Mentions, Initial, FinalsFresh, StubsReduce;
    GraphNames(vs);
    assert Ids(vs)[i] == vs[i].id;
    forall d | d in deps && d in Ids(vs) ensures !Reach(GraphOf(vs), d, vs[i].id) {
      MentionIsEdge(vs, i, d);
    }
  }

  lemma {:induction false} NothingStripped(g: Graph, x: Id, ds: seq<Deferrable>)
    requires forall k :: 0 <= k < |ds| ==> !ClosesCycle(g, x, ds[k].deps)
    ensures StripNames(g, x, ds) == []
  {
    if ds != [] {
      NothingStripped(g, x, ds[..|ds| - 1]);
    }
  }

  /** Without a cycle, cutting leaves an item as it was collected. */
  lemma NothingCut(vs: seq<ItemValue>, i: nat)
    requires Input(vs) && Acyclic(GraphOf(vs)) && i < |vs|
    ensures CutValue(GraphOf(vs), vs[i]) == vs[i]
  {
    hide GraphOf, ClosesCycle, FinalsFresh, StubsReduce, Acyclic;
    var g, v := GraphOf(vs), vs[i];
    match v.src
    case FromScript(s) =>
      forall k | 0 <= k < |s.clauses| ensures !ClosesCycle(g, v.id, s.clauses[k].deps) {
        NothingCloses(vs, i, s.clauses[k].deps);
      }
      assert CutFlags(g, v.id, s.clauses) == v.clauseCut;
    case FromTable(t) =>
      forall k | 0 <= k < |t.defaults| ensures !ClosesCycle(g, v.id, t.defaults[k].deps) {
        NothingCloses(vs, i, t.defaults[k].deps);
      }
      forall k | 0 <= k < |t.constraints| ensures !ClosesCycle(g, v.id, t.constraints[k].deps) {
        NothingCloses(vs, i, t.constraints[k].deps);
      }
      NothingStripped(g, v.id, t.defaults);
      NothingStripped(g, v.id, t.constraints);
  }

  /** ... and neither round changes anything. */
  lemma NothingMoved(vs: seq<ItemValue>, ws: seq<ItemValue>)
    requires Input(vs) && Resolved(vs, ws) && Acyclic(GraphOf(vs))
    ensures |ws| == |vs| && forall i :: 0 <= i < |vs| ==> ws[i] == vs[i]
  {
    hide GraphOf, OnCycle, CutValue, Mentions, FinalsFresh, StubsReduce, ValueOk, UniqueIds;
    GraphNames(vs);
    forall i | 0 <= i < |vs| ensures CutAll(vs)[i] == vs[i] {
      NothingCut(vs, i);
    }
    assert CutAll(vs) == vs;
    forall i | 0 <= i < |vs| ensures ws[i] == vs[i] {
      assert Ids(vs)[i] == vs[i].id;
      assert StageAll(vs)[i] == vs[i];
      assert ws[i].(sccID := 0) == StageAll(CutAll(vs))[i].(sccID := 0);
      assert ws[i].sccID == 0;
      assert ws[i] == ws[i].(sccID := 0);
    }
  }

  /** No item has a later stage. */
  lemma {:induction false} NoFinals(vs: seq<ItemValue>)
    requires AllOk(vs) && Initial(vs)
    ensures Finals(vs) == [] && forall i :: 0 <= i < |vs| ==> !HasFinal(vs[i])
  {
    if vs != [] {
      var n := |vs| - 1;
      NoFinals(vs[..n]);
      assert !HasFinal(vs[n]) by { hide Finals; if vs[n].src.FromScript? { NoLane(vs[n].src.script.clauses, vs[n].clauseCut); } }
      assert forall i :: 0 <= i < n ==> vs[..n][i] == vs[i];
    }
  }

  lemma {:induction false} NoLane(cs: seq<Clause>, cut: seq<bool>)
    requires |cs| == |cut| && forall k :: 0 <= k < |cut| ==> !cut[k]
    ensures Lane(cs, cut, true) == []
  {
    if cs != [] {
      NoLane(cs[..|cs| - 1], cut[..|cs| - 1]);
    }
  }

  /** The stream then holds the collected items with the edges they were collected with. */
  lemma PlainStream(vs: seq<ItemValue>)
    requires ValuesOk(vs) && Initial(vs)
    ensures |Stream(vs)| == |vs|
    ensures forall i :: 0 <= i < |vs| ==> Stream(vs)[i].id == vs[i].id && Stream(vs)[i].deps == EffectiveDeps(vs[i])
  {
    hide HasFinal, EffectiveDeps, BaseText, Finals;
    NoFinals(vs);
    assert Stream(vs) == BaseNodes(vs);
    forall i | 0 <= i < |vs| ensures Stream(vs)[i].deps == EffectiveDeps(vs[i]) {
      assert Stream(vs)[i] == BaseNode(vs, vs[i]);
      assert Retarget(vs, vs[i]) == EffectiveDeps(vs[i]);
    }
  }

  /** The planned stream of an acyclic graph creates every object after what it was collected to need. */
  lemma UncutStreamInOrder(order: seq<Item>, post: seq<Script>, sections: seq<Section>, e: Engine,
                           vs: seq<ItemValue>, ws: seq<ItemValue>)
    requires Input(vs) && P.PlanOk(order, post, sections, e, vs, ws) && Acyclic(GraphOf(vs))
    ensures UniqueEntries(EntriesOf(order)) && CreatedInOrder(EntriesOf(order))
  {
    hide GraphOf, Stream, FinalsFresh, StubsReduce, Numbering, EffectiveDeps, Acyclic, CreateOf, AllRender, Stable, ExtraPost;
    NothingMoved(vs, ws);
    assert ws == vs;
    PlainStream(vs);
    var es, nodes := EntriesOf(order), NodesOf(order);
    assert |nodes| == |order| && forall k :: 0 <= k < |order| ==> nodes[k].id == es[k].id;
    forall j, k | 0 <= j < |es| && 0 <= k < |es| && Relevant(es[k]) && es[j].id in es[k].fullDeps ensures j < k {
      EntryDeps(order[k], nodes, k, sections, e, vs, ws);
      assert nodes[j].id in nodes[k].deps && nodes[j] in nodes;
      assert nodes[j] in nodes[..k];
    }
  }

  lemma EntryDeps(it: Item, nodes: seq<Node>, k: nat, sections: seq<Section>, e: Engine, vs: seq<ItemValue>, ws: seq<ItemValue>)
    requires ValuesOk(vs) && Initial(vs) && ws == vs && SectionsOk(sections, ws) && P.Emitted(it, sections, e, vs, ws)
    requires SortedStream(vs, nodes) && k < |nodes| && nodes[k] == it.AsNode() && it.src.Some?
    ensures nodes[k].deps == it.fullDeps
  {
    hide ValueOk, EffectiveDeps, CreateOf, Stream, Initial;
    PlainStream(vs);
    assert nodes[k] in nodes && nodes[k] in Stream(vs);
    var m :| 0 <= m < |Stream(vs)| && Stream(vs)[m] == nodes[k];
    var i: nat :| i < |vs| && P.Stems(it, vs, i);
    assert vs[m].id == vs[i].id;
  }

  /** When the collected graph is acyclic, no two stages share an object and no drop is inline, the whole
      drop-first teardown runs under RESTRICT without a failure inside the dump. */
  lemma AcyclicTeardown(order: seq<Item>, post: seq<Script>, sections: seq<Section>, e: Engine, vs: seq<ItemValue>,
                        ws: seq<ItemValue>, bad: seq<seq<Id>>, groups: seq<seq<Id>>, tp: TeardownPlan)
    requires Input(vs) && P.PlanOk(order, post, sections, e, vs, ws) && Acyclic(GraphOf(vs))
    requires Planned(EntriesOf(order), bad, groups, tp) && SingleDrops(EntriesOf(order)) && NoCollapse(EntriesOf(order))
    ensures var es := EntriesOf(order);
            tp.grouped == map[] && RunsClean(DropGraph(CensusOf(es)), CensusOf(es).objs.Keys, Emission(es, tp, 0))
  {
    hide Input, P.PlanOk, Acyclic, GraphOf, Planned, SingleDrops, NoCollapse, EntriesOf, UniqueEntries, CreatedInOrder, CensusOf, DropGraph, RunsClean, Emission;
    UncutStreamInOrder(order, post, sections, e, vs, ws);
    OrderedRunsClean(EntriesOf(order), bad, groups, tp);
  }

  /** BuildTeardownPlan's result is such a plan. */
  method PlanDropFirst(order: seq<Item>) returns (tp: TeardownPlan, stmts: seq<Stmt>)
    ensures (exists bad, groups :: Planned(EntriesOf(order), bad, groups, tp)) && stmts == Emission(EntriesOf(order), tp, 0)
  {
    hide Heads, IsPlan, CensusOf, DropGraph, Emission, Separate, Wellformed;
    var es := EntriesOf(order);
    tp := BuildTeardownPlan(es);
    ghost var bad, groups :| Heads(CensusOf(es), DropGraph(CensusOf(es)), bad, groups) && IsPlan(CensusOf(es), DropGraph(CensusOf(es)), groups, tp);
    CensusOk(es);
    HeadsSeparate(CensusOf(es), DropGraph(CensusOf(es)), bad, groups);
    var at;
    stmts, at := WriteTeardown(es, tp);
    assert Planned(EntriesOf(order), bad, groups, tp);
  }
}
