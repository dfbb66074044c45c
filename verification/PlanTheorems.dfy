/** What dump cycle resolution guarantees about the stream it hands to the topological sort. */
module PlanTheorems {
  import opened Graphs
  import opened TopoOrder
  import opened Text
  import opened PlanModel

  /** What the resolver may rely on. */
  ghost predicate Input(vs: seq<ItemValue>) {
    ValuesOk(vs) && Initial(vs) && FinalsFresh(vs) && StubsReduce(vs)
  }

  /** The graph the emitted stream is sorted by. */
  ghost predicate StreamGraph(g: Graph, nodes: seq<Node>) {
    && |g.names| == |nodes|
    && (forall k :: 0 <= k < |nodes| ==> g.names[k] == nodes[k].id && nodes[k].id in g.deps && g.deps[nodes[k].id] == nodes[k].deps)
  }

  // --- edges only ever disappear ---------------------------------------------------------------

  lemma {:induction false} KeptIsMember(cs: seq<Clause>, cut: seq<bool>, d: Id)
    requires |cs| == |cut| && d in KeptDeps(cs, cut)
    ensures exists k :: 0 <= k < |cs| && !cut[k] && d in cs[k].deps
  {
    var n := |cs| - 1;
    if d in KeptDeps(cs[..n], cut[..n]) {
      KeptIsMember(cs[..n], cut[..n], d);
      var k :| 0 <= k < n && !cut[..n][k] && d in cs[..n][k].deps;
      assert !cut[k] && d in cs[k].deps;
    }
  }

  lemma {:induction false} MemberIsKept(cs: seq<Clause>, cut: seq<bool>, k: nat, d: Id)
    requires |cs| == |cut| && k < |cs| && !cut[k] && d in cs[k].deps
    ensures d in KeptDeps(cs, cut)
  {
    var n := |cs| - 1;
    if k < n {
      MemberIsKept(cs[..n], cut[..n], k, d);
    }
  }

  lemma {:induction false} UnstrippedIsMember(ds: seq<Deferrable>, stripped: seq<string>, d: Id)
    requires d in UnstrippedDeps(ds, stripped)
    ensures exists k :: 0 <= k < |ds| && ds[k].name !in stripped && d in ds[k].deps
  {
    var n := |ds| - 1;
    if d in UnstrippedDeps(ds[..n], stripped) {
      UnstrippedIsMember(ds[..n], stripped, d);
      var k :| 0 <= k < n && ds[..n][k].name !in stripped && d in ds[..n][k].deps;
      assert ds[k].name !in stripped && d in ds[k].deps;
    }
  }

  lemma {:induction false} MemberIsUnstripped(ds: seq<Deferrable>, stripped: seq<string>, k: nat, d: Id)
    requires k < |ds| && ds[k].name !in stripped && d in ds[k].deps
    ensures d in UnstrippedDeps(ds, stripped)
  {
    var n := |ds| - 1;
    if k < n {
      MemberIsUnstripped(ds[..n], stripped, k, d);
    }
  }

  lemma {:induction false} LaneDepsAreMembers(cs: seq<Clause>, cut: seq<bool>, d: Id)
    requires |cs| == |cut| && d in LaneDeps(cs, cut)
    ensures exists k :: 0 <= k < |cs| && cut[k] && d in cs[k].deps
  {
    var n := |cs| - 1;
    if d in LaneDeps(cs[..n], cut[..n]) {
      LaneDepsAreMembers(cs[..n], cut[..n], d);
      var k :| 0 <= k < n && cut[..n][k] && d in cs[..n][k].deps;
      assert cut[k] && d in cs[k].deps;
    }
  }

  /** An effective edge is one of the edges collected with the item. */
  lemma EffectiveIsMentioned(v: ItemValue, d: Id)
    requires ValueOk(v) && d in EffectiveDeps(v)
    ensures Mentions(v, d)
  {
    match v.src
    case FromScript(s) =>
      if !v.staged && d !in s.dependsOn { KeptIsMember(s.clauses, v.clauseCut, d); }
    case FromTable(t) =>
      if d in UnstrippedDeps(t.defaults, v.stripDefaults) {
        UnstrippedIsMember(t.defaults, v.stripDefaults, d);
      } else if d in UnstrippedDeps(t.constraints, v.stripConstraints) {
        UnstrippedIsMember(t.constraints, v.stripConstraints, d);
      }
  }

  /** Before any cut or staging, every collected edge is effective (stubs add none). */
  lemma MentionedIsEffective(v: ItemValue, d: Id)
    requires ValueOk(v) && Initial([v]) && Mentions(v, d)
    requires v.src.FromScript? ==> d in v.src.script.stubDeps ==> d in v.src.script.dependsOn
    ensures d in EffectiveDeps(v)
  {
    assert [v][0] == v;
    match v.src
    case FromScript(s) =>
      if d !in s.dependsOn {
        var k :| 0 <= k < |s.clauses| && d in s.clauses[k].deps;
        MemberIsKept(s.clauses, v.clauseCut, k, d);
      }
    case FromTable(t) =>
      if k :| 0 <= k < |t.defaults| && d in t.defaults[k].deps {
        MemberIsUnstripped(t.defaults, v.stripDefaults, k, d);
      }
      if k :| 0 <= k < |t.constraints| && d in t.constraints[k].deps {
        MemberIsUnstripped(t.constraints, v.stripConstraints, k, d);
      }
  }

  /** Same items, as far as the input goes. */
  ghost predicate SameItems(vs: seq<ItemValue>, ws: seq<ItemValue>) {
    && |vs| == |ws| && ValuesOk(vs) && ValuesOk(ws)
    && forall i :: 0 <= i < |vs| ==> vs[i].id == ws[i].id && vs[i].src == ws[i].src && vs[i].sec == ws[i].sec
  }

  lemma ResolvedSame(vs: seq<ItemValue>, ws: seq<ItemValue>)
    requires ValuesOk(vs) && Resolved(vs, ws)
    ensures SameItems(vs, ws) && Ids(ws) == Ids(vs)
    ensures forall i :: 0 <= i < |vs| ==> ValueOk(ws[i])
  {
    var us := StageAll(CutAll(vs));
    forall i | 0 <= i < |vs| ensures ws[i].id == vs[i].id && ws[i].src == vs[i].src && ws[i].sec == vs[i].sec && ValueOk(ws[i]) {
      assert ws[i].(sccID := 0) == us[i].(sccID := 0);
      assert us[i].id == vs[i].id;
    }
  }

  /** The resolved edges and the emitted graph do not depend on the cycle numbers. */
  lemma ResolvedGraph(vs: seq<ItemValue>, ws: seq<ItemValue>)
    requires ValuesOk(vs) && Resolved(vs, ws) && ValuesOk(ws)
    ensures GraphOf(ws) == GraphOf(StageAll(CutAll(vs)))
  {
    hide Numbering, CutValue, StageValue;
    var us := StageAll(CutAll(vs));
    forall i | 0 <= i < |vs| ensures us[i].id == ws[i].id && ValueOk(ws[i]) && EffectiveDeps(us[i]) == EffectiveDeps(ws[i]) {
      assert ws[i].(sccID := 0) == us[i].(sccID := 0);
    }
    SameGraph(us, ws);
  }

  lemma SameGraph(us: seq<ItemValue>, ws: seq<ItemValue>)
    requires ValuesOk(us) && ValuesOk(ws) && |us| == |ws|
    requires forall i :: 0 <= i < |us| ==> us[i].id == ws[i].id && EffectiveDeps(us[i]) == EffectiveDeps(ws[i])
    ensures GraphOf(us) == GraphOf(ws)
  {
    hide EffectiveDeps, ValueOk, UniqueIds;
    assert Ids(us) == Ids(ws);
    forall x ensures x in GraphOf(us).deps <==> x in GraphOf(ws).deps {
      DepsAt(us, x);
      DepsAt(ws, x);
    }
    forall x | x in GraphOf(us).deps ensures GraphOf(us).deps[x] == GraphOf(ws).deps[x] {
      var i :| 0 <= i < |us| && us[i].id == x;
      DepsOfItem(us, i);
      DepsOfItem(ws, i);
    }
    assert GraphOf(us).deps == GraphOf(ws).deps;
  }

  lemma DepsAt(us: seq<ItemValue>, x: Id)
    requires ValuesOk(us)
    ensures x in GraphOf(us).deps <==> exists i :: 0 <= i < |us| && us[i].id == x
  {
    hide EffectiveDeps, ValueOk;
  }

  lemma DepsOfItem(us: seq<ItemValue>, i: nat)
    requires ValuesOk(us) && i < |us|
    ensures us[i].id in GraphOf(us).deps && GraphOf(us).deps[us[i].id] == EffectiveDeps(us[i])
  {
    hide EffectiveDeps, ValueOk;
  }

  /** An edge among collected ones is an edge of the uncut graph. */
  lemma MentionIsEdge(vs: seq<ItemValue>, i: nat, d: Id)
    requires Input(vs) && i < |vs| && Mentions(vs[i], d) && d in Ids(vs)
    ensures Edge(GraphOf(vs), vs[i].id, d)
  {
    assert Initial([vs[i]]);
    MentionedIsEffective(vs[i], d);
    EdgeOf(vs, i, d);
  }

  /** Cutting and staging only remove edges. */
  lemma ReducedEdge(vs: seq<ItemValue>, ws: seq<ItemValue>, u: Id, d: Id)
    requires Input(vs) && SameItems(vs, ws) && Edge(GraphOf(ws), u, d)
    ensures Edge(GraphOf(vs), u, d)
  {
    hide GraphOf, EffectiveDeps;
    var i := EdgeSource(ws, u, d);
    EffectiveIsMentioned(ws[i], d);
    assert Ids(ws) == Ids(vs);
    MentionIsEdge(vs, i, d);
  }

  // --- the emitted stream --------------------------------------------------------------------------

  /** Where the stream's nodes come from. */
  lemma {:induction false} FinalsAre(ws: seq<ItemValue>, k: nat) returns (i: nat)
    requires (forall j :: 0 <= j < |ws| ==> ValueOk(ws[j])) && k < |Finals(ws)|
    ensures i < |ws| && HasFinal(ws[i]) && Finals(ws)[k] == FinalNode(ws[i])
  {
    var n := |ws| - 1;
    if k < |Finals(ws[..n])| {
      i := FinalsAre(ws[..n], k);
    } else {
      i := n;
    }
  }

  lemma {:induction false} FinalIsIn(ws: seq<ItemValue>, i: nat) returns (k: nat)
    requires (forall j :: 0 <= j < |ws| ==> ValueOk(ws[j])) && i < |ws| && HasFinal(ws[i])
    ensures k < |Finals(ws)| && Finals(ws)[k] == FinalNode(ws[i])
  {
    var n := |ws| - 1;
    if i < n {
      k := FinalIsIn(ws[..n], i);
    } else {
      k := |Finals(ws[..n])|;
    }
  }

  /** A node of the stream is an item, or the final stage of one. */
  lemma StreamNode(ws: seq<ItemValue>, k: nat) returns (i: nat)
    requires ValuesOk(ws) && k < |Stream(ws)|
    ensures i < |ws|
    ensures (k < |ws| && i == k && Stream(ws)[k] == BaseNode(ws, ws[i])) ||
            (k >= |ws| && HasFinal(ws[i]) && Stream(ws)[k] == FinalNode(ws[i]))
  {
    hide ValueOk, BaseNode, FinalNode, HasFinal, Finals;
    StreamParts(ws);
    if k < |ws| {
      i := k;
    } else {
      i := FinalsAre(ws, k - |ws|);
    }
  }

  lemma StreamParts(ws: seq<ItemValue>)
    requires ValuesOk(ws)
    ensures |Stream(ws)| == |ws| + |Finals(ws)|
    ensures forall k :: 0 <= k < |ws| ==> Stream(ws)[k] == BaseNode(ws, ws[k])
    ensures forall k :: |ws| <= k < |Stream(ws)| ==> Stream(ws)[k] == Finals(ws)[k - |ws|]
  {
    hide ValueOk, BaseNode, FinalNode, HasFinal, Finals;
  }

  /** An edge of the stream's graph, traced to the node that carries it. */
  lemma StreamEdge(g: Graph, ws: seq<ItemValue>, u: Id, d: Id) returns (k: nat, i: nat)
    requires ValuesOk(ws) && StreamGraph(g, Stream(ws)) && Edge(g, u, d)
    ensures k < |Stream(ws)| && Stream(ws)[k].id == u && d in Stream(ws)[k].deps && i < |ws|
    ensures (k < |ws| && i == k && Stream(ws)[k] == BaseNode(ws, ws[i])) ||
            (k >= |ws| && HasFinal(ws[i]) && Stream(ws)[k] == FinalNode(ws[i]))
  {
    k :| 0 <= k < |g.names| && g.names[k] == u;
    i := StreamNode(ws, k);
  }

  lemma IdAt(ws: seq<ItemValue>, d: Id) returns (j: nat)
    requires d in Ids(ws)
    ensures j < |ws| && ws[j].id == d
  {
    j :| 0 <= j < |Ids(ws)| && Ids(ws)[j] == d;
  }

  /** A name of the stream's graph is an item id or a generated id. */
  lemma StreamName(g: Graph, ws: seq<ItemValue>, d: Id) returns (j: nat)
    requires ValuesOk(ws) && StreamGraph(g, Stream(ws)) && d in g.names
    ensures j < |ws| && (d == ws[j].id || (d == ws[j].id + FINAL && HasFinal(ws[j])))
  {
    var k :| 0 <= k < |g.names| && g.names[k] == d;
    j := StreamNode(ws, k);
  }

  /** Generated ids are injective, and never item ids. */
  lemma FinalIdsDiffer(ws: seq<ItemValue>, i: nat, j: nat)
    requires FinalsFresh(ws) && UniqueIds(ws) && i < |ws| && j < |ws|
    ensures ws[i].id + FINAL != ws[j].id
    ensures ws[i].id + FINAL == ws[j].id + FINAL ==> i == j
  {
    if ws[i].id + FINAL == ws[j].id + FINAL {
      assert ws[i].id == (ws[i].id + FINAL)[..|ws[i].id|];
      assert ws[j].id == (ws[j].id + FINAL)[..|ws[j].id|];
    }
  }

  /** A collected edge into the stream's graph names an item, never a generated stage. */
  lemma MentionedName(g: Graph, ws: seq<ItemValue>, i: nat, d: Id) returns (j: nat)
    requires ValuesOk(ws) && FinalsFresh(ws) && StreamGraph(g, Stream(ws)) && d in g.names
    requires i < |ws| && Mentions(ws[i], d)
    ensures j < |ws| && d == ws[j].id && d in Ids(ws)
  {
    hide StreamGraph, Stream;
    j := StreamName(g, ws, d);
    assert !Mentions(ws[i], ws[j].id + FINAL);
    assert Ids(ws)[j] == ws[j].id;
  }

  /** An edge out of an item: an effective edge, kept or retargeted. */
  lemma ItemEdge(g: Graph, ws: seq<ItemValue>, i: nat, d: Id) returns (j: nat)
    requires ValuesOk(ws) && FinalsFresh(ws) && StreamGraph(g, Stream(ws)) && d in g.names
    requires i < |ws| && d in Retarget(ws, ws[i])
    ensures j < |ws| && Edge(GraphOf(ws), ws[i].id, ws[j].id) && d == RetargetOne(ws, ws[i], ws[j].id)
  {
    hide StreamGraph, Stream, ValueOk;
    var m :| 0 <= m < |EffectiveDeps(ws[i])| && Retarget(ws, ws[i])[m] == d;
    var dep := EffectiveDeps(ws[i])[m];
    assert dep in EffectiveDeps(ws[i]) && d == RetargetOne(ws, ws[i], dep);
    if d == dep {
      EffectiveIsMentioned(ws[i], d);
      j := MentionedName(g, ws, i, d);
    } else {
      j :| 0 <= j < |ws| && ws[j].id == dep;
      assert Ids(ws)[j] == dep;
    }
    EdgeOf(ws, i, dep);
  }

  /** An edge out of a final stage: to its own base, or to an item its base depended on. */
  lemma FinalEdge(g: Graph, vs: seq<ItemValue>, ws: seq<ItemValue>, i: nat, d: Id) returns (j: nat)
    requires Input(vs) && SameItems(vs, ws) && FinalsFresh(ws) && StreamGraph(g, Stream(ws)) && d in g.names
    requires i < |ws| && HasFinal(ws[i]) && d in FinalNode(ws[i]).deps
    ensures j < |ws| && d == ws[j].id && (i == j || Edge(GraphOf(vs), ws[i].id, ws[j].id))
  {
    hide StreamGraph, Stream;
    var s := ws[i].src.script;
    if d == ws[i].id {
      j := i;
    } else {
      if !ws[i].staged {
        LaneDepsAreMembers(s.clauses, ws[i].clauseCut, d);
      }
      assert Mentions(ws[i], d) && Mentions(vs[i], d);
      j := MentionedName(g, ws, i, d);
      assert Ids(ws) == Ids(vs);
      MentionIsEdge(vs, i, d);
    }
  }

  /** The case analysis of one stream edge u -> d, where u stands for item i and d for item j. */
  lemma StreamEdgeCases(g: Graph, vs: seq<ItemValue>, ws: seq<ItemValue>, u: Id, d: Id) returns (i: nat, j: nat)
    requires Input(vs) && SameItems(vs, ws) && FinalsFresh(ws) && StreamGraph(g, Stream(ws)) && Edge(g, u, d)
    ensures i < |ws| && j < |ws| && (u == ws[i].id || u == ws[i].id + FINAL)
    ensures u == ws[i].id ==> Edge(GraphOf(ws), ws[i].id, ws[j].id) && d == RetargetOne(ws, ws[i], ws[j].id)
    ensures u != ws[i].id ==> d == ws[j].id && (i == j || Edge(GraphOf(vs), ws[i].id, ws[j].id))
  {
    hide StreamGraph, Stream;
    var k: nat;
    k, i := StreamEdge(g, ws, u, d);
    if k < |ws| {
      j := ItemEdge(g, ws, i, d);
    } else {
      j := FinalEdge(g, vs, ws, i, d);
      FinalIdsDiffer(ws, i, i);
    }
  }

  // --- the quotient argument -----------------------------------------------------------------------

  /** Collapses a generated stage onto its base. */
  ghost function Collapse(ws: seq<ItemValue>, x: Id): Id {
    if exists j :: 0 <= j < |ws| && x == ws[j].id + FINAL then x[..|x| - |FINAL|] else x
  }

  lemma CollapseItem(ws: seq<ItemValue>, i: nat)
    requires FinalsFresh(ws) && i < |ws|
    ensures Collapse(ws, ws[i].id) == ws[i].id && Collapse(ws, ws[i].id + FINAL) == ws[i].id
  {
    assert forall j :: 0 <= j < |ws| ==> ws[j].id + FINAL != ws[i].id;
    assert (ws[i].id + FINAL)[..|ws[i].id|] == ws[i].id;
  }

  /** Under the collapse, an edge of the stream is a path of the uncut graph. */
  lemma CollapsedEdge(g: Graph, vs: seq<ItemValue>, ws: seq<ItemValue>, u: Id, d: Id)
    requires Input(vs) && SameItems(vs, ws) && FinalsFresh(ws) && StreamGraph(g, Stream(ws)) && Edge(g, u, d)
    ensures Reach(GraphOf(vs), Collapse(ws, u), Collapse(ws, d))
  {
    hide StreamGraph, Stream, GraphOf, Reach, Collapse;
    var i, j := StreamEdgeCases(g, vs, ws, u, d);
    CollapseItem(ws, i);
    CollapseItem(ws, j);
    if u == ws[i].id {
      ReducedEdge(vs, ws, ws[i].id, ws[j].id);
    }
    if i == j {
      ReachRefl(GraphOf(vs), ws[i].id);
    } else {
      ReachEdge(GraphOf(vs), ws[i].id, ws[j].id);
    }
  }

  lemma CollapsedReach(g: Graph, vs: seq<ItemValue>, ws: seq<ItemValue>, u: Id, d: Id)
    requires Input(vs) && SameItems(vs, ws) && FinalsFresh(ws) && StreamGraph(g, Stream(ws)) && Reach(g, u, d)
    ensures Reach(GraphOf(vs), Collapse(ws, u), Collapse(ws, d))
  {
    hide StreamGraph, Stream, GraphOf, Reach, Collapse;
    forall x, y | Edge(g, x, y) ensures Reach(GraphOf(vs), Collapse(ws, x), Collapse(ws, y)) {
      CollapsedEdge(g, vs, ws, x, y);
    }
    ReachMapped(g, GraphOf(vs), x => Collapse(ws, x), u, d);
  }

  /** Only outsiders wait for a final stage: nothing in the stream depends on a final stage that also
      depends on it. */
  lemma FinalOffCycle(g: Graph, vs: seq<ItemValue>, ws: seq<ItemValue>, w: Id, j: nat)
    requires Input(vs) && SameItems(vs, ws) && FinalsFresh(ws) && StreamGraph(g, Stream(ws))
    requires Numbering(vs, ws) && Acyclic(GraphOf(ws))
    requires j < |ws| && Edge(g, w, ws[j].id + FINAL)
    ensures !Reach(g, ws[j].id + FINAL, w)
  {
    hide StreamGraph, Stream, GraphOf, Reach, Collapse;
    if Reach(g, ws[j].id + FINAL, w) {
      var i, k := StreamEdgeCases(g, vs, ws, w, ws[j].id + FINAL);
      FinalIdsDiffer(ws, j, k);
      var m := RetargetTarget(ws, i, ws[k].id);
      FinalIdsDiffer(ws, j, m);
      ReachRefl(GraphOf(ws), ws[i].id);
      assert !OnCycle(GraphOf(ws), ws[i].id);
      assert i != j;
      CollapsedEdge(g, vs, ws, w, ws[j].id + FINAL);
      CollapsedReach(g, vs, ws, ws[j].id + FINAL, w);
      CollapseItem(ws, i);
      CollapseItem(ws, j);
      assert Mutual(GraphOf(vs), ws[i].id, ws[j].id);
      MutualOnCycle(GraphOf(vs), ws[i].id, ws[j].id);
      assert false;
    }
  }

  /** A retargeted edge crosses cycle classes. */
  lemma RetargetTarget(ws: seq<ItemValue>, i: nat, d: Id) returns (m: nat)
    requires ValuesOk(ws) && FinalsFresh(ws) && i < |ws| && RetargetOne(ws, ws[i], d) == d + FINAL
    ensures m < |ws| && ws[m].id == d && HasFinal(ws[m]) && (ws[i].sccID == 0 || ws[i].sccID != ws[m].sccID)
  {
    assert d != d + FINAL by { assert |d + FINAL| > |d|; }
    m :| 0 <= m < |ws| && ws[m].id == d && HasFinal(ws[m]) && (ws[i].sccID == 0 || ws[i].sccID != ws[m].sccID);
  }

  /** No generated stage lies on a cycle of the stream. */
  lemma FinalNotOnCycle(g: Graph, vs: seq<ItemValue>, ws: seq<ItemValue>, j: nat)
    requires Input(vs) && SameItems(vs, ws) && FinalsFresh(ws) && StreamGraph(g, Stream(ws))
    requires Numbering(vs, ws) && Acyclic(GraphOf(ws)) && j < |ws|
    ensures !OnCycle(g, ws[j].id + FINAL)
  {
    hide StreamGraph, Stream, GraphOf, Reach, Collapse, Numbering;
    var z := ws[j].id + FINAL;
    if OnCycle(g, z) {
      var y :| Edge(g, z, y) && Reach(g, y, z);
      var w := y;
      if y == z {
        ReachRefl(g, z);
      } else {
        w := ReachLast(g, y, z);
        ReachEdge(g, z, y);
        ReachTrans(g, z, y, w);
      }
      FinalOffCycle(g, vs, ws, w, j);
      assert false;
    }
  }

  /** A cycle of the stream through items only is a cycle of their effective edges. */
  lemma {:induction false} ItemPath(g: Graph, vs: seq<ItemValue>, ws: seq<ItemValue>, p: seq<Id>, x: Id, y: Id)
    requires Input(vs) && SameItems(vs, ws) && FinalsFresh(ws) && StreamGraph(g, Stream(ws))
    requires PathFromTo(g, p, x, y)
    requires forall k, j :: 0 <= k < |p| && 0 <= j < |ws| ==> p[k] != ws[j].id + FINAL
    ensures PathFromTo(GraphOf(ws), p, x, y)
  {
    hide StreamGraph, Stream, GraphOf, Collapse;
    forall k | 0 <= k < |p| - 1 ensures Edge(GraphOf(ws), p[k], p[k + 1]) {
      var i, j := StreamEdgeCases(g, vs, ws, p[k], p[k + 1]);
      assert p[k] != ws[i].id + FINAL;
      assert p[k + 1] != ws[j].id + FINAL;
    }
  }

  /** When the resolution succeeds, the stream it sorts has no cycle at all: cutting and staging broke
      every one, and waiting for the generated stages closed none. */
  lemma StreamAcyclic(g: Graph, vs: seq<ItemValue>, ws: seq<ItemValue>)
    requires Input(vs) && Resolved(vs, ws) && Resolvable(vs)
    requires ValuesOk(ws) && StreamGraph(g, Stream(ws))
    ensures Acyclic(g)
  {
    hide StreamGraph, Stream, GraphOf, Reach, Collapse;
    ResolvedSame(vs, ws);
    ResolvedGraph(vs, ws);
    SameFresh(vs, ws);
    forall x | x in g.names ensures !OnCycle(g, x) {
      if OnCycle(g, x) {
        var y :| Edge(g, x, y) && Reach(g, y, x);
        var p := CyclePath(g, x, y);
        forall k, j | 0 <= k < |p| && 0 <= j < |ws| ensures p[k] != ws[j].id + FINAL {
          FinalNotOnCycle(g, vs, ws, j);
        }
        ItemPath(g, vs, ws, p, x, x);
        PathCycle(GraphOf(ws), p, x);
        assert false;
      }
    }
  }

  lemma SameFresh(vs: seq<ItemValue>, ws: seq<ItemValue>)
    requires SameItems(vs, ws) && FinalsFresh(vs)
    ensures FinalsFresh(ws)
  {
    assert forall i, d :: 0 <= i < |vs| ==> (Mentions(ws[i], d) <==> Mentions(vs[i], d));
  }

  /** A cycle through x as a closed path, every node of which is on a cycle. */
  lemma CyclePath(g: Graph, x: Id, y: Id) returns (p: seq<Id>)
    requires Edge(g, x, y) && Reach(g, y, x)
    ensures PathFromTo(g, p, x, x) && |p| > 1
    ensures forall k :: 0 <= k < |p| ==> OnCycle(g, p[k])
  {
    var q :| PathFromTo(g, q, y, x);
    p := [x] + q;
    forall k | 0 <= k < |p| ensures OnCycle(g, p[k]) {
      assert PathFromTo(g, p[..k + 1], x, p[k]);
      if k < |p| - 1 {
        assert PathFromTo(g, p[k + 1..], p[k + 1], x);
        ReachTrans(g, p[k + 1], x, p[k]);
        assert Edge(g, p[k], p[k + 1]);
      }
    }
  }

  lemma PathCycle(g: Graph, p: seq<Id>, x: Id)
    requires PathFromTo(g, p, x, x) && |p| > 1
    ensures x in g.names && OnCycle(g, x)
  {
    assert Edge(g, p[0], p[1]);
    assert PathFromTo(g, p[1..], p[1], x);
  }

  // --- the emitted order -------------------------------------------------------------------------------

  /** nodes is the stream, each node once, every node after the nodes it needs. */
  ghost predicate SortedStream(ws: seq<ItemValue>, nodes: seq<Node>)
    requires ValuesOk(ws)
  {
    && (forall i, j :: 0 <= i < j < |nodes| ==> nodes[i].id != nodes[j].id)
    && (forall n :: n in nodes <==> n in Stream(ws))
    && (forall i, n :: 0 <= i < |nodes| && n in nodes && n.id in nodes[i].deps ==> n in nodes[..i])
  }

  ghost predicate NodeBefore(nodes: seq<Node>, a: Id, b: Id) {
    exists i, j :: 0 <= i < j < |nodes| && nodes[i].id == a && nodes[j].id == b
  }

  lemma NeedsBefore(ws: seq<ItemValue>, nodes: seq<Node>, n: Node, m: Node)
    requires ValuesOk(ws) && SortedStream(ws, nodes) && n in Stream(ws) && m in Stream(ws) && m.id in n.deps
    ensures NodeBefore(nodes, m.id, n.id)
  {
    hide Stream;
    var i :| 0 <= i < |nodes| && nodes[i] == n;
    assert m in nodes[..i];
    var j :| 0 <= j < i && nodes[..i][j] == m;
    assert nodes[j] == m;
  }

  lemma BaseInStream(ws: seq<ItemValue>, i: nat)
    requires ValuesOk(ws) && i < |ws|
    ensures BaseNode(ws, ws[i]) in Stream(ws)
    ensures HasFinal(ws[i]) ==> FinalNode(ws[i]) in Stream(ws)
  {
    hide ValueOk, BaseNode, FinalNode, HasFinal, Finals;
    StreamParts(ws);
    hide Stream;
    assert Stream(ws)[i] == BaseNode(ws, ws[i]);
    if HasFinal(ws[i]) {
      var k := FinalIsIn(ws, i);
      assert Stream(ws)[|ws| + k] == FinalNode(ws[i]);
    }
  }

  /** A final stage follows its own base; a staged routine's follows every object the routine needs as well, and one that carries
      deferred clauses every object that those clauses need. */
  lemma FinalFollows(ws: seq<ItemValue>, nodes: seq<Node>, i: nat)
    requires ValuesOk(ws) && SortedStream(ws, nodes) && i < |ws| && HasFinal(ws[i])
    ensures NodeBefore(nodes, ws[i].id, ws[i].id + FINAL)
    ensures ws[i].staged ==> forall j :: 0 <= j < |ws| && ws[j].id in ws[i].src.script.dependsOn ==>
                                           NodeBefore(nodes, ws[j].id, ws[i].id + FINAL)
    ensures !ws[i].staged ==> forall j :: 0 <= j < |ws| && ws[j].id in LaneDeps(ws[i].src.script.clauses, ws[i].clauseCut) ==>
                                            NodeBefore(nodes, ws[j].id, ws[i].id + FINAL)
  {
    hide Stream, SortedStream, LaneDeps;
    BaseInStream(ws, i);
    NeedsBefore(ws, nodes, FinalNode(ws[i]), BaseNode(ws, ws[i]));
    forall j | 0 <= j < |ws| && ws[j].id in FinalNode(ws[i]).deps ensures NodeBefore(nodes, ws[j].id, ws[i].id + FINAL) {
      BaseInStream(ws, j);
      NeedsBefore(ws, nodes, FinalNode(ws[i]), BaseNode(ws, ws[j]));
    }
  }

  /** An object that gets a final stage was on a cycle. */
  lemma FinalWasOnCycle(vs: seq<ItemValue>, ws: seq<ItemValue>, i: nat)
    requires Input(vs) && Resolved(vs, ws) && i < |vs| && ValueOk(ws[i]) && HasFinal(ws[i])
    ensures OnCycle(GraphOf(vs), vs[i].id)
  {
    hide Reach, GraphOf, Numbering;
    var cut := CutAll(vs);
    var us := StageAll(cut);
    assert ws[i].(sccID := 0) == us[i].(sccID := 0);
    assert us[i] == StageValue(GraphOf(cut), cut[i]) && cut[i] == CutValue(GraphOf(vs), vs[i]);
    if ws[i].staged {
      assert OnCycle(GraphOf(cut), cut[i].id);
      var y :| Edge(GraphOf(cut), cut[i].id, y) && Reach(GraphOf(cut), y, cut[i].id);
      assert SameItems(vs, cut);
      ReducedEdge(vs, cut, cut[i].id, y);
      forall a, b | Edge(GraphOf(cut), a, b) ensures Edge(GraphOf(vs), a, b) {
        ReducedEdge(vs, cut, a, b);
      }
      ReachMonotone(GraphOf(cut), GraphOf(vs), y, cut[i].id);
    } else {
      var k := LaneCut(ws[i].src.script.clauses, ws[i].clauseCut);
      var d :| d in vs[i].src.script.clauses[k].deps && d in GraphOf(vs).names && Reach(GraphOf(vs), d, vs[i].id);
      assert d in Ids(vs) by { GraphNames(vs); }
      MentionIsEdge(vs, i, d);
    }
  }

  lemma GraphNames(vs: seq<ItemValue>)
    requires ValuesOk(vs)
    ensures GraphOf(vs).names == Ids(vs)
  {
  }

  lemma {:induction false} LaneCut(cs: seq<Clause>, cut: seq<bool>) returns (k: nat)
    requires |cs| == |cut| && Lane(cs, cut, true) != []
    ensures k < |cs| && cut[k]
  {
    var n := |cs| - 1;
    if cut[n] {
      k := n;
    } else {
      k := LaneCut(cs[..n], cut[..n]);
    }
  }

  /** Whoever depends on an object with a final stage, without being on its cycle, comes after that stage. */
  lemma OutsidersWait(vs: seq<ItemValue>, ws: seq<ItemValue>, nodes: seq<Node>, i: nat, j: nat)
    requires Input(vs) && Resolved(vs, ws) && ValuesOk(ws) && SortedStream(ws, nodes)
    requires i < |ws| && j < |ws| && HasFinal(ws[i]) && ws[i].id in EffectiveDeps(ws[j])
    requires !Mutual(GraphOf(vs), vs[i].id, vs[j].id)
    ensures NodeBefore(nodes, ws[i].id + FINAL, ws[j].id)
  {
    hide Reach, GraphOf, Stream, SortedStream, EffectiveDeps;
    FinalWasOnCycle(vs, ws, i);
    assert ws[i].sccID != 0 && ws[i].sccID != ws[j].sccID;
    var m :| 0 <= m < |EffectiveDeps(ws[j])| && EffectiveDeps(ws[j])[m] == ws[i].id;
    assert Retarget(ws, ws[j])[m] == ws[i].id + FINAL;
    BaseInStream(ws, i);
    BaseInStream(ws, j);
    NeedsBefore(ws, nodes, BaseNode(ws, ws[j]), FinalNode(ws[i]));
  }

  /** An insider waits for the base only. */
  lemma InsidersFollowBase(vs: seq<ItemValue>, ws: seq<ItemValue>, nodes: seq<Node>, i: nat, j: nat)
    requires ValuesOk(vs) && Resolved(vs, ws) && ValuesOk(ws) && SortedStream(ws, nodes)
    requires i < |ws| && j < |ws| && ws[i].id in EffectiveDeps(ws[j])
    ensures NodeBefore(nodes, ws[i].id, ws[j].id)
  {
    hide Reach, GraphOf, Stream, SortedStream, EffectiveDeps;
    var m :| 0 <= m < |EffectiveDeps(ws[j])| && EffectiveDeps(ws[j])[m] == ws[i].id;
    var t := RetargetOne(ws, ws[j], ws[i].id);
    assert Retarget(ws, ws[j])[m] == t;
    BaseInStream(ws, i);
    BaseInStream(ws, j);
    if t == ws[i].id {
      NeedsBefore(ws, nodes, BaseNode(ws, ws[j]), BaseNode(ws, ws[i]));
    } else {
      var q :| 0 <= q < |ws| && ws[q].id == ws[i].id && HasFinal(ws[q]);
      assert q == i;
      NeedsBefore(ws, nodes, BaseNode(ws, ws[j]), FinalNode(ws[i]));
      NeedsBefore(ws, nodes, FinalNode(ws[i]), BaseNode(ws, ws[i]));
      BeforeTrans(ws, nodes, ws[i].id, t, ws[j].id);
    }
  }

  lemma BeforeTrans(ws: seq<ItemValue>, nodes: seq<Node>, a: Id, b: Id, c: Id)
    requires ValuesOk(ws) && SortedStream(ws, nodes) && NodeBefore(nodes, a, b) && NodeBefore(nodes, b, c)
    ensures NodeBefore(nodes, a, c)
  {
    hide Stream;
    var i, j :| 0 <= i < j < |nodes| && nodes[i].id == a && nodes[j].id == b;
    var k, l :| 0 <= k < l < |nodes| && nodes[k].id == b && nodes[l].id == c;
    assert j == k;
  }

  // --- what is deferred ----------------------------------------------------------------------------------

  ghost predicate AllOk(ws: seq<ItemValue>) {
    forall i :: 0 <= i < |ws| ==> ValueOk(ws[i])
  }

  function ItemPost(v: ItemValue): seq<Script>
    requires ValueOk(v)
  {
    if v.src.FromScript? then Lane(v.src.script.clauses, v.clauseCut, false) else []
  }

  /** The text of every clause that was not cut stands in the object's own SQL. */
  lemma {:induction false} KeptTextStands(cs: seq<Clause>, cut: seq<bool>, k: nat) returns (pre: string, post: string)
    requires |cs| == |cut| && k < |cs| && !cut[k]
    ensures KeptText(cs, cut) == pre + cs[k].text + post
  {
    var n := |cs| - 1;
    if k == n {
      pre, post := KeptText(cs[..n], cut[..n]), "";
    } else {
      pre, post := KeptTextStands(cs[..n], cut[..n], k);
      var last := if cut[n] then "" else cs[n].text;
      assert KeptText(cs, cut) == KeptText(cs[..n], cut[..n]) + last;
      assert (pre + cs[..n][k].text + post) + last == pre + cs[k].text + (post + last);
      post := post + last;
    }
  }

  /** Generated ids clash neither with item ids nor with each other. */
  lemma StreamIdsUnique(vs: seq<ItemValue>, ws: seq<ItemValue>)
    requires Input(vs) && Resolved(vs, ws) && ValuesOk(ws)
    ensures forall i, j :: 0 <= i < j < |Stream(ws)| ==> Stream(ws)[i].id != Stream(ws)[j].id
  {
    hide Numbering, ValueOk, GraphOf, CutAll, StageAll, Retarget, EffectiveDeps, BaseText, HasFinal, Mentions, Initial, StubsReduce, Resolved;
    ResolvedSame(vs, ws);
    SameFresh(vs, ws);
    hide Stream, Finals;
    forall i, j | 0 <= i < j < |Stream(ws)| ensures Stream(ws)[i].id != Stream(ws)[j].id {
      PairUnique(ws, i, j);
    }
  }

  lemma PairUnique(ws: seq<ItemValue>, i: nat, j: nat)
    requires ValuesOk(ws) && FinalsFresh(ws) && i < j < |Stream(ws)|
    ensures Stream(ws)[i].id != Stream(ws)[j].id
  {
    hide ValueOk, Retarget, EffectiveDeps, BaseText, HasFinal, Mentions, Finals;
    StreamParts(ws);
    hide Stream;
    if j >= |ws| {
      var b := FinalsAre(ws, j - |ws|);
      if i < |ws| {
        FinalIdsDiffer(ws, b, i);
      } else {
        FinalsUnique(ws, i - |ws|, j - |ws|);
      }
    }
  }

  lemma {:induction false} FinalsUnique(ws: seq<ItemValue>, a: nat, b: nat)
    requires AllOk(ws) && UniqueIds(ws) && a < b < |Finals(ws)|
    ensures Finals(ws)[a].id != Finals(ws)[b].id
  {
    hide ValueOk;
    var n := |ws| - 1;
    if b < |Finals(ws[..n])| {
      FinalsUnique(ws[..n], a, b);
    } else {
      var i := FinalsAre(ws[..n], a);
      assert ws[..n][i] == ws[i];
      assert ws[i].id == (ws[i].id + FINAL)[..|ws[i].id|];
      assert ws[n].id == (ws[n].id + FINAL)[..|ws[n].id|];
    }
  }

  /** A topological order of the stream's graph, read back as nodes, is a sorted stream. */
  lemma SortedIs(g: Graph, ws: seq<ItemValue>, nodes: seq<Node>, out: seq<Id>, sorted: seq<Node>)
    requires ValuesOk(ws) && nodes == Stream(ws) && StreamGraph(g, nodes) && Acyclic(g)
    requires forall i, j :: 0 <= i < j < |nodes| ==> nodes[i].id != nodes[j].id
    requires Permutes(g, out) && Ordered(g, out) && |sorted| == |out|
    requires forall k :: 0 <= k < |out| ==> sorted[k].id == out[k] && sorted[k] in nodes
    ensures SortedStream(ws, sorted)
  {
    hide Stream, Acyclic, Ordered, Reach, ValuesOk, Permutes, Distinct, StreamGraph;
    forall n | n in nodes ensures n in sorted {
      NodeKept(g, nodes, out, sorted, n);
    }
    forall i, n | 0 <= i < |sorted| && n in sorted && n.id in sorted[i].deps ensures n in sorted[..i] {
      NodeEarlier(g, nodes, out, sorted, i, n);
    }
    assert forall n :: n in sorted ==> n in nodes;
    assert forall i, j :: 0 <= i < j < |sorted| ==> sorted[i].id != sorted[j].id by {
      OutDistinct(g, out);
    }
  }

  lemma OutDistinct(g: Graph, out: seq<Id>)
    requires Permutes(g, out)
    ensures forall i, j :: 0 <= i < j < |out| ==> out[i] != out[j]
  {
  }

  lemma SameNode(nodes: seq<Node>, n: Node, m: Node)
    requires forall i, j :: 0 <= i < j < |nodes| ==> nodes[i].id != nodes[j].id
    requires n in nodes && m in nodes && n.id == m.id
    ensures n == m
  {
    var i :| 0 <= i < |nodes| && nodes[i] == n;
    var j :| 0 <= j < |nodes| && nodes[j] == m;
  }

  lemma NodeNamed(g: Graph, nodes: seq<Node>, n: Node)
    requires StreamGraph(g, nodes) && n in nodes
    ensures n.id in g.names && n.id in g.deps && g.deps[n.id] == n.deps
  {
    var i :| 0 <= i < |nodes| && nodes[i] == n;
    assert g.names[i] == n.id;
  }

  lemma NodeKept(g: Graph, nodes: seq<Node>, out: seq<Id>, sorted: seq<Node>, n: Node)
    requires StreamGraph(g, nodes) && Permutes(g, out) && |sorted| == |out| && n in nodes
    requires forall i, j :: 0 <= i < j < |nodes| ==> nodes[i].id != nodes[j].id
    requires forall k :: 0 <= k < |out| ==> sorted[k].id == out[k] && sorted[k] in nodes
    ensures n in sorted
  {
    hide StreamGraph, Distinct;
    NodeNamed(g, nodes, n);
    var k :| 0 <= k < |out| && out[k] == n.id;
    SameNode(nodes, sorted[k], n);
  }

  lemma NodeEarlier(g: Graph, nodes: seq<Node>, out: seq<Id>, sorted: seq<Node>, i: nat, n: Node)
    requires StreamGraph(g, nodes) && Acyclic(g) && Ordered(g, out) && i < |sorted| == |out|
    requires forall i, j :: 0 <= i < j < |nodes| ==> nodes[i].id != nodes[j].id
    requires forall k :: 0 <= k < |out| ==> sorted[k].id == out[k] && sorted[k] in nodes
    requires n in sorted && n.id in sorted[i].deps
    ensures n in sorted[..i]
  {
    hide StreamGraph, Acyclic, Ordered, Reach;
    NodeNamed(g, nodes, n);
    NodeNamed(g, nodes, sorted[i]);
    assert Edge(g, out[i], n.id);
    AcyclicOrdered(g, out, i, n.id);
    var k :| 0 <= k < i && out[k] == n.id;
    SameNode(nodes, sorted[k], n);
    assert sorted[..i][k] == n;
  }

  /** Whatever a node needs already stands before it. */
  ghost predicate AlreadySorted(nodes: seq<Node>) {
    forall j, k :: 0 <= j < |nodes| && 0 <= k < |nodes| && nodes[j].id in nodes[k].deps && j != k ==> j < k
  }

  /** The sort moves no more than it must: sorted input is returned as it is, and a node that no other
      node needs keeps following everything that stood before it. */
  ghost predicate Stable(nodes: seq<Node>, sorted: seq<Node>) {
    && (AlreadySorted(nodes) ==> sorted == nodes)
    && forall i, j :: 0 <= j < i < |nodes| && (forall k :: 0 <= k < |nodes| && k != i ==> nodes[i].id !in nodes[k].deps) ==>
                        NodeBefore(sorted, nodes[j].id, nodes[i].id)
  }

  lemma SortedStays(g: Graph, nodes: seq<Node>, sorted: seq<Node>)
    requires StreamGraph(g, nodes) && AlreadySorted(nodes)
    requires forall i, j :: 0 <= i < j < |nodes| ==> nodes[i].id != nodes[j].id
    requires |sorted| == |nodes| && (Sorted(g) ==> forall k :: 0 <= k < |nodes| ==> sorted[k].id == nodes[k].id)
    requires forall k :: 0 <= k < |sorted| ==> sorted[k] in nodes
    ensures sorted == nodes
  {
    assert Sorted(g) by {
      forall k, y | 0 <= k < |g.names| && Edge(g, g.names[k], y) && y != g.names[k] ensures y in g.names[..k] {
        var j :| 0 <= j < |g.names| && g.names[j] == y;
        assert nodes[j].id in nodes[k].deps;
        assert g.names[..k][j] == y;
      }
    }
    forall k | 0 <= k < |nodes| ensures sorted[k] == nodes[k] {
      var j :| 0 <= j < |nodes| && nodes[j] == sorted[k];
    }
  }

  lemma RootStays(g: Graph, nodes: seq<Node>, i: nat)
    requires StreamGraph(g, nodes) && i < |nodes|
    requires forall a, b :: 0 <= a < b < |nodes| ==> nodes[a].id != nodes[b].id
    requires forall k :: 0 <= k < |nodes| && k != i ==> nodes[i].id !in nodes[k].deps
    ensures Undepended(g, g.names[i]) && g.names[i] !in g.names[..i]
  {
    forall x | Edge(g, x, g.names[i]) ensures x == g.names[i] {
      var k :| 0 <= k < |g.names| && g.names[k] == x;
    }
  }

  lemma RootStands(g: Graph, out: seq<Id>, i: nat, j: nat)
    requires j < i < |g.names| && RootsFollow(g, out, |g.names|)
    requires Undepended(g, g.names[i]) && g.names[i] !in g.names[..i]
    ensures Before(out, g.names[j], g.names[i])
  {
  }

  lemma StableIs(g: Graph, nodes: seq<Node>, out: seq<Id>, sorted: seq<Node>)
    requires StreamGraph(g, nodes) && |out| == |nodes|
    requires forall i, j :: 0 <= i < j < |nodes| ==> nodes[i].id != nodes[j].id
    requires |sorted| == |out| && forall k :: 0 <= k < |out| ==> sorted[k].id == out[k] && sorted[k] in nodes
    requires Sorted(g) ==> out == g.names
    requires RootsFollow(g, out, |g.names|)
    ensures Stable(nodes, sorted)
  {
    hide Sorted, Undepended, AlreadySorted, RootsFollow, StreamGraph, NodeBefore;
    if AlreadySorted(nodes) {
      assert |g.names| == |nodes| && forall k :: 0 <= k < |nodes| ==> g.names[k] == nodes[k].id by { StreamNames(g, nodes); }
      SortedStays(g, nodes, sorted);
    }
    forall i, j | 0 <= j < i < |nodes| && (forall k :: 0 <= k < |nodes| && k != i ==> nodes[i].id !in nodes[k].deps)
      ensures NodeBefore(sorted, nodes[j].id, nodes[i].id)
    {
      RootKeeps(g, nodes, out, sorted, i, j);
    }
  }

  lemma StreamNames(g: Graph, nodes: seq<Node>)
    requires StreamGraph(g, nodes)
    ensures |g.names| == |nodes| && forall k :: 0 <= k < |nodes| ==> g.names[k] == nodes[k].id
  {
  }

  lemma RootKeeps(g: Graph, nodes: seq<Node>, out: seq<Id>, sorted: seq<Node>, i: nat, j: nat)
    requires StreamGraph(g, nodes) && j < i < |nodes| && RootsFollow(g, out, |g.names|)
    requires forall a, b :: 0 <= a < b < |nodes| ==> nodes[a].id != nodes[b].id
    requires |sorted| == |out| && forall k :: 0 <= k < |out| ==> sorted[k].id == out[k]
    requires forall k :: 0 <= k < |nodes| && k != i ==> nodes[i].id !in nodes[k].deps
    ensures NodeBefore(sorted, nodes[j].id, nodes[i].id)
  {
    hide RootsFollow, Undepended;
    RootStays(g, nodes, i);
    RootStands(g, out, i, j);
    var a, b :| 0 <= a < b < |out| && out[a] == g.names[j] && out[b] == g.names[i];
    assert sorted[a].id == nodes[j].id && sorted[b].id == nodes[i].id;
  }

  lemma SameLength(a: seq<Id>, b: seq<Id>)
    requires Distinct(a) && Distinct(b) && forall x :: x in a <==> x in b
    ensures |a| == |b|
  {
    DistinctSize(a);
    DistinctSize(b);
    assert (set x | x in a) == (set x | x in b);
  }

  lemma {:induction false} DistinctSize(a: seq<Id>)
    requires Distinct(a)
    ensures |set x | x in a| == |a|
  {
    if a != [] {
      var n := |a| - 1;
      DistinctSize(a[..n]);
      assert (set x | x in a) == (set x | x in a[..n]) + {a[n]};
    }
  }
}
