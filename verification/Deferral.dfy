/** What becomes of the deferred scripts: each one is emitted exactly once, except the pre-data finalizers of a staged routine. */
module Deferral {
  import opened Graphs
  import opened TopoOrder
  import opened PlanModel
  import opened PlanTheorems
  import opened Resolver
  import opened Materialize
  import opened Planner

  // --- item by item --------------------------------------------------------------------------------------

  ghost function ItemCut(v: ItemValue): seq<Script>
    requires ValueOk(v)
  {
    if v.src.FromScript? then CutFinalizers(v.src.script.clauses, v.clauseCut) else []
  }

  /** The finalizers that ride in the item's generated stage. */
  ghost function ItemBundle(v: ItemValue): seq<Script>
    requires ValueOk(v)
  {
    if HasFinal(v) && !v.staged then FinalNode(v).bundle else []
  }

  /** The routine that a staged item's stage replays. */
  ghost function ItemRestored(v: ItemValue): seq<Script>
    requires ValueOk(v)
  {
    if HasFinal(v) && v.staged then FinalNode(v).bundle else []
  }

  /** The pre-data finalizers of a staged routine: its stage replays the routine and nothing else. */
  ghost function ItemDropped(v: ItemValue): seq<Script>
    requires ValueOk(v)
  {
    if v.src.FromScript? && v.staged then Lane(v.src.script.clauses, v.clauseCut, true) else []
  }

  /** The scripts that the re-rendering of a stripped table brings. */
  ghost function ItemRendered(e: Engine, sec: Section, v: ItemValue): seq<Script>
    requires ValueOk(v)
  {
    if Stripped(v) then PostOf(e, sec, v) else []
  }

  // --- over all items ------------------------------------------------------------------------------------

  /** All finalizers of all cut clauses. */
  ghost function AllCut(ws: seq<ItemValue>): multiset<Script>
    requires AllOk(ws)
  {
    if ws == [] then multiset{} else AllCut(ws[..|ws| - 1]) + multiset(ItemCut(ws[|ws| - 1]))
  }

  ghost function Bundled(ws: seq<ItemValue>): multiset<Script>
    requires AllOk(ws)
  {
    if ws == [] then multiset{} else Bundled(ws[..|ws| - 1]) + multiset(ItemBundle(ws[|ws| - 1]))
  }

  ghost function Restorations(ws: seq<ItemValue>): multiset<Script>
    requires AllOk(ws)
  {
    if ws == [] then multiset{} else Restorations(ws[..|ws| - 1]) + multiset(ItemRestored(ws[|ws| - 1]))
  }

  ghost function PostLane(ws: seq<ItemValue>): multiset<Script>
    requires AllOk(ws)
  {
    if ws == [] then multiset{} else PostLane(ws[..|ws| - 1]) + multiset(ItemPost(ws[|ws| - 1]))
  }

  ghost function Dropped(ws: seq<ItemValue>): multiset<Script>
    requires AllOk(ws)
  {
    if ws == [] then multiset{} else Dropped(ws[..|ws| - 1]) + multiset(ItemDropped(ws[|ws| - 1]))
  }

  ghost function Rendered(e: Engine, sections: seq<Section>, ws: seq<ItemValue>): multiset<Script>
    requires AllOk(ws) && SectionsOk(sections, ws)
  {
    if ws == [] then multiset{}
    else
      var n := |ws| - 1;
      Rendered(e, sections, ws[..n]) + multiset(ItemRendered(e, sections[ws[n].sec], ws[n]))
  }

  lemma {:induction false} LanesSplit(cs: seq<Clause>, cut: seq<bool>)
    requires |cs| == |cut|
    ensures multiset(CutFinalizers(cs, cut)) == multiset(Lane(cs, cut, true)) + multiset(Lane(cs, cut, false))
  {
    if cs != [] {
      var n := |cs| - 1;
      LanesSplit(cs[..n], cut[..n]);
    }
  }

  lemma ItemConservation(v: ItemValue)
    requires ValueOk(v)
    ensures multiset(ItemCut(v)) == multiset(ItemBundle(v)) + multiset(ItemPost(v)) + multiset(ItemDropped(v))
  {
    if v.src.FromScript? {
      LanesSplit(v.src.script.clauses, v.clauseCut);
    }
  }

  /** What the cut clauses deferred is bundled, handed to post-data, or dropped. */
  lemma {:induction false} Conservation(ws: seq<ItemValue>)
    requires AllOk(ws)
    ensures AllCut(ws) == Bundled(ws) + PostLane(ws) + Dropped(ws)
  {
    hide ItemCut, ItemBundle, ItemPost, ItemDropped, ValueOk;
    if ws != [] {
      Conservation(ws[..|ws| - 1]);
      ItemConservation(ws[|ws| - 1]);
    }
  }

  // --- the emitted plan ----------------------------------------------------------------------------------

  /** Everything that the stages of a stream carry. */
  ghost function Bundles(nodes: seq<Node>): multiset<Script> {
    if nodes == [] then multiset{} else Bundles(nodes[..|nodes| - 1]) + multiset(nodes[|nodes| - 1].bundle)
  }

  lemma BundlesStep(nodes: seq<Node>, n: Node)
    ensures Bundles(nodes + [n]) == Bundles(nodes) + multiset(n.bundle)
  {
    var all := nodes + [n];
    assert all[..|all| - 1] == nodes;
  }

  lemma {:induction false} BundlesAppend(a: seq<Node>, b: seq<Node>)
    ensures Bundles(a + b) == Bundles(a) + Bundles(b)
  {
    if b == [] {
      assert a + b == a;
    } else {
      hide Bundles;
      var c, n := b[..|b| - 1], b[|b| - 1];
      assert b == c + [n] && a + b == (a + c) + [n];
      BundlesAppend(a, c);
      BundlesStep(c, n);
      BundlesStep(a + c, n);
    }
  }

  lemma OneBundle(n: Node)
    ensures Bundles([n]) == multiset(n.bundle)
  {
    assert [n][..0] == [];
  }

  function Without(a: seq<Node>, k: nat): seq<Node>
    requires k < |a|
  {
    a[..k] + a[k + 1..]
  }

  lemma WithoutOne(a: seq<Node>, k: nat)
    requires k < |a|
    ensures multiset(Without(a, k)) == multiset(a) - multiset{a[k]} && |Without(a, k)| == |a| - 1
    ensures Bundles(a) == Bundles(Without(a, k)) + multiset(a[k].bundle)
  {
    hide Bundles;
    var pre, n, post := a[..k], a[k], a[k + 1..];
    assert a == pre + [n] + post;
    BundlesAppend(pre, post);
    BundlesAppend(pre, [n]);
    BundlesAppend(pre + [n], post);
    OneBundle(n);
  }

  lemma Someplace(a: seq<Node>, b: seq<Node>) returns (k: nat)
    requires multiset(a) == multiset(b) && a != []
    ensures k < |b| && b[k] == a[0]
  {
    assert a[0] in multiset(a);
    k :| 0 <= k < |b| && b[k] == a[0];
  }

  lemma NoneLeft(b: seq<Node>)
    requires multiset(b) == multiset([])
    ensures b == []
  {
    assert |multiset(b)| == |b|;
  }

  /** The order of the nodes does not matter. */
  lemma {:induction false} BundlesPermute(a: seq<Node>, b: seq<Node>)
    requires multiset(a) == multiset(b)
    ensures Bundles(a) == Bundles(b)
    decreases |a|
  {
    hide Bundles, Without;
    if a == [] {
      NoneLeft(b);
    } else {
      var k := Someplace(a, b);
      WithoutOne(a, 0);
      WithoutOne(b, k);
      BundlesPermute(Without(a, 0), Without(b, k));
    }
  }

  /** Two lists without repetitions and with the same members. */
  lemma {:induction false} SameMembers(a: seq<Node>, b: seq<Node>)
    requires (forall i, j :: 0 <= i < j < |a| ==> a[i] != a[j]) && (forall i, j :: 0 <= i < j < |b| ==> b[i] != b[j])
    requires forall n :: n in a <==> n in b
    ensures multiset(a) == multiset(b)
  {
    forall n ensures multiset(a)[n] == multiset(b)[n] {
      OnceIn(a, n);
      OnceIn(b, n);
    }
  }

  lemma {:induction false} OnceIn(a: seq<Node>, n: Node)
    requires forall i, j :: 0 <= i < j < |a| ==> a[i] != a[j]
    ensures multiset(a)[n] == if n in a then 1 else 0
  {
    if a != [] {
      var m := |a| - 1;
      assert a == a[..m] + [a[m]];
      OnceIn(a[..m], n);
    }
  }

  lemma {:induction false} BundlesOfBases(nodes: seq<Node>)
    requires forall k :: 0 <= k < |nodes| ==> nodes[k].bundle == []
    ensures Bundles(nodes) == multiset{}
  {
    if nodes != [] {
      BundlesOfBases(nodes[..|nodes| - 1]);
    }
  }

  lemma {:induction false} BundlesOfFinals(ws: seq<ItemValue>)
    requires AllOk(ws)
    ensures Bundles(Finals(ws)) == Bundled(ws) + Restorations(ws)
  {
    hide ValueOk, HasFinal, FinalNode, ItemBundle, ItemRestored;
    if ws != [] {
      hide Bundles, Finals;
      BundlesOfFinals(ws[..|ws| - 1]);
      FinalsStep(ws);
    }
  }

  lemma FinalsStep(ws: seq<ItemValue>)
    requires AllOk(ws) && ws != []
    ensures var n := |ws| - 1;
            Bundles(Finals(ws)) == Bundles(Finals(ws[..n])) + (multiset(ItemBundle(ws[n])) + multiset(ItemRestored(ws[n])))
  {
    hide Bundles, ValueOk, HasFinal, FinalNode, ItemBundle, ItemRestored;
    var n := |ws| - 1;
    var last := if HasFinal(ws[n]) then [FinalNode(ws[n])] else [];
    assert Finals(ws) == Finals(ws[..n]) + last;
    FinalParts(ws[n]);
    BundlesAppend(Finals(ws[..n]), last);
  }

  lemma FinalParts(v: ItemValue)
    requires ValueOk(v)
    ensures Bundles(if HasFinal(v) then [FinalNode(v)] else []) == multiset(ItemBundle(v)) + multiset(ItemRestored(v))
  {
    hide HasFinal, FinalNode;
    if HasFinal(v) {
      assert [FinalNode(v)][..0] == [];
    }
  }

  lemma BundlesOfStream(ws: seq<ItemValue>)
    requires ValuesOk(ws)
    ensures Bundles(Stream(ws)) == Bundled(ws) + Restorations(ws)
  {
    hide ValueOk, UniqueIds, Retarget, BaseText, Bundles, Bundled, Restorations, Finals;
    BundlesAppend(BaseNodes(ws), Finals(ws));
    BundlesOfBases(BaseNodes(ws));
    BundlesOfFinals(ws);
  }

  /** What the emitted stages carry: the bundles and the restored routines. */
  lemma EmittedBundles(vs: seq<ItemValue>, ws: seq<ItemValue>, nodes: seq<Node>)
    requires Input(vs) && Resolved(vs, ws) && ValuesOk(ws) && SortedStream(ws, nodes)
    ensures Bundles(nodes) == Bundled(ws) + Restorations(ws)
  {
    StreamIdsUnique(vs, ws);
    hide Input, Resolved, ValuesOk, Stream, Bundled, Restorations, Bundles;
    SameMembers(nodes, Stream(ws));
    BundlesPermute(nodes, Stream(ws));
    BundlesOfStream(ws);
  }

  /** What goes to the post-data phase: the finalizers of that lane and what the stripped tables bring. */
  lemma {:induction false} EmittedPost(e: Engine, sections: seq<Section>, ws: seq<ItemValue>)
    requires AllOk(ws) && SectionsOk(sections, ws)
    ensures multiset(ExtraPost(e, sections, ws)) == PostLane(ws) + Rendered(e, sections, ws)
  {
    hide ValueOk, ItemPost, Stripped, FinsOf, RenderOf;
    if ws != [] {
      var n := |ws| - 1;
      EmittedPost(e, sections, ws[..n]);
      PostParts(e, sections[ws[n].sec], ws[n]);
    }
  }

  lemma PostParts(e: Engine, sec: Section, v: ItemValue)
    requires ValueOk(v)
    ensures PostOf(e, sec, v) == ItemPost(v) + ItemRendered(e, sec, v)
  {
    hide FinsOf, RenderOf;
  }

  // --- what the input says -------------------------------------------------------------------------------

  /** The scripts to defer: the finalizers of every clause that needs an object on its own cycle. */
  ghost function Deferred(vs: seq<ItemValue>, n: nat): multiset<Script>
    requires ValuesOk(vs) && n <= |vs|
  {
    if n == 0 then multiset{}
    else
      var v := vs[n - 1];
      Deferred(vs, n - 1) +
      if v.src.FromScript? then multiset(CutFinalizers(v.src.script.clauses, CutFlags(GraphOf(vs), v.id, v.src.script.clauses))) else multiset{}
  }

  /** A routine with a stub that stays on a cycle when every such clause has been cut, one of them with a pre-data finalizer. */
  ghost predicate Discards(vs: seq<ItemValue>, i: nat)
    requires ValuesOk(vs) && i < |vs|
  {
    && vs[i].src.FromScript? && vs[i].src.script.stub != "" && OnCycle(GraphOf(CutAll(vs)), vs[i].id)
    && exists c :: c in vs[i].src.script.clauses && c.preData && c.finalize != [] && ClosesCycle(GraphOf(vs), vs[i].id, c.deps)
  }

  lemma ResolvedFlags(vs: seq<ItemValue>, ws: seq<ItemValue>, i: nat)
    requires ValuesOk(vs) && Resolved(vs, ws) && i < |vs|
    ensures ws[i].src == vs[i].src && ValueOk(ws[i])
    ensures vs[i].src.FromScript? ==>
              && ws[i].clauseCut == CutFlags(GraphOf(vs), vs[i].id, vs[i].src.script.clauses)
              && (ws[i].staged <==> vs[i].src.script.stub != "" && OnCycle(GraphOf(CutAll(vs)), vs[i].id))
  {
    hide GraphOf, OnCycle, Numbering, CutFlags;
    assert ws[i].(sccID := 0) == StageAll(CutAll(vs))[i].(sccID := 0);
  }

  lemma {:induction false} LaneEmpty(cs: seq<Clause>, cut: seq<bool>)
    requires |cs| == |cut|
    ensures Lane(cs, cut, true) != [] <==> exists k :: 0 <= k < |cs| && cut[k] && cs[k].preData && cs[k].finalize != []
  {
    if cs != [] {
      var n := |cs| - 1;
      LaneEmpty(cs[..n], cut[..n]);
      if k :| 0 <= k < n && cut[k] && cs[k].preData && cs[k].finalize != [] {
        assert cut[..n][k] && cs[..n][k].preData && cs[..n][k].finalize != [];
      }
    }
  }

  lemma ItemDiscards(vs: seq<ItemValue>, ws: seq<ItemValue>, i: nat)
    requires ValuesOk(vs) && Resolved(vs, ws) && i < |vs| == |ws| && ValueOk(ws[i])
    ensures ItemDropped(ws[i]) != [] <==> Discards(vs, i)
  {
    hide GraphOf, OnCycle, Resolved, Lane, ClosesCycle, CutAll;
    ResolvedFlags(vs, ws, i);
    if vs[i].src.FromScript? {
      var cs, cut := vs[i].src.script.clauses, ws[i].clauseCut;
      LaneEmpty(cs, cut);
      assert forall k :: 0 <= k < |cs| ==> cs[k] in cs && cut[k] == ClosesCycle(GraphOf(vs), vs[i].id, cs[k].deps);
    }
  }

  lemma {:induction false} DroppedEmpty(ws: seq<ItemValue>)
    requires AllOk(ws)
    ensures Dropped(ws) == multiset{} <==> forall i :: 0 <= i < |ws| ==> ItemDropped(ws[i]) == []
  {
    hide ItemDropped, ValueOk;
    if ws != [] {
      var n := |ws| - 1;
      DroppedEmpty(ws[..n]);
      var d := ItemDropped(ws[n]);
      if d != [] {
        assert d[0] in multiset(d);
        assert d[0] in Dropped(ws);
      }
      if i :| 0 <= i < n && ItemDropped(ws[i]) != [] {
        assert ItemDropped(ws[..n][i]) != [];
        var s :| s in Dropped(ws[..n]);
        assert s in Dropped(ws);
      }
    }
  }

  lemma DeferredIsCut(vs: seq<ItemValue>, ws: seq<ItemValue>)
    requires ValuesOk(vs) && Resolved(vs, ws) && AllOk(ws)
    ensures AllCut(ws) == Deferred(vs, |vs|)
  {
    hide Resolved, ValuesOk, ValueOk;
    assert ws[..|vs|] == ws by { ResolvedLength(vs, ws); }
    DeferredSoFar(vs, ws, |vs|);
  }

  lemma ResolvedLength(vs: seq<ItemValue>, ws: seq<ItemValue>)
    requires ValuesOk(vs) && Resolved(vs, ws)
    ensures |ws| == |vs|
  {
  }

  lemma {:induction false} DeferredSoFar(vs: seq<ItemValue>, ws: seq<ItemValue>, n: nat)
    requires ValuesOk(vs) && Resolved(vs, ws) && AllOk(ws) && n <= |vs| == |ws|
    ensures AllCut(ws[..n]) == Deferred(vs, n)
  {
    hide Resolved, GraphOf, CutFlags, CutFinalizers, OnCycle;
    if n > 0 {
      DeferredSoFar(vs, ws, n - 1);
      ResolvedFlags(vs, ws, n - 1);
      assert ws[..n][..n - 1] == ws[..n - 1];
    }
  }

  /** Resolution discards nothing, so that every finalizer it cuts is bundled or handed to post-data, if and only if the input holds
      no routine of that kind. */
  lemma NothingDropped(vs: seq<ItemValue>, ws: seq<ItemValue>)
    requires Input(vs) && Resolved(vs, ws) && ValuesOk(ws)
    ensures Dropped(ws) == multiset{} <==> forall i :: 0 <= i < |vs| ==> !Discards(vs, i)
    ensures AllCut(ws) == Bundled(ws) + PostLane(ws) <==> forall i :: 0 <= i < |vs| ==> !Discards(vs, i)
  {
    ResolvedLength(vs, ws);
    hide Input, Resolved, GraphOf, ValueOk, UniqueIds, ItemDropped, Discards, AllCut, Bundled, PostLane, Dropped;
    DroppedEmpty(ws);
    Conservation(ws);
    forall i | 0 <= i < |vs| ensures ItemDropped(ws[i]) != [] <==> Discards(vs, i) {
      ItemDiscards(vs, ws, i);
    }
    SumSame(Bundled(ws) + PostLane(ws), Dropped(ws));
  }

  lemma SumSame(kept: multiset<Script>, lost: multiset<Script>)
    ensures kept + lost == kept <==> lost == multiset{}
  {
    if kept + lost == kept {
      forall s ensures lost[s] == 0 {
        assert (kept + lost)[s] == kept[s] + lost[s];
      }
      assert lost == multiset{};
    }
  }

  // --- the theorems --------------------------------------------------------------------------------------

  /** What a plan emits beside the objects themselves: what its stages carry and what it hands to the post-data phase. */
  ghost function EmittedScripts(order: seq<Item>, post: seq<Script>): multiset<Script>
    reads order
  {
    Bundles(NodesOf(order)) + multiset(post)
  }

  /** What it has to emit. */
  ghost function Owed(vs: seq<ItemValue>, ws: seq<ItemValue>, sections: seq<Section>, e: Engine): multiset<Script>
    requires ValuesOk(vs) && AllOk(ws) && SectionsOk(sections, ws)
  {
    Deferred(vs, |vs|) + Restorations(ws) + Rendered(e, sections, ws)
  }

  /** Conservation: what is not emitted was dropped, and nothing is emitted twice or made up. */
  lemma PlanConserves(order: seq<Item>, post: seq<Script>, sections: seq<Section>, e: Engine, vs: seq<ItemValue>, ws: seq<ItemValue>)
    requires Input(vs) && PlanOk(order, post, sections, e, vs, ws)
    ensures EmittedScripts(order, post) + Dropped(ws) == Owed(vs, ws, sections, e)
  {
    hide Input, Resolved, SortedStream, Stable, AllRender, ExtraPost, Bundles, Bundled, Restorations, Rendered, PostLane, AllCut, Dropped,
         Deferred, GraphOf, Emitted, ValueOk, UniqueIds;
    EmittedBundles(vs, ws, NodesOf(order));
    EmittedPost(e, sections, ws);
    Conservation(ws);
    DeferredIsCut(vs, ws);
  }

  /** Nothing is lost, nothing is emitted twice and nothing is made up, if and only if the input holds no routine of that kind. */
  lemma DeferralLosesNothing(order: seq<Item>, post: seq<Script>, sections: seq<Section>, e: Engine, vs: seq<ItemValue>, ws: seq<ItemValue>)
    requires Input(vs) && PlanOk(order, post, sections, e, vs, ws)
    ensures EmittedScripts(order, post) == Owed(vs, ws, sections, e) <==> forall i :: 0 <= i < |vs| ==> !Discards(vs, i)
  {
    hide Input, Resolved, SortedStream, Stable, AllRender, ExtraPost, EmittedScripts, Owed, Dropped, GraphOf, Emitted, ValueOk, UniqueIds, Discards;
    PlanConserves(order, post, sections, e, vs, ws);
    NothingDropped(vs, ws);
    SumSame(EmittedScripts(order, post), Dropped(ws));
  }

  /** In particular when no script pairs a stub with clauses. */
  lemma UnpairedLosesNothing(order: seq<Item>, post: seq<Script>, sections: seq<Section>, e: Engine, vs: seq<ItemValue>, ws: seq<ItemValue>)
    requires Input(vs) && PlanOk(order, post, sections, e, vs, ws)
    requires forall i :: 0 <= i < |vs| && vs[i].src.FromScript? ==> vs[i].src.script.stub == "" || vs[i].src.script.clauses == []
    ensures EmittedScripts(order, post) == Owed(vs, ws, sections, e)
  {
    hide PlanOk, Input, EmittedScripts, Owed, GraphOf, ClosesCycle, OnCycle;
    DeferralLosesNothing(order, post, sections, e, vs, ws);
  }

  /** The kind exists: a routine that needs itself, outside and inside a clause, is resolved, and discards the clause's finalizer. */
  lemma PairedLoses(fin: Script) returns (vs: seq<ItemValue>)
    ensures Input(vs) && Resolvable(vs) && |vs| == 1 && Discards(vs, 0) && Deferred(vs, 1) == multiset{fin}
  {
    var s := Script("function", "", "", "", false, "", DropForm("", "", ""), "r", ["r"], [Clause("", ["r"], [fin], true)], "stub", []);
    vs := [ItemValue("r", FromScript(s), 0, [false], [], [], false, 0)];
    PairedInput(vs);
    PairedEdge(vs);
    var cut := CutAll(vs);
    hide Reach, GraphOf, EffectiveDeps;
    assert CutFlags(GraphOf(vs), "r", s.clauses) == [true];
    assert cut[0] == vs[0].(clauseCut := [true]);
    PairedEdge(cut);
    PairedResolvable(vs, cut);
    assert s.clauses[0] in s.clauses;
    assert CutFinalizers(s.clauses, [true]) == [fin] by { assert CutFinalizers(s.clauses[..0], [true][..0]) == []; }
    assert Deferred(vs, 0) == multiset{};
  }

  ghost predicate Paired(v: ItemValue) {
    && v.id == "r" && v.src.FromScript? && v.sec == 0 && v.stripDefaults == [] && v.stripConstraints == []
    && var s := v.src.script;
       s.dependsOn == ["r"] && s.stub != "" && s.stubDeps == [] && |s.clauses| == 1 && s.clauses[0].deps == ["r"]
  }

  lemma PairedInput(vs: seq<ItemValue>)
    requires |vs| == 1 && Paired(vs[0]) && vs[0].clauseCut == [false] && !vs[0].staged && vs[0].sccID == 0
    ensures Input(vs)
  {
    assert |"r" + FINAL| == 7;
  }

  lemma PairedEdge(vs: seq<ItemValue>)
    requires |vs| == 1 && Paired(vs[0]) && |vs[0].clauseCut| == 1 && !vs[0].staged
    ensures ValuesOk(vs) && GraphOf(vs).names == ["r"] && Edge(GraphOf(vs), "r", "r") && OnCycle(GraphOf(vs), "r")
    ensures Reach(GraphOf(vs), "r", "r")
  {
    hide Reach;
    assert "r" in EffectiveDeps(vs[0]);
    EdgeOf(vs, 0, "r");
    ReachRefl(GraphOf(vs), "r");
  }

  /** Its stub needs nothing. */
  lemma PairedResolvable(vs: seq<ItemValue>, cut: seq<ItemValue>)
    requires |vs| == 1 && Paired(vs[0]) && ValuesOk(vs) && cut == CutAll(vs) && cut == [vs[0].(clauseCut := [true])]
    requires OnCycle(GraphOf(cut), "r")
    ensures Resolvable(vs)
  {
    hide Reach, GraphOf;
    var us := StageAll(cut);
    assert us[0].staged && EffectiveDeps(us[0]) == [];
    forall x | x in GraphOf(us).names ensures !OnCycle(GraphOf(us), x) {
      if y :| Edge(GraphOf(us), x, y) && Reach(GraphOf(us), y, x) {
        var i := EdgeSource(us, x, y);
        assert false;
      }
    }
  }
}
