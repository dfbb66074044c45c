/** A collected graph with a cycle on which the drop-first teardown fails under RESTRICT, from the sections to the failing DROP. */
module CutTeardown {
  import opened Wrappers
  import opened Graphs
  import opened TopoOrder
  import opened PlanModel
  import opened PlanTheorems
  import opened Resolver
  import opened Materialize
  import opened Teardown
  import opened TeardownTheorems
  import opened DropFirst
  import P = Planner

  /** A domain, collected under its own name, with its own drop and no stub, that needs deps whatever is cut. */
  ghost predicate Domain(v: ItemValue, x: Id, deps: seq<Id>) {
    && v.id == x && v.src.FromScript? && ValueOk(v) && x != ""
    && var s := v.src.script;
       s.name == x && s.stageOf == "" && s.drop != "" && !s.dropInline && s.form.class_ == "DOMAIN" && s.stub == "" && s.dependsOn == deps
  }

  /** Three domains: a has a clause that needs b, x and b are domains over a, and a's clause brings no pre-data finalizer. */
  ghost predicate CutInput(vs: seq<ItemValue>, a: Id, x: Id, b: Id) {
    && |vs| == 3 && a != x && x != b && a != b
    && Domain(vs[0], a, []) && Domain(vs[1], x, [a]) && Domain(vs[2], b, [a])
    && |vs[0].src.script.clauses| == 1 && vs[1].src.script.clauses == [] && vs[2].src.script.clauses == []
    && var c := vs[0].src.script.clauses[0]; c.deps == [b] && (c.preData ==> c.finalize == [])
  }

  lemma OneDep(v: ItemValue)
    requires ValueOk(v) && v.src.FromScript? && |v.src.script.clauses| <= 1 && !v.staged
    ensures var s := v.src.script;
            EffectiveDeps(v) == s.dependsOn + if s.clauses == [] || v.clauseCut[0] then [] else s.clauses[0].deps
  {
    var s := v.src.script;
    if s.clauses != [] {
      assert KeptDeps(s.clauses[..0], v.clauseCut[..0]) == [];
    }
  }

  /** The collected edges: the clause closes a cycle of a and b. */
  lemma CollectedEdges(vs: seq<ItemValue>, a: Id, x: Id, b: Id)
    requires Input(vs) && CutInput(vs, a, x, b)
    ensures Edge(GraphOf(vs), a, b) && Edge(GraphOf(vs), b, a)
    ensures EffectiveDeps(vs[0]) == [b] && EffectiveDeps(vs[1]) == [a] && EffectiveDeps(vs[2]) == [a]
  {
    hide GraphOf, EffectiveDeps, StubsReduce, FinalsFresh;
    OneDep(vs[0]);
    OneDep(vs[1]);
    OneDep(vs[2]);
    assert Ids(vs) == [a, x, b];
    EdgeOf(vs, 0, b);
    EdgeOf(vs, 2, a);
  }

  /** The graph the planner collects is not acyclic: the condition under which the teardown is safe fails on the input. */
  lemma CutInputCyclic(vs: seq<ItemValue>, a: Id, x: Id, b: Id)
    requires Input(vs) && CutInput(vs, a, x, b)
    ensures !Acyclic(GraphOf(vs)) && ClosesCycle(GraphOf(vs), a, [b])
  {
    hide GraphOf, EffectiveDeps, Reach, StubsReduce, FinalsFresh, Initial, CutInput;
    CollectedEdges(vs, a, x, b);
    ReachEdge(GraphOf(vs), b, a);
    assert OnCycle(GraphOf(vs), a);
    assert b in [b];
  }

  /** What resolution makes of the three: a loses its clause, and nothing is staged. */
  lemma CutResolved(vs: seq<ItemValue>, ws: seq<ItemValue>, a: Id, x: Id, b: Id)
    requires Input(vs) && CutInput(vs, a, x, b) && Resolved(vs, ws) && ValuesOk(ws)
    ensures |ws| == 3 && forall i :: 0 <= i < 3 ==> ws[i].id == vs[i].id && ws[i].src == vs[i].src && !ws[i].staged
    ensures ws[0].clauseCut == [true]
  {
    hide GraphOf, OnCycle, Numbering, ClosesCycle, EffectiveDeps, StubsReduce, FinalsFresh;
    CutInputCyclic(vs, a, x, b);
    forall i | 0 <= i < 3 ensures ws[i].id == vs[i].id && ws[i].src == vs[i].src && !ws[i].staged
                               && ws[i].clauseCut == CutFlags(GraphOf(vs), vs[i].id, vs[i].src.script.clauses) {
      assert ws[i].(sccID := 0) == StageAll(CutAll(vs))[i].(sccID := 0);
    }
  }

  /** The resolved edges: every domain needs the one it is over, and no stage is generated. */
  lemma CutDeps(vs: seq<ItemValue>, ws: seq<ItemValue>, a: Id, x: Id, b: Id)
    requires Input(vs) && CutInput(vs, a, x, b) && Resolved(vs, ws) && ValuesOk(ws)
    ensures |ws| == 3 && ws[0].id == a && ws[1].id == x && ws[2].id == b && Finals(ws) == [] && forall i :: 0 <= i < 3 ==> !HasFinal(ws[i])
    ensures EffectiveDeps(ws[0]) == [] && EffectiveDeps(ws[1]) == [a] && EffectiveDeps(ws[2]) == [a]
  {
    hide Input, Resolved, UniqueIds, GraphOf, Finals, HasFinal, EffectiveDeps, BaseText;
    CutResolved(vs, ws, a, x, b);
    CutItem(vs[0], ws[0]);
    CutItem(vs[1], ws[1]);
    CutItem(vs[2], ws[2]);
    NoneGenerated(ws);
  }

  /** One of the three, resolved. */
  lemma CutItem(v: ItemValue, w: ItemValue)
    requires ValueOk(w) && w.src == v.src && v.src.FromScript? && !w.staged && |v.src.script.clauses| <= 1
    requires var cs := v.src.script.clauses; cs != [] ==> w.clauseCut == [true] && (cs[0].preData ==> cs[0].finalize == [])
    ensures !HasFinal(w) && EffectiveDeps(w) == v.src.script.dependsOn
  {
    hide HasFinal, EffectiveDeps;
    NoStage(w);
    OneDep(w);
  }

  /** The stream: every domain already stands after the one it is over. */
  lemma CutStreamIs(vs: seq<ItemValue>, ws: seq<ItemValue>, a: Id, x: Id, b: Id)
    requires Input(vs) && CutInput(vs, a, x, b) && Resolved(vs, ws) && ValuesOk(ws)
    ensures Finals(ws) == [] && |Stream(ws)| == 3 && Stream(ws)[0].id == a && Stream(ws)[1].id == x && Stream(ws)[2].id == b
    ensures AlreadySorted(Stream(ws))
  {
    hide Input, CutInput, Resolved, UniqueIds, GraphOf, HasFinal, EffectiveDeps, BaseText, Finals, ValueOk;
    CutDeps(vs, ws, a, x, b);
    PlainNodes(ws);
    assert Stream(ws) == BaseNodes(ws);
    CutIds(vs, a, x, b);
  }

  lemma CutIds(vs: seq<ItemValue>, a: Id, x: Id, b: Id)
    requires CutInput(vs, a, x, b)
    ensures a != x && x != b && a != b && |vs| == 3 && vs[0].id == a && vs[1].id == x && vs[2].id == b
  {
  }

  /** Where no stage is generated, no edge is retargeted. */
  lemma PlainNodes(ws: seq<ItemValue>)
    requires ValuesOk(ws) && forall i :: 0 <= i < |ws| ==> !HasFinal(ws[i])
    ensures |BaseNodes(ws)| == |ws|
    ensures forall i :: 0 <= i < |ws| ==> BaseNodes(ws)[i].id == ws[i].id && BaseNodes(ws)[i].deps == EffectiveDeps(ws[i])
  {
    hide HasFinal, EffectiveDeps, BaseText;
    forall i | 0 <= i < |ws| ensures Retarget(ws, ws[i]) == EffectiveDeps(ws[i]) {
    }
  }

  lemma NoStage(v: ItemValue)
    requires ValueOk(v) && v.src.FromScript? && !v.staged && |v.src.script.clauses| <= 1
    requires v.src.script.clauses != [] ==> (v.src.script.clauses[0].preData ==> v.src.script.clauses[0].finalize == [])
    ensures !HasFinal(v)
  {
    var cs := v.src.script.clauses;
    if cs != [] {
      assert Lane(cs[..0], v.clauseCut[..0], true) == [];
    }
  }

  lemma {:induction false} NoneGenerated(ws: seq<ItemValue>)
    requires AllOk(ws) && forall i :: 0 <= i < |ws| ==> !HasFinal(ws[i])
    ensures Finals(ws) == []
  {
    hide ValueOk, HasFinal;
    if ws != [] {
      NoneGenerated(ws[..|ws| - 1]);
    }
  }

  /** The planner emits the three in the order a, x, b, as they were collected. */
  lemma CutEmitted(order: seq<Item>, post: seq<Script>, sections: seq<Section>, e: Engine, vs: seq<ItemValue>, ws: seq<ItemValue>,
                   a: Id, x: Id, b: Id)
    requires Input(vs) && CutInput(vs, a, x, b) && P.PlanOk(order, post, sections, e, vs, ws)
    ensures |order| == 3 && order[0].id == a && order[1].id == x && order[2].id == b
    ensures CutStream(EntriesOf(order), a, x, b)
  {
    hide GraphOf, Stream, FinalsFresh, StubsReduce, Initial, Resolved, EffectiveDeps, SortedStream, AlreadySorted, CreateOf, AllRender, ExtraPost, NodeBefore,
         ValueOk;
    CutStreamIs(vs, ws, a, x, b);
    CutIds(vs, a, x, b);
    CollectedEdges(vs, a, x, b);
    var nodes := NodesOf(order);
    assert nodes == Stream(ws);
    assert |order| == |nodes|;
    forall k | 0 <= k < 3 ensures order[k].id == vs[k].id && P.Stems(order[k], vs, k) {
      assert nodes[k].id == order[k].id;
      assert order[k].src.Some?;
      var i: nat :| i < |vs| && P.Stems(order[k], vs, i);
      assert vs[i].id == vs[k].id;
    }
    hide P.PlanOk;
    assert EntriesOf(order)[0] == Entry(a, Some(vs[0].src), order[0].create, [b]);
    assert EntriesOf(order)[1] == Entry(x, Some(vs[1].src), order[1].create, [a]);
    assert EntriesOf(order)[2] == Entry(b, Some(vs[2].src), order[2].create, [a]);
  }

  /** On every such input the teardown of the emitted plan has a DROP that RESTRICT refuses, though every object has one stage with
      a drop of its own: the cycle, which DropFirst.AcyclicTeardown excludes, is what makes it fail. */
  lemma CutInputFails(order: seq<Item>, post: seq<Script>, sections: seq<Section>, e: Engine, vs: seq<ItemValue>, ws: seq<ItemValue>,
                      a: Id, x: Id, b: Id, bad: seq<seq<Id>>, groups: seq<seq<Id>>, tp: TeardownPlan)
    requires Input(vs) && CutInput(vs, a, x, b) && P.PlanOk(order, post, sections, e, vs, ws) && Planned(EntriesOf(order), bad, groups, tp)
    ensures !Acyclic(GraphOf(vs)) && SingleDrops(EntriesOf(order))
    ensures var es := EntriesOf(order); !RunsClean(DropGraph(CensusOf(es)), CensusOf(es).objs.Keys, Emission(es, tp, 0))
  {
    hide Input, CutInput, P.PlanOk, Planned, Acyclic, GraphOf, EntriesOf, SingleDrops, RunsClean, Emission, CensusOf, DropGraph, CutStream;
    CutInputCyclic(vs, a, x, b);
    CutEmitted(order, post, sections, e, vs, ws, a, x, b);
    CutStreamFails(EntriesOf(order), a, x, b, bad, groups, tp);
  }

  // --- one such schema -----------------------------------------------------------------------------------

  function DomainScript(x: Id, deps: seq<Id>, clauses: seq<Clause>): Script {
    Script("domain", "", "DROP DOMAIN " + x, "CREATE DOMAIN " + x, false, "", DropForm("DOMAIN", x, ""), x, deps, clauses, "", [])
  }

  /** The clause is restored after the data. */
  function CheckClause(fin: Script): Clause {
    Clause(" CHECK (VALUE::b IS NOT NULL)", ["b"], [fin], false)
  }

  function CutSection(fin: Script): Section {
    Section([], [DomainScript("a", [], [CheckClause(fin)]), DomainScript("x", ["a"], []), DomainScript("b", ["a"], [])],
            [], [], [], [], [], [], map[], map[])
  }

  function CutValues(fin: Script): seq<ItemValue> {
    [InitialValue("a", FromScript(DomainScript("a", [], [CheckClause(fin)])), 0),
     InitialValue("x", FromScript(DomainScript("x", ["a"], [])), 0),
     InitialValue("b", FromScript(DomainScript("b", ["a"], [])), 0)]
  }

  lemma CutSectionValues(fin: Script)
    ensures P.InputValues([CutSection(fin)]) == CutValues(fin)
  {
    hide InitialValue;
    var ss := [CutSection(fin)];
    var ps := P.ClassMajor(ss, |P.CLASSES|);
    assert ps == P.Scripts(ss[0].types, 0) by { hide P.Scripts; CutPending(fin); }
    assert |ps| == 3;
  }

  lemma CutPending(fin: Script)
    ensures P.ClassMajor([CutSection(fin)], 7) == P.Scripts(CutSection(fin).types, 0)
  {
    var ss := [CutSection(fin)];
    forall c: P.Class ensures P.OfClass(ss, c, 1) == P.Share(ss[0], c, 0) {
      assert P.OfClass(ss, c, 0) == [];
    }
    hide P.OfClass;
    assert P.ClassMajor(ss, 0) == [];
    assert P.ClassMajor(ss, 1) == [];
    assert P.ClassMajor(ss, 2) == P.Scripts(ss[0].types, 0);
    assert P.ClassMajor(ss, 3) == P.Scripts(ss[0].types, 0);
    assert P.ClassMajor(ss, 4) == P.Scripts(ss[0].types, 0);
    assert P.ClassMajor(ss, 5) == P.Scripts(ss[0].types, 0);
    assert P.ClassMajor(ss, 6) == P.Scripts(ss[0].types, 0);
  }

  /** There is a schema of that kind, and it is planned without an error. */
  lemma CutSectionPlanned(fin: Script)
    ensures var vs := P.InputValues([CutSection(fin)]);
            Input(vs) && CutInput(vs, "a", "x", "b") && Resolvable(vs)
  {
    hide P.InputValues, Resolvable, InitialValue;
    CutSectionValues(fin);
    CutValuesOk(fin);
    CutResolvable(CutValues(fin), "a", "x", "b");
  }

  lemma CutValuesOk(fin: Script)
    ensures Input(CutValues(fin)) && CutInput(CutValues(fin), "a", "x", "b")
  {
    var vs := CutValues(fin);
    assert |"a" + FINAL| == 7 && |"x" + FINAL| == 7 && |"b" + FINAL| == 7;
    assert FinalsFresh(vs) by {
      forall i, j | 0 <= i < |vs| && 0 <= j < |vs| ensures vs[i].id + FINAL != vs[j].id && !Mentions(vs[i], vs[j].id + FINAL) {
        assert |vs[j].id| == 1 && |vs[j].id + FINAL| == 7;
      }
    }
  }

  lemma CutStaged(vs: seq<ItemValue>, a: Id, x: Id, b: Id, i: nat)
    requires ValuesOk(vs) && CutInput(vs, a, x, b) && Initial(vs) && i < 3 && ClosesCycle(GraphOf(vs), a, [b])
    ensures var u := StageAll(CutAll(vs))[i];
            u.id == vs[i].id && u.src == vs[i].src && !u.staged && ValueOk(u) && (i == 0 ==> u.clauseCut == [true])
  {
    hide GraphOf, OnCycle, ClosesCycle, EffectiveDeps;
  }

  /** Without a's clause the three are acyclic. */
  lemma CutResolvable(vs: seq<ItemValue>, a: Id, x: Id, b: Id)
    requires Input(vs) && CutInput(vs, a, x, b)
    ensures Resolvable(vs)
  {
    hide Reach, GraphOf, EffectiveDeps, StubsReduce, FinalsFresh, ClosesCycle;
    CutInputCyclic(vs, a, x, b);
    var us := StageAll(CutAll(vs));
    forall i | 0 <= i < 3 ensures us[i].id == vs[i].id && EffectiveDeps(us[i]) == vs[i].src.script.dependsOn {
      CutStaged(vs, a, x, b, i);
      OneDep(us[i]);
    }
    forall u, d | Edge(GraphOf(us), u, d) ensures d == a && u != a {
      var i := EdgeSource(us, u, d);
    }
    RankedAcyclic(GraphOf(us), z => if z == a then 0 else 1);
  }
}
