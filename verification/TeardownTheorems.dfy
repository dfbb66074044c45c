/** What a teardown plan guarantees, and exactly when running it under RESTRICT cannot fail. */
module TeardownTheorems {
  import opened Wrappers
  import opened Graphs
  import opened TopoOrder
  import opened Tarjan
  import opened PlanModel
  import opened Resolver
  import opened Teardown

  /** A plan together with the cycles it was made from. */
  ghost predicate Planned(es: seq<Entry>, bad: seq<seq<Id>>, groups: seq<seq<Id>>, tp: TeardownPlan) {
    var c := CensusOf(es);
    Wellformed(c) && Heads(c, DropGraph(c), bad, groups) && Separate(groups) && IsPlan(c, DropGraph(c), groups, tp)
  }

  // --- retention -------------------------------------------------------------------------------------

  /** The retained set contains the roots and is closed under dependencies: no retained object depends
      on a dropped one.  It is the least such set. */
  lemma RetainedLeast(c: Census, g: Graph, groups: seq<seq<Id>>, tp: TeardownPlan, S: set<Id>)
    requires Wellformed(c) && g == DropGraph(c) && IsPlan(c, g, groups, tp)
    ensures forall r :: Root(c, g, groups, r) ==> r in tp.omit
    ensures ClosedSet(g, tp.omit)
    ensures ClosedSet(g, S) && (forall r :: Root(c, g, groups, r) ==> r in S) ==> tp.omit <= S
  {
    hide Reach, Root, HeadBy, CoveredBy, GroupSql, InGroup, DropDeps;
    GraphOrder(c);
    forall r | Root(c, g, groups, r) ensures r in tp.omit {
      ReachRefl(g, r);
      RootIsObject(c, g, groups, r);
    }
    forall x, y | x in tp.omit && Edge(g, x, y) ensures y in tp.omit {
      var r :| Root(c, g, groups, r) && Reach(g, r, x);
      ReachEdge(g, x, y);
      ReachTrans(g, r, x, y);
    }
    if ClosedSet(g, S) && forall r :: Root(c, g, groups, r) ==> r in S {
      forall x | x in tp.omit ensures x in S {
        var r :| Root(c, g, groups, r) && Reach(g, r, x);
        ReachClosed(g, S, r, x);
      }
    }
  }

  lemma RootIsObject(c: Census, g: Graph, groups: seq<seq<Id>>, r: Id)
    requires Root(c, g, groups, r)
    ensures r in c.objs
  {
  }

  /** Retention never splits a cycle: its members are retained together or not at all. */
  lemma CycleWhole(c: Census, g: Graph, bad: seq<seq<Id>>, groups: seq<seq<Id>>, tp: TeardownPlan, k: nat, x: Id, y: Id)
    requires Wellformed(c) && g == DropGraph(c) && Heads(c, g, bad, groups) && IsPlan(c, g, groups, tp)
    requires k < |groups| && x in groups[k] && y in groups[k]
    ensures x in tp.omit <==> y in tp.omit
  {
    hide Reach, Root, HeadBy, CoveredBy, GroupSql, InGroup, DropGraph, OnCycle;
    assert IsComponent(g, bad[k]) && IsSorting(c, bad[k], groups[k]);
    RetainedLeast(c, g, groups, tp, {});
    if x in tp.omit {
      ReachClosed(g, tp.omit, x, y);
    }
    if y in tp.omit {
      ReachClosed(g, tp.omit, y, x);
    }
  }

  // --- emission --------------------------------------------------------------------------------------

  /** A teardown statement: its text, the objects it drops, and whether a table item carries it. */
  datatype Stmt = Stmt(text: string, drops: set<Id>, table: bool)

  /** The item has a place in the teardown block. */
  predicate Carries(e: Entry) {
    OwnDrop(e) != "" && (e.src.value.FromScript? ==> !e.src.value.script.dropInline)
  }

  /** dropSQL and its caller: what is written at one item's position. */
  function StmtAt(e: Entry, tp: TeardownPlan): seq<Stmt> {
    if !Carries(e) then []
    else
      var id, table := TeardownId(e), e.src.value.FromTable?;
      if id in tp.grouped then [Stmt(tp.grouped[id].sql, (set x | x in tp.grouped[id].members), table)]
      else if id in tp.omit || id in tp.covered then []
      else [Stmt(OwnDrop(e), {id}, table)]
  }

  /** The statements written at positions i and later, in the order they are written. */
  function Emission(es: seq<Entry>, tp: TeardownPlan, i: nat): seq<Stmt>
    requires i <= |es|
    decreases |es| - i
  {
    if i == |es| then [] else Emission(es, tp, i + 1) + StmtAt(es[i], tp)
  }

  /** The teardown loop of WriteDB: the reversed stream, with the constraint drops just before the first
      statement a table carries (at), or after everything. */
  method WriteTeardown(es: seq<Entry>, tp: TeardownPlan) returns (stmts: seq<Stmt>, at: nat)
    ensures stmts == Emission(es, tp, 0)
    ensures at <= |stmts| && (at < |stmts| ==> stmts[at].table) && forall k :: 0 <= k < at ==> !stmts[k].table
  {
    stmts := [];
    var constraintsDone := false;
    at := 0;
    var i := |es|;
    while i > 0
      invariant 0 <= i <= |es| && stmts == Emission(es, tp, i)
      invariant !constraintsDone ==> forall k :: 0 <= k < |stmts| ==> !stmts[k].table
      invariant constraintsDone ==> at < |stmts| && stmts[at].table && forall k :: 0 <= k < at ==> !stmts[k].table
    {
      i := i - 1;
      var own := StmtAt(es[i], tp);
      if own != [] && own[0].table && !constraintsDone {
        at := |stmts|;
        constraintsDone := true;
      }
      stmts := stmts + own;
    }
    if !constraintsDone {
      at := |stmts|;
    }
  }

  // --- running it under RESTRICT ---------------------------------------------------------------------

  /** Under RESTRICT a DROP fails when something that survives it depends on what it drops. */
  ghost predicate DropOk(g: Graph, alive: set<Id>, s: Stmt) {
    forall x, y :: x in alive && x !in s.drops && y in s.drops ==> !Edge(g, x, y)
  }

  /** Running the statements from a state in which the objects in alive exist: no statement fails. */
  ghost predicate RunsClean(g: Graph, alive: set<Id>, stmts: seq<Stmt>) {
    stmts == [] || (DropOk(g, alive, stmts[0]) && RunsClean(g, alive - stmts[0].drops, stmts[1..]))
  }

  ghost function After(alive: set<Id>, stmts: seq<Stmt>): set<Id> {
    if stmts == [] then alive else After(alive - stmts[0].drops, stmts[1..])
  }

  lemma {:induction false} RunAppend(g: Graph, alive: set<Id>, a: seq<Stmt>, b: seq<Stmt>)
    ensures RunsClean(g, alive, a + b) <==> RunsClean(g, alive, a) && RunsClean(g, After(alive, a), b)
    ensures After(alive, a + b) == After(After(alive, a), b)
  {
    if a == [] {
      assert a + b == b;
    } else {
      assert (a + b)[0] == a[0] && (a + b)[1..] == a[1..] + b;
      RunAppend(g, alive - a[0].drops, a[1..], b);
    }
  }

  /** Each object has one stage that carries a drop, none is dropped inline, and anonymous riders drop
      nothing of the graph. */
  ghost predicate SingleDrops(es: seq<Entry>) {
    && (forall i, j :: 0 <= i < j < |es| && OwnDrop(es[i]) != "" && OwnDrop(es[j]) != "" ==> TeardownId(es[i]) != TeardownId(es[j]))
    && (forall i :: 0 <= i < |es| && OwnDrop(es[i]) != "" ==> Carries(es[i]))
    && (forall i :: 0 <= i < |es| && OwnDrop(es[i]) != "" && !Relevant(es[i]) ==> TeardownId(es[i]) !in CensusOf(es).objs)
  }

  /** The statement at position i drops x. */
  ghost predicate DroppedAt(es: seq<Entry>, tp: TeardownPlan, i: nat, x: Id) {
    i < |es| && StmtAt(es[i], tp) != [] && x in StmtAt(es[i], tp)[0].drops
  }

  /** The position at which an object that is not retained is dropped: its own, or its group's. */
  ghost function EmitPos(c: Census, groups: seq<seq<Id>>, x: Id): int
    requires x in c.objs
  {
    if Grouped(c, groups, x) then
      var k: nat :| k < |groups| && InGroup(c, groups, k, x);
      c.objs[groups[k][0]].dropPos
    else c.objs[x].dropPos
  }

  /** With one group per object, EmitPos does not depend on the choice. */
  lemma EmitPosGrouped(c: Census, groups: seq<seq<Id>>, k: nat, x: Id)
    requires Separate(groups) && InGroup(c, groups, k, x)
    ensures x in c.objs && Grouped(c, groups, x) && EmitPos(c, groups, x) == c.objs[groups[k][0]].dropPos
  {
    hide Groupable;
    forall j: nat | InGroup(c, groups, j, x) ensures j == k {
    }
  }

  /** A droppable object that is not retained carries a drop, alone or in a group that is not retained. */
  lemma NotRetained(es: seq<Entry>, bad: seq<seq<Id>>, groups: seq<seq<Id>>, tp: TeardownPlan, x: Id)
    requires Planned(es, bad, groups, tp) && x in CensusOf(es).objs && x !in tp.omit
    ensures CensusOf(es).objs[x].drop != ""
    ensures !Grouped(CensusOf(es), groups, x) ==> x !in tp.covered && x !in tp.grouped
  {
    hide Reach, CensusOf, DropGraph, OnCycle, GroupSql, Heads;
    var c := CensusOf(es);
    RetainedLeast(c, DropGraph(c), groups, tp, {});
    assert !Root(c, DropGraph(c), groups, x);
    if Grouped(c, groups, x) {
      var k: nat :| k < |groups| && InGroup(c, groups, k, x);
    }
  }

  lemma HeadInGroup(c: Census, groups: seq<seq<Id>>, k: nat, x: Id)
    requires InGroup(c, groups, k, x)
    ensures k < |groups| && x in groups[k] && InGroup(c, groups, k, groups[k][0])
  {
  }

  /** The head of a group that is not retained is planned, with the whole group as its statement. */
  lemma HeadPlanned(es: seq<Entry>, bad: seq<seq<Id>>, groups: seq<seq<Id>>, tp: TeardownPlan, k: nat, x: Id)
    requires Planned(es, bad, groups, tp) && InGroup(CensusOf(es), groups, k, x) && x !in tp.omit
    ensures groups[k][0] !in tp.omit && groups[k][0] in tp.grouped && tp.grouped[groups[k][0]].members == groups[k]
    ensures groups[k][0] in CensusOf(es).objs
    ensures x in tp.grouped <==> x == groups[k][0]
    ensures x in tp.covered <==> x != groups[k][0]
  {
    hide Reach, CensusOf, DropGraph, OnCycle, GroupSql, Heads, Groupable;
    var c := CensusOf(es);
    var h := groups[k][0];
    HeadInGroup(c, groups, k, x);
    CycleWhole(c, DropGraph(c), bad, groups, tp, k, x, h);
    assert HeadBy(c, groups, |groups|, h);
    OneGroup(c, groups, k, x);
  }

  lemma OneGroup(c: Census, groups: seq<seq<Id>>, k: nat, x: Id)
    requires Separate(groups) && InGroup(c, groups, k, x)
    ensures HeadBy(c, groups, |groups|, x) <==> x == groups[k][0]
    ensures CoveredBy(c, groups, |groups|, x) <==> x != groups[k][0]
  {
    hide Groupable;
    forall j: nat | InGroup(c, groups, j, x) ensures j == k {
    }
  }

  /** The stage that carries an object's drop is where the census says, and it is the only one. */
  lemma CarrierIs(es: seq<Entry>, x: Id, i: nat)
    requires SingleDrops(es) && x in CensusOf(es).objs && CensusOf(es).objs[x].drop != "" && i < |es|
    ensures 0 <= CensusOf(es).objs[x].dropPos < |es|
    ensures Carries(es[CensusOf(es).objs[x].dropPos]) && TeardownId(es[CensusOf(es).objs[x].dropPos]) == x
    ensures Carries(es[i]) && TeardownId(es[i]) == x ==> i == CensusOf(es).objs[x].dropPos
  {
    hide CensusOf;
    CensusOk(es);
    var p := CensusOf(es).objs[x].dropPos;
    assert CarriesDrop(es, CensusOf(es), x);
  }

  /** Fate of a retained object: nothing drops it. */
  lemma RetainedNotDropped(es: seq<Entry>, bad: seq<seq<Id>>, groups: seq<seq<Id>>, tp: TeardownPlan, i: nat, x: Id)
    requires Planned(es, bad, groups, tp) && x in CensusOf(es).objs && x in tp.omit
    ensures !DroppedAt(es, tp, i, x)
  {
    hide Reach, CensusOf, DropGraph, OnCycle, GroupSql, Heads, Groupable, Retained;
    if DroppedAt(es, tp, i, x) {
      var id := TeardownId(es[i]);
      if id in tp.grouped {
        var k: nat :| k < |groups| && InGroup(CensusOf(es), groups, k, id) && id == groups[k][0];
        CycleWhole(CensusOf(es), DropGraph(CensusOf(es)), bad, groups, tp, k, x, id);
      }
    }
  }

  /** Fate of every other object: the statement at its position drops it, and no other does. */
  lemma DroppedOnce(es: seq<Entry>, bad: seq<seq<Id>>, groups: seq<seq<Id>>, tp: TeardownPlan, i: nat, x: Id)
    requires Planned(es, bad, groups, tp) && SingleDrops(es) && x in CensusOf(es).objs && x !in tp.omit && i < |es|
    ensures 0 <= EmitPos(CensusOf(es), groups, x) < |es|
    ensures DroppedAt(es, tp, EmitPos(CensusOf(es), groups, x), x)
    ensures DroppedAt(es, tp, i, x) ==> i == EmitPos(CensusOf(es), groups, x)
  {
    hide Reach, CensusOf, DropGraph, OnCycle, GroupSql, Heads, Groupable, Retained, SingleDrops;
    NotRetained(es, bad, groups, tp, x);
    if Grouped(CensusOf(es), groups, x) {
      var k: nat :| k < |groups| && InGroup(CensusOf(es), groups, k, x);
      GroupedDroppedOnce(es, bad, groups, tp, i, x, k);
    } else {
      CarrierIs(es, x, i);
      AloneDroppedOnce(es, bad, groups, tp, i, x);
    }
  }

  lemma GroupedDroppedOnce(es: seq<Entry>, bad: seq<seq<Id>>, groups: seq<seq<Id>>, tp: TeardownPlan, i: nat, x: Id, k: nat)
    requires Planned(es, bad, groups, tp) && SingleDrops(es) && InGroup(CensusOf(es), groups, k, x) && x !in tp.omit && i < |es|
    ensures x in CensusOf(es).objs && 0 <= EmitPos(CensusOf(es), groups, x) < |es|
    ensures DroppedAt(es, tp, EmitPos(CensusOf(es), groups, x), x)
    ensures DroppedAt(es, tp, i, x) ==> i == EmitPos(CensusOf(es), groups, x)
  {
    hide Reach, CensusOf, DropGraph, OnCycle, GroupSql, Heads, Groupable, Retained, SingleDrops;
    var h := groups[k][0];
    EmitPosGrouped(CensusOf(es), groups, k, x);
    HeadPlanned(es, bad, groups, tp, k, x);
    NotRetained(es, bad, groups, tp, h);
    CarrierIs(es, h, i);
    assert x in groups[k];
    if DroppedAt(es, tp, i, x) {
      var id := TeardownId(es[i]);
      if id in tp.grouped {
        var j: nat :| j < |groups| && InGroup(CensusOf(es), groups, j, id) && id == groups[j][0];
        assert x in groups[j];
        assert j == k;
      }
    }
  }

  lemma AloneDroppedOnce(es: seq<Entry>, bad: seq<seq<Id>>, groups: seq<seq<Id>>, tp: TeardownPlan, i: nat, x: Id)
    requires Planned(es, bad, groups, tp) && x in CensusOf(es).objs && x !in tp.omit && i < |es|
    requires !Grouped(CensusOf(es), groups, x) && x !in tp.covered && x !in tp.grouped
    requires 0 <= CensusOf(es).objs[x].dropPos < |es|
    requires Carries(es[CensusOf(es).objs[x].dropPos]) && TeardownId(es[CensusOf(es).objs[x].dropPos]) == x
    requires Carries(es[i]) && TeardownId(es[i]) == x ==> i == CensusOf(es).objs[x].dropPos
    ensures DroppedAt(es, tp, EmitPos(CensusOf(es), groups, x), x)
    ensures DroppedAt(es, tp, i, x) ==> i == EmitPos(CensusOf(es), groups, x)
  {
    hide Reach, CensusOf, DropGraph, OnCycle, GroupSql, Heads, Groupable, Retained;
    forall id | id in tp.grouped ensures x !in tp.grouped[id].members {
      var j: nat :| j < |groups| && InGroup(CensusOf(es), groups, j, id) && id == groups[j][0];
      assert tp.grouped[id].members == groups[j];
      assert !InGroup(CensusOf(es), groups, j, x);
    }
  }

  /** What the statement at a position drops: one object of the graph, or one whole group. */
  lemma DropsAre(es: seq<Entry>, bad: seq<seq<Id>>, groups: seq<seq<Id>>, tp: TeardownPlan, i: nat, x: Id)
    requires Planned(es, bad, groups, tp) && DroppedAt(es, tp, i, x)
    ensures StmtAt(es[i], tp)[0].drops == {x} ||
            exists k: nat :: InGroup(CensusOf(es), groups, k, x) && StmtAt(es[i], tp)[0].drops == set y | y in groups[k]
  {
    hide Reach, CensusOf, DropGraph, OnCycle, GroupSql, Heads, Groupable, Retained;
    var id := TeardownId(es[i]);
    if id in tp.grouped {
      var k: nat :| k < |groups| && InGroup(CensusOf(es), groups, k, id) && id == groups[k][0];
      assert tp.grouped[id].members == groups[k];
      assert InGroup(CensusOf(es), groups, k, x);
    }
  }

  /** The fate of an object of the dump: kept with everything it needs, or dropped by exactly one
      statement, alone or with its whole group. */
  lemma Fate(es: seq<Entry>, bad: seq<seq<Id>>, groups: seq<seq<Id>>, tp: TeardownPlan, x: Id)
    requires Planned(es, bad, groups, tp) && SingleDrops(es) && x in CensusOf(es).objs
    ensures x in tp.omit ==> forall i: nat :: !DroppedAt(es, tp, i, x)
    ensures x !in tp.omit ==> exists i: nat :: DroppedAt(es, tp, i, x) && forall j: nat :: DroppedAt(es, tp, j, x) ==> j == i
  {
    hide CensusOf, Planned, SingleDrops, EmitPos, StmtAt;
    if x in tp.omit {
      forall j: nat ensures !DroppedAt(es, tp, j, x) {
        RetainedNotDropped(es, bad, groups, tp, j, x);
      }
    } else {
      PosInRange(es, bad, groups, tp, x);
      forall j: nat | j < |es| ensures DroppedAt(es, tp, j, x) <==> j == EmitPos(CensusOf(es), groups, x) {
        DroppedOnce(es, bad, groups, tp, j, x);
      }
      var i: nat := EmitPos(CensusOf(es), groups, x);
      assert DroppedAt(es, tp, i, x);
    }
  }

  // --- when the teardown runs clean --------------------------------------------------------------------

  /** What a caller can check on the finished plan: no object that is dropped has a dependent whose drop
      comes later in the script (that is, earlier in the creation stream). */
  ghost predicate InDropOrder(es: seq<Entry>, groups: seq<seq<Id>>, tp: TeardownPlan) {
    var c := CensusOf(es);
    forall x, y :: x in c.objs && y in c.objs && Edge(DropGraph(c), x, y) && y !in tp.omit ==>
                     EmitPos(c, groups, y) <= EmitPos(c, groups, x)
  }

  /** The objects that still exist once the statements at positions i and later have run. */
  ghost function Alive(es: seq<Entry>, tp: TeardownPlan, i: nat): set<Id>
    requires i <= |es|
  {
    After(CensusOf(es).objs.Keys, Emission(es, tp, i))
  }

  lemma {:induction false} AliveIs(es: seq<Entry>, tp: TeardownPlan, i: nat)
    requires i <= |es|
    ensures forall x :: x in Alive(es, tp, i) <==> x in CensusOf(es).objs && forall j: nat :: i <= j < |es| ==> !DroppedAt(es, tp, j, x)
    decreases |es| - i
  {
    hide CensusOf, StmtAt;
    if i < |es| {
      AliveIs(es, tp, i + 1);
      AliveStep(es, tp, i);
    }
  }

  lemma AliveStep(es: seq<Entry>, tp: TeardownPlan, i: nat)
    requires i < |es|
    ensures forall x :: x in Alive(es, tp, i) <==> x in Alive(es, tp, i + 1) && !DroppedAt(es, tp, i, x)
  {
    hide CensusOf;
    var own := StmtAt(es[i], tp);
    RunAppend(DropGraph(CensusOf(es)), CensusOf(es).objs.Keys, Emission(es, tp, i + 1), own);
    assert |own| <= 1;
    if own != [] {
      assert own[1..] == [];
      assert After(Alive(es, tp, i + 1), own) == Alive(es, tp, i + 1) - own[0].drops;
    }
  }

  /** The statement at position i, if any, succeeds in the state it runs in. */
  ghost predicate StepOk(es: seq<Entry>, tp: TeardownPlan, i: nat)
    requires i < |es|
  {
    StmtAt(es[i], tp) != [] ==> DropOk(DropGraph(CensusOf(es)), Alive(es, tp, i + 1), StmtAt(es[i], tp)[0])
  }

  lemma OneStatement(g: Graph, alive: set<Id>, own: seq<Stmt>)
    requires |own| <= 1
    ensures RunsClean(g, alive, own) <==> (own != [] ==> DropOk(g, alive, own[0]))
  {
    hide DropOk;
    if own != [] {
      assert own[1..] == [];
    }
  }

  lemma {:induction false} CleanSteps(es: seq<Entry>, tp: TeardownPlan, i: nat)
    requires i <= |es|
    ensures RunsClean(DropGraph(CensusOf(es)), CensusOf(es).objs.Keys, Emission(es, tp, i)) <==>
            forall j: nat :: i <= j < |es| ==> StepOk(es, tp, j)
    decreases |es| - i
  {
    hide CensusOf, DropGraph, DropOk, StepOk, StmtAt;
    if i == |es| {
    } else {
      hide RunsClean, Emission;
      CleanSteps(es, tp, i + 1);
      CleanStep(es, tp, i);
      assert (forall j: nat :: i <= j < |es| ==> StepOk(es, tp, j)) <==>
             (forall j: nat :: i + 1 <= j < |es| ==> StepOk(es, tp, j)) && StepOk(es, tp, i);
    }
  }

  lemma CleanStep(es: seq<Entry>, tp: TeardownPlan, i: nat)
    requires i < |es|
    ensures RunsClean(DropGraph(CensusOf(es)), CensusOf(es).objs.Keys, Emission(es, tp, i)) <==>
            RunsClean(DropGraph(CensusOf(es)), CensusOf(es).objs.Keys, Emission(es, tp, i + 1)) && StepOk(es, tp, i)
  {
    hide CensusOf, DropGraph, DropOk, RunsClean, After;
    assert |StmtAt(es[i], tp)| <= 1;
    hide StmtAt;
    var own := StmtAt(es[i], tp);
    RunAppend(DropGraph(CensusOf(es)), CensusOf(es).objs.Keys, Emission(es, tp, i + 1), own);
    OneStatement(DropGraph(CensusOf(es)), Alive(es, tp, i + 1), own);
  }

  /** No edge into what is dropped at position i comes from something dropped later. */
  ghost predicate OrderAt(es: seq<Entry>, groups: seq<seq<Id>>, tp: TeardownPlan, i: nat) {
    var c := CensusOf(es);
    forall x, y :: x in c.objs && y in c.objs && Edge(DropGraph(c), x, y) && y !in tp.omit && EmitPos(c, groups, y) == i ==>
                     i <= EmitPos(c, groups, x)
  }

  lemma StepIs(es: seq<Entry>, bad: seq<seq<Id>>, groups: seq<seq<Id>>, tp: TeardownPlan, i: nat)
    requires Planned(es, bad, groups, tp) && SingleDrops(es) && i < |es|
    ensures StepOk(es, tp, i) <==> OrderAt(es, groups, tp, i)
  {
    hide Reach, CensusOf, OnCycle, Heads, IsPlan, SingleDrops, StmtAt, EmitPos, Alive, Wellformed, Separate;
    var c := CensusOf(es);
    var own := StmtAt(es[i], tp);
    Fates(es, bad, groups, tp, i);
    RetainedLeast(c, DropGraph(c), groups, tp, {});
    DropEdgeNames(c);
    hide DropGraph;
    if own == [] {
      assert forall y :: y in c.objs ==> !DroppedAt(es, tp, i, y);
    } else {
      assert forall y :: y in own[0].drops <==> DroppedAt(es, tp, i, y);
      hide DroppedAt;
      forall x, y | x in c.objs && y in c.objs && Edge(DropGraph(c), x, y) && y !in tp.omit && EmitPos(c, groups, y) == i
        ensures x !in tp.omit
      {
      }
      if OrderAt(es, groups, tp, i) {
        assert DropOk(DropGraph(c), Alive(es, tp, i + 1), own[0]);
      }
    }
  }

  lemma DropEdgeNames(c: Census)
    requires Wellformed(c)
    ensures forall x, y :: Edge(DropGraph(c), x, y) ==> x in c.objs && y in c.objs
  {
  }

  lemma Fates(es: seq<Entry>, bad: seq<seq<Id>>, groups: seq<seq<Id>>, tp: TeardownPlan, i: nat)
    requires Planned(es, bad, groups, tp) && SingleDrops(es) && i < |es|
    ensures forall x :: x in CensusOf(es).objs ==> (DroppedAt(es, tp, i, x) <==> x !in tp.omit && EmitPos(CensusOf(es), groups, x) == i)
    ensures forall x :: x in CensusOf(es).objs ==> (x in Alive(es, tp, i + 1) <==> x in tp.omit || EmitPos(CensusOf(es), groups, x) <= i)
    ensures forall x :: x in Alive(es, tp, i + 1) ==> x in CensusOf(es).objs
  {
    hide CensusOf, Planned, SingleDrops, DroppedAt, EmitPos, Alive;
    AliveIs(es, tp, i + 1);
    forall x | x in CensusOf(es).objs
      ensures DroppedAt(es, tp, i, x) <==> x !in tp.omit && EmitPos(CensusOf(es), groups, x) == i
      ensures x in Alive(es, tp, i + 1) <==> x in tp.omit || EmitPos(CensusOf(es), groups, x) <= i
    {
      FateAt(es, bad, groups, tp, i, x);
    }
  }

  lemma FateAt(es: seq<Entry>, bad: seq<seq<Id>>, groups: seq<seq<Id>>, tp: TeardownPlan, i: nat, x: Id)
    requires Planned(es, bad, groups, tp) && SingleDrops(es) && i < |es| && x in CensusOf(es).objs
    ensures DroppedAt(es, tp, i, x) <==> x !in tp.omit && EmitPos(CensusOf(es), groups, x) == i
    ensures (forall j: nat :: i + 1 <= j < |es| ==> !DroppedAt(es, tp, j, x)) <==> x in tp.omit || EmitPos(CensusOf(es), groups, x) <= i
  {
    hide CensusOf, Planned, SingleDrops, DroppedAt, EmitPos;
    if x in tp.omit {
      forall j: nat ensures !DroppedAt(es, tp, j, x) {
        RetainedNotDropped(es, bad, groups, tp, j, x);
      }
    } else {
      forall j: nat | j < |es| ensures DroppedAt(es, tp, j, x) <==> j == EmitPos(CensusOf(es), groups, x) {
        DroppedOnce(es, bad, groups, tp, j, x);
      }
      DroppedOnce(es, bad, groups, tp, i, x);
    }
  }

  /** The teardown, run under RESTRICT with all dumped objects present, fails nowhere if and only if the
      plan drops dependents no later than what they depend on. */
  lemma TeardownRunsClean(es: seq<Entry>, bad: seq<seq<Id>>, groups: seq<seq<Id>>, tp: TeardownPlan)
    requires Planned(es, bad, groups, tp) && SingleDrops(es)
    ensures RunsClean(DropGraph(CensusOf(es)), CensusOf(es).objs.Keys, Emission(es, tp, 0)) <==> InDropOrder(es, groups, tp)
  {
    hide CensusOf, DropGraph, SingleDrops, Edge, EmitPos, StepOk, RunsClean, Planned;
    CleanSteps(es, tp, 0);
    forall i: nat | i < |es| ensures StepOk(es, tp, i) <==> OrderAt(es, groups, tp, i) {
      StepIs(es, bad, groups, tp, i);
    }
    forall y | y in CensusOf(es).objs && y !in tp.omit ensures 0 <= EmitPos(CensusOf(es), groups, y) < |es| {
      PosInRange(es, bad, groups, tp, y);
    }
    if InDropOrder(es, groups, tp) {
      assert forall i: nat :: i < |es| ==> OrderAt(es, groups, tp, i);
    }
    if forall i: nat :: i < |es| ==> OrderAt(es, groups, tp, i) {
      forall x, y | x in CensusOf(es).objs && y in CensusOf(es).objs && Edge(DropGraph(CensusOf(es)), x, y) && y !in tp.omit
        ensures EmitPos(CensusOf(es), groups, y) <= EmitPos(CensusOf(es), groups, x)
      {
        var i: nat := EmitPos(CensusOf(es), groups, y);
        assert OrderAt(es, groups, tp, i);
      }
    }
  }

  lemma PosInRange(es: seq<Entry>, bad: seq<seq<Id>>, groups: seq<seq<Id>>, tp: TeardownPlan, y: Id)
    requires Planned(es, bad, groups, tp) && SingleDrops(es) && y in CensusOf(es).objs && y !in tp.omit
    ensures 0 <= EmitPos(CensusOf(es), groups, y) < |es|
  {
    hide Reach, CensusOf, DropGraph, OnCycle, SingleDrops, EmitPos;
    if es == [] {
      NoObjects(es);
    } else {
      DroppedOnce(es, bad, groups, tp, 0, y);
    }
  }

  lemma NoObjects(es: seq<Entry>)
    requires es == []
    ensures CensusOf(es).objs == map[]
  {
  }

  // --- a stream nothing was cut from -------------------------------------------------------------------

  /** No two stages belong to one object. */
  ghost predicate NoCollapse(es: seq<Entry>) {
    forall k :: 0 <= k < |es| && Relevant(es[k]) ==> TeardownId(es[k]) == es[k].id
  }

  /** Every edge an item was collected with leads to an earlier item, if to any. */
  ghost predicate CreatedInOrder(es: seq<Entry>) {
    forall j, k :: 0 <= j < |es| && 0 <= k < |es| && Relevant(es[k]) && es[j].id in es[k].fullDeps ==> j < k
  }

  ghost function PosOf(es: seq<Entry>, x: Id): int {
    if exists k :: 0 <= k < |es| && es[k].id == x then var k :| 0 <= k < |es| && es[k].id == x; k else -1
  }

  lemma PosIs(es: seq<Entry>, k: nat)
    requires UniqueEntries(es) && k < |es|
    ensures PosOf(es, es[k].id) == k
  {
  }

  lemma EdgesGoBack(es: seq<Entry>, x: Id, y: Id)
    requires UniqueEntries(es) && NoCollapse(es) && CreatedInOrder(es) && Edge(DropGraph(CensusOf(es)), x, y)
    ensures PosOf(es, y) < PosOf(es, x)
  {
    hide CensusOf, UniqueEntries, PosOf;
    var c := CensusOf(es);
    CensusOk(es);
    assert x in c.objs && y in CanonDeps(c.objs[x].rawDeps, c.canonOf, x);
    CanonDepsAre(c.objs[x].rawDeps, c.canonOf, x, y);
    var d :| d in c.objs[x].rawDeps && d in c.canonOf && c.canonOf[d] == y && y != x;
    var j := CanonFrom(es, d);
    CanonIs(es, j);
    var k := RawFrom(es, x, d);
    PosIs(es, j);
    PosIs(es, k);
  }

  /** A graph whose edges all lower a rank has no cycle. */
  lemma RankedAcyclic(g: Graph, rank: Id -> int)
    requires forall x, y :: Edge(g, x, y) ==> rank(y) < rank(x)
    ensures Acyclic(g)
  {
    hide Reach;
    forall x, y | Edge(g, x, y) ensures !Reach(g, y, x) {
      if Reach(g, y, x) {
        ReachClosed(g, (set z | z in g.names && rank(z) <= rank(y)), y, x);
      }
    }
  }

  /** Then no cycle is left to group, and the teardown runs without a failing DROP. */
  lemma OrderedRunsClean(es: seq<Entry>, bad: seq<seq<Id>>, groups: seq<seq<Id>>, tp: TeardownPlan)
    requires Planned(es, bad, groups, tp) && SingleDrops(es)
    requires UniqueEntries(es) && NoCollapse(es) && CreatedInOrder(es)
    ensures tp.grouped == map[] && RunsClean(DropGraph(CensusOf(es)), CensusOf(es).objs.Keys, Emission(es, tp, 0))
  {
    hide CensusOf, DropGraph, SingleDrops, Reach, RunsClean, UniqueEntries, CreatedInOrder, PosOf, Emission, Edge, OnCycle, EmitPos;
    var c := CensusOf(es);
    forall x, y | Edge(DropGraph(c), x, y) ensures PosOf(es, y) < PosOf(es, x) {
      EdgesGoBack(es, x, y);
    }
    RankedAcyclic(DropGraph(c), x => PosOf(es, x));
    assert groups == [] by { NoCycles(c, DropGraph(c), bad, groups); }
    forall x, y | x in c.objs && y in c.objs && Edge(DropGraph(c), x, y) && y !in tp.omit
      ensures EmitPos(c, groups, y) <= EmitPos(c, groups, x)
    {
      RetainedLeast(c, DropGraph(c), groups, tp, {});
      OwnPos(es, bad, groups, tp, y);
      if x !in tp.omit {
        OwnPos(es, bad, groups, tp, x);
      }
    }
    assert InDropOrder(es, groups, tp) by { hide Planned; }
    TeardownRunsClean(es, bad, groups, tp);
  }

  lemma NoCycles(c: Census, g: Graph, bad: seq<seq<Id>>, groups: seq<seq<Id>>)
    requires Heads(c, g, bad, groups)
    ensures Acyclic(g) ==> groups == []
  {
    hide OnCycle, Reach, LatestFirst, Distinct;
    HeadsSeparate(c, g, bad, groups);
    if groups != [] {
      assert IsSorting(c, bad[0], groups[0]);
      assert groups[0][0] in g.names && OnCycle(g, groups[0][0]);
    }
  }

  lemma OwnPos(es: seq<Entry>, bad: seq<seq<Id>>, groups: seq<seq<Id>>, tp: TeardownPlan, x: Id)
    requires Planned(es, bad, groups, tp) && groups == [] && UniqueEntries(es) && NoCollapse(es)
    requires x in CensusOf(es).objs && x !in tp.omit
    ensures EmitPos(CensusOf(es), groups, x) == PosOf(es, x)
  {
    hide CensusOf, DropGraph, OnCycle, UniqueEntries, PosOf;
    NotRetained(es, bad, groups, tp, x);
    CensusOk(es);
    assert CarriesDrop(es, CensusOf(es), x);
    PosIs(es, CensusOf(es).objs[x].dropPos);
  }

  // --- a stream something was cut from -----------------------------------------------------------------

  /** A create of its own object with its own drop, that needs d. */
  ghost predicate Needing(e: Entry, x: Id, d: Id) {
    && e.src.Some? && e.src.value.FromScript? && e.id == x && e.fullDeps == [d]
    && var s := e.src.value.script;
       s.name != "" && s.stageOf == "" && s.drop != "" && !s.dropInline && s.form.class_ == "DOMAIN"
  }

  /** Three domains: a and b need each other (a's own edge was cut, so that a could come first), and x,
      created between them, needs a. */
  ghost predicate CutStream(es: seq<Entry>, a: Id, x: Id, b: Id) {
    |es| == 3 && a != x && x != b && a != b && Needing(es[0], a, b) && Needing(es[1], x, a) && Needing(es[2], b, a)
  }

  ghost predicate OwnObj(c: Census, x: Id, d: Id, pos: nat) {
    && x in c.objs && c.objs[x].rawDeps == [d] && c.objs[x].drop != "" && c.objs[x].dropPos == pos
    && c.objs[x].form.class_ == "DOMAIN" && x in c.canonOf && c.canonOf[x] == x
  }

  ghost predicate CutCensus(c: Census, a: Id, x: Id, b: Id) {
    && a != x && x != b && a != b && c.order == [a, x, b] && c.objs.Keys == {a, x, b}
    && OwnObj(c, a, b, 0) && OwnObj(c, x, a, 1) && OwnObj(c, b, a, 2)
  }

  lemma CensusStep(es: seq<Entry>, n: nat)
    requires n < |es| && Relevant(es[n])
    ensures CensusOf(es[..n + 1]) == Extend(CensusOf(es[..n]), es[n], n)
  {
    assert es[..n + 1][..n] == es[..n];
  }

  lemma FirstNeed(c: Census, e: Entry, x: Id, d: Id, pos: nat)
    requires Needing(e, x, d) && x !in c.objs
    ensures Relevant(e)
    ensures var c' := Extend(c, e, pos);
            && c'.order == c.order + [x] && c'.objs.Keys == c.objs.Keys + {x} && OwnObj(c', x, d, pos)
            && forall y, f, p: nat :: y != x && OwnObj(c, y, f, p) ==> OwnObj(c', y, f, p)
  {
  }

  lemma CutCensusIs(es: seq<Entry>, a: Id, x: Id, b: Id)
    requires CutStream(es, a, x, b)
    ensures CutCensus(CensusOf(es), a, x, b)
  {
    hide CensusOf, Extend, OwnObj, Needing;
    CensusNone(es);
    var c0, c1, c2 := CensusOf(es[..0]), CensusOf(es[..1]), CensusOf(es[..2]);
    FirstNeed(c0, es[0], a, b, 0);
    CensusStep(es, 0);
    FirstNeed(c1, es[1], x, a, 1);
    CensusStep(es, 1);
    FirstNeed(c2, es[2], b, a, 2);
    CensusStep(es, 2);
    assert es[..3] == es;
  }

  lemma CensusNone(es: seq<Entry>)
    ensures CensusOf(es[..0]) == Census(map[], map[], [])
  {
    assert es[..0] == [];
  }

  lemma CutSingle(es: seq<Entry>, a: Id, x: Id, b: Id)
    requires CutStream(es, a, x, b)
    ensures SingleDrops(es)
  {
    hide CensusOf;
  }

  lemma CanonOne(c: Census, u: Id, d: Id)
    requires d in c.canonOf && c.canonOf[d] == d && d != u
    ensures CanonDeps([d], c.canonOf, u) == [d]
  {
    assert [d][..0] == [];
  }

  lemma CutDepsAre(c: Census, a: Id, x: Id, b: Id)
    requires CutCensus(c, a, x, b)
    ensures var g := DropGraph(c);
            && g.names == [a, x, b] && DepsOf(g.deps, a) == [b] && DepsOf(g.deps, x) == [a] && DepsOf(g.deps, b) == [a]
  {
    hide CanonDeps;
    CanonOne(c, a, b);
    CanonOne(c, x, a);
    CanonOne(c, b, a);
  }

  lemma CutEdges(c: Census, a: Id, x: Id, b: Id)
    requires CutCensus(c, a, x, b)
    ensures DropGraph(c).names == [a, x, b]
    ensures forall u, v :: Edge(DropGraph(c), u, v) <==> (u == a && v == b) || (u == x && v == a) || (u == b && v == a)
  {
    hide DropGraph, OwnObj;
    CutDepsAre(c, a, x, b);
  }

  lemma CutCycle(c: Census, a: Id, x: Id, b: Id)
    requires CutCensus(c, a, x, b)
    ensures OnCycle(DropGraph(c), a) && !OnCycle(DropGraph(c), x) && Mutual(DropGraph(c), a, b)
  {
    hide Reach, DropGraph;
    var g := DropGraph(c);
    CutEdges(c, a, x, b);
    ReachEdge(g, a, b);
    ReachEdge(g, b, a);
    forall y | Edge(g, x, y) ensures !Reach(g, y, x) {
      if Reach(g, y, x) {
        ReachClosed(g, {a, b}, y, x);
      }
    }
  }

  /** a and b are one group, headed by b, and x is in none. */
  lemma CutGroup(c: Census, a: Id, x: Id, b: Id, bad: seq<seq<Id>>, groups: seq<seq<Id>>)
    requires CutCensus(c, a, x, b) && Heads(c, DropGraph(c), bad, groups)
    ensures !Grouped(c, groups, x)
    ensures exists k: nat :: InGroup(c, groups, k, a) && InGroup(c, groups, k, b) && groups[k][0] == b
  {
    hide Reach, DropGraph, OnCycle;
    var g := DropGraph(c);
    CutCycle(c, a, x, b);
    CutEdges(c, a, x, b);
    HeadsSeparate(c, g, bad, groups);
    var k: nat :| k < |groups| && a in groups[k];
    assert IsComponent(g, bad[k]) && IsSorting(c, bad[k], groups[k]);
    assert b in groups[k] && x !in groups[k];
    hide IsComponent, IsCycles, CutCensus, Mutual, Groupable, Distinct, AllComponents;
    CutHead(c, a, x, b, bad[k], groups[k]);
    assert InGroup(c, groups, k, a) && InGroup(c, groups, k, b);
  }

  lemma CutHead(c: Census, a: Id, x: Id, b: Id, comp: seq<Id>, ms: seq<Id>)
    requires CutCensus(c, a, x, b) && IsSorting(c, comp, ms) && a in ms && b in ms && x !in ms
    ensures Groupable(c, ms) && ms[0] == b
  {
    assert ms[0] in ms;
  }

  /** The group stands at b's position; x, whose own drop is further down, still needs a when it runs. */
  lemma CutStreamFails(es: seq<Entry>, a: Id, x: Id, b: Id, bad: seq<seq<Id>>, groups: seq<seq<Id>>, tp: TeardownPlan)
    requires CutStream(es, a, x, b) && Planned(es, bad, groups, tp)
    ensures SingleDrops(es) && !RunsClean(DropGraph(CensusOf(es)), CensusOf(es).objs.Keys, Emission(es, tp, 0))
  {
    hide Reach, OnCycle, CensusOf, DropGraph, RunsClean, Emission, SingleDrops, Heads, Groupable, GroupSql;
    var c := CensusOf(es);
    CutCensusIs(es, a, x, b);
    CutSingle(es, a, x, b);
    CutEdges(c, a, x, b);
    CutGroup(c, a, x, b, bad, groups);
    var k: nat :| InGroup(c, groups, k, a) && InGroup(c, groups, k, b) && groups[k][0] == b;
    EmitPosGrouped(c, groups, k, a);
    assert a !in tp.omit by { CutKept(c, a, x, b, groups, k, tp); }
    assert EmitPos(c, groups, a) == 2 && EmitPos(c, groups, x) == 1;
    assert Edge(DropGraph(c), x, a);
    TeardownRunsClean(es, bad, groups, tp);
  }

  lemma CutKept(c: Census, a: Id, x: Id, b: Id, groups: seq<seq<Id>>, k: nat, tp: TeardownPlan)
    requires CutCensus(c, a, x, b) && IsPlan(c, DropGraph(c), groups, tp)
    requires !Grouped(c, groups, x) && InGroup(c, groups, k, a) && InGroup(c, groups, k, b)
    ensures a !in tp.omit
  {
    hide Reach, DropGraph, OnCycle, Groupable, InGroup, GroupSql, CoveredBy, HeadBy;
    CutCycle(c, a, x, b);
    HeadInGroup(c, groups, k, a);
    assert Grouped(c, groups, a) && Grouped(c, groups, b);
    forall r ensures !Root(c, DropGraph(c), groups, r) {
    }
  }
}
