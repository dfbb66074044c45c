/** The dump planner's pre-data resolution (ResolveDB) on the mutable items it works on. */
module Resolver {
  import opened Wrappers
  import opened Graphs
  import opened TopoOrder
  import opened Tarjan
  import opened PlanModel
  import opened PlanTheorems

  /** predataItem.  src is None on a generated "-final" stage. */
  class Item {
    const id: Id
    const src: Option<Source>
    const sec: nat
    const fullDeps: seq<Id>
    const finalOf: Id
    const bundle: seq<Script>
    var deps: seq<Id>
    var clauseCut: seq<bool>
    var stripDefaults: seq<string>
    var stripConstraints: seq<string>
    var staged: bool
    var sqlText: string
    var create: string
    var sccID: nat

    /** An item as buildPredataItems collects it. */
    constructor Base(id: Id, src: Source, sec: nat)
      ensures this.id == id && this.src == Some(src) && this.sec == sec && finalOf == ""
      ensures Value() == InitialValue(id, src, sec) && sqlText == "" && bundle == []
      ensures fullDeps == EffectiveDeps(InitialValue(id, src, sec))
      ensures create == if src.FromTable? then src.table.create else ""
    {
      this.id, this.src, this.sec, finalOf, bundle := id, Some(src), sec, "", [];
      clauseCut := InitialValue(id, src, sec).clauseCut;
      fullDeps := EffectiveDeps(InitialValue(id, src, sec));
      deps := EffectiveDeps(InitialValue(id, src, sec));
      stripDefaults, stripConstraints, staged, sccID := [], [], false, 0;
      sqlText := "";
      create := if src.FromTable? then src.table.create else "";
    }

    /** A generated stage. */
    constructor Final(id: Id, deps: seq<Id>, finalOf: Id, bundle: seq<Script>, sec: nat)
      ensures this.id == id && src == None && this.finalOf == finalOf && this.bundle == bundle && this.sec == sec
      ensures this.deps == deps && sqlText == ""
    {
      this.id, this.src, this.sec, this.finalOf, this.bundle := id, None, sec, finalOf, bundle;
      this.deps := deps;
      fullDeps, clauseCut, stripDefaults, stripConstraints, staged, sccID := [], [], [], [], false, 0;
      sqlText, create := "", "";
    }

    /** The part of the item that resolution reads and writes. */
    function Value(): ItemValue
      requires src.Some?
      reads this
    {
      ItemValue(id, src.value, sec, clauseCut, stripDefaults, stripConstraints, staged, sccID)
    }

    /** The part of the item that is sorted and emitted. */
    function AsNode(): Node
      reads this
    {
      Node(id, deps, finalOf, sqlText, bundle)
    }
  }

  function InitialValue(id: Id, src: Source, sec: nat): (v: ItemValue)
    ensures ValueOk(v) && Initial([v])
  {
    ItemValue(id, src, sec, if src.FromScript? then seq(|src.script.clauses|, _ => false) else [], [], [], false, 0)
  }

  ghost predicate DistinctItems(items: seq<Item>) {
    && (forall i, j :: 0 <= i < j < |items| ==> items[i] != items[j])
    && (forall i :: 0 <= i < |items| ==> items[i].src.Some? && items[i].finalOf == "")
  }

  ghost function Values(items: seq<Item>): seq<ItemValue>
    requires forall i :: 0 <= i < |items| ==> items[i].src.Some?
    reads items
  {
    seq(|items|, i requires 0 <= i < |items| && items[i].src.Some? reads items => items[i].Value())
  }

  ghost function NodesOf(items: seq<Item>): seq<Node>
    reads items
  {
    seq(|items|, i requires 0 <= i < |items| reads items => items[i].AsNode())
  }

  /** The items currently hold the values vs. */
  ghost predicate Holds(items: seq<Item>, vs: seq<ItemValue>)
    reads items
  {
    && DistinctItems(items) && |items| == |vs|
    && forall i :: 0 <= i < |items| ==> items[i].Value() == vs[i]
  }

  // --- edges ---------------------------------------------------------------------------------------

  method EffectivePredataDeps(it: Item) returns (deps: seq<Id>)
    requires it.src.Some? && ValueOk(it.Value())
    ensures deps == EffectiveDeps(it.Value())
  {
    match it.src.value
    case FromScript(s) =>
      if it.staged {
        return s.stubDeps;
      }
      deps := s.dependsOn;
      for i := 0 to |s.clauses|
        invariant deps == s.dependsOn + KeptDeps(s.clauses[..i], it.clauseCut[..i])
      {
        assert s.clauses[..i + 1][..i] == s.clauses[..i] && it.clauseCut[..i + 1][..i] == it.clauseCut[..i];
        if !it.clauseCut[i] {
          deps := deps + s.clauses[i].deps;
        }
      }
      assert s.clauses[..|s.clauses|] == s.clauses && it.clauseCut[..|s.clauses|] == it.clauseCut;
    case FromTable(t) =>
      deps := AppendUnstripped(t.deps, t.defaults, it.stripDefaults);
      deps := AppendUnstripped(deps, t.constraints, it.stripConstraints);
  }

  method AppendUnstripped(start: seq<Id>, ds: seq<Deferrable>, stripped: seq<string>) returns (deps: seq<Id>)
    ensures deps == start + UnstrippedDeps(ds, stripped)
  {
    deps := start;
    for i := 0 to |ds|
      invariant deps == start + UnstrippedDeps(ds[..i], stripped)
    {
      assert ds[..i + 1][..i] == ds[..i];
      if ds[i].name !in stripped {
        deps := deps + ds[i].deps;
      }
    }
    assert ds[..|ds|] == ds;
  }

  method DepsIntersect(deps: seq<Id>, comp: seq<Id>) returns (b: bool)
    ensures b <==> exists d :: d in deps && d in comp
  {
    for k := 0 to |deps|
      invariant forall d :: d in deps[..k] ==> d !in comp
    {
      if deps[k] in comp {
        return true;
      }
    }
    return false;
  }

  method BuildGraph(items: seq<Item>, ghost vs: seq<ItemValue>) returns (g: Graph)
    requires Holds(items, vs) && ValuesOk(vs)
    ensures g == GraphOf(vs)
  {
    hide EffectiveDeps, ValueOk, GraphOf;
    var names: seq<Id>, deps: map<Id, seq<Id>> := [], map[];
    for i := 0 to |items|
      invariant names == Ids(vs)[..i]
      invariant deps.Keys == set j | 0 <= j < i :: vs[j].id
      invariant forall j :: 0 <= j < i ==> deps[vs[j].id] == EffectiveDeps(vs[j])
    {
      assert items[i].Value() == vs[i] && ValueOk(vs[i]);
      var d := EffectivePredataDeps(items[i]);
      assert Ids(vs)[..i + 1] == Ids(vs)[..i] + [vs[i].id];
      names := names + [items[i].id];
      deps := deps[items[i].id := d];
    }
    g := Graph(names, deps);
    GraphIs(vs, g);
  }

  lemma GraphIs(vs: seq<ItemValue>, g: Graph)
    requires ValuesOk(vs) && g.names == Ids(vs) && g.deps.Keys == set j | 0 <= j < |vs| :: vs[j].id
    requires forall j :: 0 <= j < |vs| ==> g.deps[vs[j].id] == EffectiveDeps(vs[j])
    ensures g == GraphOf(vs)
  {
    hide EffectiveDeps, ValueOk;
    assert g.deps == GraphOf(vs).deps;
  }

  method Cycles(items: seq<Item>, ghost vs: seq<ItemValue>) returns (bad: seq<seq<Id>>)
    requires Holds(items, vs) && ValuesOk(vs)
    ensures IsCycles(GraphOf(vs), bad)
    ensures bad == [] <==> Acyclic(GraphOf(vs))
  {
    var g := BuildGraph(items, vs);
    bad := BadComponents(g);
  }

  // --- round one: cut ---------------------------------------------------------------------------------

  /** An edge list meets the component exactly when one of its edges lies on a cycle. */
  lemma IntersectsIffCloses(g: Graph, comp: seq<Id>, x: Id, deps: seq<Id>)
    requires IsComponent(g, comp) && x in comp
    requires forall d :: d in deps && d in g.names ==> Edge(g, x, d)
    ensures (exists d :: d in deps && d in comp) <==> ClosesCycle(g, x, deps)
  {
    hide Reach;
    if d :| d in deps && d in comp {
      assert Reach(g, d, x);
    }
    if ClosesCycle(g, x, deps) {
      var d :| d in deps && d in g.names && Reach(g, d, x);
      ReachEdge(g, x, d);
      assert Mutual(g, x, d);
    }
  }

  method CutItem(it: Item, comp: seq<Id>, number: nat, ghost g: Graph, ghost v: ItemValue)
    requires it.src.Some? && it.Value() == v && ValueOk(v) && Initial([v])
    requires IsComponent(g, comp) && it.id in comp
    requires forall d :: Mentions(v, d) && d in g.names ==> Edge(g, it.id, d)
    modifies it`sccID, it`clauseCut, it`stripDefaults, it`stripConstraints
    ensures it.Value() == CutValue(g, v).(sccID := number)
  {
    hide IsComponent, Edge, ClosesCycle;
    assert [v][0] == v;
    it.sccID := number;
    match it.src.value
    case FromScript(s) =>
      for i := 0 to |s.clauses|
        invariant |it.clauseCut| == |s.clauses|
        invariant it.Value() == v.(sccID := number, clauseCut := it.clauseCut)
        invariant forall k :: 0 <= k < i ==> it.clauseCut[k] == ClosesCycle(g, it.id, s.clauses[k].deps)
        invariant forall k :: i <= k < |s.clauses| ==> !it.clauseCut[k]
      {
        var meets := DepsIntersect(s.clauses[i].deps, comp);
        IntersectsIffCloses(g, comp, it.id, s.clauses[i].deps);
        if meets {
          it.clauseCut := it.clauseCut[i := true];
        }
      }
      assert it.clauseCut == CutFlags(g, it.id, s.clauses);
    case FromTable(t) =>
      it.stripDefaults := StripMeeting(t.defaults, comp, g, it.id);
      it.stripConstraints := StripMeeting(t.constraints, comp, g, it.id);
  }

  method StripMeeting(ds: seq<Deferrable>, comp: seq<Id>, ghost g: Graph, ghost x: Id) returns (names: seq<string>)
    requires IsComponent(g, comp) && x in comp
    requires forall k, d :: 0 <= k < |ds| && d in ds[k].deps && d in g.names ==> Edge(g, x, d)
    ensures names == StripNames(g, x, ds)
  {
    hide IsComponent, Edge, ClosesCycle;
    names := [];
    for k := 0 to |ds|
      invariant names == StripNames(g, x, ds[..k])
    {
      assert ds[..k + 1][..k] == ds[..k];
      var meets := DepsIntersect(ds[k].deps, comp);
      IntersectsIffCloses(g, comp, x, ds[k].deps);
      if meets {
        names := names + [ds[k].name];
      }
    }
    assert ds[..|ds|] == ds;
  }

  /** The number of the component an id was found in. */
  ghost predicate NumbersAre(bad: seq<seq<Id>>, done: map<Id, nat>) {
    && (forall c, x :: 0 <= c < |bad| && x in bad[c] ==> x in done && done[x] == c + 1)
    && (forall x :: x in done <==> InSome(bad, x))
  }

  /** vs with the items in done cut and numbered. */
  ghost function CutSome(vs: seq<ItemValue>, done: map<Id, nat>): seq<ItemValue>
    requires ValuesOk(vs)
  {
    seq(|vs|, i requires 0 <= i < |vs| =>
      if vs[i].id in done then CutValue(GraphOf(vs), vs[i]).(sccID := done[vs[i].id]) else vs[i])
  }

  ghost predicate Indexed(items: seq<Item>, index: map<Id, Item>) {
    && (forall i :: 0 <= i < |items| ==> items[i].id in index && index[items[i].id] == items[i])
    && (forall x :: x in index ==> index[x] in items && index[x].id == x)
  }

  lemma CutSomeStep(vs: seq<ItemValue>, done: map<Id, nat>, i: nat, n: nat)
    requires ValuesOk(vs) && i < |vs|
    ensures CutSome(vs, done[vs[i].id := n]) == CutSome(vs, done)[i := CutValue(GraphOf(vs), vs[i]).(sccID := n)]
  {
    hide GraphOf, CutValue, ValueOk;
  }

  lemma ItemMentions(vs: seq<ItemValue>, i: nat)
    requires Input(vs) && i < |vs|
    ensures ValueOk(vs[i]) && Initial([vs[i]])
    ensures forall d :: Mentions(vs[i], d) && d in GraphOf(vs).names ==> Edge(GraphOf(vs), vs[i].id, d)
  {
    hide GraphOf, Mentions;
    GraphNames(vs);
    forall d | Mentions(vs[i], d) && d in GraphOf(vs).names ensures Edge(GraphOf(vs), vs[i].id, d) {
      MentionIsEdge(vs, i, d);
    }
  }

  /** A member of a bad component is an item that no earlier component and no earlier place holds. */
  lemma BadMember(vs: seq<ItemValue>, bad: seq<seq<Id>>, c: nat, m: nat) returns (i: nat)
    requires ValuesOk(vs) && IsCycles(GraphOf(vs), bad) && c < |bad| && m < |bad[c]|
    ensures i < |vs| && vs[i].id == bad[c][m] && IsComponent(GraphOf(vs), bad[c])
    ensures bad[c][m] !in bad[c][..m] && !InSome(bad[..c], bad[c][m])
  {
    hide GraphOf, OnCycle, Reach, Mutual;
    GraphNames(vs);
    assert IsComponent(GraphOf(vs), bad[c]);
    assert bad[c][m] in bad[c];
    i := IdAt(vs, bad[c][m]);
  }

  lemma NumbersStep(bad: seq<seq<Id>>, c: nat, before: map<Id, nat>, done: map<Id, nat>)
    requires c < |bad| && NumbersAre(bad[..c], before) && forall x :: x in bad[c] ==> x !in before
    requires forall x :: x in done <==> x in before || x in bad[c]
    requires forall x :: x in before ==> done[x] == before[x]
    requires forall x :: x in bad[c] ==> done[x] == c + 1
    ensures NumbersAre(bad[..c + 1], done)
  {
    SomeStep(bad, c);
    var next := bad[..c + 1];
    forall k, x | 0 <= k < |next| && x in next[k] ensures x in done && done[x] == k + 1 {
      if k < c {
        assert x in bad[..c][k];
      }
    }
  }

  lemma DisjointStep(bad: seq<seq<Id>>, c: nat)
    requires Disjoint(bad) && c < |bad|
    ensures forall x :: x in bad[c] ==> !InSome(bad[..c], x)
  {
  }

  /** Cuts one member of a cycle. */
  method CutMember(items: seq<Item>, index: map<Id, Item>, bad: seq<seq<Id>>, c: nat, m: nat,
                   ghost vs: seq<ItemValue>, ghost done: map<Id, nat>)
    requires Input(vs) && Indexed(items, index) && IsCycles(GraphOf(vs), bad)
    requires c < |bad| && m < |bad[c]| && bad[c][m] !in done && Holds(items, CutSome(vs, done))
    modifies items`sccID, items`clauseCut, items`stripDefaults, items`stripConstraints
    ensures Holds(items, CutSome(vs, done[bad[c][m] := c + 1]))
  {
    hide GraphOf, OnCycle, IsComponent, CutValue, Initial, FinalsFresh, StubsReduce, Mentions, ValueOk, AllComponents, Disjoint, Edge;
    var id := bad[c][m];
    ghost var i := BadMember(vs, bad, c, m);
    assert items[i].Value() == CutSome(vs, done)[i];
    var it := index[id];
    assert it == items[i];
    ItemMentions(vs, i);
    ghost var prev := CutSome(vs, done);
    CutItem(it, bad[c], c + 1, GraphOf(vs), vs[i]);
    CutSomeStep(vs, done, i, c + 1);
    assert Holds(items, prev[i := it.Value()]);
  }

  method CutCycles(items: seq<Item>, index: map<Id, Item>, bad: seq<seq<Id>>, ghost vs: seq<ItemValue>)
    returns (ghost done: map<Id, nat>)
    requires Input(vs) && Holds(items, vs) && Indexed(items, index) && IsCycles(GraphOf(vs), bad)
    modifies items`sccID, items`clauseCut, items`stripDefaults, items`stripConstraints
    ensures NumbersAre(bad, done) && Holds(items, CutSome(vs, done))
  {
    hide GraphOf, OnCycle, IsComponent, Initial, FinalsFresh, StubsReduce, Mentions, AllComponents, Disjoint, Edge, Holds;
    done := map[];
    assert CutSome(vs, done) == vs;
    for c := 0 to |bad|
      invariant NumbersAre(bad[..c], done) && Holds(items, CutSome(vs, done))
    {
      ghost var before := done;
      SomeStep(bad, c);
      for m := 0 to |bad[c]|
        invariant forall x :: x in done <==> x in before || x in bad[c][..m]
        invariant forall x :: x in before ==> done[x] == before[x]
        invariant forall x :: x in bad[c][..m] ==> done[x] == c + 1
        invariant Holds(items, CutSome(vs, done))
      {
        assert bad[c][..m + 1] == bad[c][..m] + [bad[c][m]];
        ghost var i := BadMember(vs, bad, c, m);
        CutMember(items, index, bad, c, m, vs, done);
        done := done[bad[c][m] := c + 1];
      }
      assert bad[c][..|bad[c]|] == bad[c];
      assert forall x :: x in bad[c] ==> x !in before by { DisjointStep(bad, c); }
      NumbersStep(bad, c, before, done);
    }
    assert bad[..|bad|] == bad;
  }

  /** ws and us agree but for the cycle numbers. */
  ghost predicate SameButNumbers(ws: seq<ItemValue>, us: seq<ItemValue>) {
    |ws| == |us| && forall i :: 0 <= i < |ws| ==> ws[i].(sccID := 0) == us[i].(sccID := 0)
  }

  lemma SameButNumbersGraph(ws: seq<ItemValue>, us: seq<ItemValue>)
    requires SameButNumbers(ws, us) && ValuesOk(us)
    ensures ValuesOk(ws) && GraphOf(ws) == GraphOf(us)
  {
    forall i | 0 <= i < |ws| ensures ws[i].id == us[i].id && ValueOk(ws[i]) && EffectiveDeps(ws[i]) == EffectiveDeps(us[i]) {
      assert ws[i].(sccID := 0) == us[i].(sccID := 0);
    }
    SameGraph(ws, us);
  }

  /** An item off every cycle closes none. */
  lemma OffCycleUncut(vs: seq<ItemValue>, i: nat)
    requires Input(vs) && i < |vs| && !OnCycle(GraphOf(vs), vs[i].id)
    ensures CutValue(GraphOf(vs), vs[i]) == vs[i]
  {
    hide Reach, GraphOf;
    var g, v := GraphOf(vs), vs[i];
    ItemMentions(vs, i);
    match v.src
    case FromScript(s) =>
      forall k | 0 <= k < |s.clauses| ensures !ClosesCycle(g, v.id, s.clauses[k].deps) {
        forall d | d in s.clauses[k].deps && d in g.names ensures !Reach(g, d, v.id) {
          assert Mentions(v, d);
        }
      }
      assert CutFlags(g, v.id, s.clauses) == v.clauseCut;
    case FromTable(t) =>
      NothingStripped(g, v, t.defaults);
      NothingStripped(g, v, t.constraints);
  }

  lemma {:induction false} NothingStripped(g: Graph, v: ItemValue, ds: seq<Deferrable>)
    requires !OnCycle(g, v.id)
    requires forall k, d :: 0 <= k < |ds| && d in ds[k].deps && d in g.names ==> Edge(g, v.id, d)
    ensures StripNames(g, v.id, ds) == []
  {
    hide Reach;
    if ds != [] {
      var n := |ds| - 1;
      NothingStripped(g, v, ds[..n]);
      forall d | d in ds[n].deps && d in g.names ensures !Reach(g, d, v.id) {
        assert Edge(g, v.id, d);
      }
    }
  }

  /** After round one the items hold the cut values, with numbers that tell the cycle classes apart. */
  lemma CutDone(vs: seq<ItemValue>, bad: seq<seq<Id>>, done: map<Id, nat>)
    requires Input(vs) && IsCycles(GraphOf(vs), bad) && NumbersAre(bad, done)
    ensures SameButNumbers(CutSome(vs, done), CutAll(vs)) && Numbering(vs, CutSome(vs, done))
  {
    hide GraphOf, Reach, CutValue, IsComponent, Disjoint, OnCycle;
    var ws := CutSome(vs, done);
    GraphNames(vs);
    forall i | 0 <= i < |vs|
      ensures ws[i].(sccID := 0) == CutAll(vs)[i].(sccID := 0)
      ensures ws[i].sccID == if vs[i].id in done then done[vs[i].id] else 0
      ensures vs[i].id in done <==> OnCycle(GraphOf(vs), vs[i].id)
    {
      assert Ids(vs)[i] == vs[i].id;
      if vs[i].id !in done {
        OffCycleUncut(vs, i);
      }
      CutKeepsNumber(vs, i);
    }
    forall i, j | 0 <= i < |vs| && 0 <= j < |vs| && ws[i].sccID != 0
      ensures ws[i].sccID == ws[j].sccID <==> Mutual(GraphOf(vs), vs[i].id, vs[j].id)
    {
      SameNumber(GraphOf(vs), bad, done, vs[i].id, vs[j].id);
    }
    assert forall x :: x in done ==> done[x] != 0;
  }

  lemma CutKeepsNumber(vs: seq<ItemValue>, i: nat)
    requires ValuesOk(vs) && i < |vs|
    ensures CutValue(GraphOf(vs), vs[i]).sccID == vs[i].sccID
  {
  }

  /** Two ids carry one number exactly when each depends on the other. */
  lemma SameNumber(g: Graph, bad: seq<seq<Id>>, done: map<Id, nat>, x: Id, y: Id)
    requires AllComponents(g, bad) && NumbersAre(bad, done) && x in done
    ensures (y in done && done[x] == done[y]) <==> Mutual(g, x, y)
  {
    hide Reach;
    assert InSome(bad, x);
    var c :| 0 <= c < |bad| && x in bad[c];
    assert IsComponent(g, bad[c]);
    if y in done {
      assert InSome(bad, y);
      var d :| 0 <= d < |bad| && y in bad[d];
    }
  }

  // --- round two: stage -------------------------------------------------------------------------------

  /** ws with the routines in S staged. */
  ghost function WithStaged(ws: seq<ItemValue>, S: set<Id>): seq<ItemValue> {
    seq(|ws|, i requires 0 <= i < |ws| =>
      if ws[i].id in S && ws[i].src.FromScript? && ws[i].src.script.stub != "" then ws[i].(staged := true) else ws[i])
  }

  method StageCycles(items: seq<Item>, index: map<Id, Item>, bad: seq<seq<Id>>, ghost ws: seq<ItemValue>)
    returns (ghost S: set<Id>)
    requires ValuesOk(ws) && Holds(items, ws) && Indexed(items, index) && IsCycles(GraphOf(ws), bad)
    modifies items`staged
    ensures (forall x :: x in S <==> InSome(bad, x)) && Holds(items, WithStaged(ws, S))
  {
    hide GraphOf, OnCycle, IsComponent, AllComponents, Disjoint, Holds, ValuesOk;
    S := {};
    assert WithStaged(ws, S) == ws;
    for c := 0 to |bad|
      invariant (forall x :: x in S <==> InSome(bad[..c], x)) && Holds(items, WithStaged(ws, S))
    {
      ghost var before := S;
      SomeStep(bad, c);
      for m := 0 to |bad[c]|
        invariant forall x :: x in S <==> x in before || x in bad[c][..m]
        invariant Holds(items, WithStaged(ws, S))
      {
        assert bad[c][..m + 1] == bad[c][..m] + [bad[c][m]];
        StageMember(items, index, bad, c, m, ws, S);
        S := S + {bad[c][m]};
      }
      assert bad[c][..|bad[c]|] == bad[c];
    }
    assert bad[..|bad|] == bad;
  }

  method StageMember(items: seq<Item>, index: map<Id, Item>, bad: seq<seq<Id>>, c: nat, m: nat,
                     ghost ws: seq<ItemValue>, ghost S: set<Id>)
    requires ValuesOk(ws) && Indexed(items, index) && IsCycles(GraphOf(ws), bad)
    requires c < |bad| && m < |bad[c]| && Holds(items, WithStaged(ws, S))
    modifies items`staged
    ensures Holds(items, WithStaged(ws, S + {bad[c][m]}))
  {
    hide GraphOf, OnCycle, IsComponent, AllComponents, Disjoint, ValueOk;
    var id := bad[c][m];
    ghost var i := BadMember(ws, bad, c, m);
    ghost var prev := WithStaged(ws, S);
    assert items[i].Value() == prev[i] && prev[i].id == ws[i].id;
    var it := index[id];
    assert it == items[i];
    if it.src.value.FromScript? && it.src.value.script.stub != "" {
      it.staged := true;
    }
    assert WithStaged(ws, S + {id}) == prev[i := it.Value()];
  }

  lemma StageDone(vs: seq<ItemValue>, ws: seq<ItemValue>, bad: seq<seq<Id>>, S: set<Id>)
    requires Input(vs) && SameButNumbers(ws, CutAll(vs)) && Numbering(vs, ws) && ValuesOk(ws)
    requires IsCycles(GraphOf(ws), bad) && forall x :: x in S <==> InSome(bad, x)
    ensures Resolved(vs, WithStaged(ws, S))
  {
    hide GraphOf, Reach, CutValue, IsComponent, Disjoint, OnCycle;
    SameButNumbersGraph(ws, CutAll(vs));
    GraphNames(ws);
    var us := WithStaged(ws, S);
    forall i | 0 <= i < |vs| ensures us[i].(sccID := 0) == StageAll(CutAll(vs))[i].(sccID := 0) && us[i].sccID == ws[i].sccID {
      assert Ids(ws)[i] == ws[i].id;
      assert ws[i].(sccID := 0) == CutAll(vs)[i].(sccID := 0);
      assert CutAll(vs)[i].staged == vs[i].staged == false by { CutKeepsStaged(vs, i); }
    }
  }

  lemma CutKeepsStaged(vs: seq<ItemValue>, i: nat)
    requires ValuesOk(vs) && Initial(vs) && i < |vs|
    ensures CutValue(GraphOf(vs), vs[i]).staged == vs[i].staged == false
  {
  }

  // --- both rounds --------------------------------------------------------------------------------------

  /** Cut, then stage, then give up: succeeds exactly when cutting every deferrable edge on a cycle and
      staging every routine still on one leaves no cycle. */
  method ResolveCycles(items: seq<Item>, ghost vs: seq<ItemValue>) returns (ok: bool, ghost ws: seq<ItemValue>)
    requires Input(vs) && Holds(items, vs)
    modifies items`sccID, items`clauseCut, items`stripDefaults, items`stripConstraints, items`staged
    ensures ok <==> Resolvable(vs)
    ensures Resolved(vs, ws) && Holds(items, ws)
  {
    hide GraphOf, OnCycle, IsComponent, Disjoint, Initial, FinalsFresh, StubsReduce, StageAll, CutAll, NumbersAre, Numbering,
         Holds, Acyclic, Resolved, CutSome, WithStaged;
    var index := BuildIndex(items, vs);
    ok, ws := true, vs;
    var comps := Cycles(items, vs);
    if comps == [] {
      NothingToCut(vs);
      return;
    }
    ghost var done := CutCycles(items, index, comps, vs);
    CutDone(vs, comps, done);
    ws := CutSome(vs, done);
    SameButNumbersGraph(ws, CutAll(vs));
    comps := Cycles(items, ws);
    if comps == [] {
      NothingToStage(vs, ws);
      return;
    }
    ghost var S := StageCycles(items, index, comps, ws);
    StageDone(vs, ws, comps, S);
    ws := WithStaged(ws, S);
    ResolvedSame(vs, ws);
    ResolvedGraph(vs, ws);
    comps := Cycles(items, ws);
    ok := comps == [];
  }

  lemma NothingToStage(vs: seq<ItemValue>, ws: seq<ItemValue>)
    requires Input(vs) && SameButNumbers(ws, CutAll(vs)) && Numbering(vs, ws) && ValuesOk(ws) && Acyclic(GraphOf(ws))
    ensures Resolved(vs, ws) && Resolvable(vs)
  {
    hide GraphOf, OnCycle, Numbering, CutAll, StageAll, Resolved;
    assert IsCycles(GraphOf(ws), []);
    StageDone(vs, ws, [], {});
    assert WithStaged(ws, {}) == ws;
    ResolvedGraph(vs, ws);
  }

  lemma NothingToCut(vs: seq<ItemValue>)
    requires Input(vs) && Acyclic(GraphOf(vs))
    ensures Resolved(vs, vs) && Resolvable(vs)
  {
    hide GraphOf, OnCycle, Numbering, CutAll, StageAll, Resolved;
    assert IsCycles(GraphOf(vs), []);
    CutDone(vs, [], map[]);
    assert CutSome(vs, map[]) == vs;
    NothingToStage(vs, vs);
  }

  method BuildIndex(items: seq<Item>, ghost vs: seq<ItemValue>) returns (index: map<Id, Item>)
    requires Holds(items, vs) && UniqueIds(vs)
    ensures Indexed(items, index)
  {
    index := map[];
    for i := 0 to |items|
      invariant forall j :: 0 <= j < i ==> items[j].id in index && index[items[j].id] == items[j]
      invariant forall x :: x in index ==> index[x] in items && index[x].id == x
    {
      assert forall j :: 0 <= j < i ==> items[j].Value().id != items[i].Value().id;
      index := index[items[i].id := items[i]];
    }
  }
}
