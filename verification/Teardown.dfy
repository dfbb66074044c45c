/** buildTeardownPlan: which objects a drop-first dump drops, how, and when that order works under RESTRICT. */
module Teardown {
  import opened Wrappers
  import opened Graphs
  import opened TopoOrder
  import opened Tarjan
  import opened PlanModel
  import opened Resolver

  /** What the teardown reads of one pre-data item. */
  datatype Entry = Entry(id: Id, src: Option<Source>, create: string, fullDeps: seq<Id>)

  /** One logical object of the drop graph (teardownObj). */
  datatype Obj = Obj(title: string, rawDeps: seq<Id>, drop: string, form: DropForm, dropPos: int)

  /** What the first loop gathers: the objects, the object each item stands for, and creation order. */
  datatype Census = Census(objs: map<Id, Obj>, canonOf: map<Id, Id>, order: seq<Id>)

  datatype Group = Group(sql: string, members: seq<Id>)

  datatype TeardownPlan = TeardownPlan(omit: set<Id>, covered: set<Id>, grouped: map<Id, Group>)

  // --- the census ------------------------------------------------------------------------------------

  /** Generated stages, anonymous riders and data-only leaves are no objects of their own. */
  predicate Relevant(e: Entry) {
    match e.src
    case None => false
    case Some(FromScript(s)) => s.name != ""
    case Some(FromTable(_)) => e.create != ""
  }

  /** teardownID. */
  function TeardownId(e: Entry): Id {
    if e.src.Some? && e.src.value.FromScript? && e.src.value.script.stageOf != "" then e.src.value.script.stageOf else e.id
  }

  const NO_FORM: DropForm := DropForm("", "", "")

  function TableDrop(t: Table): string {
    "DROP TABLE IF EXISTS " + t.qualified
  }

  /** The statement that drops this stage's object, "" if the stage carries none. */
  function OwnDrop(e: Entry): string {
    match e.src
    case None => ""
    case Some(FromScript(s)) => s.drop
    case Some(FromTable(t)) => if e.create == "" then "" else TableDrop(t)
  }

  /** One stage folded into its object. */
  function Merge(o: Obj, e: Entry, pos: nat): Obj
    requires Relevant(e)
  {
    var p := o.(rawDeps := o.rawDeps + e.fullDeps);
    match e.src.value
    case FromTable(t) => p.(title := t.title, drop := TableDrop(t), form := DropForm("TABLE", t.qualified, ""), dropPos := pos)
    case FromScript(s) =>
      if o.drop == "" && s.drop != "" then p.(drop := s.drop, form := s.form, dropPos := pos, title := s.comment)
      else if o.title == "" then p.(title := s.comment)
      else p
  }

  function Extend(c: Census, e: Entry, pos: nat): Census
    requires Relevant(e)
  {
    var id := TeardownId(e);
    var known := id in c.objs;
    var o := if known then c.objs[id] else Obj("", [], "", NO_FORM, -1);
    Census(c.objs[id := Merge(o, e, pos)], c.canonOf[e.id := id], if known then c.order else c.order + [id])
  }

  function CensusOf(es: seq<Entry>): Census {
    if es == [] then Census(map[], map[], [])
    else
      var n := |es| - 1;
      var c := CensusOf(es[..n]);
      if Relevant(es[n]) then Extend(c, es[n], n) else c
  }

  method TakeCensus(es: seq<Entry>) returns (c: Census)
    ensures c == CensusOf(es)
  {
    var objs: map<Id, Obj>, canonOf: map<Id, Id>, order: seq<Id> := map[], map[], [];
    for pos := 0 to |es|
      invariant Census(objs, canonOf, order) == CensusOf(es[..pos])
    {
      assert es[..pos + 1][..pos] == es[..pos];
      var e := es[pos];
      if !Relevant(e) {
        continue;
      }
      var id := TeardownId(e);
      canonOf := canonOf[e.id := id];
      var o := Obj("", [], "", NO_FORM, -1);
      if id in objs {
        o := objs[id];
      } else {
        order := order + [id];
      }
      objs := objs[id := Merge(o, e, pos)];
    }
    assert es[..|es|] == es;
    c := Census(objs, canonOf, order);
  }

  /** Item ids are unique. */
  ghost predicate UniqueEntries(es: seq<Entry>) {
    forall i, j :: 0 <= i < j < |es| ==> es[i].id != es[j].id
  }

  ghost predicate Wellformed(c: Census) {
    && Distinct(c.order) && (forall x :: x in c.objs <==> x in c.order)
    && (forall d :: d in c.canonOf ==> c.canonOf[d] in c.objs)
  }

  /** The object carries the drop of the stage at its position. */
  ghost predicate CarriesDrop(es: seq<Entry>, c: Census, x: Id)
    requires x in c.objs
  {
    var o := c.objs[x];
    o.drop != "" ==> 0 <= o.dropPos < |es| && Relevant(es[o.dropPos]) && TeardownId(es[o.dropPos]) == x && OwnDrop(es[o.dropPos]) == o.drop
  }

  lemma {:induction false} CensusOk(es: seq<Entry>)
    ensures Wellformed(CensusOf(es))
    ensures forall x :: x in CensusOf(es).objs ==> CarriesDrop(es, CensusOf(es), x)
    ensures forall k :: 0 <= k < |es| && Relevant(es[k]) ==> es[k].id in CensusOf(es).canonOf && TeardownId(es[k]) in CensusOf(es).objs
  {
    if es != [] {
      var n := |es| - 1;
      CensusOk(es[..n]);
      var c, d := CensusOf(es[..n]), CensusOf(es);
      forall x | x in d.objs ensures CarriesDrop(es, d, x) {
        if x in c.objs {
          assert CarriesDrop(es[..n], c, x);
        }
      }
      forall k | 0 <= k < |es| && Relevant(es[k]) ensures es[k].id in d.canonOf && TeardownId(es[k]) in d.objs {
        if k < n { assert es[..n][k] == es[k]; }
      }
    }
  }

  /** With unique ids, an item stands for the object its stage belongs to. */
  lemma {:induction false} CanonIs(es: seq<Entry>, k: nat)
    requires UniqueEntries(es) && k < |es| && Relevant(es[k])
    ensures es[k].id in CensusOf(es).canonOf && CensusOf(es).canonOf[es[k].id] == TeardownId(es[k])
  {
    var n := |es| - 1;
    if k < n {
      CanonIs(es[..n], k);
    }
  }

  /** ... and nothing else is in the map. */
  lemma {:induction false} CanonFrom(es: seq<Entry>, d: Id) returns (k: nat)
    requires d in CensusOf(es).canonOf
    ensures k < |es| && Relevant(es[k]) && es[k].id == d
  {
    var n := |es| - 1;
    if Relevant(es[n]) && es[n].id == d {
      k := n;
    } else {
      k := CanonFrom(es[..n], d);
    }
  }

  /** Every collected edge comes from a stage. */
  lemma {:induction false} RawFrom(es: seq<Entry>, x: Id, d: Id) returns (k: nat)
    requires x in CensusOf(es).objs && d in CensusOf(es).objs[x].rawDeps
    ensures k < |es| && Relevant(es[k]) && TeardownId(es[k]) == x && d in es[k].fullDeps
  {
    var n := |es| - 1;
    if Relevant(es[n]) && TeardownId(es[n]) == x && d in es[n].fullDeps {
      k := n;
    } else {
      assert x in CensusOf(es[..n]).objs;
      k := RawFrom(es[..n], x, d);
    }
  }

  // --- the drop graph ----------------------------------------------------------------------------------

  /** The distinct objects that an object's raw edges lead to. */
  function CanonDeps(raw: seq<Id>, canonOf: map<Id, Id>, self: Id): seq<Id> {
    if raw == [] then []
    else
      var ds := CanonDeps(raw[..|raw| - 1], canonOf, self);
      var d := raw[|raw| - 1];
      if d in canonOf && canonOf[d] != self && canonOf[d] !in ds then ds + [canonOf[d]] else ds
  }

  lemma {:induction false} CanonDepsAre(raw: seq<Id>, canonOf: map<Id, Id>, self: Id, y: Id)
    ensures y in CanonDeps(raw, canonOf, self) <==> exists d :: d in raw && d in canonOf && canonOf[d] == y && y != self
  {
    if raw != [] {
      var n := |raw| - 1;
      CanonDepsAre(raw[..n], canonOf, self, y);
      assert forall d :: d in raw <==> d in raw[..n] || d == raw[n];
    }
  }

  function DropDeps(c: Census): map<Id, seq<Id>> {
    map x | x in c.objs :: CanonDeps(c.objs[x].rawDeps, c.canonOf, x)
  }

  /** The uncut graph over logical objects. */
  function DropGraph(c: Census): Graph {
    Graph(c.order, DropDeps(c))
  }

  method CanonicalDeps(raw: seq<Id>, canonOf: map<Id, Id>, self: Id) returns (ds: seq<Id>)
    ensures ds == CanonDeps(raw, canonOf, self)
  {
    ds := [];
    for m := 0 to |raw|
      invariant ds == CanonDeps(raw[..m], canonOf, self)
    {
      assert raw[..m + 1][..m] == raw[..m];
      var d := raw[m];
      if d in canonOf && canonOf[d] != self && canonOf[d] !in ds {
        ds := ds + [canonOf[d]];
      }
    }
    assert raw[..|raw|] == raw;
  }

  method BuildDropGraph(c: Census) returns (g: Graph)
    requires Wellformed(c)
    ensures g == DropGraph(c)
  {
    var deps: map<Id, seq<Id>> := map[];
    for k := 0 to |c.order|
      invariant deps.Keys == set j | 0 <= j < k :: c.order[j]
      invariant forall x :: x in deps ==> x in c.objs && deps[x] == CanonDeps(c.objs[x].rawDeps, c.canonOf, x)
    {
      var x := c.order[k];
      assert x in c.objs;
      var ds := CanonicalDeps(c.objs[x].rawDeps, c.canonOf, x);
      deps := deps[x := ds];
    }
    g := Graph(c.order, deps);
    assert deps.Keys == c.objs.Keys;
    assert deps == DropDeps(c);
  }

  // --- groups --------------------------------------------------------------------------------------------

  const LIST_CLASSES: set<string> := {"FUNCTION", "PROCEDURE", "AGGREGATE", "ROUTINE", "TYPE", "DOMAIN",
                                      "SEQUENCE", "VIEW", "OPERATOR", "TABLE"}

  /** GroupableDropClass. */
  predicate GroupableClass(class_: string) {
    class_ in LIST_CLASSES
  }

  predicate AllDroppable(c: Census, ms: seq<Id>)
    requires forall x :: x in ms ==> x in c.objs
  {
    forall x | x in ms :: c.objs[x].drop != ""
  }

  predicate AllOfClass(c: Census, ms: seq<Id>, class_: string)
    requires forall x :: x in ms ==> x in c.objs
  {
    GroupableClass(class_) && forall x | x in ms :: c.objs[x].form.class_ == class_
  }

  predicate AllRoutines(c: Census, ms: seq<Id>)
    requires forall x :: x in ms ==> x in c.objs
  {
    forall x | x in ms :: c.objs[x].form.routineRef != ""
  }

  /** One DROP statement can name all the members. */
  predicate Groupable(c: Census, ms: seq<Id>)
    requires ms != [] && forall x :: x in ms ==> x in c.objs
  {
    AllDroppable(c, ms) && (AllOfClass(c, ms, c.objs[ms[0]].form.class_) || AllRoutines(c, ms))
  }

  function Refs(c: Census, ms: seq<Id>, routine: bool): seq<string>
    requires forall x :: x in ms ==> x in c.objs
  {
    seq(|ms|, i requires 0 <= i < |ms| => if routine then c.objs[ms[i]].form.routineRef else c.objs[ms[i]].form.ref)
  }

  function Join(parts: seq<string>, sep: string): string {
    if parts == [] then "" else if |parts| == 1 then parts[0] else Join(parts[..|parts| - 1], sep) + sep + parts[|parts| - 1]
  }

  function GroupSql(c: Census, ms: seq<Id>): string
    requires ms != [] && forall x :: x in ms ==> x in c.objs
  {
    var own := c.objs[ms[0]].form.class_;
    var class_ := if AllOfClass(c, ms, own) then own else "ROUTINE";
    "DROP " + class_ + " IF EXISTS " + Join(Refs(c, ms, class_ == "ROUTINE"), ", ")
  }

  /** Latest drop first. */
  ghost predicate LatestFirst(c: Census, ms: seq<Id>)
    requires forall x :: x in ms ==> x in c.objs
  {
    forall i, j :: 0 <= i < j < |ms| ==> c.objs[ms[i]].dropPos >= c.objs[ms[j]].dropPos
  }

  method InsertMember(c: Census, ms: seq<Id>, x: Id) returns (out: seq<Id>)
    requires (forall y :: y in ms ==> y in c.objs) && x in c.objs && Distinct(ms) && LatestFirst(c, ms) && x !in ms
    ensures (forall y :: y in out <==> y in ms || y == x) && Distinct(out) && |out| == |ms| + 1 && LatestFirst(c, out)
  {
    var i := 0;
    while i < |ms| && c.objs[ms[i]].dropPos >= c.objs[x].dropPos
      invariant 0 <= i <= |ms|
      invariant forall j :: 0 <= j < i ==> c.objs[ms[j]].dropPos >= c.objs[x].dropPos
    {
      i := i + 1;
    }
    out := ms[..i] + [x] + ms[i..];
    LaterBelow(c, ms, x, i);
    InsertedAt(c, ms, x, i, out);
  }

  lemma LaterBelow(c: Census, ms: seq<Id>, x: Id, i: nat)
    requires (forall y :: y in ms ==> y in c.objs) && x in c.objs && LatestFirst(c, ms) && i <= |ms|
    requires i < |ms| ==> c.objs[ms[i]].dropPos < c.objs[x].dropPos
    ensures forall j :: i <= j < |ms| ==> c.objs[ms[j]].dropPos <= c.objs[x].dropPos
  {
    forall j | i <= j < |ms| ensures c.objs[ms[j]].dropPos <= c.objs[x].dropPos {
      if i < j {
        assert c.objs[ms[i]].dropPos >= c.objs[ms[j]].dropPos;
      }
    }
  }

  function SplicedAt(ms: seq<Id>, x: Id, i: nat, p: nat): Id
    requires i <= |ms| && p <= |ms|
  {
    if p < i then ms[p] else if p == i then x else ms[p - 1]
  }

  lemma Spliced(ms: seq<Id>, x: Id, i: nat, p: nat)
    requires i <= |ms| && p <= |ms|
    ensures (ms[..i] + [x] + ms[i..])[p] == SplicedAt(ms, x, i, p)
  {
  }

  lemma SplicedPair(c: Census, ms: seq<Id>, x: Id, i: nat, p: nat, q: nat)
    requires (forall y :: y in ms ==> y in c.objs) && x in c.objs && Distinct(ms) && LatestFirst(c, ms) && x !in ms
    requires i <= |ms| && p < q <= |ms|
    requires forall j :: 0 <= j < i ==> c.objs[ms[j]].dropPos >= c.objs[x].dropPos
    requires forall j :: i <= j < |ms| ==> c.objs[ms[j]].dropPos <= c.objs[x].dropPos
    ensures var a, b := SplicedAt(ms, x, i, p), SplicedAt(ms, x, i, q);
            a in c.objs && b in c.objs && a != b && c.objs[a].dropPos >= c.objs[b].dropPos
  {
  }

  lemma SplicedMembers(ms: seq<Id>, x: Id, i: nat)
    requires i <= |ms|
    ensures forall y :: y in ms[..i] + [x] + ms[i..] <==> y in ms || y == x
  {
    assert ms == ms[..i] + ms[i..];
  }

  lemma InsertedAt(c: Census, ms: seq<Id>, x: Id, i: nat, out: seq<Id>)
    requires (forall y :: y in ms ==> y in c.objs) && x in c.objs && Distinct(ms) && LatestFirst(c, ms) && x !in ms
    requires i <= |ms| && out == ms[..i] + [x] + ms[i..]
    requires forall j :: 0 <= j < i ==> c.objs[ms[j]].dropPos >= c.objs[x].dropPos
    requires forall j :: i <= j < |ms| ==> c.objs[ms[j]].dropPos <= c.objs[x].dropPos
    ensures (forall y :: y in out <==> y in ms || y == x) && Distinct(out) && |out| == |ms| + 1 && LatestFirst(c, out)
  {
    SplicedMembers(ms, x, i);
    forall p, q | 0 <= p < q < |out| ensures out[p] != out[q] && c.objs[out[p]].dropPos >= c.objs[out[q]].dropPos {
      hide SplicedAt, Distinct, LatestFirst;
      Spliced(ms, x, i, p);
      Spliced(ms, x, i, q);
      SplicedPair(c, ms, x, i, p, q);
    }
  }

  /** sort.Slice by descending drop position. */
  method SortMembers(c: Census, comp: seq<Id>) returns (ms: seq<Id>)
    requires (forall x :: x in comp ==> x in c.objs) && Distinct(comp)
    ensures (forall x :: x in ms <==> x in comp) && Distinct(ms) && |ms| == |comp| && LatestFirst(c, ms)
  {
    hide LatestFirst, Distinct;
    ms := [];
    assert Distinct(ms) && LatestFirst(c, ms) by { EmptySorted(c); }
    for k := 0 to |comp|
      invariant |ms| == k && (forall x :: x in ms <==> x in comp[..k])
      invariant (forall x :: x in ms ==> x in comp) && Distinct(ms) && LatestFirst(c, ms)
    {
      assert comp[k] !in comp[..k] by { NotEarlier(comp, k); }
      ms := InsertMember(c, ms, comp[k]);
      assert comp[..k + 1] == comp[..k] + [comp[k]];
    }
    assert comp[..|comp|] == comp;
  }

  lemma EmptySorted(c: Census)
    ensures Distinct([]) && LatestFirst(c, [])
  {
  }

  lemma NotEarlier(comp: seq<Id>, k: nat)
    requires Distinct(comp) && k < |comp|
    ensures comp[k] !in comp[..k]
  {
  }

  // --- the plan ------------------------------------------------------------------------------------------

  /** The cycles, and for each the member at whose position its group statement stands. */
  ghost predicate Heads(c: Census, g: Graph, bad: seq<seq<Id>>, groups: seq<seq<Id>>) {
    && IsCycles(g, bad) && |groups| == |bad|
    && forall k :: 0 <= k < |bad| ==> IsSorting(c, bad[k], groups[k])
  }

  /** ms lists the component, latest drop first. */
  ghost predicate IsSorting(c: Census, comp: seq<Id>, ms: seq<Id>) {
    && ms != [] && (forall x :: x in ms <==> x in comp) && Distinct(ms)
    && (forall x :: x in ms ==> x in c.objs) && LatestFirst(c, ms)
  }

  /** x belongs to the k-th cycle, and that cycle can be dropped by one statement. */
  ghost predicate InGroup(c: Census, groups: seq<seq<Id>>, k: nat, x: Id) {
    k < |groups| && x in groups[k] && groups[k] != [] && (forall y :: y in groups[k] ==> y in c.objs) && Groupable(c, groups[k])
  }

  /** x belongs to one of the first n groups that one statement can drop. */
  ghost predicate GroupedBy(c: Census, groups: seq<seq<Id>>, n: nat, x: Id) {
    exists k: nat :: k < n && InGroup(c, groups, k, x)
  }

  ghost predicate CoveredBy(c: Census, groups: seq<seq<Id>>, n: nat, x: Id) {
    exists k: nat :: k < n && InGroup(c, groups, k, x) && x != groups[k][0]
  }

  ghost predicate HeadBy(c: Census, groups: seq<seq<Id>>, n: nat, x: Id) {
    exists k: nat :: k < n && InGroup(c, groups, k, x) && x == groups[k][0]
  }

  /** x belongs to one of the first n groups that no statement can drop. */
  ghost predicate StuckBy(c: Census, groups: seq<seq<Id>>, n: nat, x: Id) {
    exists k: nat :: k < n && k < |groups| && x in groups[k] && !InGroup(c, groups, k, x)
  }

  ghost predicate HeadsPlanned(c: Census, groups: seq<seq<Id>>, n: nat, grouped: map<Id, Group>) {
    forall k: nat, x :: k < n && InGroup(c, groups, k, x) && x == groups[k][0] ==>
                          x in grouped && grouped[x] == Group(GroupSql(c, groups[k]), groups[k])
  }

  ghost predicate Grouped(c: Census, groups: seq<seq<Id>>, x: Id) {
    GroupedBy(c, groups, |groups|, x)
  }

  /** What survives a teardown on its own account: a cycle no statement covers, or an object without a drop. */
  ghost predicate Root(c: Census, g: Graph, groups: seq<seq<Id>>, x: Id) {
    && x in c.objs
    && !Grouped(c, groups, x) && (OnCycle(g, x) || c.objs[x].drop == "")
  }

  /** ... and what survives because a survivor needs it. */
  ghost predicate Retained(c: Census, g: Graph, groups: seq<seq<Id>>, x: Id) {
    exists r :: Root(c, g, groups, r) && Reach(g, r, x)
  }

  /** The plan, stated over paths of the drop graph. */
  ghost predicate IsPlan(c: Census, g: Graph, groups: seq<seq<Id>>, tp: TeardownPlan) {
    && (forall x :: x in tp.omit <==> x in c.objs && Retained(c, g, groups, x))
    && (forall x :: x in tp.covered <==> CoveredBy(c, groups, |groups|, x))
    && (forall x :: x in tp.grouped <==> x !in tp.omit && HeadBy(c, groups, |groups|, x))
    && (forall k: nat, x :: InGroup(c, groups, k, x) && x == groups[k][0] && x in tp.grouped ==>
                              tp.grouped[x] == Group(GroupSql(c, groups[k]), groups[k]))
  }

  // --- building it ---------------------------------------------------------------------------------------

  /** The groups loop: for each cycle, its members latest drop first. */
  method SortGroups(c: Census, g: Graph, bad: seq<seq<Id>>) returns (groups: seq<seq<Id>>)
    requires Wellformed(c) && g == DropGraph(c) && IsCycles(g, bad)
    ensures Heads(c, g, bad, groups)
  {
    hide OnCycle, Reach, LatestFirst, Distinct;
    groups := [];
    for k := 0 to |bad|
      invariant |groups| == k && forall j :: 0 <= j < k ==> IsSorting(c, bad[j], groups[j])
    {
      assert IsComponent(g, bad[k]);
      assert forall x :: x in bad[k] ==> x in c.objs;
      var ms := SortMembers(c, bad[k]);
      groups := groups + [ms];
    }
  }

  /** What the groups loop leaves behind, for the first n groups. */
  ghost predicate GroupedSoFar(c: Census, groups: seq<seq<Id>>, n: nat, grouped: map<Id, Group>, covered: set<Id>,
                               members: set<Id>, roots: seq<Id>)
  {
    && (forall x :: x in members <==> GroupedBy(c, groups, n, x))
    && (forall x :: x in covered <==> CoveredBy(c, groups, n, x))
    && (forall x :: x in grouped <==> HeadBy(c, groups, n, x))
    && HeadsPlanned(c, groups, n, grouped)
    && (forall x :: x in roots <==> StuckBy(c, groups, n, x))
  }

  /** One more group. */
  lemma OneMore(c: Census, groups: seq<seq<Id>>, k: nat, x: Id)
    requires k < |groups| && groups[k] != [] && forall y :: y in groups[k] ==> y in c.objs
    ensures GroupedBy(c, groups, k + 1, x) <==> GroupedBy(c, groups, k, x) || (x in groups[k] && Groupable(c, groups[k]))
    ensures CoveredBy(c, groups, k + 1, x) <==> CoveredBy(c, groups, k, x) || (x in groups[k] && Groupable(c, groups[k]) && x != groups[k][0])
    ensures HeadBy(c, groups, k + 1, x) <==> HeadBy(c, groups, k, x) || (Groupable(c, groups[k]) && x == groups[k][0])
    ensures StuckBy(c, groups, k + 1, x) <==> StuckBy(c, groups, k, x) || (x in groups[k] && !Groupable(c, groups[k]))
  {
    hide Groupable;
    assert InGroup(c, groups, k, x) <==> x in groups[k] && Groupable(c, groups[k]);
    hide InGroup;
  }

  /** Distinct cycles share no member. */
  ghost predicate Separate(groups: seq<seq<Id>>) {
    forall j, k, x :: 0 <= j < k < |groups| && x in groups[j] ==> x !in groups[k]
  }

  lemma HeadsSeparate(c: Census, g: Graph, bad: seq<seq<Id>>, groups: seq<seq<Id>>)
    requires Heads(c, g, bad, groups)
    ensures Separate(groups)
    ensures forall x :: (exists k: nat :: k < |groups| && x in groups[k]) <==> x in g.names && OnCycle(g, x)
  {
    hide OnCycle, Reach, LatestFirst, Distinct, AllComponents;
    forall j, k, x | 0 <= j < k < |groups| && x in groups[j] ensures x !in groups[k] {
      assert IsSorting(c, bad[j], groups[j]) && IsSorting(c, bad[k], groups[k]);
      assert x in bad[j];
    }
    forall x ensures (exists k: nat :: k < |groups| && x in groups[k]) <==> x in g.names && OnCycle(g, x) {
      if k: nat :| k < |groups| && x in groups[k] {
        assert IsSorting(c, bad[k], groups[k]);
        assert InSome(bad, x);
      }
      if InSome(bad, x) {
        var k :| 0 <= k < |bad| && x in bad[k];
        assert IsSorting(c, bad[k], groups[k]);
        assert x in groups[k];
      }
    }
  }

  method PlanGroups(c: Census, groups: seq<seq<Id>>)
    returns (grouped: map<Id, Group>, covered: set<Id>, members: set<Id>, roots: seq<Id>)
    requires Separate(groups)
    requires forall k :: 0 <= k < |groups| ==> groups[k] != [] && forall x :: x in groups[k] ==> x in c.objs
    ensures GroupedSoFar(c, groups, |groups|, grouped, covered, members, roots)
  {
    grouped, covered, members, roots := map[], {}, {}, [];
    for k := 0 to |groups|
      invariant GroupedSoFar(c, groups, k, grouped, covered, members, roots)
    {
      var ms := groups[k];
      ghost var grouped0, covered0, members0, roots0 := grouped, covered, members, roots;
      if Groupable(c, ms) {
        grouped := grouped[ms[0] := Group(GroupSql(c, ms), ms)];
        members := members + set x | x in ms;
        covered := covered + set x | x in ms && x != ms[0];
      } else {
        roots := roots + ms;
      }
      GroupStep(c, groups, k, grouped0, covered0, members0, roots0, grouped, covered, members, roots);
    }
  }

  lemma GroupStep(c: Census, groups: seq<seq<Id>>, k: nat, grouped: map<Id, Group>, covered: set<Id>, members: set<Id>, roots: seq<Id>,
                  grouped': map<Id, Group>, covered': set<Id>, members': set<Id>, roots': seq<Id>)
    requires Separate(groups) && k < |groups| && groups[k] != [] && forall x :: x in groups[k] ==> x in c.objs
    requires GroupedSoFar(c, groups, k, grouped, covered, members, roots)
    requires Groupable(c, groups[k]) ==>
               && grouped' == grouped[groups[k][0] := Group(GroupSql(c, groups[k]), groups[k])]
               && members' == members + (set x | x in groups[k]) && roots' == roots
               && covered' == covered + (set x | x in groups[k] && x != groups[k][0])
    requires !Groupable(c, groups[k]) ==>
               grouped' == grouped && members' == members && covered' == covered && roots' == roots + groups[k]
    ensures GroupedSoFar(c, groups, k + 1, grouped', covered', members', roots')
  {
    hide Groupable, GroupSql, InGroup, GroupedBy, CoveredBy, HeadBy, StuckBy, HeadsPlanned, Separate;
    forall x
      ensures x in members' <==> GroupedBy(c, groups, k + 1, x)
      ensures x in covered' <==> CoveredBy(c, groups, k + 1, x)
      ensures x in grouped' <==> HeadBy(c, groups, k + 1, x)
      ensures x in roots' <==> StuckBy(c, groups, k + 1, x)
    {
      OneMore(c, groups, k, x);
    }
    PlannedStep(c, groups, k, grouped, grouped');
  }

  lemma PlannedStep(c: Census, groups: seq<seq<Id>>, k: nat, grouped: map<Id, Group>, grouped': map<Id, Group>)
    requires Separate(groups) && k < |groups| && groups[k] != [] && forall x :: x in groups[k] ==> x in c.objs
    requires HeadsPlanned(c, groups, k, grouped)
    requires grouped' == if Groupable(c, groups[k]) then grouped[groups[k][0] := Group(GroupSql(c, groups[k]), groups[k])] else grouped
    ensures HeadsPlanned(c, groups, k + 1, grouped')
  {
    hide Groupable, GroupSql;
    forall j: nat, x | j < k && InGroup(c, groups, j, x) ensures x != groups[k][0] {
      MemberOf(c, groups, j, x);
    }
  }

  lemma MemberOf(c: Census, groups: seq<seq<Id>>, k: nat, x: Id)
    requires InGroup(c, groups, k, x)
    ensures k < |groups| && x in groups[k]
  {
  }

  ghost predicate FromRoots(g: Graph, roots: seq<Id>, x: Id) {
    x in g.names && exists r :: r in roots && Reach(g, r, x)
  }

  /** One turn of the queue loop: the unretained prerequisites of id are retained and queued. */
  method Spread(g: Graph, ghost roots: seq<Id>, id: Id, retained: set<Id>, queue: seq<Id>)
    returns (retained': set<Id>, queue': seq<Id>)
    requires FromRoots(g, roots, id) && id in retained && Contained(g)
    requires (forall x :: x in queue ==> x in retained) && forall x :: x in retained ==> FromRoots(g, roots, x)
    ensures retained <= retained' && queue <= queue'
    ensures forall x :: x in queue' ==> x in retained'
    ensures forall x :: x in retained' ==> FromRoots(g, roots, x) && x in g.names && (x in retained || x in queue')
    ensures forall y :: y in DepsOf(g.deps, id) ==> y in retained'
    ensures retained' == retained ==> queue' == queue
  {
    hide Reach;
    retained', queue' := retained, queue;
    var deps := DepsOf(g.deps, id);
    for k := 0 to |deps|
      invariant retained <= retained' && queue <= queue'
      invariant forall x :: x in queue' ==> x in retained'
      invariant forall x :: x in retained' ==> FromRoots(g, roots, x) && (x in retained || x in queue')
      invariant forall j :: 0 <= j < k ==> deps[j] in retained'
      invariant retained' == retained ==> queue' == queue
    {
      var dep := deps[k];
      if dep !in retained' {
        ghost var r :| r in roots && Reach(g, r, id);
        assert dep in DepsOf(g.deps, id) && Edge(g, id, dep);
        ReachEdge(g, id, dep);
        ReachTrans(g, r, id, dep);
        assert FromRoots(g, roots, dep);
        retained' := retained' + {dep};
        queue' := queue' + [dep];
      }
    }
  }

  ghost function Unretained(g: Graph, retained: set<Id>): set<Id> {
    (set x | x in g.names) - retained
  }

  lemma Shrinks(g: Graph, kept: set<Id>, retained: set<Id>)
    requires kept <= retained && forall x :: x in retained ==> x in g.names
    ensures |Unretained(g, retained)| <= |Unretained(g, kept)|
    ensures retained != kept ==> |Unretained(g, retained)| < |Unretained(g, kept)|
  {
    Smaller(Unretained(g, retained), Unretained(g, kept));
    if retained != kept {
      var x :| x in retained && x !in kept;
      Smaller(Unretained(g, retained), Unretained(g, kept) - {x});
    }
  }

  lemma {:induction false} Smaller(a: set<Id>, b: set<Id>)
    requires a <= b
    ensures |a| <= |b|
  {
    if a != {} {
      var x :| x in a;
      Smaller(a - {x}, b - {x});
    }
  }

  /** All dependencies stay among the names. */
  ghost predicate Contained(g: Graph) {
    forall x, y :: x in g.names && y in DepsOf(g.deps, x) ==> y in g.names
  }

  /** The state of the queue loop. */
  ghost predicate Spreading(g: Graph, roots: seq<Id>, retained: set<Id>, queue: seq<Id>) {
    && (forall r :: r in roots ==> r in retained) && (forall x :: x in queue ==> x in retained)
    && (forall x :: x in retained ==> FromRoots(g, roots, x))
    && Settled(g, retained, queue)
  }

  /** Serves the head of the queue. */
  method Serve(g: Graph, ghost roots: seq<Id>, retained: set<Id>, queue: seq<Id>) returns (retained': set<Id>, queue': seq<Id>)
    requires Contained(g) && Spreading(g, roots, retained, queue) && queue != []
    ensures Spreading(g, roots, retained', queue')
    ensures |Unretained(g, retained')| < |Unretained(g, retained)| ||
            (|Unretained(g, retained')| == |Unretained(g, retained)| && |queue'| < |queue|)
  {
    hide FromRoots, Settled, Unretained;
    var id := queue[0];
    assert queue == [id] + queue[1..];
    assert id in queue;
    retained', queue' := Spread(g, roots, id, retained, queue[1..]);
    SettledStep(g, retained, queue, retained', queue');
    Shrinks(g, retained, retained');
  }

  /** The retention closure: everything the roots reach. */
  method Closure(g: Graph, roots: seq<Id>) returns (retained: set<Id>)
    requires Contained(g) && forall r :: r in roots ==> r in g.names
    ensures forall x :: x in retained <==> exists r :: r in roots && Reach(g, r, x)
  {
    hide Contained, Spreading;
    retained := set r | r in roots;
    var queue := roots;
    StartSpreading(g, roots);
    while |queue| > 0
      invariant Spreading(g, roots, retained, queue)
      decreases |Unretained(g, retained)|, |queue|
    {
      retained, queue := Serve(g, roots, retained, queue);
    }
    ClosureIs(g, roots, retained);
  }

  lemma StartSpreading(g: Graph, roots: seq<Id>)
    requires forall r :: r in roots ==> r in g.names
    ensures Spreading(g, roots, (set r | r in roots), roots)
  {
    hide Reach;
    forall r | r in roots ensures FromRoots(g, roots, r) {
      ReachRefl(g, r);
    }
  }

  /** The prerequisites of every retained name off the queue are retained. */
  ghost predicate Settled(g: Graph, retained: set<Id>, queue: seq<Id>) {
    forall x, y :: x in retained && x !in queue && Edge(g, x, y) ==> y in retained
  }

  lemma SettledStep(g: Graph, kept: set<Id>, q: seq<Id>, retained: set<Id>, queue: seq<Id>)
    requires q != [] && Settled(g, kept, q) && kept <= retained && q[1..] <= queue
    requires forall x :: x in retained ==> x in kept || x in queue
    requires forall y :: y in DepsOf(g.deps, q[0]) ==> y in retained
    ensures Settled(g, retained, queue)
  {
    assert q == [q[0]] + q[1..];
  }

  lemma ClosureIs(g: Graph, roots: seq<Id>, retained: set<Id>)
    requires Spreading(g, roots, retained, [])
    ensures forall x :: x in retained <==> exists r :: r in roots && Reach(g, r, x)
  {
    hide Reach;
    forall x, r | r in roots && Reach(g, r, x) ensures x in retained {
      ReachClosed(g, retained, r, x);
    }
  }

  method BuildTeardownPlan(es: seq<Entry>) returns (tp: TeardownPlan)
    ensures var c := CensusOf(es);
            exists bad, groups :: Heads(c, DropGraph(c), bad, groups) && IsPlan(c, DropGraph(c), groups, tp)
  {
    hide OnCycle, Reach, LatestFirst, Distinct, CensusOf, Groupable, InGroup, StuckBy, GroupedBy;
    var c := TakeCensus(es);
    CensusOk(es);
    var g := BuildDropGraph(c);
    var comps := BadComponents(g);
    var sorted := SortGroups(c, g, comps);
    HeadsSeparate(c, g, comps, sorted);
    assert forall k :: 0 <= k < |sorted| ==> IsSorting(c, comps[k], sorted[k]);
    var grouped, covered, members, stuck := PlanGroups(c, sorted);
    var roots := stuck;
    for k := 0 to |c.order|
      invariant forall x :: x in roots <==> x in stuck || (x in c.order[..k] && c.objs[x].drop == "" && x !in members)
    {
      var x := c.order[k];
      assert c.order[..k + 1] == c.order[..k] + [x];
      if c.objs[x].drop == "" && x !in members {
        roots := roots + [x];
      }
    }
    assert c.order[..|c.order|] == c.order;
    RootsAre(c, g, comps, sorted, grouped, covered, members, stuck, roots);
    DepsContained(c);
    var retained := Closure(g, roots);
    var omit := set x | x in c.order && x in retained;
    tp := TeardownPlan(omit, covered, grouped - omit);
    PlanIs(c, g, sorted, grouped, covered, members, stuck, roots, retained, tp);
  }

  lemma RootsAre(c: Census, g: Graph, bad: seq<seq<Id>>, groups: seq<seq<Id>>, grouped: map<Id, Group>, covered: set<Id>,
                 members: set<Id>, stuck: seq<Id>, roots: seq<Id>)
    requires Wellformed(c) && g == DropGraph(c) && Heads(c, g, bad, groups)
    requires GroupedSoFar(c, groups, |groups|, grouped, covered, members, stuck)
    requires forall x :: x in roots <==> x in stuck || (x in c.order && c.objs[x].drop == "" && x !in members)
    ensures forall x :: x in roots <==> Root(c, g, groups, x)
    ensures forall x :: x in roots ==> x in g.names
  {
    hide OnCycle, Reach, LatestFirst, Distinct, Groupable, GroupedBy, IsSorting, DropGraph;
    HeadsSeparate(c, g, bad, groups);
    assert g.names == c.order by { GraphOrder(c); }
    forall x ensures x in stuck <==> x in c.objs && OnCycle(g, x) && !Grouped(c, groups, x) {
      StuckIs(c, g, groups, x);
    }
  }

  lemma GraphOrder(c: Census)
    ensures DropGraph(c).names == c.order
  {
  }

  /** A member of a cycle is stuck exactly when no group holds it. */
  lemma StuckIs(c: Census, g: Graph, groups: seq<seq<Id>>, x: Id)
    requires Separate(groups) && Wellformed(c) && g.names == c.order
    requires (exists k: nat :: k < |groups| && x in groups[k]) <==> x in g.names && OnCycle(g, x)
    ensures StuckBy(c, groups, |groups|, x) <==> x in c.objs && OnCycle(g, x) && !Grouped(c, groups, x)
  {
    hide OnCycle, Groupable;
    if x in c.objs && OnCycle(g, x) && !Grouped(c, groups, x) {
      var k: nat :| k < |groups| && x in groups[k];
      assert !InGroup(c, groups, k, x);
    }
  }

  lemma DepsContained(c: Census)
    requires Wellformed(c)
    ensures Contained(DropGraph(c))
  {
    var g := DropGraph(c);
    forall x, y | x in g.names && y in DepsOf(g.deps, x) ensures y in g.names {
      assert x in c.objs;
      CanonDepsAre(c.objs[x].rawDeps, c.canonOf, x, y);
    }
  }

  lemma PlanIs(c: Census, g: Graph, groups: seq<seq<Id>>, grouped: map<Id, Group>, covered: set<Id>,
               members: set<Id>, stuck: seq<Id>, roots: seq<Id>, retained: set<Id>, tp: TeardownPlan)
    requires Wellformed(c) && GroupedSoFar(c, groups, |groups|, grouped, covered, members, stuck)
    requires forall x :: x in roots <==> Root(c, g, groups, x)
    requires forall x :: x in retained <==> exists r :: r in roots && Reach(g, r, x)
    requires tp.omit == (set x | x in c.order && x in retained)
    requires tp.covered == covered && tp.grouped == grouped - tp.omit
    ensures IsPlan(c, g, groups, tp)
  {
    hide OnCycle, Reach, Root, CoveredBy, HeadBy, StuckBy, GroupedBy, GroupSql, Groupable;
    forall x ensures x in retained <==> Retained(c, g, groups, x) {
    }
  }
}
