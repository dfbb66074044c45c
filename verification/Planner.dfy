/** ResolveDB: from the sections' scripts and tables to the sorted pre-data stream. */
module Planner {
  import opened Wrappers
  import opened Graphs
  import opened Text
  import opened PlanModel
  import opened PlanTheorems
  import opened Resolver
  import opened Materialize

  /** A script or table, and the section it came from. */
  datatype Pending = Pending(src: Source, sec: nat)

  datatype Class = Collations | Types | Routines | Sequences | ForeignData | Tables | Views

  const CLASSES: seq<Class> := [Collations, Types, Routines, Sequences, ForeignData, Tables, Views]

  function Scripts(list: seq<Script>, si: nat): seq<Pending> {
    seq(|list|, i requires 0 <= i < |list| => Pending(FromScript(list[i]), si))
  }

  /** One section's objects of one class. */
  function Share(sec: Section, c: Class, si: nat): (ps: seq<Pending>)
    ensures forall p :: p in ps ==> p.sec == si
  {
    match c
    case Collations => Scripts(sec.collations, si)
    case Types => Scripts(sec.types, si)
    case Routines => Scripts(sec.routines, si)
    case Sequences => Scripts(sec.sequences, si)
    case ForeignData => Scripts(sec.foreignData, si)
    case Tables => seq(|sec.tables|, i requires 0 <= i < |sec.tables| => Pending(FromTable(sec.tables[i]), si))
    case Views => Scripts(sec.views, si)
  }

  /** One class across the first n sections. */
  function OfClass(sections: seq<Section>, c: Class, n: nat): seq<Pending>
    requires n <= |sections|
  {
    if n == 0 then [] else OfClass(sections, c, n - 1) + Share(sections[n - 1], c, n - 1)
  }

  /** The class-major insertion order, for the first k classes. */
  function ClassMajor(sections: seq<Section>, k: nat): seq<Pending>
    requires k <= |CLASSES|
  {
    if k == 0 then [] else ClassMajor(sections, k - 1) + OfClass(sections, CLASSES[k - 1], |sections|)
  }

  function NameOf(src: Source): Id {
    match src
    case FromScript(s) => s.name
    case FromTable(t) => t.node
  }

  function Anonymous(ps: seq<Pending>): nat {
    if ps == [] then 0 else Anonymous(ps[..|ps| - 1]) + if NameOf(ps[|ps| - 1].src) == "" then 1 else 0
  }

  const ANON: string := "anon:"

  /** The node id of the k-th object: its name, or the next synthetic id. */
  function IdOf(ps: seq<Pending>, k: nat): Id
    requires k < |ps|
  {
    if NameOf(ps[k].src) != "" then NameOf(ps[k].src) else ANON + Itoa(Anonymous(ps[..k]) + 1)
  }

  /** The items buildPredataItems starts resolution with. */
  function Collected(ps: seq<Pending>): seq<ItemValue> {
    seq(|ps|, k requires 0 <= k < |ps| => InitialValue(IdOf(ps, k), ps[k].src, ps[k].sec))
  }

  function InputValues(sections: seq<Section>): seq<ItemValue> {
    Collected(ClassMajor(sections, |CLASSES|))
  }

  /** Names are unique, and none looks like a synthetic id. */
  ghost predicate NamesOk(ps: seq<Pending>) {
    && (forall i, j :: 0 <= i < j < |ps| && NameOf(ps[i].src) != "" ==> NameOf(ps[i].src) != NameOf(ps[j].src))
    && (forall i :: 0 <= i < |ps| ==> !(ANON <= NameOf(ps[i].src)))
  }

  lemma {:induction false} AnonymousGrows(ps: seq<Pending>, i: nat, j: nat)
    requires i < j <= |ps| && NameOf(ps[i].src) == ""
    ensures Anonymous(ps[..i]) < Anonymous(ps[..j])
  {
    assert ps[..j][..j - 1] == ps[..j - 1];
    if i < j - 1 {
      AnonymousGrows(ps, i, j - 1);
    }
  }

  /** Unique names make unique ids: synthetic ids never meet a name or each other. */
  lemma IdsUnique(ps: seq<Pending>)
    requires NamesOk(ps)
    ensures UniqueIds(Collected(ps))
  {
    forall i, j | 0 <= i < j < |ps| ensures IdOf(ps, i) != IdOf(ps, j) {
      var a, b := IdOf(ps, i), IdOf(ps, j);
      if NameOf(ps[i].src) == "" && NameOf(ps[j].src) == "" && a == b {
        var m, n := Anonymous(ps[..i]) + 1, Anonymous(ps[..j]) + 1;
        assert a[|ANON|..] == Itoa(m) && b[|ANON|..] == Itoa(n);
        ItoaInjective(m, n);
        AnonymousGrows(ps, i, j);
      } else if NameOf(ps[i].src) == "" {
        assert ANON <= a;
      } else if NameOf(ps[j].src) == "" {
        assert ANON <= b;
      }
    }
  }

  /** The items under construction hold the values collected from ps. */
  ghost predicate Building(items: seq<Item>, ps: seq<Pending>)
    reads items
  {
    && |items| == |ps|
    && (forall i, j :: 0 <= i < j < |items| ==> items[i] != items[j])
    && forall i :: 0 <= i < |items| ==> FreshItem(items[i], Collected(ps)[i])
  }

  ghost predicate FreshItem(it: Item, v: ItemValue)
    reads it
  {
    && it.src.Some? && it.finalOf == "" && it.bundle == [] && it.sqlText == "" && it.Value() == v && ValueOk(v)
    && it.fullDeps == EffectiveDeps(v) && it.create == if v.src.FromTable? then v.src.table.create else ""
  }

  lemma CollectedStep(ps: seq<Pending>, p: Pending)
    ensures Collected(ps + [p]) == Collected(ps) + [InitialValue(IdOf(ps + [p], |ps|), p.src, p.sec)]
    ensures |Collected(ps)| == |ps|
    ensures Anonymous(ps + [p]) == Anonymous(ps) + if NameOf(p.src) == "" then 1 else 0
    ensures IdOf(ps + [p], |ps|) == if NameOf(p.src) != "" then NameOf(p.src) else ANON + Itoa(Anonymous(ps) + 1)
  {
    hide InitialValue, IdOf, Anonymous, Collected;
    forall i | 0 <= i < |ps| ensures IdOf(ps + [p], i) == IdOf(ps, i) {
      IdStep(ps, p, i);
    }
    SameCollected(ps, p);
    LastId(ps, p);
  }

  lemma IdStep(ps: seq<Pending>, p: Pending, i: nat)
    requires i < |ps|
    ensures IdOf(ps + [p], i) == IdOf(ps, i)
  {
    assert (ps + [p])[..i] == ps[..i];
  }

  lemma LastId(ps: seq<Pending>, p: Pending)
    ensures Anonymous(ps + [p]) == Anonymous(ps) + if NameOf(p.src) == "" then 1 else 0
    ensures IdOf(ps + [p], |ps|) == if NameOf(p.src) != "" then NameOf(p.src) else ANON + Itoa(Anonymous(ps) + 1)
  {
    LastAnonymous(ps, p);
    hide Itoa, Anonymous, NameOf;
    assert (ps + [p])[..|ps|] == ps;
  }

  lemma LastAnonymous(ps: seq<Pending>, p: Pending)
    ensures Anonymous(ps + [p]) == Anonymous(ps) + if NameOf(p.src) == "" then 1 else 0
  {
    hide NameOf;
    var now := ps + [p];
    assert now[..|now| - 1] == ps;
  }

  lemma SameCollected(ps: seq<Pending>, p: Pending)
    requires forall i :: 0 <= i < |ps| ==> IdOf(ps + [p], i) == IdOf(ps, i)
    ensures |Collected(ps)| == |ps|
    ensures Collected(ps + [p]) == Collected(ps) + [InitialValue(IdOf(ps + [p], |ps|), p.src, p.sec)]
  {
    hide InitialValue, IdOf;
    var l, r := Collected(ps + [p]), Collected(ps) + [InitialValue(IdOf(ps + [p], |ps|), p.src, p.sec)];
    forall i | 0 <= i < |l| ensures l[i] == r[i] {
    }
  }

  method AddItem(items: seq<Item>, anon: nat, p: Pending, ghost ps: seq<Pending>)
    returns (items': seq<Item>, anon': nat)
    requires Building(items, ps) && anon == Anonymous(ps)
    ensures Building(items', ps + [p]) && anon' == Anonymous(ps + [p])
    ensures forall i :: 0 <= i < |items'| ==> items'[i] in items || fresh(items'[i])
  {
    hide Collected, IdOf, Anonymous;
    CollectedStep(ps, p);
    anon' := anon;
    var id := NameOf(p.src);
    if id == "" {
      anon' := anon + 1;
      id := ANON + Itoa(anon');
    }
    var it := new Item.Base(id, p.src, p.sec);
    items' := items + [it];
    assert FreshItem(it, InitialValue(id, p.src, p.sec));
  }

  method AddShare(items: seq<Item>, anon: nat, share: seq<Pending>, ghost ps: seq<Pending>)
    returns (items': seq<Item>, anon': nat)
    requires Building(items, ps) && anon == Anonymous(ps)
    ensures Building(items', ps + share) && anon' == Anonymous(ps + share)
    ensures forall i :: 0 <= i < |items'| ==> items'[i] in items || fresh(items'[i])
  {
    hide Building, Anonymous;
    items', anon' := items, anon;
    assert ps + share[..0] == ps;
    for i := 0 to |share|
      invariant Building(items', ps + share[..i]) && anon' == Anonymous(ps + share[..i])
      invariant forall i :: 0 <= i < |items'| ==> items'[i] in items || fresh(items'[i])
    {
      ghost var now := ps + share[..i];
      assert ps + share[..i + 1] == now + [share[i]];
      items', anon' := AddItem(items', anon', share[i], now);
    }
    assert share[..|share|] == share;
  }

  method AddClass(items: seq<Item>, anon: nat, sections: seq<Section>, c: Class, ghost ps: seq<Pending>)
    returns (items': seq<Item>, anon': nat)
    requires Building(items, ps) && anon == Anonymous(ps)
    ensures Building(items', ps + OfClass(sections, c, |sections|)) && anon' == Anonymous(ps + OfClass(sections, c, |sections|))
    ensures forall i :: 0 <= i < |items'| ==> items'[i] in items || fresh(items'[i])
  {
    hide Building, Anonymous, Share;
    items', anon' := items, anon;
    assert ps + OfClass(sections, c, 0) == ps;
    for si := 0 to |sections|
      invariant Building(items', ps + OfClass(sections, c, si)) && anon' == Anonymous(ps + OfClass(sections, c, si))
      invariant forall i :: 0 <= i < |items'| ==> items'[i] in items || fresh(items'[i])
    {
      ghost var now := ps + OfClass(sections, c, si);
      assert ps + OfClass(sections, c, si + 1) == now + Share(sections[si], c, si);
      items', anon' := AddShare(items', anon', Share(sections[si], c, si), now);
    }
  }

  /** Every section's objects, class by class. */
  method BuildPredataItems(sections: seq<Section>) returns (items: seq<Item>)
    ensures Building(items, ClassMajor(sections, |CLASSES|)) && forall i :: 0 <= i < |items| ==> fresh(items[i])
  {
    hide Building, OfClass;
    var anon := 0;
    items := [];
    assert Building(items, []) by { NothingBuilt(); }
    for k := 0 to |CLASSES|
      invariant Building(items, ClassMajor(sections, k)) && anon == Anonymous(ClassMajor(sections, k))
      invariant forall i :: 0 <= i < |items| ==> fresh(items[i])
    {
      items, anon := AddClass(items, anon, sections, CLASSES[k], ClassMajor(sections, k));
    }
  }

  lemma NothingBuilt()
    ensures Building([], [])
  {
  }

  /** The user's choices that matter here. */
  datatype Options = Options(structure: bool, data: bool, dropFirst: bool)

  datatype Outcome = Planned(preOrder: seq<Item>, extraPost: seq<Script>) | CycleError | RenderError

  /** The item is the one collected at position i. */
  ghost predicate Stems(it: Item, vs: seq<ItemValue>, i: nat)
    requires ValuesOk(vs)
  {
    i < |vs| && it.id == vs[i].id && it.src == Some(vs[i].src) && it.fullDeps == EffectiveDeps(vs[i])
  }

  lemma BuiltHolds(sections: seq<Section>, items: seq<Item>)
    requires Building(items, ClassMajor(sections, |CLASSES|))
    requires ValuesOk(InputValues(sections))
    ensures |items| == |InputValues(sections)|
    ensures Holds(items, InputValues(sections)) && Untouched(items, InputValues(sections))
    ensures SectionsOk(sections, InputValues(sections))
    ensures forall i :: 0 <= i < |items| ==> Stems(items[i], InputValues(sections), i)
  {
    hide ValuesOk, EffectiveDeps;
    var vs := InputValues(sections);
    PendingSections(sections, |CLASSES|);
    forall i | 0 <= i < |items| ensures FreshItem(items[i], vs[i]) && vs[i].sec < |sections| {
      assert ClassMajor(sections, |CLASSES|)[i] in ClassMajor(sections, |CLASSES|);
    }
  }

  lemma {:induction false} PendingSections(sections: seq<Section>, k: nat)
    requires k <= |CLASSES|
    ensures forall p :: p in ClassMajor(sections, k) ==> p.sec < |sections|
  {
    if k > 0 {
      PendingSections(sections, k - 1);
      ClassSections(sections, CLASSES[k - 1], |sections|);
    }
  }

  lemma {:induction false} ClassSections(sections: seq<Section>, c: Class, n: nat)
    requires n <= |sections|
    ensures forall p :: p in OfClass(sections, c, n) ==> p.sec < n
  {
    if n > 0 {
      ClassSections(sections, c, n - 1);
    }
  }

  method Emit(items: seq<Item>, sections: seq<Section>, e: Engine, ghost vs: seq<ItemValue>, ghost ws: seq<ItemValue>)
    returns (r: Outcome)
    requires Input(vs) && Resolved(vs, ws) && Resolvable(vs) && ValuesOk(ws)
    requires Holds(items, ws) && Untouched(items, ws) && SectionsOk(sections, ws)
    modifies items
    ensures !r.CycleError? && (r.RenderError? <==> !AllRender(e, sections, ws))
    ensures r.Planned? ==> SortedStream(ws, NodesOf(r.preOrder)) && Stable(Stream(ws), NodesOf(r.preOrder)) && r.extraPost == ExtraPost(e, sections, ws)
    ensures r.Planned? ==> forall k :: 0 <= k < |r.preOrder| && r.preOrder[k].src.Some? ==>
                                        exists i :: 0 <= i < |items| && r.preOrder[k] == items[i] &&
                                                    r.preOrder[k].create == CreateOf(e, sections[ws[i].sec], ws[i])
    ensures r.Planned? ==> Generated(r.preOrder, ws)
  {
    hide Input, Resolved, Resolvable, SortedStream, Stable, Stream, AllRender, CreateOf, GraphOf, Gathered, UniqueIds, ValueOk, Untouched, Materialized, StagedFinals, Finals, Targeted, Indexed;
    var index := BuildIndex(items, ws);
    var ok, finals, stagedFinal, post := MaterializeAll(items, sections, e, ws);
    if !ok {
      return RenderError;
    }
    ghost var nodes := NodesOf(finals);
    assert StagedFinals(stagedFinal, ws) && nodes == Finals(ws) && post == ExtraPost(e, sections, ws) by {
      GatheredFacts(nodes, stagedFinal, post, ws, sections, e);
    }
    DoneFacts(items, ws, sections, e);
    var order := EmitSorted(items, finals, index, stagedFinal, vs, ws);
    r := Planned(order, post);
  }

  lemma DoneFacts(items: seq<Item>, ws: seq<ItemValue>, sections: seq<Section>, e: Engine)
    requires |items| == |ws| && ValuesOk(ws) && SectionsOk(sections, ws) && DistinctItems(items)
    requires Materialized(items, ws, sections, e, |items|)
    ensures Targeted(items, ws, 0)
    ensures forall i :: 0 <= i < |items| ==> items[i].create == CreateOf(e, sections[ws[i].sec], ws[i])
  {
    hide ValueOk, UniqueIds, CreateOf, PlainNode;
    assert forall i :: 0 <= i < |items| ==> ItemDone(items[i], ws[i], sections[ws[i].sec], e);
  }

  /** An emitted node that was not collected is a generated stage. */
  ghost predicate Generated(order: seq<Item>, ws: seq<ItemValue>)
    requires AllOk(ws)
    reads order
  {
    forall k :: 0 <= k < |order| && order[k].src == None ==> order[k].AsNode() in Finals(ws)
  }

  method EmitSorted(items: seq<Item>, finals: seq<Item>, index: map<Id, Item>, stagedFinal: map<Id, Id>,
                    ghost vs: seq<ItemValue>, ghost ws: seq<ItemValue>) returns (order: seq<Item>)
    requires Input(vs) && Resolved(vs, ws) && Resolvable(vs) && ValuesOk(ws) && DistinctItems(items) && |items| == |ws|
    requires Targeted(items, ws, 0) && Indexed(items, index) && StagedFinals(stagedFinal, ws)
    requires NodesOf(finals) == Finals(ws) && forall f :: f in finals ==> f.src == None
    modifies items`deps
    ensures SortedStream(ws, NodesOf(order)) && Stable(Stream(ws), NodesOf(order))
    ensures forall k :: 0 <= k < |order| && order[k].src.Some? ==> exists i :: 0 <= i < |items| && order[k] == items[i]
    ensures Generated(order, ws)
  {
    hide Input, Resolved, Resolvable, SortedStream, Stable, Stream, StagedFinals, Finals, ValuesOk, BaseNode, PlainNode;
    ghost var nodes := NodesOf(finals);
    RetargetAll(items, index, stagedFinal, ws);
    assert nodes == NodesOf(finals);
    var all := items + finals;
    StreamIs(items, finals, ws);
    order := SortStream(all, vs, ws);
    forall k | 0 <= k < |order| && order[k].src == None ensures order[k].AsNode() in NodesOf(finals) {
      assert order[k] in finals;
      InNodes(finals, order[k]);
    }
    GeneratedIs(order, finals, ws);
  }

  lemma GeneratedIs(order: seq<Item>, finals: seq<Item>, ws: seq<ItemValue>)
    requires ValuesOk(ws) && NodesOf(finals) == Finals(ws)
    requires forall k :: 0 <= k < |order| && order[k].src == None ==> order[k].AsNode() in NodesOf(finals)
    ensures Generated(order, ws)
  {
  }

  lemma InNodes(items: seq<Item>, it: Item)
    requires it in items
    ensures it.AsNode() in NodesOf(items)
  {
    var i :| 0 <= i < |items| && items[i] == it;
    assert NodesOf(items)[i] == it.AsNode();
  }

  lemma GatheredFacts(finals: seq<Node>, stagedFinal: map<Id, Id>, post: seq<Script>,
                      ws: seq<ItemValue>, sections: seq<Section>, e: Engine)
    requires Gathered(finals, stagedFinal, post, ws, sections, e)
    ensures AllOk(ws) && SectionsOk(sections, ws)
    ensures StagedFinals(stagedFinal, ws) && finals == Finals(ws) && post == ExtraPost(e, sections, ws)
  {
  }

  lemma StreamIs(items: seq<Item>, finals: seq<Item>, ws: seq<ItemValue>)
    requires |items| == |ws| && ValuesOk(ws) && Targeted(items, ws, |items|) && NodesOf(finals) == Finals(ws)
    ensures NodesOf(items + finals) == Stream(ws)
  {
    hide BaseNode, Finals, ValueOk, UniqueIds;
    NodesAppend(items, finals);
    assert NodesOf(items) == BaseNodes(ws) by {
      forall i | 0 <= i < |items| ensures NodesOf(items)[i] == BaseNodes(ws)[i] {
        assert items[i].AsNode() == BaseNode(ws, ws[i]);
      }
    }
  }

  lemma NodesAppend(a: seq<Item>, b: seq<Item>)
    ensures NodesOf(a + b) == NodesOf(a) + NodesOf(b)
  {
  }

  /** An emitted item is one that was collected, with the create it was resolved to. */
  ghost predicate Emitted(it: Item, sections: seq<Section>, e: Engine, vs: seq<ItemValue>, ws: seq<ItemValue>)
    requires ValuesOk(vs) && |vs| == |ws| && SectionsOk(sections, ws)
    reads it
  {
    it.src.Some? ==> exists i: nat :: i < |vs| && Stems(it, vs, i) && it.create == CreateOf(e, sections[ws[i].sec], ws[i])
  }

  /** A resolved database dump: every node once and after what it needs, every collected item resolved,
      and exactly the deferred post-data scripts. */
  ghost predicate PlanOk(order: seq<Item>, post: seq<Script>, sections: seq<Section>, e: Engine,
                         vs: seq<ItemValue>, ws: seq<ItemValue>)
    reads order
  {
    && ValuesOk(vs) && ValuesOk(ws) && Resolved(vs, ws) && SectionsOk(sections, ws) && AllRender(e, sections, ws)
    && SortedStream(ws, NodesOf(order)) && Stable(Stream(ws), NodesOf(order)) && post == ExtraPost(e, sections, ws)
    && Generated(order, ws) && forall k :: 0 <= k < |order| ==> Emitted(order[k], sections, e, vs, ws)
  }

  lemma EmittedIs(it: Item, items: seq<Item>, sections: seq<Section>, e: Engine, vs: seq<ItemValue>, ws: seq<ItemValue>)
    requires ValuesOk(vs) && |items| == |vs| == |ws| && SectionsOk(sections, ws)
    requires forall i :: 0 <= i < |items| ==> Stems(items[i], vs, i)
    requires it.src.Some? ==> exists i :: 0 <= i < |items| && it == items[i] && it.create == CreateOf(e, sections[ws[i].sec], ws[i])
    ensures Emitted(it, sections, e, vs, ws)
  {
    hide ValuesOk, CreateOf;
    if it.src.Some? {
      var i :| 0 <= i < |items| && it == items[i] && it.create == CreateOf(e, sections[ws[i].sec], ws[i]);
      assert Stems(it, vs, i);
    }
  }

  method ResolveDB(sections: seq<Section>, o: Options, e: Engine) returns (r: Outcome, ghost ws: seq<ItemValue>)
    requires Input(InputValues(sections))
    ensures !o.structure ==> r == Planned([], [])
    // a cycle error exactly when cutting and staging leave a cycle
    ensures o.structure ==> (r.CycleError? <==> !Resolvable(InputValues(sections)))
    // a render error exactly when a cut table cannot be re-rendered
    ensures o.structure && r.RenderError? ==> Resolved(InputValues(sections), ws) && SectionsOk(sections, ws) && !AllRender(e, sections, ws)
    // otherwise a plan
    ensures o.structure && r.Planned? ==> PlanOk(r.preOrder, r.extraPost, sections, e, InputValues(sections), ws)
  {
    hide Input, InputValues, Resolved, Resolvable, PlanOk;
    if !o.structure {
      return Planned([], []), [];
    }
    r, ws := ResolveStructure(sections, e);
  }

  method ResolveStructure(sections: seq<Section>, e: Engine) returns (r: Outcome, ghost ws: seq<ItemValue>)
    requires Input(InputValues(sections))
    ensures r.CycleError? <==> !Resolvable(InputValues(sections))
    ensures r.RenderError? ==> Resolved(InputValues(sections), ws) && SectionsOk(sections, ws) && !AllRender(e, sections, ws)
    ensures r.Planned? ==> PlanOk(r.preOrder, r.extraPost, sections, e, InputValues(sections), ws)
  {
    hide Initial, FinalsFresh, StubsReduce, UniqueIds, ValueOk, Resolved, Resolvable, SortedStream, Stable, Materialized, Gathered, Stream,
         AllRender, CreateOf, ExtraPost, GraphOf, InputValues, EffectiveDeps, Emitted, Building, Holds;
    ghost var vs := InputValues(sections);
    var items := BuildPredataItems(sections);
    BuiltHolds(sections, items);
    var ok: bool;
    ok, ws := ResolveCycles(items, vs);
    if !ok {
      return CycleError, ws;
    }
    ResolvedSame(vs, ws);
    assert |items| == |ws|;
    assert Untouched(items, ws);
    r := Emit(items, sections, e, vs, ws);
    if r.Planned? {
      forall k | 0 <= k < |r.preOrder| ensures Emitted(r.preOrder[k], sections, e, vs, ws) {
        EmittedIs(r.preOrder[k], items, sections, e, vs, ws);
      }
    }
  }
}
