/** ResolveDB past cycle resolution: resolved texts, generated stages, post-data, retargeted edges and the final sort. */
module Materialize {
  import opened Wrappers
  import opened Graphs
  import opened TopoOrder
  import opened PlanModel
  import opened PlanTheorems
  import opened Resolver

  /** One schema's share of the database dump. */
  datatype Section = Section(collations: seq<Script>, types: seq<Script>, routines: seq<Script>,
                             sequences: seq<Script>, foreignData: seq<Script>, tables: seq<Table>,
                             views: seq<Script>, postData: seq<Script>,
                             conflicts: map<string, seq<string>>, rewrites: map<string, string>)

  datatype Rendering = Rendering(create: string, fin: seq<Script>)

  /** What the engine supplies: the staged re-rendering of a table create (None is an error), and the
      rewriting of sequence references. */
  datatype Engine = Engine(render: (Table, set<string>, set<string>) -> Option<Rendering>,
                           rewrite: (string, map<string, string>) -> string)

  const STAGED_DEFAULT: string := "staged-default"

  predicate Stripped(v: ItemValue) {
    v.src.FromTable? && (|v.stripDefaults| > 0 || |v.stripConstraints| > 0)
  }

  function ConflictsOf(sec: Section, t: Table): seq<string> {
    if t.title in sec.conflicts then sec.conflicts[t.title] else []
  }

  function AsSet(s: seq<string>): set<string> {
    set x | x in s
  }

  /** The default columns a re-render suppresses: the cut ones and the conflicting ones. */
  function StripUnion(v: ItemValue, sec: Section): set<string>
    requires v.src.FromTable?
  {
    AsSet(v.stripDefaults) + AsSet(ConflictsOf(sec, v.src.table))
  }

  function RenderOf(e: Engine, sec: Section, v: ItemValue): Option<Rendering>
    requires v.src.FromTable?
  {
    e.render(v.src.table, StripUnion(v, sec), AsSet(v.stripConstraints))
  }

  /** The section already carries this suppressed default. */
  predicate Carried(sec: Section, s: Script) {
    s.kind == STAGED_DEFAULT && exists p :: p in sec.postData && p.kind == STAGED_DEFAULT && p.sql == s.sql
  }

  /** Finalizers of a re-render, without those the section already carries, and rewritten. */
  function FinsOf(e: Engine, sec: Section, hasConflict: bool, fin: seq<Script>): seq<Script> {
    if fin == [] then []
    else
      var n := |fin| - 1;
      var s := fin[n];
      FinsOf(e, sec, hasConflict, fin[..n]) +
      if hasConflict && Carried(sec, s) then [] else [s.(sql := e.rewrite(s.sql, sec.rewrites))]
  }

  predicate Renders(e: Engine, sec: Section, v: ItemValue) {
    Stripped(v) ==> RenderOf(e, sec, v).Some?
  }

  /** The post-data scripts one item contributes (nothing when its re-render fails: no dump then). */
  function PostOf(e: Engine, sec: Section, v: ItemValue): seq<Script>
    requires ValueOk(v)
  {
    if Stripped(v) then
      match RenderOf(e, sec, v)
      case Some(r) => FinsOf(e, sec, |ConflictsOf(sec, v.src.table)| > 0, r.fin)
      case None => []
    else ItemPost(v)
  }

  /** The create text one item ends up with. */
  function CreateOf(e: Engine, sec: Section, v: ItemValue): string {
    if Stripped(v) then
      match RenderOf(e, sec, v)
      case Some(r) => e.rewrite(r.create, sec.rewrites)
      case None => ""
    else if v.src.FromTable? then v.src.table.create else ""
  }

  predicate SectionsOk(sections: seq<Section>, ws: seq<ItemValue>) {
    forall i :: 0 <= i < |ws| ==> ws[i].sec < |sections|
  }

  predicate AllRender(e: Engine, sections: seq<Section>, ws: seq<ItemValue>)
    requires SectionsOk(sections, ws)
  {
    forall i :: 0 <= i < |ws| ==> Renders(e, sections[ws[i].sec], ws[i])
  }

  /** The deferred post-data scripts, in item order. */
  ghost function ExtraPost(e: Engine, sections: seq<Section>, ws: seq<ItemValue>): seq<Script>
    requires SectionsOk(sections, ws) && AllOk(ws)
  {
    if ws == [] then []
    else
      var n := |ws| - 1;
      ExtraPost(e, sections, ws[..n]) + PostOf(e, sections[ws[n].sec], ws[n])
  }

  /** An item's node before retargeting. */
  ghost function PlainNode(v: ItemValue): Node
    requires ValueOk(v)
  {
    Node(v.id, EffectiveDeps(v), "", BaseText(v), [])
  }

  method CarriedBy(sec: Section, s: Script) returns (b: bool)
    ensures b <==> Carried(sec, s)
  {
    if s.kind != STAGED_DEFAULT {
      return false;
    }
    for k := 0 to |sec.postData|
      invariant forall p :: p in sec.postData[..k] ==> !(p.kind == STAGED_DEFAULT && p.sql == s.sql)
    {
      if sec.postData[k].kind == STAGED_DEFAULT && sec.postData[k].sql == s.sql {
        return true;
      }
    }
    return false;
  }

  method RewriteFins(e: Engine, sec: Section, hasConflict: bool, fin: seq<Script>) returns (out: seq<Script>)
    ensures out == FinsOf(e, sec, hasConflict, fin)
  {
    out := [];
    for k := 0 to |fin|
      invariant out == FinsOf(e, sec, hasConflict, fin[..k])
    {
      assert fin[..k + 1][..k] == fin[..k];
      var carried := CarriedBy(sec, fin[k]);
      if !(hasConflict && carried) {
        out := out + [fin[k].(sql := e.rewrite(fin[k].sql, sec.rewrites))];
      }
    }
    assert fin[..|fin|] == fin;
  }

  /** The clause loop: kept text, pre-data bundle with its edges, and post-data finalizers. */
  method SortClauses(s: Script, cut: seq<bool>) returns (sql: string, bundle: seq<Script>, preDeps: seq<Id>, post: seq<Script>)
    requires |cut| == |s.clauses|
    ensures sql == s.sql + KeptText(s.clauses, cut)
    ensures bundle == Lane(s.clauses, cut, true) && preDeps == LaneDeps(s.clauses, cut)
    ensures post == Lane(s.clauses, cut, false)
  {
    var cs := s.clauses;
    sql, bundle, preDeps, post := s.sql, [], [], [];
    for i := 0 to |cs|
      invariant sql == s.sql + KeptText(cs[..i], cut[..i])
      invariant bundle == Lane(cs[..i], cut[..i], true) && preDeps == LaneDeps(cs[..i], cut[..i])
      invariant post == Lane(cs[..i], cut[..i], false)
    {
      assert cs[..i + 1][..i] == cs[..i] && cut[..i + 1][..i] == cut[..i];
      if !cut[i] {
        sql := sql + cs[i].text;
      } else if cs[i].preData {
        bundle := bundle + cs[i].finalize;
        preDeps := preDeps + cs[i].deps;
      } else {
        post := post + cs[i].finalize;
      }
    }
    assert cs[..|cs|] == cs && cut[..|cs|] == cut;
  }

  /** Resolves one item; final is its generated stage, if any. */
  method MaterializeItem(it: Item, sec: Section, e: Engine, ghost v: ItemValue)
    returns (ok: bool, final: Option<Item>, post: seq<Script>)
    requires it.src.Some? && it.finalOf == "" && it.bundle == [] && it.Value() == v && ValueOk(v)
    requires it.create == (if v.src.FromTable? then v.src.table.create else "")
    requires it.sqlText == ""
    modifies it
    ensures ok <==> Renders(e, sec, v)
    ensures ok ==> it.AsNode() == PlainNode(v) && it.create == CreateOf(e, sec, v) && post == PostOf(e, sec, v)
    ensures it.sccID == v.sccID
    ensures ok && HasFinal(v) ==> final.Some? && fresh(final.value) && final.value.AsNode() == FinalNode(v)
    ensures ok && HasFinal(v) ==> final.value.src == None
    ensures ok && !HasFinal(v) ==> final == None
  {
    ok, final, post := true, None, [];
    it.deps := EffectivePredataDeps(it);
    if it.src.value.FromScript? {
      var s := it.src.value.script;
      var sql, bundle, preDeps, lane := SortClauses(s, it.clauseCut);
      post := lane;
      if it.staged {
        var f := new Item.Final(it.id + FINAL, [it.id] + s.dependsOn, it.id, [Restored(s, sql)], it.sec);
        final := Some(f);
        sql := s.stub;
      } else if |bundle| > 0 {
        var f := new Item.Final(it.id + FINAL, [it.id] + preDeps, it.id, bundle, it.sec);
        final := Some(f);
      }
      it.sqlText := sql;
    } else if |it.stripDefaults| > 0 || |it.stripConstraints| > 0 {
      ok, post := RerenderTable(it, it.src.value.table, sec, e, v);
    }
  }

  method RerenderTable(it: Item, t: Table, sec: Section, e: Engine, ghost v: ItemValue) returns (ok: bool, post: seq<Script>)
    requires it.src == Some(FromTable(t)) && it.Value() == v && ValueOk(v) && Stripped(v)
    modifies it`stripDefaults, it`create
    ensures ok <==> Renders(e, sec, v)
    ensures ok ==> it.create == CreateOf(e, sec, v) && post == PostOf(e, sec, v)
  {
    post := [];
    var conflict := ConflictsOf(sec, t);
    var have := it.stripDefaults;
    for k := 0 to |conflict|
      invariant forall x :: x in it.stripDefaults <==> x in have || x in conflict[..k]
    {
      assert conflict[..k + 1] == conflict[..k] + [conflict[k]];
      if conflict[k] !in have {
        it.stripDefaults := it.stripDefaults + [conflict[k]];
      }
    }
    assert conflict[..|conflict|] == conflict;
    assert AsSet(it.stripDefaults) == StripUnion(v, sec);
    var r := e.render(t, AsSet(it.stripDefaults), AsSet(it.stripConstraints));
    ok := r.Some?;
    if ok {
      it.create := e.rewrite(r.value.create, sec.rewrites);
      post := RewriteFins(e, sec, |conflict| > 0, r.value.fin);
    }
  }

  ghost predicate ItemDone(it: Item, v: ItemValue, sec: Section, e: Engine)
    reads it
  {
    ValueOk(v) && Renders(e, sec, v) && it.AsNode() == PlainNode(v) && it.create == CreateOf(e, sec, v)
  }

  lemma DoneNow(it: Item, v: ItemValue, sec: Section, e: Engine)
    requires ValueOk(v) && Renders(e, sec, v) && it.AsNode() == PlainNode(v) && it.create == CreateOf(e, sec, v)
    ensures ItemDone(it, v, sec, e)
  {
  }

  /** The first n items have had their turn in the materialize loop. */
  ghost predicate Materialized(items: seq<Item>, ws: seq<ItemValue>, sections: seq<Section>, e: Engine, n: nat)
    requires n <= |items| == |ws| && SectionsOk(sections, ws)
    requires forall i :: 0 <= i < |items| ==> items[i].src.Some?
    reads items
  {
    && (forall i :: 0 <= i < n ==> ItemDone(items[i], ws[i], sections[ws[i].sec], e))
    && (forall i :: n <= i < |items| ==> items[i].Value() == ws[i])
    && (forall i :: 0 <= i < |items| ==> items[i].sccID == ws[i].sccID)
  }

  /** Fresh items, not yet materialized: no text, and the table's own create. */
  ghost predicate Untouched(items: seq<Item>, vs: seq<ItemValue>)
    requires |items| == |vs|
    reads items
  {
    forall i :: 0 <= i < |items| ==>
                  && items[i].sqlText == "" && items[i].bundle == []
                  && items[i].create == if vs[i].src.FromTable? then vs[i].src.table.create else ""
  }

  /** x is the id of an item with a generated stage. */
  ghost predicate HasFinalId(ws: seq<ItemValue>, x: Id)
    requires AllOk(ws)
  {
    exists i :: 0 <= i < |ws| && ws[i].id == x && HasFinal(ws[i])
  }

  /** stagedFinal: which ids have a generated stage. */
  ghost predicate StagedFinals(stagedFinal: map<Id, Id>, ws: seq<ItemValue>)
    requires AllOk(ws)
  {
    forall x :: (x in stagedFinal <==> HasFinalId(ws, x)) && (x in stagedFinal ==> stagedFinal[x] == x + FINAL)
  }

  lemma NoFinals(ws: seq<ItemValue>)
    requires ws == []
    ensures StagedFinals(map[], ws)
  {
  }

  lemma HasFinalStep(ws: seq<ItemValue>, i: nat)
    requires AllOk(ws) && i < |ws|
    ensures forall x :: HasFinalId(ws[..i + 1], x) <==> HasFinalId(ws[..i], x) || (x == ws[i].id && HasFinal(ws[i]))
  {
    hide HasFinal, ValueOk;
    var a, b := ws[..i], ws[..i + 1];
    forall x ensures HasFinalId(b, x) <==> HasFinalId(a, x) || (x == ws[i].id && HasFinal(ws[i])) {
      if HasFinalId(a, x) {
        var k :| 0 <= k < i && a[k].id == x && HasFinal(a[k]);
        assert b[k] == a[k];
      }
      if x == ws[i].id && HasFinal(ws[i]) {
        assert b[i] == ws[i];
      }
      if HasFinalId(b, x) {
        var k :| 0 <= k < i + 1 && b[k].id == x && HasFinal(b[k]);
        if k < i { assert a[k] == b[k]; }
      }
    }
  }

  /** What the loop has gathered over the items ws. */
  ghost predicate Gathered(finals: seq<Node>, stagedFinal: map<Id, Id>, post: seq<Script>,
                           ws: seq<ItemValue>, sections: seq<Section>, e: Engine)
  {
    && AllOk(ws) && SectionsOk(sections, ws) && AllRender(e, sections, ws)
    && finals == Finals(ws) && StagedFinals(stagedFinal, ws) && post == ExtraPost(e, sections, ws)
  }

  lemma GatherStep(finals: seq<Node>, finals': seq<Node>, stagedFinal: map<Id, Id>, stagedFinal': map<Id, Id>, post: seq<Script>, p: seq<Script>,
                   ws: seq<ItemValue>, i: nat, sections: seq<Section>, e: Engine)
    requires AllOk(ws) && SectionsOk(sections, ws) && i < |ws| && Renders(e, sections[ws[i].sec], ws[i])
    requires Gathered(finals, stagedFinal, post, ws[..i], sections, e) && p == PostOf(e, sections[ws[i].sec], ws[i])
    requires finals' == finals + if HasFinal(ws[i]) then [FinalNode(ws[i])] else []
    requires stagedFinal' == if HasFinal(ws[i]) then stagedFinal[ws[i].id := ws[i].id + FINAL] else stagedFinal
    ensures Gathered(finals', stagedFinal', post + p, ws[..i + 1], sections, e)
  {
    hide ValueOk, HasFinal, FinalNode, Renders, PostOf, HasFinalId;
    assert ws[..i + 1][..i] == ws[..i];
    HasFinalStep(ws, i);
  }

  /** One turn of the loop: the item resolved, and its stage and post-data gathered. */
  method GatherItem(it: Item, sec: Section, e: Engine, finals: seq<Item>, stagedFinal: map<Id, Id>, post: seq<Script>, ghost v: ItemValue)
    returns (ok: bool, finals': seq<Item>, stagedFinal': map<Id, Id>, post': seq<Script>)
    requires it.src.Some? && it.finalOf == "" && it.bundle == [] && it.Value() == v && ValueOk(v) && it.sqlText == ""
    requires it.create == (if v.src.FromTable? then v.src.table.create else "")
    requires it !in finals && forall f :: f in finals ==> f.src == None
    modifies it
    ensures (ok <==> Renders(e, sec, v)) && it.sccID == v.sccID
    ensures ok ==> ItemDone(it, v, sec, e) && post' == post + PostOf(e, sec, v)
    ensures ok ==> NodesOf(finals') == old(NodesOf(finals)) + if HasFinal(v) then [FinalNode(v)] else []
    ensures ok ==> stagedFinal' == if HasFinal(v) then stagedFinal[v.id := v.id + FINAL] else stagedFinal
    ensures forall f :: f in finals' ==> f.src == None && (f in finals || fresh(f))
  {
    hide ValueOk, HasFinal, FinalNode, PlainNode, Renders, CreateOf, PostOf;
    finals', stagedFinal', post' := finals, stagedFinal, post;
    ghost var nodes := NodesOf(finals);
    var final, p;
    ok, final, p := MaterializeItem(it, sec, e, v);
    if !ok {
      return;
    }
    DoneNow(it, v, sec, e);
    assert NodesOf(finals) == nodes;
    if final.Some? {
      assert NodesOf(finals + [final.value]) == nodes + [final.value.AsNode()];
      finals' := finals + [final.value];
      stagedFinal' := stagedFinal[it.id := it.id + FINAL];
    }
    post' := post + p;
  }

  method MaterializeAll(items: seq<Item>, sections: seq<Section>, e: Engine, ghost ws: seq<ItemValue>)
    returns (ok: bool, finals: seq<Item>, stagedFinal: map<Id, Id>, post: seq<Script>)
    requires Holds(items, ws) && ValuesOk(ws) && SectionsOk(sections, ws) && Untouched(items, ws)
    modifies items
    ensures ok <==> AllRender(e, sections, ws)
    ensures ok ==> Materialized(items, ws, sections, e, |items|)
    ensures ok ==> Gathered(NodesOf(finals), stagedFinal, post, ws, sections, e)
    ensures forall f :: f in finals ==> f.src == None && fresh(f)
  {
    hide ValueOk, HasFinal, FinalNode, PlainNode, Renders, CreateOf, PostOf, UniqueIds, ItemDone, Gathered;
    ok, finals, stagedFinal, post := true, [], map[], [];
    assert NodesOf(finals) == [];
    NoneGathered(ws[..0], sections, e);
    for i := 0 to |items|
      invariant Materialized(items, ws, sections, e, i)
      invariant forall k :: i <= k < |items| ==> items[k].sqlText == "" && items[k].create == (if ws[k].src.FromTable? then ws[k].src.table.create else "")
      invariant Gathered(NodesOf(finals), stagedFinal, post, ws[..i], sections, e)
      invariant forall f :: f in finals ==> f.src == None && fresh(f)
    {
      var it := items[i];
      assert it.Value() == ws[i] && ValueOk(ws[i]);
      ghost var nodes, marks, sent := NodesOf(finals), stagedFinal, post;
      ok, finals, stagedFinal, post := GatherItem(it, sections[it.sec], e, finals, stagedFinal, post, ws[i]);
      if !ok {
        return;
      }
      GatherStep(nodes, NodesOf(finals), marks, stagedFinal, sent, PostOf(e, sections[ws[i].sec], ws[i]), ws, i, sections, e);
    }
    assert ws[..|ws|] == ws;
    assert AllRender(e, sections, ws) by { GatheredRender(NodesOf(finals), stagedFinal, post, ws, sections, e); }
  }

  lemma NoneGathered(ws: seq<ItemValue>, sections: seq<Section>, e: Engine)
    requires ws == []
    ensures Gathered([], map[], [], ws, sections, e)
  {
  }

  lemma GatheredRender(finals: seq<Node>, stagedFinal: map<Id, Id>, post: seq<Script>,
                       ws: seq<ItemValue>, sections: seq<Section>, e: Engine)
    requires Gathered(finals, stagedFinal, post, ws, sections, e)
    ensures SectionsOk(sections, ws) && AllRender(e, sections, ws)
  {
  }

  // --- retargeting ------------------------------------------------------------------------------------

  /** An item's node in the stream. */
  ghost predicate Targeted(items: seq<Item>, ws: seq<ItemValue>, n: nat)
    requires n <= |items| == |ws| && ValuesOk(ws)
    reads items
  {
    && (forall i :: 0 <= i < n ==> items[i].AsNode() == BaseNode(ws, ws[i]))
    && (forall i :: n <= i < |items| ==> items[i].AsNode() == PlainNode(ws[i]))
    && (forall i :: 0 <= i < |items| ==> items[i].sccID == ws[i].sccID)
  }

  method RetargetAll(items: seq<Item>, index: map<Id, Item>, stagedFinal: map<Id, Id>, ghost ws: seq<ItemValue>)
    requires DistinctItems(items) && |items| == |ws| && ValuesOk(ws) && Indexed(items, index) && Targeted(items, ws, 0)
    requires StagedFinals(stagedFinal, ws)
    modifies items`deps
    ensures Targeted(items, ws, |items|)
  {
    hide StagedFinals, ValueOk, EffectiveDeps, BaseText, UniqueIds, Retarget, Indexed;
    for i := 0 to |items|
      invariant Targeted(items, ws, i)
    {
      RetargetItem(items, index, stagedFinal, items[i], ws, i);
    }
  }

  /** The edge loop of one item. */
  method RetargetItem(items: seq<Item>, index: map<Id, Item>, stagedFinal: map<Id, Id>, it: Item, ghost ws: seq<ItemValue>, ghost i: nat)
    requires |items| == |ws| && ValuesOk(ws) && Indexed(items, index) && StagedFinals(stagedFinal, ws)
    requires i < |items| && it == items[i] && it.AsNode() == PlainNode(ws[i])
    requires forall j :: 0 <= j < |items| ==> items[j].id == ws[j].id && items[j].sccID == ws[j].sccID
    modifies it`deps
    ensures it.AsNode() == BaseNode(ws, ws[i])
  {
    hide StagedFinals, ValueOk, EffectiveDeps, BaseText, UniqueIds, RetargetOne, Indexed;
    ghost var plain := EffectiveDeps(ws[i]);
    for k := 0 to |it.deps|
      invariant |it.deps| == |plain| && it.AsNode() == PlainNode(ws[i]).(deps := it.deps)
      invariant forall m :: 0 <= m < k ==> it.deps[m] == RetargetOne(ws, ws[i], plain[m])
      invariant forall m :: k <= m < |plain| ==> it.deps[m] == plain[m]
    {
      var t := TargetOf(items, index, stagedFinal, it, it.deps[k], ws, i);
      it.deps := it.deps[k := t];
    }
    assert it.deps == Retarget(ws, ws[i]);
  }

  method TargetOf(items: seq<Item>, index: map<Id, Item>, stagedFinal: map<Id, Id>, it: Item, dep: Id,
                  ghost ws: seq<ItemValue>, ghost i: nat) returns (t: Id)
    requires |items| == |ws| && ValuesOk(ws) && Indexed(items, index) && StagedFinals(stagedFinal, ws)
    requires i < |ws| && it == items[i]
    requires forall j :: 0 <= j < |items| ==> items[j].id == ws[j].id && items[j].sccID == ws[j].sccID
    ensures t == RetargetOne(ws, ws[i], dep)
  {
    hide ValueOk, HasFinal;
    t := dep;
    if dep in stagedFinal {
      ghost var j :| 0 <= j < |ws| && ws[j].id == dep && HasFinal(ws[j]);
      assert items[j].id == dep;
      if dep in index {
        var target := index[dep];
        assert target == items[j];
        if it.sccID == 0 || it.sccID != target.sccID {
          t := stagedFinal[dep];
        }
      }
    } else {
      assert !HasFinalId(ws, dep);
    }
  }

  // --- the sort ---------------------------------------------------------------------------------------

  /** The arguments of the final TopoOrder call, and the map that reads its answer back. */
  method StreamIndex(all: seq<Item>) returns (g: Graph, byID: map<Id, Item>)
    requires forall i, j :: 0 <= i < j < |all| ==> all[i].id != all[j].id
    ensures StreamGraph(g, NodesOf(all))
    ensures forall n :: n in byID <==> n in g.names
    ensures forall n :: n in byID ==> byID[n].id == n && byID[n] in all
  {
    var names: seq<Id>, deps: map<Id, seq<Id>> := [], map[];
    byID := map[];
    for k := 0 to |all|
      invariant |names| == k && forall j :: 0 <= j < k ==> names[j] == all[j].id
      invariant forall j :: 0 <= j < k ==> all[j].id in deps && deps[all[j].id] == all[j].deps
      invariant forall n :: n in byID <==> n in names
      invariant forall n :: n in byID ==> byID[n].id == n && byID[n] in all
    {
      names := names + [all[k].id];
      deps := deps[all[k].id := all[k].deps];
      byID := byID[all[k].id := all[k]];
    }
    g := Graph(names, deps);
  }

  /** The emitted stream is the sorted one: every node once, and after the nodes it needs. */
  method SortStream(all: seq<Item>, ghost vs: seq<ItemValue>, ghost ws: seq<ItemValue>) returns (order: seq<Item>)
    requires Input(vs) && Resolved(vs, ws) && Resolvable(vs) && ValuesOk(ws)
    requires NodesOf(all) == Stream(ws)
    ensures SortedStream(ws, NodesOf(order)) && Stable(Stream(ws), NodesOf(order))
    ensures forall k :: 0 <= k < |order| ==> order[k] in all
  {
    hide GraphOf, Reach, Stream, Input, Resolved, Resolvable, ValuesOk, StreamGraph, Ordered, Sorted, RootsFollow, Permutes,
         SortedStream, Stable, NodesOf;
    ghost var nodes := NodesOf(all);
    StreamIdsUnique(vs, ws);
    IdsOf(all);
    var g, byID := StreamIndex(all);
    var out := TopoOrder.TopoOrder(g);
    InNames(g, out);
    order := ReadBack(all, out, g, byID);
    IdsOf(order);
    SortFacts(g, vs, ws, nodes, out, NodesOf(order));
  }

  lemma IdsOf(items: seq<Item>)
    ensures |NodesOf(items)| == |items| && forall i :: 0 <= i < |items| ==> NodesOf(items)[i].id == items[i].id
  {
  }

  lemma GraphDistinct(g: Graph, nodes: seq<Node>)
    requires StreamGraph(g, nodes) && forall i, j :: 0 <= i < j < |nodes| ==> nodes[i].id != nodes[j].id
    ensures Distinct(g.names) && |g.names| == |nodes|
  {
  }

  lemma InNames(g: Graph, out: seq<Id>)
    requires Permutes(g, out)
    ensures forall n :: n in out ==> n in g.names
  {
  }

  lemma SortFacts(g: Graph, vs: seq<ItemValue>, ws: seq<ItemValue>, nodes: seq<Node>, out: seq<Id>, sorted: seq<Node>)
    requires Input(vs) && Resolved(vs, ws) && Resolvable(vs) && ValuesOk(ws)
    requires nodes == Stream(ws) && StreamGraph(g, nodes)
    requires forall i, j :: 0 <= i < j < |nodes| ==> nodes[i].id != nodes[j].id
    requires Permutes(g, out) && Ordered(g, out) && (Sorted(g) ==> out == g.names) && RootsFollow(g, out, |g.names|)
    requires |sorted| == |out| && forall k :: 0 <= k < |out| ==> sorted[k].id == out[k] && sorted[k] in nodes
    ensures SortedStream(ws, sorted) && Stable(nodes, sorted)
  {
    hide GraphOf, Reach, Stream, Input, Resolved, Resolvable, ValuesOk, StreamGraph, Ordered, Sorted, RootsFollow,
         SortedStream, Stable;
    StreamAcyclic(g, vs, ws);
    SortedIs(g, ws, nodes, out, sorted);
    GraphDistinct(g, nodes);
    SameLength(g.names, out);
    StableIs(g, nodes, out, sorted);
  }

  method ReadBack(all: seq<Item>, out: seq<Id>, ghost g: Graph, byID: map<Id, Item>) returns (order: seq<Item>)
    requires (forall n :: n in out ==> n in byID) && forall n :: n in byID ==> byID[n].id == n && byID[n] in all
    ensures |order| == |out| && forall k :: 0 <= k < |order| ==> order[k] in all
    ensures forall k :: 0 <= k < |order| ==> NodesOf(order)[k].id == out[k] && NodesOf(order)[k] in NodesOf(all)
  {
    order := [];
    for k := 0 to |out|
      invariant |order| == k
      invariant forall j :: 0 <= j < k ==> order[j] in all && order[j].id == out[j]
    {
      order := order + [byID[out[k]]];
    }
    forall k | 0 <= k < |order| ensures NodesOf(order)[k] in NodesOf(all) {
      var j :| 0 <= j < |all| && all[j] == order[k];
      assert NodesOf(all)[j] == NodesOf(order)[k];
    }
  }
}
