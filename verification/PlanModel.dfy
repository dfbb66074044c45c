/** The values the SQL dump planner works on, and what its cycle resolution amounts to, over paths and without search. */
module PlanModel {
  import opened Graphs
  import opened TopoOrder
  import opened Text

  /** driver.DropForm: how one object's DROP may be merged into a multi-object DROP. */
  datatype DropForm = DropForm(class_: string, ref: string, routineRef: string)

  /** driver.DumpClause: a trailing clause the planner may defer. */
  datatype Clause = Clause(text: string, deps: seq<Id>, finalize: seq<Script>, preData: bool)

  /** driver.DumpScript, without the fields only the byte-level writer reads. */
  datatype Script = Script(kind: string, comment: string, drop: string, sql: string, dropInline: bool,
                           stageOf: Id, form: DropForm, name: Id, dependsOn: seq<Id>,
                           clauses: seq<Clause>, stub: string, stubDeps: seq<Id>)

  /** One entry of DumpTableNode's two maps: a column default or a constraint, and what it needs.
      The list order stands for the (arbitrary) map iteration order. */
  datatype Deferrable = Deferrable(name: string, deps: seq<Id>)

  /** A table create with its graph node. */
  datatype Table = Table(title: string, qualified: string, create: string, node: Id, deps: seq<Id>,
                         defaults: seq<Deferrable>, constraints: seq<Deferrable>)

  datatype Source = FromScript(script: Script) | FromTable(table: Table)

  /** A pre-data item during resolution. */
  datatype ItemValue = ItemValue(id: Id, src: Source, sec: nat, clauseCut: seq<bool>,
                                 stripDefaults: seq<string>, stripConstraints: seq<string>,
                                 staged: bool, sccID: nat)

  /** An entry of the resolved pre-data stream: a base item or a generated "-final" stage. */
  datatype Node = Node(id: Id, deps: seq<Id>, finalOf: Id, sqlText: string, bundle: seq<Script>)

  const FINAL: string := "-final"

  ghost predicate ValueOk(v: ItemValue) {
    match v.src
    case FromScript(s) => |v.clauseCut| == |s.clauses|
    case FromTable(_) => !v.staged
  }

  // --- edges -------------------------------------------------------------------------------------

  /** The edges of the clauses that have not been cut. */
  function KeptDeps(cs: seq<Clause>, cut: seq<bool>): seq<Id>
    requires |cs| == |cut|
  {
    if cs == [] then []
    else
      var n := |cs| - 1;
      KeptDeps(cs[..n], cut[..n]) + if cut[n] then [] else cs[n].deps
  }

  /** The edges of the entries that have not been stripped. */
  function UnstrippedDeps(ds: seq<Deferrable>, stripped: seq<string>): seq<Id> {
    if ds == [] then []
    else
      var n := |ds| - 1;
      UnstrippedDeps(ds[..n], stripped) + if ds[n].name in stripped then [] else ds[n].deps
  }

  /** effectivePredataDeps: an item's current edges. */
  function EffectiveDeps(v: ItemValue): seq<Id>
    requires ValueOk(v)
  {
    match v.src
    case FromScript(s) => if v.staged then s.stubDeps else s.dependsOn + KeptDeps(s.clauses, v.clauseCut)
    case FromTable(t) => t.deps + UnstrippedDeps(t.defaults, v.stripDefaults)
                                + UnstrippedDeps(t.constraints, v.stripConstraints)
  }

  ghost predicate UniqueIds(vs: seq<ItemValue>) {
    forall i, j :: 0 <= i < j < |vs| ==> vs[i].id != vs[j].id
  }

  ghost predicate ValuesOk(vs: seq<ItemValue>) {
    UniqueIds(vs) && forall i :: 0 <= i < |vs| ==> ValueOk(vs[i])
  }

  ghost function Ids(vs: seq<ItemValue>): seq<Id> {
    seq(|vs|, i requires 0 <= i < |vs| => vs[i].id)
  }

  /** The graph over the items' current edges. */
  ghost function GraphOf(vs: seq<ItemValue>): Graph
    requires ValuesOk(vs)
  {
    Graph(Ids(vs), map i | 0 <= i < |vs| :: vs[i].id := EffectiveDeps(vs[i]))
  }

  lemma EdgeOf(vs: seq<ItemValue>, i: nat, d: Id)
    requires ValuesOk(vs) && i < |vs|
    ensures Edge(GraphOf(vs), vs[i].id, d) <==> d in Ids(vs) && d in EffectiveDeps(vs[i])
  {
    assert Ids(vs)[i] == vs[i].id;
    assert vs[i].id in GraphOf(vs).deps;
    assert GraphOf(vs).deps[vs[i].id] == EffectiveDeps(vs[i]);
  }

  /** Every edge belongs to an item. */
  lemma EdgeSource(vs: seq<ItemValue>, u: Id, d: Id) returns (i: nat)
    requires ValuesOk(vs) && Edge(GraphOf(vs), u, d)
    ensures i < |vs| && vs[i].id == u && d in EffectiveDeps(vs[i]) && d in Ids(vs)
  {
    i :| 0 <= i < |vs| && Ids(vs)[i] == u;
    EdgeOf(vs, i, d);
  }

  // --- resolution, stated over paths ---------------------------------------------------------------

  /** One of the edges in deps, taken from x, lies on a cycle. */
  ghost predicate ClosesCycle(g: Graph, x: Id, deps: seq<Id>) {
    exists d :: d in deps && d in g.names && Reach(g, d, x)
  }

  ghost function CutFlags(g: Graph, x: Id, cs: seq<Clause>): seq<bool> {
    seq(|cs|, i requires 0 <= i < |cs| => ClosesCycle(g, x, cs[i].deps))
  }

  /** The names of the entries with an edge on a cycle, in order. */
  ghost function StripNames(g: Graph, x: Id, ds: seq<Deferrable>): seq<string> {
    if ds == [] then []
    else
      var n := |ds| - 1;
      StripNames(g, x, ds[..n]) + if ClosesCycle(g, x, ds[n].deps) then [ds[n].name] else []
  }

  /** Round one: every deferrable edge that lies on a cycle is cut, and no other. */
  ghost function CutValue(g: Graph, v: ItemValue): ItemValue
    requires ValueOk(v)
  {
    match v.src
    case FromScript(s) => v.(clauseCut := CutFlags(g, v.id, s.clauses))
    case FromTable(t) => v.(stripDefaults := StripNames(g, v.id, t.defaults),
                            stripConstraints := StripNames(g, v.id, t.constraints))
  }

  /** Round two: the routines still on a cycle are staged. */
  ghost function StageValue(g: Graph, v: ItemValue): ItemValue
    requires ValueOk(v)
  {
    match v.src
    case FromScript(s) => v.(staged := s.stub != "" && OnCycle(g, v.id))
    case FromTable(_) => v
  }

  ghost function CutAll(vs: seq<ItemValue>): (ws: seq<ItemValue>)
    requires ValuesOk(vs)
    ensures ValuesOk(ws) && Ids(ws) == Ids(vs)
  {
    seq(|vs|, i requires 0 <= i < |vs| => CutValue(GraphOf(vs), vs[i]))
  }

  ghost function StageAll(vs: seq<ItemValue>): (ws: seq<ItemValue>)
    requires ValuesOk(vs)
    ensures ValuesOk(ws) && Ids(ws) == Ids(vs)
  {
    seq(|vs|, i requires 0 <= i < |vs| => StageValue(GraphOf(vs), vs[i]))
  }

  /** The fields a fresh item starts with. */
  ghost predicate Initial(vs: seq<ItemValue>) {
    forall i :: 0 <= i < |vs| ==>
                  && !vs[i].staged && vs[i].sccID == 0 && vs[i].stripDefaults == [] && vs[i].stripConstraints == []
                  && forall k :: 0 <= k < |vs[i].clauseCut| ==> !vs[i].clauseCut[k]
  }

  /** The resolution succeeds exactly when this holds. */
  ghost predicate Resolvable(vs: seq<ItemValue>)
    requires ValuesOk(vs)
  {
    Acyclic(GraphOf(StageAll(CutAll(vs))))
  }

  /** The cycle numbers the resolver hands out: none off cycles, and equal exactly within a cycle class. */
  ghost predicate Numbering(vs: seq<ItemValue>, ws: seq<ItemValue>)
    requires ValuesOk(vs)
  {
    && |ws| == |vs|
    && (forall i :: 0 <= i < |vs| ==> (ws[i].sccID != 0 <==> OnCycle(GraphOf(vs), vs[i].id)))
    && (forall i, j :: 0 <= i < |vs| && 0 <= j < |vs| && ws[i].sccID != 0 ==>
                         (ws[i].sccID == ws[j].sccID <==> Mutual(GraphOf(vs), vs[i].id, vs[j].id)))
  }

  /** ws is vs after both rounds, up to the cycle numbers, which are a Numbering. */
  ghost predicate Resolved(vs: seq<ItemValue>, ws: seq<ItemValue>)
    requires ValuesOk(vs)
  {
    && |ws| == |vs| && Numbering(vs, ws)
    && forall i :: 0 <= i < |vs| ==> ws[i].(sccID := 0) == StageAll(CutAll(vs))[i].(sccID := 0)
  }

  // --- what is emitted -------------------------------------------------------------------------------

  /** The create's text with the kept clauses appended. */
  function KeptText(cs: seq<Clause>, cut: seq<bool>): string
    requires |cs| == |cut|
  {
    if cs == [] then ""
    else
      var n := |cs| - 1;
      KeptText(cs[..n], cut[..n]) + if cut[n] then "" else cs[n].text
  }

  /** The finalizers of the cut clauses in one lane. */
  function Lane(cs: seq<Clause>, cut: seq<bool>, preData: bool): seq<Script>
    requires |cs| == |cut|
  {
    if cs == [] then []
    else
      var n := |cs| - 1;
      Lane(cs[..n], cut[..n], preData) + if cut[n] && cs[n].preData == preData then cs[n].finalize else []
  }

  /** The edges of the clauses cut into the pre-data lane. */
  function LaneDeps(cs: seq<Clause>, cut: seq<bool>): seq<Id>
    requires |cs| == |cut|
  {
    if cs == [] then []
    else
      var n := |cs| - 1;
      LaneDeps(cs[..n], cut[..n]) + if cut[n] && cs[n].preData then cs[n].deps else []
  }

  /** All finalizers of the cut clauses. */
  function CutFinalizers(cs: seq<Clause>, cut: seq<bool>): seq<Script>
    requires |cs| == |cut|
  {
    if cs == [] then []
    else
      var n := |cs| - 1;
      CutFinalizers(cs[..n], cut[..n]) + if cut[n] then cs[n].finalize else []
  }

  predicate HasFinal(v: ItemValue)
    requires ValueOk(v)
  {
    v.src.FromScript? && (v.staged || |Lane(v.src.script.clauses, v.clauseCut, true)| > 0)
  }

  /** The generated later stage of a staged routine or of a script with pre-data finalizers. */
  ghost function FinalNode(v: ItemValue): Node
    requires ValueOk(v) && HasFinal(v)
  {
    var s := v.src.script;
    if v.staged then
      Node(v.id + FINAL, [v.id] + s.dependsOn, v.id, "", [Restored(s, s.sql + KeptText(s.clauses, v.clauseCut))])
    else
      Node(v.id + FINAL, [v.id] + LaneDeps(s.clauses, v.clauseCut), v.id, "", Lane(s.clauses, v.clauseCut, true))
  }

  const RESTORED: string := " (restored body/defaults)"

  /** The original routine, replayed over its stub. */
  function Restored(s: Script, sql: string): Script {
    s.(sql := sql, comment := TrimSpace(s.comment + RESTORED))
  }

  function BaseText(v: ItemValue): string
    requires ValueOk(v)
  {
    match v.src
    case FromScript(s) => if v.staged then s.stub else s.sql + KeptText(s.clauses, v.clauseCut)
    case FromTable(_) => ""
  }

  /** An edge to an object with a final stage waits for that stage, except inside its own cycle. */
  ghost function RetargetOne(vs: seq<ItemValue>, v: ItemValue, d: Id): Id
    requires ValuesOk(vs)
  {
    if exists j :: 0 <= j < |vs| && vs[j].id == d && HasFinal(vs[j]) && (v.sccID == 0 || v.sccID != vs[j].sccID)
    then d + FINAL else d
  }

  ghost function Retarget(vs: seq<ItemValue>, v: ItemValue): seq<Id>
    requires ValuesOk(vs) && ValueOk(v)
  {
    var deps := EffectiveDeps(v);
    seq(|deps|, k requires 0 <= k < |deps| => RetargetOne(vs, v, deps[k]))
  }

  ghost function BaseNode(vs: seq<ItemValue>, v: ItemValue): Node
    requires ValuesOk(vs) && ValueOk(v)
  {
    Node(v.id, Retarget(vs, v), "", BaseText(v), [])
  }

  ghost function Finals(vs: seq<ItemValue>): seq<Node>
    requires forall i :: 0 <= i < |vs| ==> ValueOk(vs[i])
  {
    if vs == [] then []
    else
      var n := |vs| - 1;
      Finals(vs[..n]) + if HasFinal(vs[n]) then [FinalNode(vs[n])] else []
  }

  ghost function BaseNodes(vs: seq<ItemValue>): seq<Node>
    requires ValuesOk(vs)
  {
    seq(|vs|, i requires 0 <= i < |vs| => BaseNode(vs, vs[i]))
  }

  /** The stream handed to the topological sort: the items, then the generated stages. */
  ghost function Stream(vs: seq<ItemValue>): seq<Node>
    requires ValuesOk(vs)
  {
    BaseNodes(vs) + Finals(vs)
  }

  // --- the caller's side -------------------------------------------------------------------------------

  /** Every edge an item was collected with. */
  ghost predicate Mentions(v: ItemValue, d: Id) {
    match v.src
    case FromScript(s) => d in s.dependsOn || d in s.stubDeps || exists k :: 0 <= k < |s.clauses| && d in s.clauses[k].deps
    case FromTable(t) => || d in t.deps
                         || (exists k :: 0 <= k < |t.defaults| && d in t.defaults[k].deps)
                         || (exists k :: 0 <= k < |t.constraints| && d in t.constraints[k].deps)
  }

  /** Generated ids are fresh: no item bears one and no edge names one. */
  ghost predicate FinalsFresh(vs: seq<ItemValue>) {
    && (forall i, j :: 0 <= i < |vs| && 0 <= j < |vs| ==> vs[i].id + FINAL != vs[j].id)
    && (forall i, j :: 0 <= i < |vs| && 0 <= j < |vs| ==> !Mentions(vs[i], vs[j].id + FINAL))
  }

  /** A stub's signature edges are among the routine's own. */
  ghost predicate StubsReduce(vs: seq<ItemValue>) {
    forall i, d :: 0 <= i < |vs| && vs[i].src.FromScript? && d in vs[i].src.script.stubDeps ==>
                     d in vs[i].src.script.dependsOn
  }
}
