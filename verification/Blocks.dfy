/** How the splitter follows the nesting of BEGIN and CASE in a routine body, over the words and separators it sees. */
module Blocks {
  import opened Wrappers
  import opened Lexer
  import opened Weave

  datatype Atom = Word(w: string) | Semi | Punct(c: char) | Quote(lit: Lit)

  /** The nesting depth the splitter keeps, and whether an END is waiting for the word that tells what it closes. */
  datatype Nest = Nest(depth: nat, pendingEnd: bool)

  /** Words after an END that make it something other than the end of a block or a CASE expression. */
  const CLOSERS: set<string> := {"IF", "LOOP", "WHILE", "REPEAT", "CASE"}

  function Closed(n: Nest): Nest {
    Nest(if n.depth > 0 then n.depth - 1 else 0, false)
  }

  function Opened(n: Nest, up: string): Nest {
    if up == "BEGIN" || up == "CASE" then n.(depth := n.depth + 1) else if up == "END" && n.depth > 0 then n.(pendingEnd := true) else n
  }

  /** A word, inside a routine. */
  function AfterWord(n: Nest, up: string): Nest {
    if !n.pendingEnd then Opened(n, up)
    else if up == "CASE" then Closed(n)
    else if up in COMPOUNDS then n.(pendingEnd := false)
    else Opened(Closed(n), up)
  }

  /** One atom more; None if it ends the statement. */
  function After(n: Nest, a: Atom): Option<Nest> {
    match a
    case Word(w) => Some(AfterWord(n, AsciiUpper(w)))
    case Semi =>
      var m := if n.pendingEnd then Closed(n) else n;
      if m.depth > 0 then Some(m) else None
    case Punct(_) => Some(n)
    case Quote(_) => Some(n)
  }

  function AfterAll(n: Nest, atoms: seq<Atom>): Option<Nest>
    decreases |atoms|
  {
    if atoms == [] then Some(n)
    else
      match After(n, atoms[0])
      case None => None
      case Some(m) => AfterAll(m, atoms[1..])
  }

  lemma {:induction false} AfterBoth(n: Nest, a: seq<Atom>, b: seq<Atom>)
    ensures AfterAll(n, a + b) == match AfterAll(n, a) case None => None case Some(m) => AfterAll(m, b)
    decreases |a|
  {
    hide After;
    if a == [] {
      assert a + b == b;
    } else {
      assert (a + b)[1..] == a[1..] + b;
      if After(n, a[0]).Some? {
        AfterBoth(After(n, a[0]).value, a[1..], b);
      }
    }
  }

  // --- routine bodies ------------------------------------------------------------------------------------

  /** What a body consists of.  Block is BEGIN ... END or the expression CASE ... END. */
  datatype Part = Plain(a: Atom)
                | EndCompound(end: string, kind: string)
                | Block(open: string, body: seq<Part>, end: string)
                | CaseStatement(open: string, body: seq<Part>, end: string, kind: string)

  predicate Is(w: string, up: string) {
    AsciiUpper(w) == up
  }

  predicate GoodPart(u: Part)
    decreases u
  {
    match u
    case Plain(a) => a.Word? ==> AsciiUpper(a.w) !in {"BEGIN", "CASE", "END"}
    case EndCompound(e, k) => Is(e, "END") && AsciiUpper(k) in COMPOUNDS
    case Block(o, body, e) => (Is(o, "BEGIN") || Is(o, "CASE")) && Is(e, "END") && forall v :: v in body ==> GoodPart(v)
    case CaseStatement(o, body, e, k) => Is(o, "CASE") && Is(e, "END") && Is(k, "CASE") && forall v :: v in body ==> GoodPart(v)
  }

  function PartAtoms(u: Part): seq<Atom>
    decreases u, 1
  {
    match u
    case Plain(a) => [a]
    case EndCompound(e, k) => [Word(e), Word(k)]
    case Block(o, body, e) => [Word(o)] + (BodyAtoms(body) + [Word(e)])
    case CaseStatement(o, body, e, k) => [Word(o)] + (BodyAtoms(body) + [Word(e), Word(k)])
  }

  function BodyAtoms(us: seq<Part>): seq<Atom>
    decreases us, 0
  {
    if us == [] then [] else PartAtoms(us[0]) + BodyAtoms(us[1..])
  }

  // --- how the splitter reads them -----------------------------------------------------------------------

  /** What reading a part comes to: how far the level it leaves is from the level before the part, which is where it belongs, and
      whether an END that closes a block or a CASE expression is waiting for a word. */
  datatype Reading = Reading(drift: int, waiting: bool)

  /** A CASE right after such an END is taken for END CASE, and opens nothing. */
  function Opens(o: string, before: bool): nat {
    if before && Is(o, "CASE") then 0 else 1
  }

  /** The drift counts what is misread: IF, LOOP, WHILE and REPEAT right after such an END, which is then taken for the end of a
      compound and closes nothing; a CASE there; and an END at level 0, which is not seen. */
  function ReadPart(u: Part, level: nat, before: bool): (r: Reading)
    ensures level + r.drift >= 0
    decreases u, 1
  {
    match u
    case Plain(a) => Reading(if before && a.Word? && AsciiUpper(a.w) in COMPOUNDS then 1 else 0, before && (a.Punct? || a.Quote?))
    case EndCompound(_, _) => Reading(0, false)
    case Block(o, body, _) =>
      var l := level + Opens(o, before);
      var d := ReadBody(body, l, false).drift;
      Reading(Opens(o, before) - 1 + d + if l + d > 0 then 0 else 1, l + d > 0)
    case CaseStatement(o, body, _, _) =>
      var l := level + Opens(o, before);
      var d := ReadBody(body, l, false).drift;
      Reading(Opens(o, before) - 1 + d + if l + d > 0 then 0 else 2, false)
  }

  function ReadBody(us: seq<Part>, level: nat, before: bool): (r: Reading)
    ensures level + r.drift >= 0
    decreases us, 0
  {
    if us == [] then Reading(0, before)
    else
      var r := ReadPart(us[0], level, before);
      var q := ReadBody(us[1..], level + r.drift, r.waiting);
      Reading(r.drift + q.drift, q.waiting)
  }

  /** No separator is met at level 0. */
  predicate PartEncloses(u: Part, level: nat, before: bool)
    decreases u, 1
  {
    match u
    case Plain(a) => a.Semi? ==> level > 0
    case EndCompound(_, _) => true
    case Block(o, body, _) => BodyEncloses(body, level + Opens(o, before), false)
    case CaseStatement(o, body, _, _) => BodyEncloses(body, level + Opens(o, before), false)
  }

  predicate BodyEncloses(us: seq<Part>, level: nat, before: bool)
    decreases us, 0
  {
    us != [] ==>
      && PartEncloses(us[0], level, before)
      && var r := ReadPart(us[0], level, before); BodyEncloses(us[1..], level + r.drift, r.waiting)
  }

  /** The depth, counting an END that waits as closed. */
  function Level(n: Nest): int {
    n.depth - if n.pendingEnd then 1 else 0
  }

  predicate At(n: Nest, level: nat, waiting: bool) {
    Level(n) == level && n.pendingEnd == waiting
  }

  lemma WordOpens(n: Nest, level: nat, waiting: bool, o: string)
    requires At(n, level, waiting) && (Is(o, "BEGIN") || Is(o, "CASE"))
    ensures At(AfterWord(n, AsciiUpper(o)), level + Opens(o, waiting), false)
  {
    hide AsciiUpper;
  }

  lemma WordEnds(n: Nest, level: nat, waiting: bool)
    requires At(n, level, waiting)
    ensures At(AfterWord(n, "END"), if level > 0 then level - 1 else 0, level > 0)
  {
  }

  lemma WordCloses(n: Nest, level: nat, waiting: bool, up: string)
    requires At(n, level, waiting)
    ensures up in COMPOUNDS ==> At(AfterWord(n, up), level + if waiting then 1 else 0, false)
    ensures up == "CASE" ==> At(AfterWord(n, up), level + if waiting then 0 else 1, false)
  {
  }

  lemma WordPasses(n: Nest, level: nat, waiting: bool, up: string)
    requires At(n, level, waiting) && up !in {"BEGIN", "CASE", "END"}
    ensures At(AfterWord(n, up), level + if waiting && up in COMPOUNDS then 1 else 0, false)
  {
  }

  lemma TwoWords(n: Nest, a: string, b: string)
    ensures AfterAll(n, [Word(a), Word(b)]) == Some(AfterWord(AfterWord(n, AsciiUpper(a)), AsciiUpper(b)))
    ensures AfterAll(n, [Word(a)]) == Some(AfterWord(n, AsciiUpper(a)))
  {
    var m := AfterWord(n, AsciiUpper(a));
    var l := AfterWord(m, AsciiUpper(b));
    assert [Word(a), Word(b)][1..] == [Word(b)] && [Word(b)][1..] == [] && [Word(a)][1..] == [];
    assert AfterAll(l, []) == Some(l) && AfterAll(m, []) == Some(m);
    hide AfterWord, AsciiUpper;
    assert AfterAll(m, [Word(b)]) == Some(l);
  }

  lemma PlainReads(n: Nest, level: nat, waiting: bool, a: Atom)
    requires At(n, level, waiting) && GoodPart(Plain(a))
    ensures var r, q := AfterAll(n, [a]), ReadPart(Plain(a), level, waiting);
            && (r.Some? <==> PartEncloses(Plain(a), level, waiting)) && (r.Some? ==> At(r.value, level + q.drift, q.waiting))
  {
    hide AsciiUpper;
    if a.Word? {
      WordPasses(n, level, waiting, AsciiUpper(a.w));
    }
    assert [a][1..] == [];
    if After(n, a).Some? {
      var m := After(n, a).value;
      assert AfterAll(m, []) == Some(m);
    }
  }

  /** A block's body between its opening word and its END. */
  lemma {:induction false} InnerReads(n: Nest, level: nat, waiting: bool, o: string, body: seq<Part>, e: string)
    requires At(n, level, waiting) && (Is(o, "BEGIN") || Is(o, "CASE")) && Is(e, "END") && forall v :: v in body ==> GoodPart(v)
    ensures var r, l := AfterAll(n, [Word(o)] + (BodyAtoms(body) + [Word(e)])), level + Opens(o, waiting);
            var m := l + ReadBody(body, l, false).drift;
            && (r.Some? <==> BodyEncloses(body, l, false)) && (r.Some? ==> At(r.value, if m > 0 then m - 1 else 0, m > 0))
    decreases body, 1
  {
    hide AsciiUpper, AfterWord, At, ReadBody, BodyEncloses;
    var l := level + Opens(o, waiting);
    WordOpens(n, level, waiting, o);
    TwoWords(n, o, o);
    var m := AfterWord(n, AsciiUpper(o));
    BodyReads(m, l, false, body);
    AfterBoth(m, BodyAtoms(body), [Word(e)]);
    AfterBoth(n, [Word(o)], BodyAtoms(body) + [Word(e)]);
    if BodyEncloses(body, l, false) {
      var q := ReadBody(body, l, false);
      var b := AfterAll(m, BodyAtoms(body)).value;
      WordEnds(b, l + q.drift, q.waiting);
      TwoWords(b, e, e);
    }
  }

  /** One part moves the level by its drift, and is passed over as a whole exactly when it keeps its separators inside. */
  lemma {:induction false} PartReads(n: Nest, level: nat, waiting: bool, u: Part)
    requires At(n, level, waiting) && GoodPart(u)
    ensures var r, q := AfterAll(n, PartAtoms(u)), ReadPart(u, level, waiting);
            && (r.Some? <==> PartEncloses(u, level, waiting)) && (r.Some? ==> At(r.value, level + q.drift, q.waiting))
    decreases u, 2
  {
    hide AsciiUpper, AfterWord, At, BodyEncloses, ReadBody, AfterAll;
    match u
    case Plain(a) =>
      PlainReads(n, level, waiting, a);
    case EndCompound(e, k) =>
      TwoWords(n, e, k);
      WordEnds(n, level, waiting);
      WordCloses(AfterWord(n, "END"), if level > 0 then level - 1 else 0, level > 0, AsciiUpper(k));
    case Block(o, body, e) =>
      InnerReads(n, level, waiting, o, body, e);
    case CaseStatement(o, body, e, k) =>
      InnerReads(n, level, waiting, o, body, e);
      var inner := [Word(o)] + (BodyAtoms(body) + [Word(e)]);
      assert PartAtoms(u) == inner + [Word(k)];
      AfterBoth(n, inner, [Word(k)]);
      if AfterAll(n, inner).Some? {
        var b := AfterAll(n, inner).value;
        var m := level + Opens(o, waiting) + ReadBody(body, level + Opens(o, waiting), false).drift;
        TwoWords(b, k, k);
        WordCloses(b, if m > 0 then m - 1 else 0, m > 0, "CASE");
      }
  }

  /** The level after a body is the level before it plus the drift, and one of its separators ends the statement exactly when one
      is met at level 0. */
  lemma {:induction false} BodyReads(n: Nest, level: nat, waiting: bool, us: seq<Part>)
    requires At(n, level, waiting) && forall u :: u in us ==> GoodPart(u)
    ensures var r, q := AfterAll(n, BodyAtoms(us)), ReadBody(us, level, waiting);
            && (r.Some? <==> BodyEncloses(us, level, waiting)) && (r.Some? ==> At(r.value, level + q.drift, q.waiting))
    decreases us, 0
  {
    hide AsciiUpper, AfterWord, At, After, GoodPart, PartEncloses, ReadPart, PartAtoms;
    if us != [] {
      PartReads(n, level, waiting, us[0]);
      AfterBoth(n, PartAtoms(us[0]), BodyAtoms(us[1..]));
      if PartEncloses(us[0], level, waiting) {
        var q := ReadPart(us[0], level, waiting);
        BodyReads(AfterAll(n, PartAtoms(us[0])).value, level + q.drift, q.waiting, us[1..]);
      }
    }
  }

  // --- bodies without a drift ----------------------------------------------------------------------------

  /** Whether an END that closes a block or a CASE expression is still waiting for a word after u. */
  function Waiting(u: Part, before: bool): bool {
    match u
    case Plain(a) => before && (a.Punct? || a.Quote?)
    case Block(_, _, _) => true
    case _ => false
  }

  /** The word that follows such an END, if u begins with one, is none that turns it into something else. */
  predicate Follows(u: Part, before: bool)
    decreases u
  {
    && (before ==> match u
                   case Plain(a) => a.Word? ==> AsciiUpper(a.w) !in CLOSERS
                   case EndCompound(_, _) => true
                   case Block(o, _, _) => !Is(o, "CASE")
                   case CaseStatement(_, _, _, _) => false)
    && (u.Block? || u.CaseStatement? ==> AllFollow(u.body, false))
  }

  predicate AllFollow(us: seq<Part>, before: bool)
    decreases us
  {
    us != [] ==> Follows(us[0], before) && AllFollow(us[1..], Waiting(us[0], before))
  }

  /** Above level 0, such a part is read as it is meant. */
  lemma {:induction false} FollowingPart(u: Part, level: nat, before: bool)
    requires level > 0 && GoodPart(u) && Follows(u, before)
    ensures ReadPart(u, level, before) == Reading(0, Waiting(u, before)) && PartEncloses(u, level, before)
    decreases u, 1
  {
    hide AsciiUpper, BodyEncloses, ReadBody;
    match u
    case Plain(_) =>
    case EndCompound(_, _) =>
    case Block(_, body, _) =>
      FollowingBody(body, level + 1, false);
    case CaseStatement(_, body, _, _) =>
      FollowingBody(body, level + 1, false);
  }

  lemma {:induction false} FollowingBody(us: seq<Part>, level: nat, before: bool)
    requires level > 0 && (forall u :: u in us ==> GoodPart(u)) && AllFollow(us, before)
    ensures ReadBody(us, level, before).drift == 0 && BodyEncloses(us, level, before)
    decreases us, 0
  {
    hide GoodPart, Follows, Waiting, ReadPart, PartEncloses;
    if us != [] {
      FollowingPart(us[0], level, before);
      FollowingBody(us[1..], level, Waiting(us[0], before));
    }
  }

  /** One part of a routine's body leaves the level as it was, and no separator in it ends the statement. */
  lemma PartKeeps(n: Nest, level: nat, waiting: bool, u: Part)
    requires level > 0 && At(n, level, waiting) && GoodPart(u) && Follows(u, waiting)
    ensures var r := AfterAll(n, PartAtoms(u)); r.Some? && At(r.value, level, Waiting(u, waiting))
  {
    hide At, AfterAll, PartAtoms, ReadPart, PartEncloses, GoodPart, Follows, Waiting;
    FollowingPart(u, level, waiting);
    PartReads(n, level, waiting, u);
  }

  /** Inside a routine the level after a body is the level before it, whatever is nested in it, and none of its separators ends
      the statement. */
  lemma BodyKeeps(n: Nest, level: nat, waiting: bool, us: seq<Part>)
    requires level > 0 && At(n, level, waiting) && (forall u :: u in us ==> GoodPart(u)) && AllFollow(us, waiting)
    ensures var r := AfterAll(n, BodyAtoms(us)); r.Some? && exists w :: At(r.value, level, w)
  {
    hide At, AfterAll, BodyAtoms, ReadBody, BodyEncloses, GoodPart, AllFollow;
    FollowingBody(us, level, waiting);
    BodyReads(n, level, waiting, us);
  }
}
