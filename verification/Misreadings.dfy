/** Two kinds of routine that the splitter misreads: one swallows the statement after it, the other ends early. */
module Misreadings {
  import opened Wrappers
  import opened Lexer
  import opened Scanner
  import opened Blocks
  import opened Routines

  lemma ReadStep(us: seq<Part>, level: nat, before: bool)
    requires us != []
    ensures var r := ReadPart(us[0], level, before);
            var q := ReadBody(us[1..], level + r.drift, r.waiting);
            && ReadBody(us, level, before) == Reading(r.drift + q.drift, q.waiting)
            && (BodyEncloses(us, level, before) <==> PartEncloses(us[0], level, before) && BodyEncloses(us[1..], level + r.drift, r.waiting))
  {
  }

  /** A CASE expression that nothing waits for. */
  lemma CaseReads(arm: seq<Part>, level: nat)
    requires (forall u :: u in arm ==> GoodPart(u)) && AllFollow(arm, false)
    ensures ReadPart(Block("CASE", arm, "END"), level, false) == Reading(0, true) && PartEncloses(Block("CASE", arm, "END"), level, false)
    ensures GoodPart(Block("CASE", arm, "END"))
  {
    hide ReadBody, BodyEncloses, AllFollow, AsciiUpper;
    Keywords();
    FollowingBody(arm, level + 1, false);
  }

  /** A CASE expression right after another one is taken for END CASE. */
  lemma NextCaseReads(arm: seq<Part>, level: nat)
    requires level > 0 && (forall u :: u in arm ==> GoodPart(u)) && AllFollow(arm, false)
    ensures ReadPart(Block("CASE", arm, "END"), level, true) == Reading(-1, true)
  {
    hide ReadBody, BodyEncloses, AllFollow, AsciiUpper;
    Keywords();
    FollowingBody(arm, level, false);
  }

  lemma Keywords()
    ensures Is("CASE", "CASE") && Is("END", "END") && Is("IF", "IF") && Is("BEGIN", "BEGIN") && !Is("BEGIN", "CASE")
  {
  }

  function Comma(): Part {
    Plain(Punct(','))
  }

  /** A routine's block with one statement: a CASE expression, a comma, and what follows it. */
  function ListBlock(lead: seq<Part>, arm: seq<Part>, rest: seq<Part>): Part {
    Block("BEGIN", lead + ([Block("CASE", arm, "END"), Comma()] + rest), "END")
  }

  /** Both before and after, everything is read as it is meant. */
  ghost predicate Clean(us: seq<Part>) {
    (forall u :: u in us ==> GoodPart(u)) && AllFollow(us, false)
  }

  lemma {:induction false} ReadAppend(a: seq<Part>, b: seq<Part>, level: nat, before: bool)
    ensures var r := ReadBody(a, level, before);
            var q := ReadBody(b, level + r.drift, r.waiting);
            && ReadBody(a + b, level, before) == Reading(r.drift + q.drift, q.waiting)
            && (BodyEncloses(a + b, level, before) <==> BodyEncloses(a, level, before) && BodyEncloses(b, level + r.drift, r.waiting))
    decreases |a|
  {
    hide ReadPart, PartEncloses;
    if a == [] {
      assert a + b == b;
    } else {
      var r := ReadPart(a[0], level, before);
      ReadStep(a, level, before);
      ReadStep(a + b, level, before);
      assert (a + b)[1..] == a[1..] + b;
      ReadAppend(a[1..], b, level + r.drift, r.waiting);
    }
  }

  /** Up to the comma the END of the CASE expression waits. */
  lemma ListReads(lead: seq<Part>, arm: seq<Part>, rest: seq<Part>)
    requires Clean(lead) && Clean(arm) && !ReadBody(lead, 1, false).waiting
    ensures var body, q := ListBlock(lead, arm, rest).body, ReadBody(rest, 1, true);
            ReadBody(body, 1, false) == q && (BodyEncloses(body, 1, false) <==> BodyEncloses(rest, 1, true))
  {
    hide ReadPart, PartEncloses, ReadBody, BodyEncloses, AllFollow, GoodPart;
    var tail := [Block("CASE", arm, "END"), Comma()] + rest;
    ReadAppend(lead, tail, 1, false);
    FollowingBody(lead, 1, false);
    CaseReads(arm, 1);
    ReadStep(tail, 1, false);
    assert tail[1..] == [Comma()] + rest;
    ReadStep(tail[1..], 1, true);
    assert tail[1..][1..] == rest;
    CommaReads();
  }

  lemma CommaReads()
    ensures ReadPart(Comma(), 1, true) == Reading(0, true) && PartEncloses(Comma(), 1, true)
  {
  }

  lemma ListGood(lead: seq<Part>, arm: seq<Part>, rest: seq<Part>)
    requires Clean(lead) && Clean(arm) && forall u :: u in rest ==> GoodPart(u)
    ensures var block := ListBlock(lead, arm, rest); GoodPart(block) && block.Block? && block.open == "BEGIN"
  {
    hide AsciiUpper, AllFollow;
    Keywords();
    CaseReads(arm, 1);
    forall u | u in lead + ([Block("CASE", arm, "END"), Comma()] + rest) ensures GoodPart(u) {
    }
  }

  /** What the block's END makes of its body's reading. */
  lemma BlockDrift(block: Part)
    requires block.Block? && Is(block.open, "BEGIN")
    ensures var q := ReadBody(block.body, 1, false);
            && ReadPart(block, 0, false).drift == q.drift + (if 1 + q.drift > 0 then 0 else 1)
            && (PartEncloses(block, 0, false) <==> BodyEncloses(block.body, 1, false))
  {
    hide ReadBody, BodyEncloses, AsciiUpper;
    assert Opens(block.open, false) == 1;
  }

  /** Punctuation does not end the wait for the word after an END: IF after a CASE expression and a comma is taken for END IF, and
      the routine's own END leaves one level open. */
  lemma IfDrifts(lead: seq<Part>, arm: seq<Part>, rest: seq<Part>)
    requires Clean(lead) && Clean(arm) && Clean(rest) && !ReadBody(lead, 1, false).waiting
    ensures var block := ListBlock(lead, arm, [Plain(Word("IF"))] + rest); PartEncloses(block, 0, false) && ReadPart(block, 0, false).drift == 1
  {
    hide ReadPart, PartEncloses, ReadBody, BodyEncloses, AllFollow, GoodPart, ListBlock, AsciiUpper;
    var more := [Plain(Word("IF"))] + rest;
    ListReads(lead, arm, more);
    ReadStep(more, 1, true);
    assert more[1..] == rest;
    IfReads();
    FollowingBody(rest, 2, false);
    ListOpen(lead, arm, more);
    BlockDrift(ListBlock(lead, arm, more));
  }

  lemma ListOpen(lead: seq<Part>, arm: seq<Part>, rest: seq<Part>)
    ensures var block := ListBlock(lead, arm, rest); block.Block? && Is(block.open, "BEGIN") && Is(block.end, "END")
  {
    Keywords();
  }

  lemma IfReads()
    ensures ReadPart(Plain(Word("IF")), 1, true) == Reading(1, false) && PartEncloses(Plain(Word("IF")), 1, true)
  {
    Keywords();
  }

  /** A second CASE expression after the comma is taken for END CASE, and the statement's own separator ends the routine. */
  lemma CaseBreaks(lead: seq<Part>, arm: seq<Part>, second: seq<Part>, rest: seq<Part>)
    requires Clean(lead) && Clean(arm) && Clean(second) && !ReadBody(lead, 1, false).waiting
    ensures !PartEncloses(ListBlock(lead, arm, [Block("CASE", second, "END"), Plain(Semi)] + rest), 0, false)
  {
    hide ReadPart, PartEncloses, ReadBody, BodyEncloses, AllFollow, GoodPart, ListBlock, AsciiUpper;
    var more := [Block("CASE", second, "END"), Plain(Semi)] + rest;
    ListReads(lead, arm, more);
    NextCaseReads(second, 1);
    ReadStep(more, 1, true);
    assert more[1..] == [Plain(Semi)] + rest;
    ReadStep(more[1..], 0, true);
    SemiBreaks();
    ListOpen(lead, arm, more);
    BlockDrift(ListBlock(lead, arm, more));
  }

  lemma SemiBreaks()
    ensures !PartEncloses(Plain(Semi), 0, true)
  {
  }

  // --- two scripts ---------------------------------------------------------------------------------------

  const HEADER: seq<Atom> := [Word("CREATE"), Word("FUNCTION"), Word("f"), Punct('('), Punct(')')]

  const ARM: seq<Part> := [Plain(Word("a")), Plain(Word("WHEN")), Plain(Word("1")), Plain(Word("THEN")), Plain(Word("2"))]

  const SELECT: seq<Part> := [Plain(Word("SELECT"))]

  const CALL: seq<Part> := [Plain(Punct('(')), Plain(Word("a")), Plain(Punct(')')), Plain(Semi)]

  const NEXT: seq<Atom> := [Word("SELECT"), Word("2")]

  /** BEGIN SELECT CASE a WHEN 1 THEN 2 END , IF ( a ) ; END */
  function IfBlock(): Part {
    ListBlock(SELECT, ARM, [Plain(Word("IF"))] + CALL)
  }

  /** Words that open and close nothing. */
  lemma {:induction false} PlainClean(us: seq<Part>, level: nat)
    requires forall u :: u in us ==> u.Plain? && GoodPart(u)
    ensures Clean(us) && ReadBody(us, level, false).waiting == false
  {
    hide AsciiUpper;
    if us == [] {
      assert AllFollow(us, false);
    } else {
      var r := ReadPart(us[0], level, false);
      assert us[0] in us;
      PlainClean(us[1..], level + r.drift);
      ReadStep(us, level, false);
      assert Blocks.Follows(us[0], false) && !Waiting(us[0], false);
    }
  }

  lemma Words()
    ensures AsciiUpper("SELECT") == "SELECT" && AsciiUpper("WHEN") == "WHEN" && AsciiUpper("THEN") == "THEN" && AsciiUpper("a") == "A"
    ensures AsciiUpper("1") == "1" && AsciiUpper("2") == "2" && AsciiUpper("f") == "F" && AsciiUpper("CREATE") == "CREATE"
    ensures AsciiUpper("FUNCTION") == "FUNCTION"
  {
  }

  lemma ScriptClean()
    ensures Clean(SELECT) && Clean(ARM) && Clean(CALL) && !ReadBody(SELECT, 1, false).waiting
  {
    hide AsciiUpper, AllFollow, ReadBody;
    Words();
    PlainClean(SELECT, 1);
    PlainClean(ARM, 1);
    PlainClean(CALL, 1);
  }

  const ARM_ATOMS: seq<Atom> := [Word("a"), Word("WHEN"), Word("1"), Word("THEN"), Word("2")]

  const CALL_ATOMS: seq<Atom> := [Punct(','), Word("IF"), Punct('('), Word("a"), Punct(')'), Semi]

  /** Single atoms. */
  lemma {:induction false} PlainAtoms(us: seq<Part>, atoms: seq<Atom>)
    requires |us| == |atoms| && forall k :: 0 <= k < |us| ==> us[k] == Plain(atoms[k])
    ensures BodyAtoms(us) == atoms
  {
    if us != [] {
      PlainAtoms(us[1..], atoms[1..]);
      assert us[0] == Plain(atoms[0]);
    }
  }

  lemma BodyStep(us: seq<Part>)
    requires us != []
    ensures BodyAtoms(us) == PartAtoms(us[0]) + BodyAtoms(us[1..])
  {
  }

  /** The block's atoms. */
  lemma IfAtoms()
    ensures PartAtoms(IfBlock()) == [Word("BEGIN"), Word("SELECT"), Word("CASE")] + ARM_ATOMS + [Word("END")] + CALL_ATOMS + [Word("END")]
  {
    hide BodyAtoms;
    var tail := [Comma()] + ([Plain(Word("IF"))] + CALL);
    var body := IfBlock().body;
    PlainAtoms(ARM, ARM_ATOMS);
    PlainAtoms(tail, CALL_ATOMS);
    BodyStep(body);
    BodyStep(body[1..]);
    assert body[1..][1..] == tail;
  }

  lemma ScriptAtoms(p: Profile)
    ensures GoodAtoms(p, HEADER) && GoodAtoms(p, ARM_ATOMS) && GoodAtoms(p, CALL_ATOMS) && GoodAtoms(p, NEXT)
  {
    hide GoodAtoms;
    HeaderAtoms(p);
    ArmAtoms(p);
    CallAtoms(p);
    NextAtoms(p);
  }

  lemma HeaderAtoms(p: Profile)
    ensures GoodAtoms(p, HEADER)
  {
  }

  lemma ArmAtoms(p: Profile)
    ensures GoodAtoms(p, ARM_ATOMS)
  {
  }

  lemma CallAtoms(p: Profile)
    ensures GoodAtoms(p, CALL_ATOMS)
  {
  }

  lemma NextAtoms(p: Profile)
    ensures GoodAtoms(p, NEXT)
  {
  }

  lemma KeywordAtoms(p: Profile)
    ensures GoodAtom(p, Word("BEGIN")) && GoodAtom(p, Word("SELECT")) && GoodAtom(p, Word("CASE")) && GoodAtom(p, Word("END"))
  {
  }

  lemma IfRoutine(p: Profile)
    requires p.routineBody(HeadText(HEADER, "BEGIN"))
    ensures GoodRoutine(p, HEADER, IfBlock())
  {
    hide AsciiUpper, GoodAtom, HeadText, PartAtoms, GoodAtoms, GoodHeader, GoodPart;
    IfGood();
    IfAtomsGood(p);
    HeaderGood(p);
  }

  lemma IfGood()
    ensures GoodPart(IfBlock()) && IfBlock().Block? && IfBlock().open == "BEGIN"
  {
    hide AsciiUpper, AllFollow, ReadBody, GoodPart, ListBlock;
    ScriptClean();
    assert GoodPart(Plain(Word("IF"))) by { IfPlain(); }
    ListGood(SELECT, ARM, [Plain(Word("IF"))] + CALL);
  }

  lemma IfPlain()
    ensures GoodPart(Plain(Word("IF")))
  {
    Keywords();
  }

  lemma HeaderGood(p: Profile)
    ensures GoodHeader(p, HEADER)
  {
    hide AsciiUpper, GoodAtom;
    Words();
    ScriptAtoms(p);
    assert forall a :: a in HEADER ==> Passes(a, ZERO, Unknown);
  }

  lemma IfAtomsGood(p: Profile)
    ensures GoodAtoms(p, PartAtoms(IfBlock()))
  {
    hide GoodAtom, PartAtoms;
    ScriptAtoms(p);
    KeywordAtoms(p);
    IfAtoms();
  }

  /** The script of the routine and one more statement. */
  const SCRIPT: string := "CREATE FUNCTION f ( ) BEGIN SELECT CASE a WHEN 1 THEN 2 END , IF ( a ) ; END ; SELECT 2 ; "

  lemma IfText()
    ensures TwoStatements(HEADER, IfBlock(), NEXT) == SCRIPT
  {
    IfAtoms();
    hide AtomsText, PartAtoms;
    var a0 := HEADER + [Word("BEGIN"), Word("SELECT"), Word("CASE")];
    var a1 := a0 + ARM_ATOMS;
    var a2 := a1 + [Word("END")];
    var a3 := a2 + CALL_ATOMS;
    var a4 := a3 + [Word("END")];
    var a5 := a4 + ([Semi] + NEXT);
    assert a5 == HEADER + (PartAtoms(IfBlock()) + ([Semi] + NEXT));
    AtomsTextAppend(HEADER, [Word("BEGIN"), Word("SELECT"), Word("CASE")]);
    AtomsTextAppend(a0, ARM_ATOMS);
    AtomsTextAppend(a1, [Word("END")]);
    AtomsTextAppend(a2, CALL_ATOMS);
    AtomsTextAppend(a3, [Word("END")]);
    AtomsTextAppend(a4, [Semi] + NEXT);
    Texts1();
    Texts2();
    TextEnd();
    Texts3();
    Texts4();
    Texts5();
    Joined1();
    Joined2();
    Joined3();
  }

  lemma Joined1()
    ensures ("CREATE FUNCTION f ( ) " + "BEGIN SELECT CASE ") + "a WHEN 1 THEN 2 " == "CREATE FUNCTION f ( ) BEGIN SELECT CASE a WHEN 1 THEN 2 "
  {
  }

  lemma Joined2()
    ensures ("CREATE FUNCTION f ( ) BEGIN SELECT CASE a WHEN 1 THEN 2 " + "END ") + ", IF ( a ) ; " ==
            "CREATE FUNCTION f ( ) BEGIN SELECT CASE a WHEN 1 THEN 2 END , IF ( a ) ; "
  {
  }

  lemma Joined3()
    ensures (("CREATE FUNCTION f ( ) BEGIN SELECT CASE a WHEN 1 THEN 2 END , IF ( a ) ; " + "END ") + "; SELECT 2 ") + "; " ==
            "CREATE FUNCTION f ( ) BEGIN SELECT CASE a WHEN 1 THEN 2 END , IF ( a ) ; END ; SELECT 2 ; "
  {
  }

  lemma Texts1()
    ensures AtomsText(HEADER) == "CREATE FUNCTION f ( ) "
  {
  }

  lemma Texts2()
    ensures AtomsText([Word("BEGIN"), Word("SELECT"), Word("CASE")]) == "BEGIN SELECT CASE "
  {
    hide AtomsText;
    TextFrom([Word("BEGIN"), Word("SELECT"), Word("CASE")], Word("BEGIN"), [Word("SELECT"), Word("CASE")]);
    TextFrom([Word("SELECT"), Word("CASE")], Word("SELECT"), [Word("CASE")]);
    TextFrom([Word("CASE")], Word("CASE"), []);
    NoText();
  }

  lemma TextEnd()
    ensures AtomsText([Word("END")]) == "END "
  {
    hide AtomsText;
    TextFrom([Word("END")], Word("END"), []);
    NoText();
  }

  lemma TextFrom(all: seq<Atom>, a: Atom, rest: seq<Atom>)
    requires all == [a] + rest
    ensures AtomsText(all) == AtomText(a) + " " + AtomsText(rest)
  {
    assert all[1..] == rest;
  }

  lemma NoText()
    ensures AtomsText([]) == ""
  {
  }

  lemma Texts3()
    ensures AtomsText(ARM_ATOMS) == "a WHEN 1 THEN 2 "
  {
  }

  lemma Texts5()
    ensures AtomsText([Semi] + NEXT) == "; SELECT 2 "
  {
    assert [Semi] + NEXT == [Semi, Word("SELECT"), Word("2")];
  }

  lemma Texts4()
    ensures AtomsText(CALL_ATOMS) == ", IF ( a ) ; "
  {
  }

  /** In every dialect that follows routines and takes the header for one, this routine and the next statement come out as one
      event, the whole script. */
  lemma IfSwallows(p: Profile)
    requires Routines.Follows(p) && p.routineBody(HeadText(HEADER, "BEGIN"))
    ensures SCRIPT != "" && Scan(p, SCRIPT) == [Item(0, |SCRIPT| - 1, None)]
  {
    hide Scan, ReadPart, PartEncloses, GoodRoutine, AsciiUpper, AllFollow, ReadBody, GoodAtom, TwoStatements, HeadText;
    IfText();
    ScriptClean();
    ScriptAtoms(p);
    Words();
    IfRoutine(p);
    IfDrifts(SELECT, ARM, CALL);
    RoutineSwallows(p, HEADER, IfBlock(), NEXT);
  }
}
