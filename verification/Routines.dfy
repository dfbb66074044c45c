/** Routine definitions in a script: with BEGIN and CASE nested to any depth, one statement. */
module Routines {
  import opened Wrappers
  import opened Text
  import opened Lexer
  import opened Scanner
  import opened Quoting
  import opened Weave
  import opened TableSplits
  import B = Blocks

  function AtomText(a: B.Atom): string {
    match a
    case Word(w) => w
    case Semi => ";"
    case Punct(c) => [c]
    case Quote(l) => LitText(l)
  }

  /** Atoms as text, each followed by a space. */
  function AtomsText(atoms: seq<B.Atom>): string {
    if atoms == [] then "" else AtomText(atoms[0]) + " " + AtomsText(atoms[1..])
  }

  /** Punctuation without a meaning to the splitter. */
  predicate PlainPunct(c: char) {
    Ascii(c) && !AsciiWord(c) && !IsSpace(c) && c !in {'\'', '"', '`', '-', '$', '[', '#', '/', ';'}
  }

  predicate GoodAtom(p: Profile, a: B.Atom) {
    match a
    case Word(w) => w != "" && forall k :: 0 <= k < |w| ==> AsciiWord(w[k])
    case Semi => true
    case Punct(c) => PlainPunct(c)
    case Quote(l) => !p.backslashStrings
  }

  ghost predicate GoodAtoms(p: Profile, atoms: seq<B.Atom>) {
    forall k :: 0 <= k < |atoms| ==> GoodAtom(p, atoms[k])
  }

  /** Routines are followed, and no line ends a batch. */
  predicate Follows(p: Profile) {
    p.hasRoutines && p.batchSeparator == ""
  }

  /** What the scanner knows of the statement it is in: no BEGIN or CASE yet, a routine, or not one. */
  datatype Mode = Unknown | Inside | Outside

  /** Inside a statement that began at start. */
  function Deep(start: nat, i: nat, word: int, n: B.Nest, m: Mode): Control {
    START.(start := start, i := i, hasContent := true, wordStart := word, depth := n.depth, pendingEnd := n.pendingEnd,
           routineKnown := !m.Unknown?, inRoutine := m.Inside?)
  }

  const ZERO: B.Nest := B.Nest(0, false)

  predicate Open(s: string, start: nat, i: nat, word: int) {
    start <= i <= |s| && (word == -1 || start <= word < i)
  }

  lemma DeepIn(s: string, start: nat, i: nat, word: int, n: B.Nest, m: Mode)
    requires Open(s, start, i, word)
    ensures InScript(s, Deep(start, i, word, n, m)) && Deep(start, i, word, n, m).i == i
  {
  }

  // --- words ---------------------------------------------------------------------------------------------

  lemma LetterStep(p: Profile, s: string, start: nat, i: nat, word: int, n: B.Nest, m: Mode)
    requires Follows(p) && Open(s, start, i, word) && i < |s| && AsciiWord(s[i]) && InScript(s, Deep(start, i, word, n, m))
    ensures Step(p, s, Deep(start, i, word, n, m)) == (Deep(start, i + 1, if word < 0 then i else word, n, m), [])
  {
    assert WordAt(p.unicode, s, i, p.dollarInWords);
    hide WordAt, HasWordAt;
  }

  /** The letters of a word. */
  lemma {:induction false} LettersScan(p: Profile, s: string, start: nat, i: nat, word: int, w: string, n: B.Nest, m: Mode)
    requires Follows(p) && Open(s, start, i, word) && At(s, i, w) && (forall k :: 0 <= k < |w| ==> AsciiWord(w[k]))
    ensures var last := if word < 0 && w != "" then i else word;
            && Open(s, start, i + |w|, last) && InScript(s, Deep(start, i, word, n, m)) && InScript(s, Deep(start, i + |w|, last, n, m))
            && Events(p, s, Deep(start, i, word, n, m)) == Events(p, s, Deep(start, i + |w|, last, n, m))
    decreases |w|
  {
    hide Step, Events, InScript, Deep;
    DeepIn(s, start, i, word, n, m);
    if w != "" {
      assert s[i] == w[0];
      LetterStep(p, s, start, i, word, n, m);
      EventsStep(p, s, Deep(start, i, word, n, m));
      assert w == [w[0]] + w[1..];
      AtSplit(s, i, [w[0]], w[1..]);
      var next := if word < 0 then i else word;
      LettersScan(p, s, start, i + 1, next, w[1..], n, m);
      var rest := Events(p, s, Deep(start, i + 1, next, n, m));
      assert [] + rest == rest;
    }
  }

  /** A space ends the word. */
  lemma SpaceStep(p: Profile, s: string, start: nat, i: nat, word: int, n: B.Nest, m: Mode)
    requires Follows(p) && Open(s, start, i, word) && i < |s| && s[i] == ' ' && InScript(s, Deep(start, i, word, n, m))
    ensures Step(p, s, Deep(start, i, word, n, m)) == (EndWord(p, s, Deep(start, i, word, n, m), i).(i := i + 1), [])
  {
    assert !WordAt(p.unicode, s, i, p.dollarInWords);
    NoDashes(s, i);
    assert Past(p, s, i) == i + 1;
    hide EndWord, Past, NoContent, WordAt, HasPrefixAt;
  }

  function Ended(p: Profile, n: B.Nest, m: Mode, up: string): B.Nest {
    if m.Inside? then B.AfterWord(n, up) else n
  }

  /** What a word does: inside a routine it is followed; outside, or before any BEGIN and CASE, it does nothing. */
  lemma WordEnds(p: Profile, s: string, start: nat, i: nat, w: string, n: B.Nest, m: Mode)
    requires Follows(p) && start <= i && w != "" && At(s, i, w) && AllAscii(w)
    requires m.Inside? || (n == ZERO && (m.Unknown? ==> AsciiUpper(w) !in {"BEGIN", "CASE"}))
    ensures Open(s, start, i + |w|, i) && InScript(s, Deep(start, i + |w|, i, n, m))
    ensures EndWord(p, s, Deep(start, i + |w|, i, n, m), i + |w|) == Deep(start, i + |w|, -1, Ended(p, n, m, AsciiUpper(w)), m)
  {
    assert s[i..i + |w|] == w;
    hide RoutineSoFar, AsciiUpper, AllAscii, At;
  }

  lemma WordScan(p: Profile, s: string, start: nat, i: nat, w: string, n: B.Nest, m: Mode)
    requires Follows(p) && start <= i && GoodAtom(p, B.Word(w)) && At(s, i, w + " ")
    requires m.Inside? || (n == ZERO && (m.Unknown? ==> AsciiUpper(w) !in {"BEGIN", "CASE"}))
    ensures var j := i + |w| + 1;
            && j <= |s| && InScript(s, Deep(start, i, -1, n, m)) && InScript(s, Deep(start, j, -1, Ended(p, n, m, AsciiUpper(w)), m))
            && Events(p, s, Deep(start, i, -1, n, m)) == Events(p, s, Deep(start, j, -1, Ended(p, n, m, AsciiUpper(w)), m))
  {
    hide Step, Events, InScript, Deep, EndWord, AsciiUpper, Ended;
    var e := i + |w|;
    SpaceAfter(s, i, w);
    assert AllAscii(w) by { WordIsAscii(p, w); }
    LettersScan(p, s, start, i, -1, w, n, m);
    WordEnds(p, s, start, i, w, n, m);
    SpaceStep(p, s, start, e, i, n, m);
    DeepIn(s, start, e, i, n, m);
    DeepIn(s, start, e + 1, -1, Ended(p, n, m, AsciiUpper(w)), m);
    DeepOn(start, e, Ended(p, n, m, AsciiUpper(w)), m);
    EventsStep(p, s, Deep(start, e, i, n, m));
    var rest := Events(p, s, Deep(start, e + 1, -1, Ended(p, n, m, AsciiUpper(w)), m));
    assert [] + rest == rest;
  }

  lemma DeepOn(start: nat, i: nat, n: B.Nest, m: Mode)
    ensures Deep(start, i, -1, n, m).(i := i + 1) == Deep(start, i + 1, -1, n, m)
  {
  }

  lemma WordIsAscii(p: Profile, w: string)
    requires GoodAtom(p, B.Word(w))
    ensures AllAscii(w)
  {
  }

  lemma SpaceAfter(s: string, i: nat, t: string)
    requires At(s, i, t + " ")
    ensures At(s, i, t) && i + |t| + 1 <= |s| && s[i + |t|] == ' ' && (t != "" ==> s[i] == t[0])
  {
    AtSplit(s, i, t, " ");
    assert s[i + |t|] == " "[0];
  }

  // --- other atoms ---------------------------------------------------------------------------------------

  lemma NoWordOpen(p: Profile, s: string, start: nat, i: nat, n: B.Nest, m: Mode)
    requires Open(s, start, i, -1)
    ensures InScript(s, Deep(start, i, -1, n, m)) && EndWord(p, s, Deep(start, i, -1, n, m), i) == Deep(start, i, -1, n, m)
  {
  }

  lemma PunctStep(p: Profile, s: string, start: nat, i: nat, n: B.Nest, m: Mode)
    requires Follows(p) && Open(s, start, i, -1) && i < |s| && (PlainPunct(s[i]) || s[i] == ' ')
    ensures InScript(s, Deep(start, i, -1, n, m)) && Step(p, s, Deep(start, i, -1, n, m)) == (Deep(start, i + 1, -1, n, m), [])
  {
    NoWordOpen(p, s, start, i, n, m);
    assert !WordAt(p.unicode, s, i, p.dollarInWords);
    NoDashes(s, i);
    assert Past(p, s, i) == i + 1;
    hide EndWord, Past, NoContent, WordAt, HasPrefixAt;
  }

  lemma QuoteStep(p: Profile, s: string, start: nat, i: nat, l: Lit, n: B.Nest, m: Mode)
    requires Follows(p) && !p.backslashStrings && Open(s, start, i, -1) && At(s, i, LitText(l) + " ")
    requires i > 0 && s[i - 1] == ' '
    ensures i < |s| && i + |LitText(l)| < |s| && InScript(s, Deep(start, i, -1, n, m))
    ensures Step(p, s, Deep(start, i, -1, n, m)) == (Deep(start, i + |LitText(l)|, -1, n, m), [])
  {
    SpaceAfter(s, i, LitText(l));
    NoWordOpen(p, s, start, i, n, m);
    SkipQuoted(s, i, l.x, if l.Str? then '\'' else '"');
    assert !WordAt(p.unicode, s, i, p.dollarInWords);
    assert Past(p, s, i) == i + |LitText(l)|;
    NoDashes(s, i);
    hide EndWord, Past, WordAt, HasPrefixAt;
  }

  /** A separator that belongs to the routine's body. */
  lemma InnerSeparatorStep(p: Profile, s: string, start: nat, i: nat, n: B.Nest)
    requires Follows(p) && Open(s, start, i, -1) && i < |s| && s[i] == ';' && B.After(n, B.Semi).Some?
    ensures InScript(s, Deep(start, i, -1, n, Inside))
    ensures Step(p, s, Deep(start, i, -1, n, Inside)) == (Deep(start, i + 1, -1, B.After(n, B.Semi).value, Inside), [])
  {
    SeparatorStep(p, s, start, i, n, Inside);
    hide Step, Flushed;
  }

  /** A separator that ends the statement. */
  lemma LastSeparatorStep(p: Profile, s: string, start: nat, i: nat, n: B.Nest, m: Mode)
    requires Follows(p) && Open(s, start, i, -1) && i < |s| && s[i] == ';' && B.After(n, B.Semi) == None
    ensures InScript(s, Deep(start, i, -1, n, m)) && Step(p, s, Deep(start, i, -1, n, m)) == (Lead(i + 1, i + 1), Flushed(p, s, start, i))
  {
    SeparatorStep(p, s, start, i, n, m);
    hide Step, Flushed;
  }

  lemma SeparatorStep(p: Profile, s: string, start: nat, i: nat, n: B.Nest, m: Mode)
    requires Follows(p) && Open(s, start, i, -1) && i < |s| && s[i] == ';'
    ensures InScript(s, Deep(start, i, -1, n, m)) && Step(p, s, Deep(start, i, -1, n, m)) == Separator(p, s, Deep(start, i, -1, n, m))
  {
    NoWordOpen(p, s, start, i, n, m);
    assert !WordAt(p.unicode, s, i, p.dollarInWords);
    NoDashes(s, i);
    hide EndWord, WordAt, HasPrefixAt, Separator, DashComment;
  }

  /** The space after an atom that is no word. */
  lemma GapScan(p: Profile, s: string, start: nat, i: nat, n: B.Nest, m: Mode)
    requires Follows(p) && Open(s, start, i, -1) && i < |s| && s[i] == ' '
    ensures InScript(s, Deep(start, i, -1, n, m)) && InScript(s, Deep(start, i + 1, -1, n, m))
    ensures Events(p, s, Deep(start, i, -1, n, m)) == Events(p, s, Deep(start, i + 1, -1, n, m))
  {
    hide Step, Events, InScript, Deep;
    PunctStep(p, s, start, i, n, m);
    QuietScan(p, s, start, i, i + 1, n, n, m, m);
  }

  /** A step without an event. */
  lemma QuietScan(p: Profile, s: string, start: nat, i: nat, j: nat, n: B.Nest, n': B.Nest, m: Mode, m': Mode)
    requires start <= i < |s| && i < j <= |s| && InScript(s, Deep(start, i, -1, n, m))
    requires Step(p, s, Deep(start, i, -1, n, m)) == (Deep(start, j, -1, n', m'), [])
    ensures InScript(s, Deep(start, j, -1, n', m'))
    ensures Events(p, s, Deep(start, i, -1, n, m)) == Events(p, s, Deep(start, j, -1, n', m'))
  {
    hide Step, Events, InScript, Deep;
    DeepIn(s, start, i, -1, n, m);
    DeepIn(s, start, j, -1, n', m');
    EventsStep(p, s, Deep(start, i, -1, n, m));
    var rest := Events(p, s, Deep(start, j, -1, n', m'));
    assert [] + rest == rest;
  }

  predicate Passes(a: B.Atom, n: B.Nest, m: Mode) {
    match m
    case Inside => B.After(n, a).Some?
    case Outside => n == ZERO && !a.Semi?
    case Unknown => n == ZERO && !a.Semi? && (a.Word? ==> AsciiUpper(a.w) !in {"BEGIN", "CASE"})
  }

  function Passed(a: B.Atom, n: B.Nest, m: Mode): B.Nest
    requires Passes(a, n, m)
  {
    if m.Inside? then B.After(n, a).value else n
  }

  /** An atom and its space are passed over silently, and what the splitter keeps is what Blocks says. */
  lemma AtomScan(p: Profile, s: string, start: nat, i: nat, a: B.Atom, n: B.Nest, m: Mode)
    requires Follows(p) && start <= i && GoodAtom(p, a) && At(s, i, AtomText(a) + " ") && Passes(a, n, m)
    requires a.Quote? ==> 0 < i && i <= |s| && s[i - 1] == ' '
    ensures var j := i + |AtomText(a)| + 1;
            && i < j <= |s| && s[j - 1] == ' '
            && InScript(s, Deep(start, i, -1, n, m)) && InScript(s, Deep(start, j, -1, Passed(a, n, m), m))
            && Events(p, s, Deep(start, i, -1, n, m)) == Events(p, s, Deep(start, j, -1, Passed(a, n, m), m))
  {
    hide Events, InScript, Deep, Step, At, LitText, AsciiUpper, AsciiWord, PlainPunct;
    SpaceAfter(s, i, AtomText(a));
    match a
    case Word(w) =>
      WordScan(p, s, start, i, w, n, m);
    case Semi =>
      InnerSeparatorStep(p, s, start, i, n);
      QuietScan(p, s, start, i, i + 1, n, Passed(a, n, m), m, m);
      GapScan(p, s, start, i + 1, Passed(a, n, m), m);
    case Punct(c) =>
      PunctStep(p, s, start, i, n, m);
      QuietScan(p, s, start, i, i + 1, n, n, m, m);
      GapScan(p, s, start, i + 1, n, m);
    case Quote(l) =>
      QuoteSome(l);
      QuoteStep(p, s, start, i, l, n, m);
      QuietScan(p, s, start, i, i + |LitText(l)|, n, n, m, m);
      GapScan(p, s, start, i + |LitText(l)|, n, m);
  }

  lemma QuoteSome(l: Lit)
    ensures LitText(l) != ""
  {
  }

  // --- runs of atoms -------------------------------------------------------------------------------------

  predicate PassAll(atoms: seq<B.Atom>, n: B.Nest, m: Mode)
    decreases |atoms|
  {
    atoms != [] ==> Passes(atoms[0], n, m) && PassAll(atoms[1..], Passed(atoms[0], n, m), m)
  }

  function PassedAll(atoms: seq<B.Atom>, n: B.Nest, m: Mode): B.Nest
    requires PassAll(atoms, n, m)
    decreases |atoms|
  {
    if atoms == [] then n else PassedAll(atoms[1..], Passed(atoms[0], n, m), m)
  }

  /** Inside a routine everything passes that Blocks lets pass. */
  lemma {:induction false} InsidePass(atoms: seq<B.Atom>, n: B.Nest)
    requires B.AfterAll(n, atoms).Some?
    ensures PassAll(atoms, n, Inside) && PassedAll(atoms, n, Inside) == B.AfterAll(n, atoms).value
    decreases |atoms|
  {
    if atoms != [] {
      InsidePass(atoms[1..], B.After(n, atoms[0]).value);
    }
  }

  /** Elsewhere, everything but separators -- and, at first, BEGIN and CASE. */
  lemma {:induction false} OtherPass(atoms: seq<B.Atom>, m: Mode)
    requires !m.Inside? && forall a :: a in atoms ==> Passes(a, ZERO, m)
    ensures PassAll(atoms, ZERO, m) && PassedAll(atoms, ZERO, m) == ZERO
    decreases |atoms|
  {
    if atoms != [] {
      OtherPass(atoms[1..], m);
    }
  }

  lemma {:induction false} AtomsScan(p: Profile, s: string, start: nat, i: nat, atoms: seq<B.Atom>, n: B.Nest, m: Mode)
    requires Follows(p) && start <= i <= |s| && GoodAtoms(p, atoms) && At(s, i, AtomsText(atoms)) && PassAll(atoms, n, m)
    requires atoms == [] || atoms[0].Word? || (0 < i && s[i - 1] == ' ')
    ensures var j := i + |AtomsText(atoms)|;
            && i <= j <= |s| && InScript(s, Deep(start, i, -1, n, m)) && InScript(s, Deep(start, j, -1, PassedAll(atoms, n, m), m))
            && Events(p, s, Deep(start, i, -1, n, m)) == Events(p, s, Deep(start, j, -1, PassedAll(atoms, n, m), m))
    decreases |atoms|
  {
    hide Events, InScript, Deep, At, AtomText, Passes, Passed, GoodAtom;
    DeepIn(s, start, i, -1, n, m);
    if atoms != [] {
      var j := i + |AtomText(atoms[0])| + 1;
      AtSplit(s, i, AtomText(atoms[0]) + " ", AtomsText(atoms[1..]));
      AtomScan(p, s, start, i, atoms[0], n, m);
      AtomsScan(p, s, start, j, atoms[1..], Passed(atoms[0], n, m), m);
    }
  }

  // --- the first word, and the first BEGIN or CASE -------------------------------------------------------

  lemma NotDirective(p: Profile, s: string, i: nat, w: string)
    requires GoodAtom(p, B.Word(w)) && At(s, i, w + " ") && AsciiUpper(w) != DIRECTIVE
    ensures !HasWordAt(p.unicode, s, i, DIRECTIVE)
  {
    SpaceAfter(s, i, w);
    DirectiveLetters();
    if |w| < 9 {
      assert s[i + |w|] != DIRECTIVE[|w|] && UpperChar(s[i + |w|]) != DIRECTIVE[|w|];
    } else if |w| == 9 {
      var k := Differs(w, DIRECTIVE);
      assert s[i + k] == w[k] && UpperChar(w[k]) != DIRECTIVE[k];
    } else {
      assert s[i + 9] == w[9] && WordAt(p.unicode, s, i + 9, true);
    }
  }

  lemma Differs(w: string, t: string) returns (k: nat)
    requires |w| == |t| && AsciiUpper(w) != t
    ensures k < |w| && UpperChar(w[k]) != t[k]
  {
    k :| k < |w| && AsciiUpper(w)[k] != t[k];
  }

  lemma DirectiveLetters()
    ensures |DIRECTIVE| == 9 && forall k :: 0 <= k < 9 ==> 'A' <= DIRECTIVE[k] <= 'Z'
  {
  }

  /** The first word makes the statement one with content. */
  lemma StartScan(p: Profile, s: string, start: nat, i: nat)
    requires Follows(p) && start <= i < |s| && AsciiWord(s[i]) && !HasWordAt(p.unicode, s, i, DIRECTIVE)
    ensures InScript(s, Lead(start, i)) && InScript(s, Deep(start, i, -1, ZERO, Unknown))
    ensures Events(p, s, Lead(start, i)) == Events(p, s, Deep(start, i, -1, ZERO, Unknown))
  {
    hide Events, HasWordAt;
    assert WordAt(p.unicode, s, i, p.dollarInWords);
    hide WordAt;
    assert Step(p, s, Lead(start, i)) == Step(p, s, Deep(start, i, -1, ZERO, Unknown));
    EventsStep(p, s, Lead(start, i));
    EventsStep(p, s, Deep(start, i, -1, ZERO, Unknown));
  }

  /** The first BEGIN or CASE decides whether the statement is a routine. */
  lemma OpenEnds(p: Profile, s: string, start: nat, i: nat, w: string)
    requires Follows(p) && start <= i && w != "" && At(s, i, w) && AllAscii(w) && AsciiUpper(w) in {"BEGIN", "CASE"}
    ensures Open(s, start, i + |w|, i) && InScript(s, Deep(start, i + |w|, i, ZERO, Unknown))
    ensures EndWord(p, s, Deep(start, i + |w|, i, ZERO, Unknown), i + |w|) ==
            if RoutineSoFar(p, s, start, i + |w|) then Deep(start, i + |w|, -1, B.Nest(1, false), Inside)
            else Deep(start, i + |w|, -1, ZERO, Outside)
  {
    assert s[i..i + |w|] == w;
    hide RoutineSoFar, AsciiUpper, AllAscii, At;
  }

  lemma OpenScan(p: Profile, s: string, start: nat, i: nat, w: string)
    requires Follows(p) && start <= i && GoodAtom(p, B.Word(w)) && At(s, i, w + " ") && AsciiUpper(w) in {"BEGIN", "CASE"}
    ensures var j, e := i + |w| + 1, i + |w|;
            && j <= |s| && s[j - 1] == ' ' && InScript(s, Deep(start, i, -1, ZERO, Unknown))
            && var (n, m) := if RoutineSoFar(p, s, start, e) then (B.Nest(1, false), Inside) else (ZERO, Outside);
               InScript(s, Deep(start, j, -1, n, m)) && Events(p, s, Deep(start, i, -1, ZERO, Unknown)) == Events(p, s, Deep(start, j, -1, n, m))
  {
    hide Step, Events, InScript, Deep, EndWord, AsciiUpper, RoutineSoFar;
    var e := i + |w|;
    SpaceAfter(s, i, w);
    assert AllAscii(w) by { WordIsAscii(p, w); }
    LettersScan(p, s, start, i, -1, w, ZERO, Unknown);
    OpenEnds(p, s, start, i, w);
    SpaceStep(p, s, start, e, i, ZERO, Unknown);
    var (n, m) := if RoutineSoFar(p, s, start, e) then (B.Nest(1, false), Inside) else (ZERO, Outside);
    DeepIn(s, start, e, i, ZERO, Unknown);
    DeepIn(s, start, e + 1, -1, n, m);
    DeepOn(start, e, n, m);
    EventsStep(p, s, Deep(start, e, i, ZERO, Unknown));
    var rest := Events(p, s, Deep(start, e + 1, -1, n, m));
    assert [] + rest == rest;
  }

  // --- whole statements ----------------------------------------------------------------------------------

  /** What comes before the first BEGIN or CASE, if anything: a word that is no client directive, and nothing that ends the
      statement. */
  ghost predicate GoodHeader(p: Profile, header: seq<B.Atom>) {
    && (header != [] ==> header[0].Word? && AsciiUpper(header[0].w) != DIRECTIVE)
    && GoodAtoms(p, header) && forall a :: a in header ==> Passes(a, ZERO, Unknown)
  }

  /** The statement up to and with the word that opens its first block, as the routine pattern sees it. */
  function HeadText(header: seq<B.Atom>, open: string): string {
    AtomsText(header) + open
  }

  /** The scan up to the first BEGIN or CASE, and what it finds the statement to be. */
  lemma HeadScan(p: Profile, s: string, start: nat, i: nat, header: seq<B.Atom>, open: string)
    requires Follows(p) && Blank(s, start, i) && GoodHeader(p, header) && GoodAtom(p, B.Word(open)) && AsciiUpper(open) in {"BEGIN", "CASE"}
    requires At(s, i, AtomsText(header) + (open + " "))
    ensures var j := i + |HeadText(header, open)| + 1;
            && i < j <= |s| && s[j - 1] == ' ' && InScript(s, Lead(start, i))
            && var (n, m) := if p.routineBody(HeadText(header, open)) then (B.Nest(1, false), Inside) else (ZERO, Outside);
               InScript(s, Deep(start, j, -1, n, m)) && Events(p, s, Lead(start, i)) == Events(p, s, Deep(start, j, -1, n, m))
  {
    hide Events, InScript, Deep, At, Blank, RoutineSoFar, AtomsText, GoodHeader, HasWordAt, AsciiUpper, Lead;
    var h := AtomsText(header);
    var e := i + |h|;
    AtSplit(s, i, h, open + " ");
    HeaderIs(p, s, i, header, open);
    BlankOrder(s, start, i);
    NotDirective(p, s, i, if header == [] then open else header[0].w);
    StartScan(p, s, start, i);
    OtherPass(header, Unknown);
    AtomsScan(p, s, start, i, header, ZERO, Unknown);
    OpenScan(p, s, start, e, open);
    SpaceAfter(s, e, open);
    PatternSees(p, s, start, i, header, open);
  }

  lemma HeaderIs(p: Profile, s: string, i: nat, header: seq<B.Atom>, open: string)
    requires GoodHeader(p, header) && At(s, i, AtomsText(header)) && At(s, i + |AtomsText(header)|, open + " ")
    requires GoodAtom(p, B.Word(open)) && AsciiUpper(open) in {"BEGIN", "CASE"}
    ensures GoodAtoms(p, header) && (header != [] ==> header[0].Word?) && forall a :: a in header ==> Passes(a, ZERO, Unknown)
    ensures var w := if header == [] then open else header[0].w;
            At(s, i, w + " ") && GoodAtom(p, B.Word(w)) && AsciiUpper(w) != DIRECTIVE && i < |s| && AsciiWord(s[i])
    ensures HeadText(header, open) != "" && AsciiWord(HeadText(header, open)[0])
  {
    hide AsciiUpper, Passes, At;
    if header == [] {
      assert "" + open == open;
      SpaceAfter(s, i, open);
    } else {
      AtSplit(s, i, AtomText(header[0]) + " ", AtomsText(header[1..]));
      SpaceAfter(s, i, header[0].w);
      assert GoodAtom(p, header[0]);
      assert AtomsText(header)[0] == header[0].w[0];
    }
  }

  /** Blanks before the statement and after its last word do not reach the routine pattern. */
  lemma PatternSees(p: Profile, s: string, start: nat, i: nat, header: seq<B.Atom>, open: string)
    requires Blank(s, start, i) && At(s, i, AtomsText(header)) && At(s, i + |AtomsText(header)|, open)
    requires HeadText(header, open) != "" && AsciiWord(HeadText(header, open)[0]) && GoodAtom(p, B.Word(open))
    ensures var e := i + |HeadText(header, open)|;
            start <= e <= |s| && RoutineSoFar(p, s, start, e) == p.routineBody(HeadText(header, open))
  {
    hide AtomsText, StripLeadingComments, TrimSpace;
    var t := HeadText(header, open);
    var e := i + |t|;
    AtSplit(s, i, AtomsText(header), open);
    assert s[i..e] == t;
    assert s[start..e] == s[start..i] + t;
    TrimsTo(s[start..i], t);
    StripsToItself(p, t);
  }

  lemma TrimsTo(lead: string, t: string)
    requires (forall k :: 0 <= k < |lead| ==> IsSpace(lead[k])) && t != "" && AsciiWord(t[0]) && AsciiWord(t[|t| - 1])
    ensures TrimSpace(lead + t) == t
  {
    hide TrimLeft;
    TrimLeftIs(lead, t);
  }

  /** The statement's end, at a separator that nothing is open at. */
  lemma LastScan(p: Profile, s: string, start: nat, i: nat, j: nat, n: B.Nest, m: Mode)
    requires Follows(p) && Blank(s, start, i) && i + 1 < j < |s| && s[j] == ';' && B.After(n, B.Semi) == None
    requires AsciiWord(s[i]) && s[j - 1] == ' ' && !IsSpace(s[j - 2])
    ensures InScript(s, Deep(start, j, -1, n, m)) && InScript(s, Lead(j + 1, j + 1))
    ensures Events(p, s, Deep(start, j, -1, n, m)) == [Item(i, j - 1, None)] + Events(p, s, Lead(j + 1, j + 1))
  {
    hide Events, Step, StripLeadingComments, TrimHi, TrimLo;
    LastSeparatorStep(p, s, start, j, n, m);
    EventsStep(p, s, Deep(start, j, -1, n, m));
    SpacedFlush(p, s, start, i, j);
  }

  lemma SpacedFlush(p: Profile, s: string, start: nat, i: nat, j: nat)
    requires Blank(s, start, i) && i + 1 < j <= |s| && AsciiWord(s[i]) && s[j - 1] == ' ' && !IsSpace(s[j - 2])
    ensures Flushed(p, s, start, j) == [Item(i, j - 1, None)]
  {
    hide StripLeadingComments;
    TrimLoIs(s, start, i, j);
    assert TrimHi(s, i, j - 1) == j - 1;
    assert TrimHi(s, i, j) == j - 1;
    StripsToItself(p, s[i..j - 1]);
  }

  lemma {:induction false} AtomsTextAppend(a: seq<B.Atom>, b: seq<B.Atom>)
    ensures AtomsText(a + b) == AtomsText(a) + AtomsText(b)
    decreases |a|
  {
    hide AtomText;
    if a == [] {
      assert a + b == b;
    } else {
      assert (a + b)[1..] == a[1..] + b;
      AtomsTextAppend(a[1..], b);
      var x, y, z := AtomText(a[0]) + " ", AtomsText(a[1..]), AtomsText(b);
      assert x + (y + z) == x + y + z;
    }
  }

  /** Text that ends in an atom has its last character right before the last space. */
  lemma LastCharacter(p: Profile, s: string, i: nat, atoms: seq<B.Atom>)
    requires atoms != [] && GoodAtoms(p, atoms) && At(s, i, AtomsText(atoms))
    ensures var j := i + |AtomsText(atoms)|; i + 1 < j <= |s| && s[j - 1] == ' ' && !IsSpace(s[j - 2])
  {
    hide AtomsText, AtomText, GoodAtom, IsSpace, At;
    var n := |atoms| - 1;
    var a := atoms[n];
    assert atoms == atoms[..n] + [a];
    AtomsTextAppend(atoms[..n], [a]);
    OneAtom(a);
    var k := i + |AtomsText(atoms[..n])|;
    AtSplit(s, i, AtomsText(atoms[..n]), AtomText(a) + " ");
    SpaceAfter(s, k, AtomText(a));
    assert GoodAtom(p, a);
    AtomEnds(p, a);
    LastAt(s, k, AtomText(a));
  }

  lemma OneAtom(a: B.Atom)
    ensures AtomsText([a]) == AtomText(a) + " "
  {
    hide AtomText;
    assert [a][1..] == [];
  }

  lemma AtomEnds(p: Profile, a: B.Atom)
    requires GoodAtom(p, a)
    ensures AtomText(a) != "" && !IsSpace(AtomText(a)[|AtomText(a)| - 1])
  {
    if a.Quote? {
      var t := AtomText(a);
      assert t[|t| - 1] == '\'' || t[|t| - 1] == '"';
    }
  }

  /** A routine definition: a header and a block, taken for a routine by the dialect. */
  ghost predicate GoodRoutine(p: Profile, header: seq<B.Atom>, block: B.Part) {
    && GoodHeader(p, header) && block.Block? && B.GoodPart(block) && GoodAtoms(p, B.PartAtoms(block))
    && p.routineBody(HeadText(header, block.open))
  }

  /** The block as the scanner goes through it from its opening word. */
  lemma BlockReads(block: B.Part)
    requires block.Block? && B.GoodPart(block)
    ensures var r, q := B.AfterAll(B.Nest(1, false), B.BodyAtoms(block.body) + [B.Word(block.end)]), B.ReadPart(block, 0, false);
            && (r.Some? <==> B.PartEncloses(block, 0, false)) && (r.Some? ==> B.At(r.value, q.drift, q.waiting))
  {
    hide AsciiUpper, B.AfterAll, B.BodyAtoms, B.ReadPart, B.PartEncloses, B.At;
    var inner := B.BodyAtoms(block.body) + [B.Word(block.end)];
    B.TwoWords(ZERO, block.open, block.open);
    B.AfterBoth(ZERO, [B.Word(block.open)], inner);
    ZeroAt();
    B.PartReads(ZERO, 0, false, block);
    assert B.AfterWord(ZERO, AsciiUpper(block.open)) == B.Nest(1, false);
  }

  lemma ZeroAt()
    ensures B.At(ZERO, 0, false)
  {
  }

  /** At the separator after a block with this reading. */
  lemma SeparatorAt(n: B.Nest, d: nat, w: bool)
    requires B.At(n, d, w)
    ensures B.After(n, B.Semi) == if d == 0 then None else Some(B.Nest(d, false))
  {
  }

  /** The scanner goes through a routine whose block keeps its separators inside without an event, and the first separator after
      the routine's own END ends the statement exactly when the splitter's reading has not drifted; otherwise it is passed over,
      and whatever comes next belongs to the same statement. */
  lemma RoutineEnds(p: Profile, s: string, start: nat, i: nat, header: seq<B.Atom>, block: B.Part) returns (n: B.Nest)
    requires Follows(p) && Blank(s, start, i) && GoodRoutine(p, header, block) && B.PartEncloses(block, 0, false)
    requires At(s, i, AtomsText(header + B.PartAtoms(block)) + ";")
    ensures var j := i + |AtomsText(header + B.PartAtoms(block))|;
            var c, d := Deep(start, j, -1, n, Inside), B.ReadPart(block, 0, false).drift;
            && start <= j < |s| && InScript(s, Lead(start, i)) && InScript(s, c) && Events(p, s, Lead(start, i)) == Events(p, s, c)
            && Step(p, s, c) == if d == 0 then (Lead(j + 1, j + 1), [Item(i, j - 1, None)])
                                else (Deep(start, j + 1, -1, B.Nest(d, false), Inside), [])
  {
    hide Events, Step, InScript, Deep, At, Blank, AtomsText, GoodHeader, GoodAtoms, AsciiUpper, AsciiWord, Lead, HeadText, PassAll, PassedAll, IsSpace,
         B.PartEncloses, B.ReadPart, B.At, B.After, B.AfterAll, B.BodyAtoms, B.GoodPart;
    var open, inner := block.open, B.BodyAtoms(block.body) + [B.Word(block.end)];
    var j := i + |AtomsText(header + B.PartAtoms(block))|;
    BlockOpens(p, block);
    StatementText(p, s, i, header, open, inner);
    HeadScan(p, s, start, i, header, open);
    BlockReads(block);
    n := B.AfterAll(B.Nest(1, false), inner).value;
    InsidePass(inner, B.Nest(1, false));
    var k := i + |HeadText(header, open)| + 1;
    BlankOrder(s, start, i);
    AtomsScan(p, s, start, k, inner, B.Nest(1, false), Inside);
    var r := B.ReadPart(block, 0, false);
    SeparatorEnds(p, s, start, i, j, n, r.drift, r.waiting);
  }

  lemma SeparatorEnds(p: Profile, s: string, start: nat, i: nat, j: nat, n: B.Nest, d: nat, w: bool)
    requires Follows(p) && Blank(s, start, i) && i + 1 < j < |s| && s[j] == ';' && AsciiWord(s[i]) && s[j - 1] == ' ' && !IsSpace(s[j - 2])
    requires B.At(n, d, w)
    ensures InScript(s, Deep(start, j, -1, n, Inside))
    ensures Step(p, s, Deep(start, j, -1, n, Inside)) == if d == 0 then (Lead(j + 1, j + 1), [Item(i, j - 1, None)])
                                                         else (Deep(start, j + 1, -1, B.Nest(d, false), Inside), [])
  {
    hide Step, InScript, Deep, Blank, AsciiWord, Lead, IsSpace, B.At, B.After;
    SeparatorAt(n, d, w);
    BlankOrder(s, start, i);
    NoWord(s, start, j);
    if d == 0 {
      LastSeparatorStep(p, s, start, j, n, Inside);
      SpacedFlush(p, s, start, i, j);
    } else {
      InnerSeparatorStep(p, s, start, j, n);
    }
  }

  lemma NoWord(s: string, start: nat, j: nat)
    requires start <= j <= |s|
    ensures Open(s, start, j, -1)
  {
  }

  /** If the block does not keep them inside, the statement ends at one of the routine's own separators. */
  lemma RoutineBreaks(p: Profile, s: string, start: nat, i: nat, header: seq<B.Atom>, block: B.Part) returns (e: nat)
    requires Follows(p) && Blank(s, start, i) && GoodRoutine(p, header, block) && !B.PartEncloses(block, 0, false)
    requires At(s, i, AtomsText(header + B.PartAtoms(block)) + ";")
    ensures var j := i + |AtomsText(header + B.PartAtoms(block))|;
            && i + 1 < e < j < |s| && s[e] == ';' && InScript(s, Lead(start, i)) && InScript(s, Lead(e + 1, e + 1))
            && Events(p, s, Lead(start, i)) == [Item(i, e - 1, None)] + Events(p, s, Lead(e + 1, e + 1))
  {
    hide Events, Step, InScript, Deep, At, Blank, AtomsText, GoodHeader, GoodAtoms, AsciiUpper, AsciiWord, Lead, HeadText, PassAll, PassedAll, IsSpace,
         B.PartEncloses, B.ReadPart, B.At, B.After, B.AfterAll, B.BodyAtoms, B.GoodPart;
    var open, inner := block.open, B.BodyAtoms(block.body) + [B.Word(block.end)];
    BlockOpens(p, block);
    StatementText(p, s, i, header, open, inner);
    HeadScan(p, s, start, i, header, open);
    BlockReads(block);
    var m := FirstEnd(B.Nest(1, false), inner);
    InsidePass(inner[..m], B.Nest(1, false));
    var n := B.AfterAll(B.Nest(1, false), inner[..m]).value;
    var k := i + |HeadText(header, open)| + 1;
    BlankOrder(s, start, i);
    SplitAt(p, s, i, header, open, inner, m);
    AtomsScan(p, s, start, k, inner[..m], B.Nest(1, false), Inside);
    e := k + |AtomsText(inner[..m])|;
    LastScan(p, s, start, i, e, n, Inside);
  }

  /** The separator at which a run of atoms ends the statement. */
  lemma {:induction false} FirstEnd(n: B.Nest, atoms: seq<B.Atom>) returns (m: nat)
    requires B.AfterAll(n, atoms) == None
    ensures m < |atoms| && atoms[m] == B.Semi && B.AfterAll(n, atoms[..m]).Some?
    ensures B.After(B.AfterAll(n, atoms[..m]).value, B.Semi) == None
    decreases |atoms|
  {
    hide B.AfterWord, AsciiUpper;
    if B.After(n, atoms[0]) == None {
      m := 0;
    } else {
      var k := FirstEnd(B.After(n, atoms[0]).value, atoms[1..]);
      m := k + 1;
      assert atoms[..m][1..] == atoms[1..][..k] && atoms[..m][0] == atoms[0];
    }
  }

  /** Where a separator of the block stands. */
  lemma SplitAt(p: Profile, s: string, i: nat, header: seq<B.Atom>, open: string, inner: seq<B.Atom>, m: nat)
    requires m < |inner| && inner[m] == B.Semi && GoodHeader(p, header) && GoodAtom(p, B.Word(open)) && GoodAtoms(p, inner)
    requires AsciiUpper(open) in {"BEGIN", "CASE"}
    requires At(s, i, AtomsText(header) + (open + " ")) && At(s, i + |HeadText(header, open)| + 1, AtomsText(inner))
    ensures var k := i + |HeadText(header, open)| + 1;
            var e := k + |AtomsText(inner[..m])|;
            && GoodAtoms(p, inner[..m]) && At(s, k, AtomsText(inner[..m])) && i + 1 < e < k + |AtomsText(inner)|
            && e < |s| && s[e] == ';' && s[e - 1] == ' ' && !IsSpace(s[e - 2]) && AsciiWord(s[i])
  {
    hide At, AtomsText, GoodHeader, GoodAtom, AsciiWord, IsSpace, AsciiUpper;
    var k, pre := i + |HeadText(header, open)| + 1, inner[..m];
    assert inner == pre + ([B.Semi] + inner[m + 1..]);
    AtomsTextAppend(pre, [B.Semi] + inner[m + 1..]);
    AtomsTextAppend([B.Semi], inner[m + 1..]);
    OneAtom(B.Semi);
    AtSplit(s, k, AtomsText(pre), AtomsText([B.Semi]) + AtomsText(inner[m + 1..]));
    AtSplit(s, k + |AtomsText(pre)|, ";" + " ", AtomsText(inner[m + 1..]));
    SpaceAfter(s, k + |AtomsText(pre)|, ";");
    AtomsTextAppend(header, [B.Word(open)] + pre);
    AtomsTextAppend([B.Word(open)], pre);
    OneAtom(B.Word(open));
    var h, o, t := AtomsText(header), open + " ", AtomsText(pre);
    assert h + (o + t) == (h + o) + t;
    AtSplit(s, i, h + o, t);
    AtSplit(s, i, h, o);
    HeaderIs(p, s, i, header, open);
    AllGood(p, header, open, pre);
    LastCharacter(p, s, i, header + ([B.Word(open)] + pre));
  }

  /** A routine definition with a block of any nesting is one statement: no separator, quoted value or inner END in its body
      ends it, and the first separator after its own END does. */
  lemma RoutineIsOneStatement(p: Profile, s: string, start: nat, i: nat, header: seq<B.Atom>, block: B.Part)
    requires Follows(p) && Blank(s, start, i) && GoodRoutine(p, header, block) && B.Follows(block, false)
    requires At(s, i, AtomsText(header + B.PartAtoms(block)) + ";")
    ensures var j := i + |AtomsText(header + B.PartAtoms(block))|;
            && j < |s| && InScript(s, Lead(start, i)) && InScript(s, Lead(j + 1, j + 1))
            && Events(p, s, Lead(start, i)) == [Item(i, j - 1, None)] + Events(p, s, Lead(j + 1, j + 1))
  {
    hide Events, Step, At, Blank, AtomsText, GoodHeader, GoodAtoms, AsciiUpper, HeadText, B.PartEncloses, B.ReadPart, Deep, Lead, InScript;
    BlockFollows(block);
    var n := RoutineEnds(p, s, start, i, header, block);
    var j := i + |AtomsText(header + B.PartAtoms(block))|;
    DeepIn(s, start, j, -1, n, Inside) by { NoWord(s, start, j); }
    EventsStep(p, s, Deep(start, j, -1, n, Inside));
  }

  lemma BlockFollows(block: B.Part)
    requires block.Block? && B.GoodPart(block) && B.Follows(block, false)
    ensures B.PartEncloses(block, 0, false) && B.ReadPart(block, 0, false).drift == 0
  {
    hide AsciiUpper, B.ReadBody, B.BodyEncloses, B.AllFollow;
    B.FollowingBody(block.body, 1, false);
  }

  lemma BlockOpens(p: Profile, block: B.Part)
    requires block.Block? && B.GoodPart(block) && GoodAtoms(p, B.PartAtoms(block))
    ensures var inner := B.BodyAtoms(block.body) + [B.Word(block.end)];
            && B.PartAtoms(block) == [B.Word(block.open)] + inner && GoodAtom(p, B.Word(block.open)) && GoodAtoms(p, inner)
    ensures AsciiUpper(block.open) in {"BEGIN", "CASE"}
  {
    hide AsciiUpper, GoodAtom, B.BodyAtoms;
    var inner, all := B.BodyAtoms(block.body) + [B.Word(block.end)], B.PartAtoms(block);
    assert all[0] == B.Word(block.open);
    forall k | 0 <= k < |inner| ensures GoodAtom(p, inner[k]) {
      assert inner[k] == all[k + 1];
    }
  }

  /** The pieces of a statement that opens a block. */
  lemma StatementText(p: Profile, s: string, i: nat, header: seq<B.Atom>, open: string, inner: seq<B.Atom>)
    requires At(s, i, AtomsText(header + ([B.Word(open)] + inner)) + ";") && GoodHeader(p, header)
    requires GoodAtom(p, B.Word(open)) && AsciiUpper(open) in {"BEGIN", "CASE"} && GoodAtoms(p, inner)
    ensures var k, j := i + |HeadText(header, open)| + 1, i + |AtomsText(header + ([B.Word(open)] + inner))|;
            && At(s, i, AtomsText(header) + (open + " ")) && At(s, k, AtomsText(inner)) && k + |AtomsText(inner)| == j
            && i + 1 < j < |s| && s[j] == ';' && s[j - 1] == ' ' && !IsSpace(s[j - 2]) && AsciiWord(s[i])
  {
    hide At, AtomsText, GoodHeader, GoodAtom, AsciiWord, IsSpace, AsciiUpper;
    var all := header + ([B.Word(open)] + inner);
    var h, o, t := AtomsText(header), open + " ", AtomsText(inner);
    AtomsTextAppend(header, [B.Word(open)] + inner);
    AtomsTextAppend([B.Word(open)], inner);
    OneAtom(B.Word(open));
    assert AtomsText(all) == (h + o) + t by { assert h + (o + t) == (h + o) + t; }
    AtSplit(s, i, AtomsText(all), ";");
    AtSplit(s, i, h + o, t);
    AtSplit(s, i, h, o);
    HeaderIs(p, s, i, header, open);
    AllGood(p, header, open, inner);
    LastCharacter(p, s, i, all);
    SemiAt(s, i + |AtomsText(all)|);
  }

  lemma SemiAt(s: string, j: nat)
    requires At(s, j, ";")
    ensures j < |s| && s[j] == ';'
  {
    assert s[j] == ";"[0];
  }

  lemma AllGood(p: Profile, header: seq<B.Atom>, open: string, inner: seq<B.Atom>)
    requires GoodHeader(p, header) && GoodAtom(p, B.Word(open)) && GoodAtoms(p, inner)
    ensures GoodAtoms(p, header + ([B.Word(open)] + inner))
  {
    hide GoodAtom, Passes;
    var all := header + ([B.Word(open)] + inner);
    forall k | 0 <= k < |all| ensures GoodAtom(p, all[k]) {
      if k < |header| {
        assert all[k] == header[k];
      } else if k > |header| {
        assert all[k] == inner[k - |header| - 1];
      }
    }
  }

  /** Where the statement is no routine -- a transaction's BEGIN, a CASE in a query -- the first separator ends it. */
  lemma OtherStatementsSplit(p: Profile, s: string, start: nat, i: nat, header: seq<B.Atom>, open: string, tail: seq<B.Atom>)
    requires Follows(p) && Blank(s, start, i) && GoodHeader(p, header) && GoodAtom(p, B.Word(open)) && AsciiUpper(open) in {"BEGIN", "CASE"}
    requires GoodAtoms(p, tail) && B.Semi !in tail && !p.routineBody(HeadText(header, open))
    requires At(s, i, AtomsText(header + ([B.Word(open)] + tail)) + ";")
    ensures var j := i + |AtomsText(header + ([B.Word(open)] + tail))|;
            && j < |s| && InScript(s, Lead(start, i)) && InScript(s, Lead(j + 1, j + 1))
            && Events(p, s, Lead(start, i)) == [Item(i, j - 1, None)] + Events(p, s, Lead(j + 1, j + 1))
  {
    hide Events, InScript, Deep, At, Blank, AtomsText, GoodHeader, GoodAtoms, AsciiUpper, AsciiWord, Lead, HeadText, PassAll, PassedAll, IsSpace;
    var j := i + |AtomsText(header + ([B.Word(open)] + tail))|;
    StatementText(p, s, i, header, open, tail);
    HeadScan(p, s, start, i, header, open);
    OtherPass(tail, Outside);
    var k := i + |HeadText(header, open)| + 1;
    BlankOrder(s, start, i);
    AtomsScan(p, s, start, k, tail, ZERO, Outside);
    LastScan(p, s, start, i, j, ZERO, Outside);
  }

  // --- routines that the splitter misreads ---------------------------------------------------------------

  /** Words, punctuation and quoted values that open and close nothing. */
  predicate Flat(atoms: seq<B.Atom>) {
    forall a :: a in atoms ==> !a.Semi? && B.GoodPart(B.Plain(a))
  }

  lemma {:induction false} FlatStays(d: nat, atoms: seq<B.Atom>)
    requires Flat(atoms)
    ensures B.AfterAll(B.Nest(d, false), atoms) == Some(B.Nest(d, false))
    decreases |atoms|
  {
    hide AsciiUpper;
    if atoms != [] {
      assert B.GoodPart(B.Plain(atoms[0]));
      FlatStays(d, atoms[1..]);
    }
  }

  /** The block, its separator and the next statement, in a reading that has drifted. */
  lemma DriftedReads(block: B.Part, next: seq<B.Atom>)
    requires block.Block? && B.GoodPart(block) && B.PartEncloses(block, 0, false) && B.ReadPart(block, 0, false).drift > 0 && Flat(next)
    ensures B.AfterAll(B.Nest(1, false), (B.BodyAtoms(block.body) + [B.Word(block.end)]) + ([B.Semi] + next)) ==
            Some(B.Nest(B.ReadPart(block, 0, false).drift, false))
  {
    hide B.AfterAll, B.BodyAtoms, B.ReadPart, B.PartEncloses, B.At, B.GoodPart, B.After, Flat;
    BlockReads(block);
    var inner, r := B.BodyAtoms(block.body) + [B.Word(block.end)], B.ReadPart(block, 0, false);
    var n := B.AfterAll(B.Nest(1, false), inner).value;
    SeparatorAt(n, r.drift, r.waiting);
    B.AfterBoth(B.Nest(1, false), inner, [B.Semi] + next);
    B.AfterBoth(n, [B.Semi], next);
    OneAfter(n, B.Semi);
    FlatStays(r.drift, next);
  }

  lemma OneAfter(n: B.Nest, a: B.Atom)
    ensures B.AfterAll(n, [a]) == B.After(n, a)
  {
    assert [a][1..] == [];
    if B.After(n, a).Some? {
      assert B.AfterAll(B.After(n, a).value, []) == B.After(n, a);
    }
  }

  /** The script of a routine and one more statement. */
  function TwoStatements(header: seq<B.Atom>, block: B.Part, next: seq<B.Atom>): string {
    AtomsText(header + (B.PartAtoms(block) + ([B.Semi] + next))) + "; "
  }

  /** A routine that leaves a positive drift swallows the statement after it: the two come out as one event. */
  lemma RoutineSwallows(p: Profile, header: seq<B.Atom>, block: B.Part, next: seq<B.Atom>)
    requires Follows(p) && GoodRoutine(p, header, block) && B.PartEncloses(block, 0, false) && B.ReadPart(block, 0, false).drift > 0
    requires Flat(next) && GoodAtoms(p, next)
    ensures var s := TwoStatements(header, block, next); s != "" && Scan(p, s) == [Item(0, |s| - 1, None)]
  {
    hide Events, Step, InScript, Deep, At, Blank, AtomsText, GoodHeader, GoodAtoms, AsciiUpper, AsciiWord, Lead, HeadText, PassAll, PassedAll, IsSpace,
         B.PartEncloses, B.ReadPart, B.At, B.After, B.AfterAll, B.BodyAtoms, B.GoodPart, Flat, B.PartAtoms;
    var s := TwoStatements(header, block, next);
    var open, inner, d := block.open, B.BodyAtoms(block.body) + [B.Word(block.end)], B.ReadPart(block, 0, false).drift;
    var long := inner + ([B.Semi] + next);
    BlockOpens(p, block);
    assert B.PartAtoms(block) + ([B.Semi] + next) == [B.Word(open)] + long;
    var t := AtomsText(header + ([B.Word(open)] + long));
    var j := |t|;
    WholeAt(s, t);
    GoodLong(p, inner, next);
    StatementText(p, s, 0, header, open, long);
    BlankNothing(s);
    HeadScan(p, s, 0, 0, header, open);
    DriftedReads(block, next);
    InsidePass(long, B.Nest(1, false));
    var k := |HeadText(header, open)| + 1;
    AtomsScan(p, s, 0, k, long, B.Nest(1, false), Inside);
    LastLap(p, s, j, d);
    LeadIn(s, 0, 0);
  }

  /** The last separator of a script, in a reading that has drifted. */
  lemma LastLap(p: Profile, s: string, j: nat, d: nat)
    requires Follows(p) && d > 0 && |s| == j + 2 && s[j] == ';' && s[j + 1] == ' ' && j > 0 && AsciiWord(s[0])
    ensures InScript(s, Deep(0, j, -1, B.Nest(d, false), Inside))
    ensures Events(p, s, Deep(0, j, -1, B.Nest(d, false), Inside)) == [Item(0, |s| - 1, None)]
  {
    hide Events, Step, InScript, Deep, AsciiWord, B.After;
    var n := B.Nest(d, false);
    StillDeep(d);
    NoWord(s, 0, j);
    InnerSeparatorStep(p, s, 0, j, n);
    QuietScan(p, s, 0, j, j + 1, n, n, Inside, Inside);
    NoWord(s, 0, j + 1);
    GapScan(p, s, 0, j + 1, n, Inside);
    DeepIn(s, 0, j + 2, -1, n, Inside) by { NoWord(s, 0, j + 2); }
    EventsEnd(p, s, Deep(0, j + 2, -1, n, Inside));
    DeepStart(j + 2, n);
    WholeFlush(p, s, j);
  }

  lemma DeepStart(i: nat, n: B.Nest)
    ensures Deep(0, i, -1, n, Inside).start == 0 && Deep(0, i, -1, n, Inside).i == i
  {
  }

  lemma StillDeep(d: nat)
    ensures d > 0 ==> B.After(B.Nest(d, false), B.Semi) == Some(B.Nest(d, false))
  {
  }

  lemma BlankNothing(s: string)
    ensures Blank(s, 0, 0)
  {
  }

  lemma WholeAt(s: string, t: string)
    requires s == t + "; "
    ensures At(s, 0, t + ";") && |s| == |t| + 2 && s[|t|] == ';' && s[|t| + 1] == ' '
  {
    assert "; " == ";" + " ";
  }

  lemma WholeFlush(p: Profile, s: string, j: nat)
    requires |s| == j + 2 && s[j] == ';' && s[j + 1] == ' ' && j > 0 && AsciiWord(s[0])
    ensures Flushed(p, s, 0, |s|) == [Item(0, |s| - 1, None)]
  {
    SpacedFlush(p, s, 0, 0, |s|);
  }

  lemma GoodLong(p: Profile, inner: seq<B.Atom>, next: seq<B.Atom>)
    requires GoodAtoms(p, inner) && GoodAtoms(p, next)
    ensures GoodAtoms(p, inner + ([B.Semi] + next))
  {
    hide GoodAtom;
    assert GoodAtom(p, B.Semi) by { SemiGood(p); }
  }

  lemma SemiGood(p: Profile)
    ensures GoodAtom(p, B.Semi)
  {
  }
}
