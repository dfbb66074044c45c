/** Statement text woven from plain runs and quoted values, and how the scanner passes over it. */
module Weave {
  import opened Wrappers
  import opened Text
  import opened Lexer
  import opened Quoting

  datatype Lit = Str(x: string) | Ident(x: string)

  function LitText(l: Lit): string {
    match l
    case Str(x) => QuoteAnsiString(x)
    case Ident(x) => QuoteAnsiIdent(x)
  }

  datatype Piece = Piece(run: string, lit: Lit)

  /** Runs and literals in turn, with a run at the end. */
  datatype Woven = Woven(pieces: seq<Piece>, tail: string)

  function PiecesText(ps: seq<Piece>): string {
    if ps == [] then "" else ps[0].run + LitText(ps[0].lit) + PiecesText(ps[1..])
  }

  function WovenText(v: Woven): string {
    PiecesText(v.pieces) + v.tail
  }

  function AddRun(v: Woven, w: string): Woven {
    v.(tail := v.tail + w)
  }

  function AddLit(v: Woven, l: Lit): Woven {
    Woven(v.pieces + [Piece(v.tail, l)], "")
  }

  lemma {:induction false} PiecesSnoc(ps: seq<Piece>, q: Piece)
    ensures PiecesText(ps + [q]) == PiecesText(ps) + (q.run + LitText(q.lit))
  {
    if ps == [] {
      assert ps + [q] == [q];
      assert PiecesText([q][1..]) == "";
    } else {
      PiecesSnoc(ps[1..], q);
      assert (ps + [q])[1..] == ps[1..] + [q];
      assert ps[0].run + LitText(ps[0].lit) + (PiecesText(ps[1..]) + (q.run + LitText(q.lit))) ==
             (ps[0].run + LitText(ps[0].lit) + PiecesText(ps[1..])) + (q.run + LitText(q.lit));
    }
  }

  lemma AddRunText(v: Woven, w: string)
    ensures WovenText(AddRun(v, w)) == WovenText(v) + w
  {
    assert PiecesText(v.pieces) + (v.tail + w) == (PiecesText(v.pieces) + v.tail) + w;
  }

  lemma AddLitText(v: Woven, l: Lit)
    ensures WovenText(AddLit(v, l)) == WovenText(v) + LitText(l)
  {
    hide LitText;
    PiecesSnoc(v.pieces, Piece(v.tail, l));
    hide PiecesText;
    assert PiecesText(v.pieces) + (v.tail + LitText(l)) == (PiecesText(v.pieces) + v.tail) + LitText(l);
  }

  // --- what may stand in a run ---------------------------------------------------------------------------

  const PLAIN: set<char> := {'(', ')', ',', '.', ' ', '\t', '\r', '\n', '+', '-'}

  /** A word character that does not occur in BEGIN or CASE. */
  predicate WordChar(c: char) {
    AsciiWord(c) && c !in {'b', 'B', 'c', 'C'}
  }

  predicate RunChar(c: char) {
    WordChar(c) || c in PLAIN
  }

  predicate NoQuote(c: char) {
    c != '\'' && c != '"'
  }

  lemma PlainNoQuote(c: char)
    requires RunChar(c)
    ensures NoQuote(c)
  {
  }

  predicate GoodRun(w: string) {
    && (forall k :: 0 <= k < |w| ==> RunChar(w[k]))
    && (forall k :: 0 <= k < |w| && w[k] == '-' ==> k + 1 < |w| && w[k + 1] != '-')
  }

  predicate GoodPiece(q: Piece) {
    && GoodRun(q.run) && q.run != ""
    && (q.lit.Str? ==> q.run[|q.run| - 1] !in {'e', 'E'})
  }

  predicate GoodWoven(v: Woven) {
    (forall k :: 0 <= k < |v.pieces| ==> GoodPiece(v.pieces[k])) && GoodRun(v.tail) && v.tail != ""
  }

  // --- the scanner inside a statement --------------------------------------------------------------------

  /** ANSI strings, and no line-based batch separator. */
  predicate AnsiLike(p: Profile) {
    !p.backslashStrings && p.batchSeparator == ""
  }

  /** Inside a statement that began at start. */
  function Mid(start: nat, i: nat, word: int): Control {
    START.(start := start, i := i, hasContent := true, wordStart := word)
  }

  /** The current word, if any, is a plain one. */
  predicate WordOpen(s: string, start: nat, i: nat, word: int) {
    start <= i <= |s| && (word == -1 || (start <= word < i && forall k :: word <= k < i ==> WordChar(s[k])))
  }

  lemma PlainWord(p: Profile, s: string, start: nat, i: nat, word: int)
    requires WordOpen(s, start, i, word)
    ensures InScript(s, Mid(start, i, word)) && EndWord(p, s, Mid(start, i, word), i) == Mid(start, i, -1)
  {
    if word >= 0 {
      var w := s[word..i];
      assert forall k :: 0 <= k < |w| ==> w[k] == s[word + k];
      assert AllAscii(w);
      assert AsciiUpper(w)[0] == UpperChar(w[0]);
      assert WordChar(w[0]);
      assert UpperChar(w[0]) != 'B' && UpperChar(w[0]) != 'C';
      hide RoutineSoFar, WordChar;
    }
  }

  /** One character of a run. */
  lemma CharStep(p: Profile, s: string, start: nat, i: nat, word: int) returns (word': int)
    requires AnsiLike(p) && WordOpen(s, start, i, word) && i < |s| && RunChar(s[i]) && (s[i] == '-' ==> i + 1 < |s| && s[i + 1] != '-')
    ensures InScript(s, Mid(start, i, word)) && WordOpen(s, start, i + 1, word')
    ensures Step(p, s, Mid(start, i, word)) == (Mid(start, i + 1, word'), [])
  {
    hide EndWord, Past, NoContent, HasPrefixAt, HasWordAt, DashComment, Separator;
    PlainWord(p, s, start, i, word);
    if WordChar(s[i]) {
      word' := if word < 0 then i else word;
      assert WordAt(p.unicode, s, i, p.dollarInWords);
    } else {
      word' := -1;
      NoDashes(s, i);
      RunPast(p, s, i);
    }
  }

  lemma RunPast(p: Profile, s: string, i: nat)
    requires i < |s| && RunChar(s[i]) && !WordChar(s[i])
    ensures !WordAt(p.unicode, s, i, p.dollarInWords) && Past(p, s, i) == i + 1
  {
  }

  /** A run is passed over silently. */
  lemma {:induction false} RunScan(p: Profile, s: string, start: nat, i: nat, word: int, w: string) returns (word': int)
    requires AnsiLike(p) && WordOpen(s, start, i, word) && At(s, i, w) && GoodRun(w)
    ensures InScript(s, Mid(start, i, word)) && WordOpen(s, start, i + |w|, word') && InScript(s, Mid(start, i + |w|, word'))
    ensures Events(p, s, Mid(start, i, word)) == Events(p, s, Mid(start, i + |w|, word'))
    decreases |w|
  {
    hide Step, Events, InScript;
    PlainWord(p, s, start, i, word);
    if w == "" {
      word' := word;
    } else {
      assert s[i] == w[0] && RunChar(s[i]);
      assert s[i] == '-' ==> s[i + 1] == w[1];
      var next := CharStep(p, s, start, i, word);
      EventsStep(p, s, Mid(start, i, word));
      assert w == [w[0]] + w[1..];
      AtSplit(s, i, [w[0]], w[1..]);
      RestIsGood(w);
      word' := RunScan(p, s, start, i + 1, next, w[1..]);
      var rest := Events(p, s, Mid(start, i + 1, next));
      assert [] + rest == rest;
    }
  }

  lemma RestIsGood(w: string)
    requires GoodRun(w) && w != ""
    ensures GoodRun(w[1..])
  {
    forall k | 0 <= k < |w[1..]| ensures RunChar(w[1..][k]) && (w[1..][k] == '-' ==> k + 1 < |w[1..]| && w[1..][k + 1] != '-') {
      assert w[1..][k] == w[k + 1];
    }
  }

  /** So is a quoted value, whatever it holds. */
  lemma LitStep(p: Profile, s: string, start: nat, i: nat, word: int, l: Lit)
    requires AnsiLike(p) && WordOpen(s, start, i, word) && At(s, i, LitText(l))
    requires i + |LitText(l)| < |s| ==> NoQuote(s[i + |LitText(l)|])
    requires l.Str? ==> i > 0 && s[i - 1] !in {'e', 'E'}
    ensures i < |s| && InScript(s, Mid(start, i, word)) && i + |LitText(l)| <= |s|
    ensures Step(p, s, Mid(start, i, word)) == (Mid(start, i + |LitText(l)|, -1), [])
  {
    PlainWord(p, s, start, i, word);
    LitPast(p, s, i, l);
    hide EndWord, Past, WordAt, LitText, HasPrefixAt;
  }

  lemma LitPast(p: Profile, s: string, i: nat, l: Lit)
    requires AnsiLike(p) && At(s, i, LitText(l)) && (i + |LitText(l)| < |s| ==> NoQuote(s[i + |LitText(l)|]))
    requires l.Str? ==> i > 0 && s[i - 1] !in {'e', 'E'}
    ensures i < |s| && i + |LitText(l)| <= |s| && s[i] == (if l.Str? then '\'' else '"')
    ensures !WordAt(p.unicode, s, i, p.dollarInWords) && !HasPrefixAt(s, i, "--") && Past(p, s, i) == i + |LitText(l)|
  {
    SkipQuoted(s, i, l.x, if l.Str? then '\'' else '"');
    NoDashes(s, i);
  }

  lemma PieceScan(p: Profile, s: string, start: nat, i: nat, word: int, q: Piece)
    requires AnsiLike(p) && WordOpen(s, start, i, word) && At(s, i, q.run + LitText(q.lit)) && GoodPiece(q)
    requires var j := i + |q.run + LitText(q.lit)|; j < |s| && NoQuote(s[j])
    ensures var j := i + |q.run + LitText(q.lit)|;
            InScript(s, Mid(start, i, word)) && InScript(s, Mid(start, j, -1)) && WordOpen(s, start, j, -1) &&
            Events(p, s, Mid(start, i, word)) == Events(p, s, Mid(start, j, -1))
  {
    hide Step, Events, LitText, InScript, GoodRun, At, WordOpen, AnsiLike, Mid, NoQuote;
    AtSplit(s, i, q.run, LitText(q.lit));
    var m, j := i + |q.run|, i + |q.run + LitText(q.lit)|;
    LastAt(s, i, q.run);
    var w := RunScan(p, s, start, i, word, q.run);
    LitStep(p, s, start, m, w, q.lit);
    StandsAt(start, m, w);
    EventsStep(p, s, Mid(start, m, w));
    var rest := Events(p, s, Mid(start, j, -1));
    assert [] + rest == rest;
    NoWordOpen(s, start, i, word, j);
    PlainWord(p, s, start, j, -1);
  }

  lemma NoWordOpen(s: string, start: nat, i: nat, word: int, j: nat)
    requires WordOpen(s, start, i, word) && i <= j <= |s|
    ensures WordOpen(s, start, j, -1)
  {
  }

  lemma LastAt(s: string, i: nat, t: string)
    requires At(s, i, t) && t != ""
    ensures i + |t| <= |s| && s[i + |t| - 1] == t[|t| - 1] && s[i] == t[0]
  {
  }

  lemma StandsAt(start: nat, i: nat, word: int)
    ensures Mid(start, i, word).i == i && Mid(start, i, word).start == start
  {
  }

  /** What follows a literal is the next run, or what follows everything. */
  lemma {:induction false} PiecesScan(p: Profile, s: string, start: nat, i: nat, ps: seq<Piece>, tail: string)
    requires AnsiLike(p) && start <= i && At(s, i, PiecesText(ps) + tail) && GoodWoven(Woven(ps, tail))
    ensures var j := i + |PiecesText(ps)|;
            j <= |s| && InScript(s, Mid(start, i, -1)) && InScript(s, Mid(start, j, -1)) && WordOpen(s, start, j, -1) &&
            Events(p, s, Mid(start, i, -1)) == Events(p, s, Mid(start, j, -1))
    decreases |ps|
  {
    hide Events, InScript, LitText, GoodRun, Mid, AnsiLike, GoodPiece;
    if ps == [] {
      PlainWord(p, s, start, i, -1);
    } else {
      var q := ps[0];
      var j, more := i + |q.run + LitText(q.lit)|, PiecesText(ps[1..]) + tail;
      FirstPiece(s, i, ps, tail);
      hide At, GoodWoven, PiecesText;
      assert WordOpen(s, start, i, -1) && WordOpen(s, start, j, -1);
      PieceScan(p, s, start, i, -1, q);
      PiecesScan(p, s, start, j, ps[1..], tail);
    }
  }

  lemma FirstPiece(s: string, i: nat, ps: seq<Piece>, tail: string)
    requires At(s, i, PiecesText(ps) + tail) && GoodWoven(Woven(ps, tail)) && ps != []
    ensures var q, more := ps[0], PiecesText(ps[1..]) + tail;
            var j := i + |q.run + LitText(q.lit)|;
            && GoodPiece(q) && GoodWoven(Woven(ps[1..], tail)) && At(s, i, q.run + LitText(q.lit)) && At(s, j, more)
            && j < |s| && NoQuote(s[j]) && i + |PiecesText(ps)| == j + |PiecesText(ps[1..])|
  {
    hide GoodPiece, PiecesText, GoodWoven, LitText, GoodRun, At, RunChar, NoQuote;
    var q, more := ps[0], PiecesText(ps[1..]) + tail;
    GoodRest(ps, tail);
    RestStarts(ps[1..], tail);
    FirstText(ps, tail);
    PlainNoQuote(more[0]);
    AtSplit(s, i, q.run + LitText(q.lit), more);
    LastAt(s, i + |q.run + LitText(q.lit)|, more);
  }

  lemma GoodRest(ps: seq<Piece>, tail: string)
    requires GoodWoven(Woven(ps, tail)) && ps != []
    ensures GoodPiece(ps[0]) && GoodWoven(Woven(ps[1..], tail))
  {
    hide GoodPiece, GoodRun;
    forall k | 0 <= k < |ps[1..]| ensures GoodPiece(ps[1..][k]) {
      assert ps[1..][k] == ps[k + 1];
    }
  }

  lemma FirstText(ps: seq<Piece>, tail: string)
    requires ps != []
    ensures PiecesText(ps) + tail == (ps[0].run + LitText(ps[0].lit)) + (PiecesText(ps[1..]) + tail)
    ensures |PiecesText(ps)| == |ps[0].run + LitText(ps[0].lit)| + |PiecesText(ps[1..])|
  {
    hide LitText;
    assert PiecesText(ps) == (ps[0].run + LitText(ps[0].lit)) + PiecesText(ps[1..]);
  }

  lemma RestStarts(ps: seq<Piece>, tail: string)
    requires GoodWoven(Woven(ps, tail))
    ensures PiecesText(ps) + tail != "" && RunChar((PiecesText(ps) + tail)[0])
  {
    if ps != [] {
      assert GoodPiece(ps[0]);
      assert PiecesText(ps)[0] == ps[0].run[0];
    }
  }

  /** The whole text is passed over silently, up to what follows it. */
  lemma WovenScan(p: Profile, s: string, start: nat, i: nat, v: Woven) returns (word: int)
    requires AnsiLike(p) && start <= i && At(s, i, WovenText(v)) && GoodWoven(v)
    ensures var j := i + |WovenText(v)|;
            InScript(s, Mid(start, i, -1)) && InScript(s, Mid(start, j, word)) && WordOpen(s, start, j, word) &&
            Events(p, s, Mid(start, i, -1)) == Events(p, s, Mid(start, j, word))
  {
    hide Events, InScript, GoodPiece, PiecesText, GoodRun;
    PiecesScan(p, s, start, i, v.pieces, v.tail);
    AtSplit(s, i, PiecesText(v.pieces), v.tail);
    word := RunScan(p, s, start, i + |PiecesText(v.pieces)|, -1, v.tail);
  }
}
