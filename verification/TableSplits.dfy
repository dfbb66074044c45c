/** Splitting what WriteTableData wrote: one statement per batch, whatever the cells hold. */
module TableSplits {
  import opened Wrappers
  import opened Text
  import opened Markers
  import opened Lexer
  import opened Scanner
  import opened Quoting
  import opened Weave
  import opened TableData

  /** Before a statement's first character, with nothing but white space or a comment since start. */
  function Lead(start: nat, i: nat): Control {
    START.(start := start, i := i)
  }

  lemma LeadIn(s: string, start: nat, i: nat)
    requires start <= i <= |s|
    ensures InScript(s, Lead(start, i)) && Lead(start, i).i == i && Lead(start, i).start == start && Lead(0, 0) == START
  {
  }

  /** The first word opens the statement. */
  lemma FirstWord(p: Profile, s: string, start: nat, i: nat)
    requires AnsiLike(p) && start <= i < |s| && s[i] == 'I'
    ensures InScript(s, Lead(start, i)) && InScript(s, Mid(start, i, -1)) && Events(p, s, Lead(start, i)) == Events(p, s, Mid(start, i, -1))
  {
    hide Events, Step;
    FirstLetter(p, s, i);
    FirstStep(p, s, start, i);
    EventsStep(p, s, Lead(start, i));
    EventsStep(p, s, Mid(start, i, -1));
  }

  /** The letter starts a word, and no directive. */
  lemma FirstLetter(p: Profile, s: string, i: nat)
    requires i < |s| && s[i] == 'I'
    ensures WordAt(p.unicode, s, i, p.dollarInWords) && !HasWordAt(p.unicode, s, i, DIRECTIVE)
  {
    assert UpperChar(s[i + 0]) != DIRECTIVE[0] && s[i + 0] != DIRECTIVE[0];
  }

  lemma FirstStep(p: Profile, s: string, start: nat, i: nat)
    requires AnsiLike(p) && start <= i < |s| && WordAt(p.unicode, s, i, p.dollarInWords) && !HasWordAt(p.unicode, s, i, DIRECTIVE)
    ensures InScript(s, Lead(start, i)) && InScript(s, Mid(start, i, -1)) && Step(p, s, Lead(start, i)) == Step(p, s, Mid(start, i, -1))
  {
    hide HasWordAt, WordAt;
  }

  /** White space between statements. */
  lemma SpaceStep(p: Profile, s: string, start: nat, i: nat)
    requires AnsiLike(p) && start <= i < |s| && s[i] == '\n'
    ensures InScript(s, Lead(start, i)) && InScript(s, Lead(start, i + 1)) && Events(p, s, Lead(start, i)) == Events(p, s, Lead(start, i + 1))
  {
    var c := Lead(start, i);
    LeadIn(s, start, i);
    LeadIn(s, start, i + 1);
    SpaceMoves(p, s, start, i);
    hide Step, InScript, Events;
    EventsStep(p, s, c);
    var rest := Events(p, s, Lead(start, i + 1));
    assert [] + rest == rest;
  }

  lemma SpaceMoves(p: Profile, s: string, start: nat, i: nat)
    requires AnsiLike(p) && start <= i < |s| && s[i] == '\n' && InScript(s, Lead(start, i))
    ensures Step(p, s, Lead(start, i)) == (Lead(start, i + 1), [])
  {
    hide HasPrefixAt, Past, NoContent, WordAt;
    assert EndWord(p, s, Lead(start, i), i) == Lead(start, i);
    NoDashes(s, i);
    SpacePast(p, s, i);
    hide EndWord;
  }

  lemma SpacePast(p: Profile, s: string, i: nat)
    requires i < |s| && s[i] == '\n'
    ensures !WordAt(p.unicode, s, i, p.dollarInWords) && Past(p, s, i) == i + 1 && NoContent(p, s, i)
  {
  }

  /** The separator ends the statement. */
  lemma SemicolonStep(p: Profile, s: string, start: nat, i: nat, word: int)
    requires AnsiLike(p) && WordOpen(s, start, i, word) && i < |s| && s[i] == ';'
    ensures InScript(s, Mid(start, i, word)) && InScript(s, Lead(i + 1, i + 1))
    ensures Events(p, s, Mid(start, i, word)) == Flushed(p, s, start, i) + Events(p, s, Lead(i + 1, i + 1))
  {
    LeadIn(s, i + 1, i + 1);
    PlainWord(p, s, start, i, word);
    SemicolonMoves(p, s, start, i, word);
    hide Step, InScript, Events, Flushed, EndWord;
    EventsStep(p, s, Mid(start, i, word));
  }

  lemma SemicolonMoves(p: Profile, s: string, start: nat, i: nat, word: int)
    requires AnsiLike(p) && WordOpen(s, start, i, word) && i < |s| && s[i] == ';' && InScript(s, Mid(start, i, word))
    requires EndWord(p, s, Mid(start, i, word), i) == Mid(start, i, -1)
    ensures Step(p, s, Mid(start, i, word)) == (Lead(i + 1, i + 1), Flushed(p, s, start, i))
  {
    hide EndWord, Flushed, HasPrefixAt, DashComment, WordOpen, Separator;
    assert !WordAt(p.unicode, s, i, p.dollarInWords);
    NoDashes(s, i);
    Separates(p, s, start, i);
  }

  lemma Separates(p: Profile, s: string, start: nat, i: nat)
    requires InScript(s, Mid(start, i, -1)) && i < |s|
    ensures Separator(p, s, Mid(start, i, -1)) == (Lead(i + 1, i + 1), Flushed(p, s, start, i))
  {
    hide Flushed;
  }

  /** The comment line before the data is no marker, and opens no statement. */
  lemma CommentStep(p: Profile, s: string, t: Table)
    requires AnsiLike(p) && At(s, 0, Header(t)) && '\n' !in t.name
    ensures |Header(t)| <= |s| && InScript(s, START) && InScript(s, Lead(0, |Header(t)|))
    ensures Events(p, s, START) == Events(p, s, Lead(0, |Header(t)|))
  {
    HeaderLine(s, t);
    NoMarker(s, t);
    hide Header, ParseFrameMarker, ParseCollationMarker, Line, Eol, Events, At, AnsiLike, Step, InScript, Lead;
    CommentLineStep(p, s);
    LeadIn(s, 0, 0);
    LeadIn(s, 0, |Header(t)|);
    EventsStep(p, s, START);
    var rest := Events(p, s, Lead(0, |Header(t)|));
    assert [] + rest == rest;
  }

  lemma CommentLineStep(p: Profile, s: string)
    requires AnsiLike(p) && |s| > 2 && s[0] == '-' && s[1] == '-' && s[2] == ' ' && Eol(s, 0) < |s|
    requires ParseFrameMarker(Line(s, 0)) == None && ParseCollationMarker(Line(s, 0)) == None
    ensures InScript(s, START) && Step(p, s, START) == (Lead(0, Eol(s, 0) + 1), [])
  {
    DashStep(p, s);
    hide Step, ParseFrameMarker, ParseCollationMarker, Line, Eol, AnsiLike;
    assert PastLine(s, 0) == Eol(s, 0) + 1;
  }

  lemma DashStep(p: Profile, s: string)
    requires AnsiLike(p) && |s| > 2 && s[0] == '-' && s[1] == '-' && s[2] == ' '
    ensures InScript(s, START) && Step(p, s, START) == CommentLine(p, s, START)
  {
    assert s[0..2] == "--";
    hide CommentLine;
    assert EndWord(p, s, START, 0) == START;
  }

  lemma HeaderLine(s: string, t: Table)
    requires At(s, 0, Header(t)) && '\n' !in t.name
    ensures |Header(t)| <= |s| && Eol(s, 0) == |Header(t)| - 1 < |s| && s[0] == '-' && s[1] == '-' && s[2] == ' '
    ensures s[..|Header(t)|] == Header(t)
  {
    var h := Header(t);
    var e := |h| - 1;
    assert s[0] == h[0] && s[1] == h[1] && s[2] == h[2] && s[e] == h[e];
    forall k | 0 <= k < e ensures s[k] != '\n' {
      assert s[k] == h[k];
      if k >= 9 { assert h[k] == t.name[k - 9]; }
    }
    EolAt(s, 0, e);
  }

  lemma {:induction false} EolAt(s: string, i: nat, e: nat)
    requires i <= e < |s| && s[e] == '\n' && forall k :: i <= k < e ==> s[k] != '\n'
    ensures Eol(s, i) == e
    decreases e - i
  {
    if i < e {
      EolAt(s, i + 1, e);
    }
  }

  lemma NoMarker(s: string, t: Table)
    requires At(s, 0, Header(t)) && '\n' !in t.name
    ensures ParseFrameMarker(Line(s, 0)) == None && ParseCollationMarker(Line(s, 0)) == None
  {
    HeaderLine(s, t);
    var line := s[0..Eol(s, 0)];
    assert line[3] == s[3] == Header(t)[3] == 'D';
    NotMarked(line);
  }

  lemma NotMarked(line: string)
    requires |line| > 3 && line[3] == 'D'
    ensures ParseFrameMarker(TrimCr(line)) == None && ParseCollationMarker(TrimCr(line)) == None
  {
    var t := TrimCr(line);
    var bare := TrimCr(t);
    if CutPrefix(bare, MARKER_PREFIX).Some? {
      FourthIs(bare);
    }
    assert CutPrefix(bare, MARKER_PREFIX) == None;
    hide CutPrefix, HexField, SplitOn, ValidFrameDelimiter;
  }

  lemma FourthIs(bare: string)
    requires CutPrefix(bare, MARKER_PREFIX).Some?
    ensures |bare| > 3 && bare[3] == MARKER_PREFIX[3] != 'D'
  {
    assert bare[..|MARKER_PREFIX|][3] == bare[3];
  }

  // --- one batch -----------------------------------------------------------------------------------------

  /** A batch, from its first character to the line after it: whatever its cells hold, it is passed over up
      to its own separator. */
  lemma OneBatchScan(p: Profile, s: string, t: Table, rows: seq<Row>, start: nat, i: nat)
    requires AnsiLike(p) && GoodTable(t) && GoodRows(t, rows) && rows != [] && start <= i && At(s, i, BatchText(t, rows) + ";\n")
    ensures var j := i + |BatchText(t, rows)|;
            && j + 2 <= |s| && InScript(s, Lead(start, i)) && InScript(s, Lead(j + 1, j + 2))
            && Events(p, s, Lead(start, i)) == Flushed(p, s, start, j) + Events(p, s, Lead(j + 1, j + 2))
  {
    hide Events, At, AnsiLike, InScript, Flushed, GoodRows, BatchWoven, WovenText, BatchText, GoodTable, GoodWoven, Mid, Lead;
    var b, v := BatchText(t, rows), BatchWoven(t, rows);
    BatchIsWoven(t, rows);
    BatchAt(s, i, b);
    FirstWord(p, s, start, i);
    var word := WovenScan(p, s, start, i, v);
    SemicolonStep(p, s, start, i + |b|, word);
    SpaceStep(p, s, i + |b| + 1, i + |b| + 1);
  }

  lemma BatchAt(s: string, i: nat, b: string)
    requires At(s, i, b + ";\n") && b != ""
    ensures At(s, i, b) && i + |b| + 2 <= |s| && s[i] == b[0] && s[i + |b| - 1] == b[|b| - 1] && s[i..i + |b|] == b
    ensures s[i + |b|] == ';' && s[i + |b| + 1] == '\n'
  {
    AtSplit(s, i, b, ";\n");
    assert s[i + |b|] == ";\n"[0] && s[i + |b| + 1] == ";\n"[1];
  }

  // --- what is flushed -----------------------------------------------------------------------------------

  predicate Blank(s: string, lo: nat, hi: nat) {
    lo <= hi <= |s| && forall k :: lo <= k < hi ==> IsSpace(s[k])
  }

  lemma {:induction false} TrimLoIs(s: string, start: nat, lo: nat, hi: nat)
    requires Blank(s, start, lo) && lo <= hi <= |s| && (lo < hi ==> !IsSpace(s[lo]))
    ensures TrimLo(s, start, hi) == lo
    decreases lo - start
  {
    if start < lo {
      TrimLoIs(s, start + 1, lo, hi);
    }
  }

  lemma FlushedIs(p: Profile, s: string, start: nat, lo: nat, hi: nat)
    requires Blank(s, start, lo) && lo < hi <= |s| && !IsSpace(s[lo]) && !IsSpace(s[hi - 1])
    ensures Flushed(p, s, start, hi) == if StripLeadingComments(p, s[lo..hi]) == "" then [] else [Item(lo, hi, None)]
  {
    hide StripLeadingComments;
    TrimLoIs(s, start, lo, hi);
    assert TrimHi(s, lo, hi) == hi;
  }

  lemma BlankFlush(p: Profile, s: string, start: nat, hi: nat)
    requires Blank(s, start, hi)
    ensures Flushed(p, s, start, hi) == []
  {
    TrimLoIs(s, start, hi, hi);
  }

  lemma StripsToItself(p: Profile, b: string)
    requires b != "" && AsciiWord(b[0])
    ensures StripLeadingComments(p, b) == b
  {
    forall t: string | |t| == 2 && !AsciiWord(t[0]) ensures !HasPrefixAt(b, 0, t) {
      if |b| >= 2 {
        assert b[0..2][0] == b[0];
      }
    }
    if |b| >= 1 {
      assert b[0..1][0] == b[0];
    }
    assert !AsciiWord("--"[0]) && !AsciiWord("/*"[0]) && !AsciiWord("#"[0]);
  }

  /** The comment line in front of the first statement is stripped before the statement is looked at. */
  lemma HeaderStrips(p: Profile, t: Table, b: string)
    requires '\n' !in t.name && b != "" && b[0] == 'I' && b[|b| - 1] == ')'
    ensures StripLeadingComments(p, Header(t) + b) == b
  {
    var all := Header(t) + b;
    HeaderAt(t, b);
    HeaderLine(all, t);
    hide Header, StripLeadingComments, DashComment, TrimSpace, Eol;
    LineStrips(p, all);
    assert all[Eol(all, 0) + 1..] == b;
    TrimsToItself(b);
    StripsToItself(p, b);
  }

  /** A first line that is a comment is dropped with its end. */
  lemma LineStrips(p: Profile, t: string)
    requires |t| >= 2 && t[0] == '-' && t[1] == '-' && DashComment(p, t, 0) && Eol(t, 0) < |t|
    ensures StripLeadingComments(p, t) == StripLeadingComments(p, TrimSpace(t[Eol(t, 0) + 1..]))
  {
    hide DashComment, Eol, TrimSpace;
    assert t[0..2] == "--";
  }

  lemma TrimsToItself(b: string)
    requires b != "" && !IsSpace(b[0]) && !IsSpace(b[|b| - 1])
    ensures TrimSpace(b) == b
  {
  }

  lemma HeaderAt(t: Table, b: string)
    ensures At(Header(t) + b, 0, Header(t)) && |Header(t)| > 4
  {
  }

  /** A dump without rows is a comment, and no statement. */
  lemma CommentOnly(p: Profile, s: string, t: Table)
    requires '\n' !in t.name && s == Header(t) + "\n"
    ensures Flushed(p, s, 0, |s|) == []
  {
    HeaderAt(t, "\n");
    HeaderLine(s, t);
    var n := |Header(t)|;
    assert s[n] == '\n' && s[n - 1] == '\n';
    assert s[3] == Header(t)[3] == 'D';
    hide Header;
    var a := TrimLo(s, 0, |s|);
    assert a == 0;
    var b := TrimHi(s, 0, |s|);
    assert b <= n - 1;
    assert b > 3;
    DashesStrip(p, s[0..b]);
  }

  lemma DashesStrip(p: Profile, t: string)
    requires |t| > 3 && t[0] == '-' && t[1] == '-' && t[2] == ' ' && forall k :: 0 <= k < |t| ==> t[k] != '\n'
    ensures StripLeadingComments(p, t) == ""
  {
    assert t[0..2] == "--";
    assert Eol(t, 0) == |t|;
  }

  // --- all batches ---------------------------------------------------------------------------------------

  function BatchTexts(t: Table, bs: seq<seq<Row>>): seq<string>
    requires GoodBatches(t, bs)
  {
    if bs == [] then [] else [BatchText(t, bs[0])] + BatchTexts(t, bs[1..])
  }

  /** The first of the batches left, and the rest of the text. */
  lemma FirstBatch(t: Table, bs: seq<seq<Row>>)
    requires GoodBatches(t, bs) && bs != []
    ensures GoodRows(t, bs[0]) && bs[0] != [] && GoodBatches(t, bs[1..])
    ensures BatchesText(t, bs) == (BatchText(t, bs[0]) + ";\n") + BatchesText(t, bs[1..])
    ensures BatchTexts(t, bs) == [BatchText(t, bs[0])] + BatchTexts(t, bs[1..])
  {
    hide BatchText, GoodRows;
  }

  lemma NoBatches(t: Table)
    ensures GoodBatches(t, []) && BatchesText(t, []) == "" && BatchTexts(t, []) == []
  {
  }

  /** The batches from one on. */
  lemma {:induction false} BatchesScan(p: Profile, s: string, t: Table, bs: seq<seq<Row>>, start: nat, i: nat)
    requires AnsiLike(p) && GoodTable(t) && GoodBatches(t, bs) && Blank(s, start, i)
    requires At(s, i, BatchesText(t, bs)) && i + |BatchesText(t, bs)| + 1 == |s| && s[|s| - 1] == '\n'
    ensures InScript(s, Lead(start, i)) && Fits(s, Events(p, s, Lead(start, i)))
    ensures Texts(s, Events(p, s, Lead(start, i))) == BatchTexts(t, bs)
    decreases |bs|
  {
    hide Events, At, AnsiLike, InScript, Flushed, GoodRows, BatchText, GoodTable, Lead, Fits, Texts, Blank, BatchesText, BatchTexts, GoodBatches;
    if bs == [] {
      NoBatches(t);
      LastLine(p, s, start, i);
    } else {
      FirstBatch(t, bs);
      var b := BatchText(t, bs[0]);
      var j := i + |b|;
      AtSplit(s, i, b + ";\n", BatchesText(t, bs[1..]));
      assert start <= i by { BlankOrder(s, start, i); }
      OneBatchScan(p, s, t, bs[0], start, i);
      BatchFlush(p, s, t, bs[0], start, i);
      BlankLine(s, i, b);
      BatchesScan(p, s, t, bs[1..], j + 1, j + 2);
      TextsCons(s, Item(i, j, None), Events(p, s, Lead(j + 1, j + 2)));
    }
  }

  lemma BlankOrder(s: string, lo: nat, hi: nat)
    requires Blank(s, lo, hi)
    ensures lo <= hi <= |s|
  {
  }

  lemma BlankLine(s: string, i: nat, b: string)
    requires At(s, i, b + ";\n")
    ensures Blank(s, i + |b| + 1, i + |b| + 2)
  {
    AtSplit(s, i, b, ";\n");
    assert s[i + |b| + 1] == ";\n"[1];
  }

  lemma BatchFlush(p: Profile, s: string, t: Table, rows: seq<Row>, start: nat, i: nat)
    requires GoodTable(t) && GoodRows(t, rows) && rows != [] && Blank(s, start, i) && At(s, i, BatchText(t, rows) + ";\n")
    ensures var j := i + |BatchText(t, rows)|;
            j <= |s| && s[i..j] == BatchText(t, rows) && Flushed(p, s, start, j) == [Item(i, j, None)]
  {
    hide At, GoodTable, GoodRows, BatchText, BatchWoven, WovenText, GoodWoven, Blank, Flushed, StripLeadingComments;
    var b := BatchText(t, rows);
    BatchIsWoven(t, rows);
    BatchAt(s, i, b);
    StripsToItself(p, b);
    FlushedIs(p, s, start, i, i + |b|);
  }

  lemma LastLine(p: Profile, s: string, start: nat, i: nat)
    requires AnsiLike(p) && Blank(s, start, i) && i + 1 == |s| && s[i] == '\n'
    ensures InScript(s, Lead(start, i)) && Events(p, s, Lead(start, i)) == [] && Fits(s, []) && Texts(s, []) == []
  {
    SpaceStep(p, s, start, i);
    EventsEnd(p, s, Lead(start, |s|));
    BlankFlush(p, s, start, |s|);
  }

  // --- the theorem ---------------------------------------------------------------------------------------

  /** The first batch's text takes the comment line in front of it along. */
  function Expected(t: Table, bs: seq<seq<Row>>): seq<string>
    requires GoodBatches(t, bs)
  {
    if bs == [] then [] else [Header(t) + BatchText(t, bs[0])] + BatchTexts(t, bs[1..])
  }

  /** Splitting what was written gives one statement for each batch that was flushed, with exactly that
      batch's text: no cell value, column or table name moves a statement boundary. */
  lemma BatchesRoundTrip(p: Profile, t: Table, bs: seq<seq<Row>>)
    requires AnsiLike(p) && GoodTable(t) && GoodBatches(t, bs)
    ensures Fits(Output(t, bs), Scan(p, Output(t, bs))) && Texts(Output(t, bs), Scan(p, Output(t, bs))) == Expected(t, bs)
  {
    hide Events, AnsiLike, InScript, Lead, Fits, Texts, BatchesText, BatchTexts, Header, BatchText, GoodRows, Flushed, At;
    var s, h := Output(t, bs), Header(t);
    if bs == [] {
      NoBatches(t);
      assert s == h + "\n";
      HeaderStands(s, t, "\n");
      CommentStep(p, s, t);
      CommentOnly(p, s, t);
      EmptyDump(p, s, |h|);
    } else {
      FirstBatch(t, bs);
      var b, rest := BatchText(t, bs[0]), BatchesText(t, bs[1..]);
      var tail := ((b + ";\n") + rest) + "\n";
      assert s == h + tail;
      HeaderStands(s, t, tail);
      CommentStep(p, s, t);
      TailStands(s, |h|, b, rest);
      OneBatchScan(p, s, t, bs[0], 0, |h|);
      FirstFlush(p, s, t, bs[0]);
      BlankLine(s, |h|, b);
      var j := |h| + |b|;
      BatchesScan(p, s, t, bs[1..], j + 1, j + 2);
      TextsCons(s, Item(0, j, None), Events(p, s, Lead(j + 1, j + 2)));
    }
  }

  lemma HeaderStands(s: string, t: Table, tail: string)
    requires s == Header(t) + tail
    ensures At(s, 0, Header(t)) && At(s, |Header(t)|, tail) && |s| == |Header(t)| + |tail|
  {
    hide Header;
  }

  lemma TailStands(s: string, i: nat, b: string, rest: string)
    requires At(s, i, ((b + ";\n") + rest) + "\n") && |s| == i + |((b + ";\n") + rest) + "\n"|
    ensures At(s, i, b + ";\n") && At(s, i + |b| + 2, rest) && |s| == i + |b| + 2 + |rest| + 1 && s[|s| - 1] == '\n'
  {
    AtSplit(s, i, (b + ";\n") + rest, "\n");
    AtSplit(s, i, b + ";\n", rest);
    assert s[|s| - 1] == "\n"[0];
  }

  lemma EmptyDump(p: Profile, s: string, i: nat)
    requires AnsiLike(p) && i + 1 == |s| && s[i] == '\n' && Flushed(p, s, 0, |s|) == []
    ensures InScript(s, Lead(0, i)) && Events(p, s, Lead(0, i)) == [] && Fits(s, []) && Texts(s, []) == []
  {
    SpaceStep(p, s, 0, i);
    EventsEnd(p, s, Lead(0, |s|));
  }

  lemma FirstFlush(p: Profile, s: string, t: Table, rows: seq<Row>)
    requires GoodTable(t) && GoodRows(t, rows) && rows != [] && At(s, 0, Header(t)) && At(s, |Header(t)|, BatchText(t, rows) + ";\n")
    ensures var j := |Header(t)| + |BatchText(t, rows)|;
            j <= |s| && s[0..j] == Header(t) + BatchText(t, rows) && Flushed(p, s, 0, j) == [Item(0, j, None)]
  {
    hide Header, GoodRows, BatchText, BatchWoven, WovenText, GoodWoven, Flushed, StripLeadingComments, At;
    var h, b := Header(t), BatchText(t, rows);
    BatchIsWoven(t, rows);
    BatchAt(s, |h|, b);
    HeaderLine(s, t);
    HeaderStrips(p, t, b);
    var j := |h| + |b|;
    assert s[0..j] == s[..|h|] + s[|h|..j];
    FlushedIs(p, s, 0, 0, j);
  }
}
