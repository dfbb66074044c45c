/** Opaque frames: what the dump writer wraps around a binary-fetched body, the scanner gives back byte for byte. */
module Frames {
  import opened Wrappers
  import opened Text
  import opened Markers
  import opened Lexer
  import opened Scanner
  import opened Quoting

  // --- the writer ----------------------------------------------------------------------------------------

  function DelimiterLine(d: string): string {
    DIRECTIVE + " " + d
  }

  /** writeDumpScript's opaque branch. */
  function FrameText(body: string, d: string): string {
    FormatFrameMarker(d) + "\n" + DelimiterLine(d) + "\n" + body + "\n" + d + "\n" + DelimiterLine(";") + "\n"
  }

  datatype Framing = Framing(body: string, delim: string)

  predicate Framable(f: Framing) {
    ValidFrameDelimiter(f.delim) && !Contains(f.body, f.delim)
  }

  function FramesText(fs: seq<Framing>): string {
    if fs == [] then "" else FrameText(fs[0].body, fs[0].delim) + FramesText(fs[1..])
  }

  /** One frame per body, each under a delimiter that fits it. */
  ghost predicate Frames(bodies: seq<string>, fs: seq<Framing>) {
    |fs| == |bodies| && forall k :: 0 <= k < |fs| ==> fs[k].body == bodies[k] && Framable(fs[k])
  }

  /** Frames each body under a delimiter derived from it. */
  method WriteFrames(bodies: seq<string>) returns (script: string)
    requires forall k :: 0 <= k < |bodies| ==> |bodies[k]| < 1000000000000
    ensures exists fs :: Frames(bodies, fs) && script == FramesText(fs)
  {
    hide Frames, FramesText, FrameText, Contains, ValidFrameDelimiter, FirstFree;
    script := "";
    ghost var fs: seq<Framing> := [];
    NoFrames();
    var k := |bodies|;
    assert bodies[k..] == [];
    while k > 0
      invariant 0 <= k <= |bodies| && Frames(bodies[k..], fs) && script == FramesText(fs)
    {
      k := k - 1;
      var d := ChooseFrameDelimiter(bodies[k]);
      OneFrame(bodies, k, d, fs);
      script := FrameText(bodies[k], d) + script;
      fs := [Framing(bodies[k], d)] + fs;
    }
    assert bodies[0..] == bodies;
  }

  lemma NoFrames()
    ensures FramesText([]) == "" && Frames([], [])
  {
  }

  lemma OneFrame(bodies: seq<string>, k: nat, d: string, fs: seq<Framing>)
    requires k < |bodies| && Frames(bodies[k + 1..], fs) && ValidFrameDelimiter(d) && !Contains(bodies[k], d)
    ensures var gs := [Framing(bodies[k], d)] + fs; Frames(bodies[k..], gs) && FramesText(gs) == FrameText(bodies[k], d) + FramesText(fs)
  {
    hide FrameText, ValidFrameDelimiter, Contains;
    var f := Framing(bodies[k], d);
    var gs := [f] + fs;
    assert gs[1..] == fs;
    assert Framable(f);
    forall j | 0 <= j < |gs| ensures gs[j].body == bodies[k..][j] && Framable(gs[j]) {
      if j > 0 {
        assert gs[j] == fs[j - 1];
        assert bodies[k + 1..][j - 1] == bodies[k..][j];
      }
    }
  }

  // --- reading a frame back ------------------------------------------------------------------------------

  /** A line of the script, when the text of it is known. */
  lemma LineIs(s: string, i: nat, t: string)
    requires At(s, i, t + "\n") && (forall k :: 0 <= k < |t| ==> t[k] != '\n') && (t != "" ==> t[|t| - 1] != '\r')
    ensures Eol(s, i) == i + |t| && i + |t| < |s| && Line(s, i) == t
  {
    assert s[i + |t|] == (t + "\n")[|t|];
    forall j | i <= j < i + |t| ensures s[j] == t[j - i] && s[j] != '\n' {
      assert (t + "\n")[j - i] == t[j - i];
    }
    EolIs(s, i, i + |t|);
    assert s[i..i + |t|] == t;
  }

  lemma {:induction false} EolIs(s: string, i: nat, e: nat)
    requires i <= e < |s| && s[e] == '\n' && forall k :: i <= k < e ==> s[k] != '\n'
    ensures Eol(s, i) == e
    decreases e - i
  {
    if i < e {
      EolIs(s, i + 1, e);
    }
  }

  /** No line of the body reads as the delimiter, so the search runs to the line after it. */
  lemma {:induction false} TerminatorIs(s: string, bodyStart: nat, at: nat, body: string, d: string)
    requires At(s, bodyStart, body) && At(s, bodyStart + |body|, "\n") && At(s, bodyStart + |body| + 1, d + "\n")
    requires ValidFrameDelimiter(d) && !Contains(body, d) && bodyStart <= at <= bodyStart + |body| + 1
    ensures bodyStart + |body| + |d| + 2 <= |s|
    ensures FindTerminator(s, bodyStart, at, d) == Frame(bodyStart, bodyStart + |body|, bodyStart + |body| + |d| + 2)
    decreases bodyStart + |body| + 1 - at
  {
    hide At, ValidFrameDelimiter, Contains, Line;
    var end := bodyStart + |body|;
    PlainDelimiter(d);
    LineIs(s, end + 1, d);
    if at <= end {
      NewlineAt(s, end);
      EolBefore(s, at, end);
      var e := Eol(s, at);
      assert Line(s, at) != d by { NotALine(s, bodyStart, at, e, body, d); }
      TerminatorIs(s, bodyStart, e + 1, body, d);
    }
  }

  lemma NewlineAt(s: string, i: nat)
    requires At(s, i, "\n")
    ensures i < |s| && s[i] == '\n'
  {
    assert s[i] == "\n"[0];
  }

  lemma PlainDelimiter(d: string)
    requires ValidFrameDelimiter(d)
    ensures d != "" && d[|d| - 1] != '\r' && forall k :: 0 <= k < |d| ==> d[k] != '\n'
  {
  }

  lemma {:induction false} EolBefore(s: string, i: nat, e: nat)
    requires i <= e < |s| && s[e] == '\n'
    ensures Eol(s, i) <= e
    decreases e - i
  {
    if i < e && s[i] != '\n' {
      EolBefore(s, i + 1, e);
    }
  }

  lemma NotALine(s: string, bodyStart: nat, at: nat, e: nat, body: string, d: string)
    requires At(s, bodyStart, body) && bodyStart <= at <= e <= bodyStart + |body| && !Contains(body, d)
    ensures e == Eol(s, at) ==> Line(s, at) != d
    ensures TrimCr(s[at..e]) != d
  {
    var from := at - bodyStart;
    if TrimCr(s[at..e]) == d {
      var line := s[at..e];
      assert |d| <= |line|;
      forall k | 0 <= k < |d| ensures body[from + k] == d[k] {
        assert s[at + k] == body[at + k - bodyStart];
        assert line[k] == s[at + k] && TrimCr(line)[k] == line[k];
      }
      assert body[from..from + |d|] == d;
      assert HasPrefixAt(body, from, d);
    }
  }

  /** Between statements, at position i. */
  function Between(i: nat): Control {
    START.(i := i, start := i)
  }

  /** Where a frame's body starts, relative to the frame. */
  function BodyOffset(d: string): nat {
    |FormatFrameMarker(d)| + |DelimiterLine(d)| + 2
  }

  const RESET: string := "DELIMITER ;\n"

  /** The pieces of a frame: the two lines before its body ... */
  predicate HeadAt(s: string, i: nat, d: string) {
    At(s, i, FormatFrameMarker(d) + "\n") && At(s, i + |FormatFrameMarker(d)| + 1, DelimiterLine(d) + "\n")
  }

  /** ... its body, which starts at lo, and the two lines after it. */
  predicate TailAt(s: string, lo: nat, body: string, d: string) {
    At(s, lo, body) && At(s, lo + |body|, "\n") && At(s, lo + |body| + 1, d + "\n") && At(s, lo + |body| + |d| + 2, RESET)
  }

  lemma FramePieces(s: string, i: nat, body: string, d: string)
    requires At(s, i, FrameText(body, d))
    ensures HeadAt(s, i, d) && TailAt(s, i + BodyOffset(d), body, d)
    ensures |FrameText(body, d)| == BodyOffset(d) + |body| + |d| + 2 + |RESET|
  {
    hide At, FormatFrameMarker, DelimiterLine;
    var m, l, r := FormatFrameMarker(d), DelimiterLine(d), RESET;
    assert DelimiterLine(";") + "\n" == r by { ResetText(); }
    var tail := body + ("\n" + ((d + "\n") + r));
    assert FrameText(body, d) == (m + "\n") + ((l + "\n") + tail);
    AtSplit(s, i, m + "\n", (l + "\n") + tail);
    AtSplit(s, i + |m| + 1, l + "\n", tail);
    TailPieces(s, i + BodyOffset(d), body, d);
  }

  lemma TailPieces(s: string, lo: nat, body: string, d: string)
    requires At(s, lo, body + ("\n" + ((d + "\n") + RESET)))
    ensures TailAt(s, lo, body, d)
  {
    hide At;
    AtSplit(s, lo, body, "\n" + ((d + "\n") + RESET));
    AtSplit(s, lo + |body|, "\n", (d + "\n") + RESET);
    AtSplit(s, lo + |body| + 1, d + "\n", RESET);
  }

  lemma NothingToFlush(p: Profile, s: string, i: nat)
    requires i <= |s|
    ensures Flushed(p, s, i, i) == []
  {
  }

  predicate OneLine(t: string) {
    t != "" && t[|t| - 1] != '\r' && forall k :: 0 <= k < |t| ==> t[k] != '\n'
  }

  lemma OneLines(pre: string, d: string)
    requires OneLine(d) && forall k :: 0 <= k < |pre| ==> pre[k] != '\n'
    ensures OneLine(pre + d)
  {
    assert (pre + d)[|pre + d| - 1] == d[|d| - 1];
  }

  lemma FrameLines(d: string)
    requires ValidFrameDelimiter(d)
    ensures OneLine(d) && OneLine(FormatFrameMarker(d)) && OneLine(DelimiterLine(d))
  {
    PlainDelimiter(d);
    hide ValidFrameDelimiter;
    OneLines(MARKER_PREFIX + ("frame" + " " + FRAME_FIELD), d);
    assert FormatFrameMarker(d) == (MARKER_PREFIX + ("frame" + " " + FRAME_FIELD)) + d;
    OneLines(DIRECTIVE + " ", d);
  }

  /** The frame marker's line, and the line after it. */
  lemma MarkerLines(s: string, i: nat, d: string)
    requires HeadAt(s, i, d) && ValidFrameDelimiter(d)
    ensures Line(s, i) == FormatFrameMarker(d) && Eol(s, i) == i + |FormatFrameMarker(d)| < |s|
    ensures var e := i + |FormatFrameMarker(d)| + 1;
            e <= |s| && Line(s, e) == DelimiterLine(d) && Eol(s, e) == e + |DelimiterLine(d)| < |s|
  {
    hide At, ValidFrameDelimiter, Line, FormatFrameMarker, DelimiterLine;
    FrameLines(d);
    LineIs(s, i, FormatFrameMarker(d));
    LineIs(s, i + |FormatFrameMarker(d)| + 1, DelimiterLine(d));
  }

  /** The frame is consumed: exactly its body, and everything up to the line that resets the delimiter. */
  lemma FrameConsumed(s: string, i: nat, body: string, d: string)
    requires HeadAt(s, i, d) && TailAt(s, i + BodyOffset(d), body, d) && ValidFrameDelimiter(d) && !Contains(body, d)
    ensures var lo := i + BodyOffset(d);
            lo + |body| + |d| + 2 <= |s| &&
            ConsumeFrame(s, i + |FormatFrameMarker(d)|, d) == Some(Frame(lo, lo + |body|, lo + |body| + |d| + 2))
  {
    hide At, Line, ValidFrameDelimiter, Contains, FindTerminator, FormatFrameMarker, DelimiterLine;
    MarkerLines(s, i, d);
    TerminatorIs(s, i + BodyOffset(d), i + BodyOffset(d), body, d);
    assert DIRECTIVE + " " + d == DelimiterLine(d) by { LineText(d); }
  }

  lemma LineText(d: string)
    ensures DelimiterLine(d) == DIRECTIVE + " " + d
  {
  }

  predicate MysqlLike(p: Profile) {
    p.delimiterDirectives && p.batchSeparator == ""
  }

  /** A character that is ordinary punctuation, between statements. */
  lemma DashStep(p: Profile, s: string, i: nat)
    requires MysqlLike(p) && At(s, i, MARKER_PREFIX)
    ensures i < |s| && InScript(s, Between(i)) && Step(p, s, Between(i)) == CommentLine(p, s, Between(i))
  {
    hide CommentLine, At;
    DashChars(s, i);
    NoWordBetween(p, s, i);
    hide EndWord;
  }

  lemma DashChars(s: string, i: nat)
    requires At(s, i, MARKER_PREFIX)
    ensures i + 2 < |s| && s[i] == '-' && s[i + 1] == '-' && s[i + 2] == ' ' && s[i..i + 2] == "--"
  {
    assert s[i] == MARKER_PREFIX[0] == '-' && s[i + 1] == MARKER_PREFIX[1] == '-' && s[i + 2] == MARKER_PREFIX[2] == ' ';
  }

  lemma NoWordBetween(p: Profile, s: string, i: nat)
    requires i <= |s|
    ensures InScript(s, Between(i)) && EndWord(p, s, Between(i), i) == Between(i)
  {
  }

  lemma FrameStep(p: Profile, s: string, i: nat, body: string, d: string)
    requires MysqlLike(p) && HeadAt(s, i, d) && TailAt(s, i + BodyOffset(d), body, d) && ValidFrameDelimiter(d) && !Contains(body, d)
    requires i == 0 || (i <= |s| && s[i - 1] == '\n')
    ensures i < |s| && InScript(s, Between(i))
    ensures var lo := i + BodyOffset(d);
            Step(p, s, Between(i)) == (Between(lo + |body| + |d| + 2), if body == "" then [] else [Item(lo, lo + |body|, None)])
  {
    hide At, Line, ValidFrameDelimiter, Contains, ConsumeFrame, ParseFrameMarker, ParseCollationMarker, Step, FormatFrameMarker, DelimiterLine,
         Flushed, BodyOffset, TailAt;
    PrefixAt(s, i, d);
    DashStep(p, s, i);
    MarkerLines(s, i, d);
    FrameConsumed(s, i, body, d);
    hide HeadAt;
    FrameMarkerRoundTrip(d);
    NothingToFlush(p, s, i);
    MarkedFrame(p, s, i, d);
  }

  /** What a comment line does between statements, when it is a frame's marker. */
  lemma MarkedFrame(p: Profile, s: string, i: nat, d: string)
    requires i < |s| && p.delimiterDirectives && (i == 0 || s[i - 1] == '\n') && InScript(s, Between(i))
    requires ParseFrameMarker(Line(s, i)) == Some(d) && ConsumeFrame(s, Eol(s, i), d).Some? && Flushed(p, s, i, i) == []
    ensures var f := ConsumeFrame(s, Eol(s, i), d).value;
            CommentLine(p, s, Between(i)) == (Between(f.next), if f.lo < f.hi then [Item(f.lo, f.hi, None)] else [])
  {
    hide Line, Eol, ParseFrameMarker, ConsumeFrame, Flushed;
    var f := ConsumeFrame(s, Eol(s, i), d).value;
    var body := if f.lo < f.hi then [Item(f.lo, f.hi, None)] else [];
    assert [] + body == body;
  }

  lemma PrefixAt(s: string, i: nat, d: string)
    requires At(s, i, FormatFrameMarker(d) + "\n")
    ensures At(s, i, MARKER_PREFIX)
  {
    var rest := ("frame" + " " + (FRAME_FIELD + d)) + "\n";
    assert FormatFrameMarker(d) + "\n" == MARKER_PREFIX + rest;
    AtSplit(s, i, MARKER_PREFIX, rest);
  }

  lemma ResetChars(s: string, i: nat)
    requires At(s, i, RESET)
    ensures i + 12 <= |s| && (forall k :: 0 <= k < 9 ==> s[i + k] == DIRECTIVE[k]) && s[i + 9] == ' ' && s[i + 10] == ';' && s[i + 11] == '\n'
  {
    forall k | 0 <= k < 12 ensures s[i + k] == RESET[k] {
    }
  }

  lemma ResetStep(p: Profile, s: string, i: nat)
    requires MysqlLike(p) && At(s, i, RESET)
    ensures i < |s| && InScript(s, Between(i)) && i + 12 <= |s| && Step(p, s, Between(i)) == (Between(i + 12), [])
  {
    hide Step, Directive;
    ResetChars(s, i);
    ResetWord(p, s, i);
    ResetDirective(p, s, i);
  }

  /** The line is taken for a directive ... */
  lemma ResetWord(p: Profile, s: string, i: nat)
    requires MysqlLike(p) && At(s, i, RESET) && i + 12 <= |s|
    ensures InScript(s, Between(i)) && Step(p, s, Between(i)) == Directive(p, s, Between(i))
  {
    ResetChars(s, i);
    assert WordAt(p.unicode, s, i, p.dollarInWords) by { assert s[i] == 'D'; }
    assert HasWordAt(p.unicode, s, i, DIRECTIVE);
    hide WordAt, HasWordAt, Directive;
  }

  /** ... which restores the separator. */
  lemma ResetDirective(p: Profile, s: string, i: nat)
    requires At(s, i, RESET) && i + 12 <= |s| && InScript(s, Between(i))
    ensures Directive(p, s, Between(i)) == (Between(i + 12), [])
  {
    ResetChars(s, i);
    assert BlankEnd(s, i + 9) == i + 10 by { assert BlankEnd(s, i + 10) == i + 10; }
    assert SpaceEnd(p.unicode, s, i + 10) == i + 11 by { assert SpaceEnd(p.unicode, s, i + 11) == i + 11; }
    assert s[i + 10..i + 11] == ";";
    EolIs(s, i + 10, i + 11);
  }

  // --- the round trip ------------------------------------------------------------------------------------

  /** The bodies that are not empty. */
  function Bodies(fs: seq<Framing>): seq<string> {
    if fs == [] then [] else (if fs[0].body == "" then [] else [fs[0].body]) + Bodies(fs[1..])
  }

  /** One frame, scanned: its body, if it has one, and then whatever follows it. */
  lemma OneFrameScan(p: Profile, s: string, i: nat, body: string, d: string)
    requires MysqlLike(p) && At(s, i, FrameText(body, d)) && ValidFrameDelimiter(d) && !Contains(body, d)
    requires i == 0 || (i <= |s| && s[i - 1] == '\n')
    ensures var next, lo := i + |FrameText(body, d)|, i + BodyOffset(d);
            && i < next <= |s| && s[next - 1] == '\n' && lo + |body| <= |s| && s[lo..lo + |body|] == body
            && InScript(s, Between(i)) && InScript(s, Between(next))
            && Lexer.Events(p, s, Between(i)) == (if body == "" then [] else [Item(lo, lo + |body|, None)]) + Lexer.Events(p, s, Between(next))
  {
    hide Step, At, FrameText, ValidFrameDelimiter, Contains, BodyOffset, HeadAt, Lexer.Events, MysqlLike, InScript, Between;
    FramePieces(s, i, body, d);
    ResetText();
    var lo := i + BodyOffset(d);
    var at := lo + |body| + |d| + 2;
    BodyAt(s, lo, body);
    FrameStep(p, s, i, body, d);
    hide TailAt;
    ResetStep(p, s, at);
    ResetChars(s, at);
    StandsAt(i);
    StandsAt(at);
    EventsStep(p, s, Between(i));
    EventsStep(p, s, Between(at));
    var rest := Lexer.Events(p, s, Between(at + 12));
    assert [] + rest == rest;
  }

  lemma StandsAt(i: nat)
    ensures Between(i).i == i && Between(i).start == i
  {
  }

  lemma ResetText()
    ensures DelimiterLine(";") + "\n" == RESET && |RESET| == 12
  {
  }

  lemma BodyAt(s: string, i: nat, t: string)
    requires At(s, i, t)
    ensures i + |t| <= |s| && s[i..i + |t|] == t
  {
  }

  ghost predicate AllFramable(fs: seq<Framing>) {
    forall k :: 0 <= k < |fs| ==> Framable(fs[k])
  }

  lemma FirstOf(fs: seq<Framing>)
    requires AllFramable(fs) && fs != []
    ensures ValidFrameDelimiter(fs[0].delim) && !Contains(fs[0].body, fs[0].delim) && AllFramable(fs[1..])
    ensures FramesText(fs) == FrameText(fs[0].body, fs[0].delim) + FramesText(fs[1..])
    ensures Bodies(fs) == (if fs[0].body == "" then [] else [fs[0].body]) + Bodies(fs[1..])
  {
    hide FrameText, ValidFrameDelimiter, Contains;
    assert Framable(fs[0]);
  }

  lemma {:induction false} FramesScan(p: Profile, s: string, i: nat, fs: seq<Framing>)
    requires MysqlLike(p) && AllFramable(fs) && i <= |s| && At(s, i, FramesText(fs)) && i + |FramesText(fs)| == |s|
    requires i == 0 || s[i - 1] == '\n'
    ensures InScript(s, Between(i)) && Fits(s, Lexer.Events(p, s, Between(i))) && Texts(s, Lexer.Events(p, s, Between(i))) == Bodies(fs)
    decreases |fs|
  {
    hide Lexer.Events, FrameText, At, Contains, ValidFrameDelimiter, BodyOffset, Texts, Between, FramesText, Bodies, MysqlLike, AllFramable,
         InScript, Fits;
    if fs == [] {
      NoneLeft(p, s, i);
    } else {
      FirstOf(fs);
      var next := i + |FrameText(fs[0].body, fs[0].delim)|;
      FirstScan(p, s, i, fs);
      FramesScan(p, s, next, fs[1..]);
      TextsAfter(s, i + BodyOffset(fs[0].delim), fs[0].body, Lexer.Events(p, s, Between(next)));
    }
  }

  lemma NoneLeft(p: Profile, s: string, i: nat)
    requires i <= |s| && i + |FramesText([])| == |s|
    ensures InScript(s, Between(i)) && Lexer.Events(p, s, Between(i)) == [] && Fits(s, []) && Texts(s, []) == Bodies([])
  {
    EventsEnd(p, s, Between(|s|));
    NothingToFlush(p, s, |s|);
  }

  lemma FirstScan(p: Profile, s: string, i: nat, fs: seq<Framing>)
    requires MysqlLike(p) && AllFramable(fs) && fs != [] && i <= |s| && At(s, i, FramesText(fs)) && i + |FramesText(fs)| == |s|
    requires i == 0 || s[i - 1] == '\n'
    ensures var body, d, more := fs[0].body, fs[0].delim, FramesText(fs[1..]);
            var next, lo := i + |FrameText(body, d)|, i + BodyOffset(d);
            && i < next <= |s| && s[next - 1] == '\n' && At(s, next, more) && next + |more| == |s|
            && lo + |body| <= |s| && s[lo..lo + |body|] == body && InScript(s, Between(i)) && InScript(s, Between(next))
            && Lexer.Events(p, s, Between(i)) == (if body == "" then [] else [Item(lo, lo + |body|, None)]) + Lexer.Events(p, s, Between(next))
  {
    hide Lexer.Events, FrameText, At, Contains, ValidFrameDelimiter, BodyOffset, Between, FramesText, MysqlLike, AllFramable, InScript, Bodies;
    FirstOf(fs);
    var body, d := fs[0].body, fs[0].delim;
    AtSplit(s, i, FrameText(body, d), FramesText(fs[1..]));
    OneFrameScan(p, s, i, body, d);
  }

  lemma TextsAfter(s: string, lo: nat, body: string, rest: seq<Item>)
    requires lo + |body| <= |s| && s[lo..lo + |body|] == body && Fits(s, rest)
    ensures var items := (if body == "" then [] else [Item(lo, lo + |body|, None)]) + rest;
            Fits(s, items) && Texts(s, items) == (if body == "" then [] else [body]) + Texts(s, rest)
  {
    if body == "" {
      assert [] + rest == rest;
    } else {
      TextsCons(s, Item(lo, lo + |body|, None), rest);
    }
  }

  /** Framing and scanning: every non-empty body comes back as one statement, byte for byte and in order,
      whatever bytes it holds. */
  lemma FramesRoundTrip(p: Profile, bodies: seq<string>, fs: seq<Framing>)
    requires MysqlLike(p) && Frames(bodies, fs) && forall k :: 0 <= k < |bodies| ==> bodies[k] != ""
    ensures Fits(FramesText(fs), Scan(p, FramesText(fs))) && Texts(FramesText(fs), Scan(p, FramesText(fs))) == bodies
  {
    var s := FramesText(fs);
    hide Framable;
    assert AllFramable(fs);
    FramesScan(p, s, 0, fs);
    assert Between(0) == START;
    AllBodies(bodies, fs);
  }

  lemma {:induction false} AllBodies(bodies: seq<string>, fs: seq<Framing>)
    requires |fs| == |bodies| && forall k :: 0 <= k < |fs| ==> fs[k].body == bodies[k] != ""
    ensures Bodies(fs) == bodies
    decreases |fs|
  {
    if fs != [] {
      AllBodies(bodies[1..], fs[1..]);
    }
  }
}
