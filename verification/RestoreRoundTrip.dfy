/** Printing sections under \connect lines, and why splitting what was printed gives the same sections. */
module RestoreRoundTrip {
  import opened Wrappers
  import opened Text
  import opened Lexer
  import opened Quoting
  import opened ConnectLines
  import opened Restore

  // --- scripts whose quotes and comments are closed ------------------------------------------------------

  /** The string literal that j is inside of is closed. */
  predicate StringClosed(t: string, j: nat, q: char, esc: bool)
    decreases |t| - j
  {
    if j >= |t| then false
    else if esc && t[j] == '\\' then StringClosed(t, j + 2, q, esc)
    else if t[j] == q then j + 1 == |t| || t[j + 1] != q || StringClosed(t, j + 2, q, esc)
    else StringClosed(t, j + 1, q, esc)
  }

  predicate BlockClosed(t: string, j: nat, depth: nat)
    decreases |t| - j
  {
    if j + 1 >= |t| then false
    else if t[j] == '/' && t[j + 1] == '*' then BlockClosed(t, j + 2, depth + 1)
    else if t[j] == '*' && t[j + 1] == '/' then depth <= 1 || BlockClosed(t, j + 2, depth - 1)
    else BlockClosed(t, j + 1, depth)
  }

  /** The dollar sign at i opens nothing, or a quote that is closed. */
  predicate DollarClosed(u: Unicode, t: string, i: nat)
    requires i < |t|
  {
    match TagEnd(u, t, i, i + 1)
    case None => true
    case Some(e) => IndexFrom(t, t[i..e], e).Some?
  }

  predicate SpanClosed(u: Unicode, t: string, i: nat)
    requires i < |t|
  {
    if t[i] == '\'' || t[i] == '"' then StringClosed(t, i + 1, t[i], t[i] == '\'' && EscQuote(u, t, i))
    else if t[i] == '$' then DollarClosed(u, t, i)
    else HasPrefixAt(t, i, "/*") ==> BlockClosed(t, i + 2, 1)
  }

  /** From i on, every quote and block comment is closed within the script, and no line is a marker. */
  predicate ClosedFrom(e: Env, t: string, i: nat, lineStart: bool)
    requires i <= |t|
    decreases |t| - i
  {
    i == |t| || (
      && MoveAt(e, t, i, lineStart).Pass?
      && (t[i] != '\n' && !Blank(t[i]) && !HasPrefixAt(t, i, "--") ==> SpanClosed(e.unicode, t, i))
      && ClosedFrom(e, t, MoveAt(e, t, i, lineStart).next, MoveAt(e, t, i, lineStart).lineStart)
    )
  }

  /** A script that stands by itself. */
  predicate Closed(e: Env, t: string) {
    t != "" && !IsSpace(t[0]) && !IsSpace(t[|t| - 1]) && ClosedFrom(e, t, 0, true)
  }

  // --- the same script inside a longer text --------------------------------------------------------------

  /** The lines of t stand in s, from lo on. */
  predicate LinesAt(s: string, lo: nat, t: string) {
    At(s, lo, t) && lo + |t| < |s| && s[lo + |t|] == '\n' && (lo == 0 || s[lo - 1] == '\n')
  }

  lemma CharAt(s: string, lo: nat, t: string, i: nat)
    requires LinesAt(s, lo, t) && i < |t|
    ensures lo + i < lo + |t| < |s| && s[lo + i] == t[i]
  {
  }

  lemma StandsIn(s: string, lo: nat, t: string)
    requires LinesAt(s, lo, t)
    ensures At(s, lo, t) && lo + |t| < |s| && s[lo + |t|] == '\n' && (lo == 0 || s[lo - 1] == '\n')
  {
  }

  lemma SkipStep(s: string, j: nat, q: char, esc: bool)
    requires j < |s|
    ensures SkipString(s, j, q, esc) ==
            if (esc && s[j] == '\\') || (s[j] == q && j + 1 < |s| && s[j + 1] == q) then SkipString(s, j + 2, q, esc)
            else if s[j] == q then j + 1
            else SkipString(s, j + 1, q, esc)
  {
  }

  lemma {:induction false} StringShift(s: string, lo: nat, t: string, j: nat, q: char, esc: bool)
    requires LinesAt(s, lo, t) && StringClosed(t, j, q, esc) && q != '\n'
    ensures SkipString(s, lo + j, q, esc) == lo + SkipString(t, j, q, esc)
    decreases |t| - j
  {
    hide LinesAt, At, SkipString;
    CharAt(s, lo, t, j);
    StandsIn(s, lo, t);
    SkipStep(t, j, q, esc);
    SkipStep(s, lo + j, q, esc);
    if j + 1 < |t| {
      CharAt(s, lo, t, j + 1);
    }
    if esc && t[j] == '\\' {
      StringShift(s, lo, t, j + 2, q, esc);
    } else if t[j] == q {
      if j + 1 < |t| && t[j + 1] == q {
        StringShift(s, lo, t, j + 2, q, esc);
      }
    } else {
      StringShift(s, lo, t, j + 1, q, esc);
    }
  }

  lemma {:induction false} BlockShift(s: string, lo: nat, t: string, j: nat, depth: nat)
    requires LinesAt(s, lo, t) && BlockClosed(t, j, depth)
    ensures SkipBlock(s, lo + j, depth, true) == lo + SkipBlock(t, j, depth, true)
    decreases |t| - j
  {
    hide LinesAt;
    CharAt(s, lo, t, j);
    CharAt(s, lo, t, j + 1);
    if t[j] == '/' && t[j + 1] == '*' {
      BlockShift(s, lo, t, j + 2, depth + 1);
    } else if t[j] == '*' && t[j + 1] == '/' {
      if depth > 1 {
        BlockShift(s, lo, t, j + 2, depth - 1);
      }
    } else {
      BlockShift(s, lo, t, j + 1, depth);
    }
  }

  lemma {:induction false} EolShift(s: string, lo: nat, t: string, j: nat)
    requires LinesAt(s, lo, t) && j <= |t|
    ensures Eol(s, lo + j) == lo + Eol(t, j)
    decreases |t| - j
  {
    if j < |t| && t[j] != '\n' {
      EolShift(s, lo, t, j + 1);
    }
  }

  lemma {:induction false} RunToShift(s: string, lo: nat, t: string, j: nat)
    requires LinesAt(s, lo, t) && j <= |t|
    ensures RunTo(s, lo + j) == lo + RunTo(t, j)
    decreases |t| - j
  {
    if j < |t| && !Ascii(t[j]) {
      RunToShift(s, lo, t, j + 1);
    }
  }

  lemma {:induction false} RunFromShift(s: string, lo: nat, t: string, j: nat)
    requires LinesAt(s, lo, t) && j <= |t|
    ensures RunFrom(s, lo + j) == lo + RunFrom(t, j)
    decreases j
  {
    if 0 < j {
      assert s[lo + j - 1] == t[j - 1];
      RunFromShift(s, lo, t, j - 1);
    }
  }

  lemma SliceShift(s: string, lo: nat, t: string, i: nat, j: nat)
    requires At(s, lo, t) && i <= j <= |t|
    ensures lo + j <= |s| && s[lo + i..lo + j] == t[i..j]
  {
    var a, b := s[lo + i..lo + j], t[i..j];
    forall k | 0 <= k < j - i ensures a[k] == b[k] {
      assert s[lo + i + k] == t[i + k];
    }
  }

  lemma RuneShift(u: Unicode, s: string, lo: nat, t: string, j: nat)
    requires LinesAt(s, lo, t) && j < |t|
    ensures DecodeRune(u, s, lo + j) == DecodeRune(u, t, j)
  {
    hide RunTo;
    RunToShift(s, lo, t, j);
    SliceShift(s, lo, t, j, RunTo(t, j));
  }

  lemma EscShift(u: Unicode, s: string, lo: nat, t: string, i: nat)
    requires LinesAt(s, lo, t) && i < |t|
    ensures EscQuote(u, s, lo + i) <==> EscQuote(u, t, i)
  {
    hide LinesAt, At, RunFrom, AsciiWord, Ascii;
    StandsIn(s, lo, t);
    if i < 2 {
      EscAtStart(u, s, lo, t, i);
    } else {
      CharAt(s, lo, t, i - 1);
      CharAt(s, lo, t, i - 2);
      RunFromShift(s, lo, t, i - 1);
      var b := RunFrom(t, i - 1);
      SliceShift(s, lo, t, b, i - 1);
      assert s[RunFrom(s, lo + i - 1)..lo + i - 1] == t[b..i - 1];
    }
  }

  lemma EscAtStart(u: Unicode, s: string, lo: nat, t: string, i: nat)
    requires LinesAt(s, lo, t) && i < |t| && i < 2
    ensures EscQuote(u, s, lo + i) <==> EscQuote(u, t, i)
  {
    hide LinesAt, At, RunFrom;
    StandsIn(s, lo, t);
    if i == 1 {
      CharAt(s, lo, t, 0);
    }
  }

  lemma {:induction false} TagShift(u: Unicode, s: string, lo: nat, t: string, i: nat, j: nat)
    requires LinesAt(s, lo, t) && i < j <= |t|
    ensures TagEnd(u, s, lo + i, lo + j) == match TagEnd(u, t, i, j) case None => None case Some(e) => Some(lo + e)
    decreases |t| - j
  {
    hide DecodeRune;
    if j == |t| {
      assert !DecodeRune(u, s, lo + j).word by { NewlineNoWord(u, s, lo + j); }
    } else {
      RuneShift(u, s, lo, t, j);
      if t[j] != '$' && DecodeRune(u, t, j).word && (j > i + 1 || !DecodeRune(u, t, j).digit) {
        TagShift(u, s, lo, t, i, j + DecodeRune(u, t, j).size);
      }
    }
  }

  lemma NewlineNoWord(u: Unicode, s: string, i: nat)
    requires i < |s| && s[i] == '\n'
    ensures !DecodeRune(u, s, i).word
  {
  }

  lemma {:induction false} IndexShift(s: string, lo: nat, t: string, sub: string, k: nat)
    requires LinesAt(s, lo, t) && IndexFrom(t, sub, k).Some?
    ensures IndexFrom(s, sub, lo + k) == Some(lo + IndexFrom(t, sub, k).value)
    decreases |t| - k
  {
    hide LinesAt, HasPrefixAt;
    FoundFits(t, sub, k);
    StandsIn(s, lo, t);
    hide At;
    PrefixShift(s, lo, t, sub, k);
    if !HasPrefixAt(t, k, sub) {
      IndexShift(s, lo, t, sub, k + 1);
    }
  }

  lemma FoundFits(t: string, sub: string, k: nat)
    requires IndexFrom(t, sub, k).Some?
    ensures k <= IndexFrom(t, sub, k).value && IndexFrom(t, sub, k).value + |sub| <= |t|
  {
  }

  lemma PrefixShift(s: string, lo: nat, t: string, w: string, i: nat)
    requires LinesAt(s, lo, t) && i + |w| <= |t|
    ensures HasPrefixAt(s, lo + i, w) <==> HasPrefixAt(t, i, w)
  {
    SliceShift(s, lo, t, i, i + |w|);
  }

  /** A pair of characters that is no line break, at any place of t. */
  lemma PairShift(s: string, lo: nat, t: string, w: string, i: nat)
    requires LinesAt(s, lo, t) && i < |t| && |w| == 2 && w[1] != '\n'
    ensures HasPrefixAt(s, lo + i, w) <==> HasPrefixAt(t, i, w)
  {
    if i + 2 <= |t| {
      PrefixShift(s, lo, t, w, i);
    } else if lo + i + 2 <= |s| {
      assert s[lo + i..lo + i + 2][1] == s[lo + |t|] == '\n';
    }
  }

  lemma DollarShift(u: Unicode, s: string, lo: nat, t: string, i: nat)
    requires LinesAt(s, lo, t) && i < |t| && DollarClosed(u, t, i)
    ensures SkipDollar(u, s, lo + i) == match SkipDollar(u, t, i) case None => None case Some(e) => Some(lo + e)
  {
    hide LinesAt, TagEnd, IndexFrom;
    TagShift(u, s, lo, t, i, i + 1);
    match TagEnd(u, t, i, i + 1)
    case None =>
    case Some(e) =>
      IndexShift(s, lo, t, t[i..e], e);
      StandsIn(s, lo, t);
      SliceShift(s, lo, t, i, e);
  }

  lemma SpanShift(u: Unicode, s: string, lo: nat, t: string, i: nat)
    requires LinesAt(s, lo, t) && i < |t| && SpanClosed(u, t, i)
    ensures SpanEnd(u, s, lo + i) == lo + SpanEnd(u, t, i)
  {
    hide SkipString, SkipBlock, SkipDollar, StringClosed, BlockClosed, DollarClosed, EscQuote, HasPrefixAt;
    assert s[lo + i] == t[i];
    if t[i] == '\'' || t[i] == '"' {
      EscShift(u, s, lo, t, i);
      StringShift(s, lo, t, i + 1, t[i], t[i] == '\'' && EscQuote(u, t, i));
    } else if t[i] == '$' {
      DollarShift(u, s, lo, t, i);
    } else {
      PairShift(s, lo, t, "/*", i);
      if HasPrefixAt(t, i, "/*") {
        BlockShift(s, lo, t, i + 2, 1);
      }
    }
  }

  /** A move inside a closed script is the same move in the text around it. */
  lemma MoveShift(e: Env, s: string, lo: nat, t: string, i: nat, lineStart: bool)
    requires LinesAt(s, lo, t) && i < |t| && MoveAt(e, t, i, lineStart).Pass?
    requires t[i] != '\n' && !Blank(t[i]) && !HasPrefixAt(t, i, "--") ==> SpanClosed(e.unicode, t, i)
    ensures lo + i < |s| && MoveAt(e, s, lo + i, lineStart) == Pass(lo + MoveAt(e, t, i, lineStart).next, MoveAt(e, t, i, lineStart).lineStart)
  {
    hide SpanEnd, SpanClosed, HasPrefixAt, Eol, ParseConnectLine;
    assert s[lo + i] == t[i];
    PairShift(s, lo, t, "--", i);
    EolShift(s, lo, t, i);
    SliceShift(s, lo, t, i, Eol(t, i));
    if t[i] != '\n' && !Blank(t[i]) && !HasPrefixAt(t, i, "--") {
      SpanShift(e.unicode, s, lo, t, i);
    }
  }

  /** So the scan passes over the whole of it, to the start of the line after it. */
  lemma {:induction false} TraceSkips(e: Env, s: string, lo: nat, t: string, i: nat, lineStart: bool, cur: string, start: nat)
    requires LinesAt(s, lo, t) && i <= |t| && ClosedFrom(e, t, i, lineStart) && start <= lo
    ensures lo + |t| < |s| && Trace(e, s, lo + i, lineStart, cur, start) == Trace(e, s, lo + |t| + 1, true, cur, start)
    decreases |t| - i
  {
    hide MoveAt, SpanClosed, Trace, LinesAt, HasPrefixAt;
    StandsIn(s, lo, t);
    if i == |t| {
      NewlineMove(e, s, lo + i, lineStart);
      TracePass(e, s, lo + i, lineStart, cur, start);
    } else {
      var m := MoveAt(e, t, i, lineStart);
      MoveShift(e, s, lo, t, i, lineStart);
      TracePass(e, s, lo + i, lineStart, cur, start);
      TraceSkips(e, s, lo, t, m.next, m.lineStart, cur, start);
    }
  }

  lemma NewlineMove(e: Env, s: string, i: nat, lineStart: bool)
    requires i < |s| && s[i] == '\n'
    ensures MoveAt(e, s, i, lineStart) == Pass(i + 1, true)
  {
  }

  // --- printed sections ----------------------------------------------------------------------------------

  /** A section as a server dump writes it: its \\connect line, an empty line, and its script.  The one for
      the import's own target has no such lines. */
  function SectionText(sec: Section): string {
    (if sec.db == "" then "" else ConnectText(sec.db) + "\n\n") + (sec.script + "\n")
  }

  function SectionsText(secs: seq<Section>): string {
    if secs == [] then "" else SectionText(secs[0]) + SectionsText(secs[1..])
  }

  /** A name that fits on a \\connect line, and a script that stands by itself. */
  predicate PrintableSection(e: Env, sec: Section) {
    Closed(e, sec.script) && '\n' !in sec.db && WellEncoded(e.decoding, sec.db)
  }

  ghost predicate Printable(e: Env, secs: seq<Section>) {
    forall k :: 0 <= k < |secs| ==> PrintableSection(e, secs[k]) && (k > 0 ==> secs[k].db != "")
  }

  lemma {:induction false} EolIs(s: string, i: nat, eol: nat)
    requires i <= eol < |s| && s[eol] == '\n' && forall k :: i <= k < eol ==> s[k] != '\n'
    ensures Eol(s, i) == eol
    decreases eol - i
  {
    if i < eol {
      EolIs(s, i + 1, eol);
    }
  }

  lemma LineIs(s: string, i: nat, line: string)
    requires At(s, i, line + "\n\n") && '\n' !in line
    ensures i + |line| + 2 <= |s| && Eol(s, i) == i + |line| && s[i..i + |line|] == line
    ensures s[i + |line|] == '\n' && s[i + |line| + 1] == '\n' && (line != "" ==> s[i] == line[0])
  {
    var all := line + "\n\n";
    assert all[|line|] == '\n' && all[|line| + 1] == '\n';
    AtSplit(s, i, line, "\n\n");
    EolIs(s, i, i + |line|);
  }

  lemma PlainName(db: string)
    requires '\n' !in db
    ensures ConnectText(db) != "" && ConnectText(db)[0] == '\\' && '\n' !in ConnectText(db)
  {
    PlainDoubled(db);
  }

  lemma {:induction false} PlainDoubled(x: string)
    requires '\n' !in x
    ensures '\n' !in Doubled(x, '"')
  {
    if x != "" {
      PlainDoubled(x[1..]);
    }
  }

  /** A printed marker line is recognized, and names its database. */
  lemma MarkerMove(e: Env, s: string, i: nat, db: string)
    requires At(s, i, ConnectText(db) + "\n\n") && '\n' !in db && WellEncoded(e.decoding, db) && db != ""
    ensures i < |s| && MoveAt(e, s, i, true) == Marker(db, i + |ConnectText(db)|) && i + |ConnectText(db)| + 2 <= |s|
    ensures s[i + |ConnectText(db)|] == '\n' && s[i + |ConnectText(db)| + 1] == '\n'
  {
    hide ConnectText, ParseConnectLine, WellEncoded, Eol, At;
    PlainName(db);
    LineIs(s, i, ConnectText(db));
    ConnectRoundTrip(e.decoding, db);
    NoDashes(s, i);
  }

  /** The text between two markers is the script, but for white space. */
  lemma BetweenMarkers(db: string, text: string, lead: string, script: string)
    requires text == lead + (script + "\n") && (forall k :: 0 <= k < |lead| ==> IsSpace(lead[k]))
    requires script != "" && !IsSpace(script[0]) && !IsSpace(script[|script| - 1])
    ensures Flush(db, text) == [Section(db, script)]
  {
    TrimLeftIs(lead, script + "\n");
    assert TrimLeft(text) == script + "\n";
    assert TrimRight(script + "\n") == script by { assert (script + "\n")[..|script|] == script; }
  }

  /** One section: its marker line is found, its script passed over, and its text flushed as it was. */
  lemma OneSection(e: Env, s: string, i: nat, sec: Section, cur: string, start: nat)
    requires At(s, i, SectionText(sec)) && PrintableSection(e, sec) && sec.db != "" && start <= i
    ensures var eol, next := i + |ConnectText(sec.db)|, i + |SectionText(sec)|;
            && eol <= next <= |s| && i <= |s| && s[next - 1] == '\n'
            && Trace(e, s, i, true, cur, start) == Then(Flush(cur, s[start..i]), Trace(e, s, next, true, sec.db, eol))
            && Flush(sec.db, s[eol..next]) == [sec]
  {
    hide At, Closed, WellEncoded, ConnectText, MoveAt, Trace, Flush, LinesAt;
    var head, body := ConnectText(sec.db) + "\n\n", sec.script + "\n";
    var eol := i + |ConnectText(sec.db)|;
    var lo := eol + 2;
    AtSplit(s, i, head, body);
    MarkerMove(e, s, i, sec.db);
    TraceMarker(e, s, i, true, cur, start);
    TwoNewlines(e, s, eol, sec.db);
    ScriptStands(e, s, lo, sec.script);
    TraceSkips(e, s, lo, sec.script, 0, true, sec.db, eol);
    AfterMarker(s, eol, sec.script);
    BetweenMarkers(sec.db, s[eol..lo + |sec.script| + 1], "\n\n", sec.script);
  }

  lemma TwoNewlines(e: Env, s: string, i: nat, db: string)
    requires i + 2 <= |s| && s[i] == '\n' && s[i + 1] == '\n'
    ensures Trace(e, s, i, true, db, i) == Trace(e, s, i + 2, true, db, i)
  {
    hide Trace, MoveAt;
    NewlineMove(e, s, i, true);
    NewlineMove(e, s, i + 1, true);
    TracePass(e, s, i, true, db, i);
    TracePass(e, s, i + 1, true, db, i);
  }

  lemma ScriptStands(e: Env, s: string, lo: nat, script: string)
    requires At(s, lo, script + "\n") && Closed(e, script) && (lo == 0 || (lo <= |s| && s[lo - 1] == '\n'))
    ensures LinesAt(s, lo, script) && ClosedFrom(e, script, 0, true) && lo + |script| + 1 <= |s| && s[lo + |script|] == '\n'
    ensures script != "" && !IsSpace(script[0]) && !IsSpace(script[|script| - 1])
  {
    hide ClosedFrom;
    AtSplit(s, lo, script, "\n");
    assert s[lo + |script|] == "\n"[0];
  }

  lemma AfterMarker(s: string, eol: nat, script: string)
    requires eol + 2 <= |s| && s[eol] == '\n' && s[eol + 1] == '\n' && At(s, eol + 2, script + "\n")
    ensures eol + 3 + |script| <= |s| && s[eol..eol + 3 + |script|] == "\n\n" + (script + "\n")
  {
    var a, b := s[eol..eol + 3 + |script|], "\n\n" + (script + "\n");
    SliceShift(s, eol + 2, script + "\n", 0, |script| + 1);
    assert a == s[eol..eol + 2] + s[eol + 2..eol + 3 + |script|];
  }

  lemma {:induction false} SectionsTrace(e: Env, s: string, i: nat, secs: seq<Section>, cur: string, start: nat)
    requires start <= i && At(s, i, SectionsText(secs)) && i + |SectionsText(secs)| == |s|
    requires forall k :: 0 <= k < |secs| ==> PrintableSection(e, secs[k]) && secs[k].db != ""
    ensures i <= |s| && Trace(e, s, i, true, cur, start) == Then(Flush(cur, s[start..i]), Traced(secs, false))
    decreases |secs|
  {
    hide At, PrintableSection, SectionText, Trace, Flush;
    if secs == [] {
      TraceEnd(e, s, true, cur, start);
      assert s[start..i] == s[start..];
    } else {
      var sec := secs[0];
      var eol, next := i + |ConnectText(sec.db)|, i + |SectionText(sec)|;
      AtSplit(s, i, SectionText(sec), SectionsText(secs[1..]));
      OneSection(e, s, i, sec, cur, start);
      SectionsTrace(e, s, next, secs[1..], sec.db, eol);
      assert [sec] + secs[1..] == secs;
    }
  }

  /** Splitting what was printed gives back the sections, with their names and scripts: for every name that
      can stand on one line, and every script that stands by itself. */
  lemma SectionsRoundTrip(e: Env, secs: seq<Section>)
    requires Printable(e, secs)
    ensures Trace(e, SectionsText(secs), 0, true, "", 0) == Traced(secs, false)
  {
    hide PrintableSection, Trace, ConnectText, Flush, At;
    var s := SectionsText(secs);
    AtStart(s);
    if secs == [] || secs[0].db != "" {
      SectionsTrace(e, s, 0, secs, "", 0);
      NothingFlushed("");
      assert s[0..0] == "" && [] + secs == secs;
    } else {
      FirstSection(e, secs);
    }
  }

  lemma AtStart(s: string)
    ensures At(s, 0, s)
  {
  }

  lemma NothingFlushed(db: string)
    ensures Flush(db, "") == []
  {
  }

  /** The section in front of the first marker. */
  lemma FirstSection(e: Env, secs: seq<Section>)
    requires Printable(e, secs) && secs != [] && secs[0].db == ""
    ensures Trace(e, SectionsText(secs), 0, true, "", 0) == Traced(secs, false)
  {
    hide PrintableSection, Closed, ClosedFrom, Trace, Flush, At, LinesAt, SectionText, SectionsText;
    var s, t, rest := SectionsText(secs), secs[0].script, SectionsText(secs[1..]);
    var next := |t| + 1;
    FirstText(e, secs);
    AtStart(s);
    AtSplit(s, 0, t + "\n", rest);
    ScriptStands(e, s, 0, t);
    TraceSkips(e, s, 0, t, 0, true, "", 0);
    SectionsTrace(e, s, next, secs[1..], "", 0);
    assert s[0..next] == "" + (t + "\n");
    BetweenMarkers("", s[0..next], "", t);
    assert [secs[0]] + secs[1..] == secs;
  }

  lemma FirstText(e: Env, secs: seq<Section>)
    requires Printable(e, secs) && secs != [] && secs[0].db == ""
    ensures SectionsText(secs) == (secs[0].script + "\n") + SectionsText(secs[1..]) && Closed(e, secs[0].script)
  {
    hide Closed, WellEncoded, ConnectText;
    assert PrintableSection(e, secs[0]);
    assert "" + (secs[0].script + "\n") == secs[0].script + "\n";
  }
}
