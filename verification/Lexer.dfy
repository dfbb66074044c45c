/** The SQL script splitter: one loop over a script's bytes, driven by a dialect's lexer profile. */
module Lexer {
  import opened Wrappers
  import opened Text
  import opened Markers

  // --- what a dialect decides ----------------------------------------------------------------------------

  /** A decoded rune: its width in bytes, and how it classifies. */
  datatype Rune = Rune(size: nat, word: bool, digit: bool, space: bool)

  /** What Unicode tables say beyond ASCII; nothing about them is assumed, but that decoding a rune looks no
      further than the run of non-ASCII bytes it stands in.  decode is for the first rune of such a run, and
      lastIsWord for its last one. */
  datatype Unicode = Unicode(decode: string -> Rune, lastIsWord: string -> bool, upper: string -> string, fold: (string, string) -> bool)

  datatype Profile = Profile(backslashStrings: bool, escapeStringE: bool, dollarQuotes: bool, hashComments: bool, dashCommentNeedsSpace: bool,
                             nestedBlockComments: bool, delimiterDirectives: bool, dollarInWords: bool, bracketIdentifiers: bool,
                             batchSeparator: string, hasRoutines: bool, routineBody: string -> bool, unicode: Unicode)

  predicate Ascii(c: char) {
    c < 128 as char
  }

  predicate AsciiWord(c: char) {
    c == '_' || IsDigit(c) || 'a' <= c <= 'z' || 'A' <= c <= 'Z'
  }

  /** The end of the run of non-ASCII bytes at i ... */
  function RunTo(s: string, i: nat): (e: nat)
    requires i <= |s|
    ensures i <= e <= |s|
    ensures i < |s| && !Ascii(s[i]) ==> i < e
    decreases |s| - i
  {
    if i < |s| && !Ascii(s[i]) then RunTo(s, i + 1) else i
  }

  /** ... and the start of the one that ends there. */
  function RunFrom(s: string, i: nat): (b: nat)
    requires i <= |s|
    ensures b <= i
  {
    if 0 < i && !Ascii(s[i - 1]) then RunFrom(s, i - 1) else i
  }

  /** decodeRune. */
  function DecodeRune(u: Unicode, s: string, i: nat): (r: Rune)
    requires i < |s|
    ensures 1 <= r.size <= |s| - i
  {
    if Ascii(s[i]) then Rune(1, AsciiWord(s[i]), IsDigit(s[i]), IsSpace(s[i]))
    else
      var run := s[i..RunTo(s, i)];
      var r := u.decode(run);
      Rune(if r.size < 1 then 1 else if r.size > |run| then |run| else r.size, r.word, r.digit, r.space)
  }

  /** isWordRune. */
  predicate WordAt(u: Unicode, s: string, i: nat, withDollar: bool)
    requires i < |s|
  {
    (withDollar && s[i] == '$') || DecodeRune(u, s, i).word
  }

  function UpperChar(c: char): char {
    if 'a' <= c <= 'z' then (c as int - 32) as char else c
  }

  function AsciiUpper(w: string): string {
    seq(|w|, i requires 0 <= i < |w| => UpperChar(w[i]))
  }

  predicate AllAscii(w: string) {
    forall i :: 0 <= i < |w| ==> Ascii(w[i])
  }

  function Upper(u: Unicode, w: string): string {
    if AllAscii(w) then AsciiUpper(w) else u.upper(w)
  }

  // --- lines and skips -----------------------------------------------------------------------------------

  /** The index of the next newline, or the end of the script. */
  function Eol(s: string, i: nat): (e: nat)
    requires i <= |s|
    ensures i <= e <= |s|
    ensures forall k :: i <= k < e ==> s[k] != '\n'
    ensures e < |s| ==> s[e] == '\n'
    decreases |s| - i
  {
    if i == |s| || s[i] == '\n' then i else Eol(s, i + 1)
  }

  function TrimCr(line: string): string {
    if line != "" && line[|line| - 1] == '\r' then line[..|line| - 1] else line
  }

  /** scriptLine's first result. */
  function Line(s: string, i: nat): string
    requires i <= |s|
  {
    TrimCr(s[i..Eol(s, i)])
  }

  /** The index after a line's newline. */
  function PastLine(s: string, i: nat): (e: nat)
    requires i <= |s|
    ensures i <= e <= |s|
    ensures i < |s| ==> i < e
  {
    if Eol(s, i) < |s| then Eol(s, i) + 1 else |s|
  }

  /** skipStringLiteral, from inside the literal. */
  function SkipString(s: string, j: nat, quote: char, esc: bool): (e: nat)
    ensures e <= |s| && (j <= |s| ==> j <= e)
    decreases |s| - j
  {
    if j >= |s| then |s|
    else if esc && s[j] == '\\' then SkipString(s, j + 2, quote, esc)
    else if s[j] == quote then (if j + 1 < |s| && s[j + 1] == quote then SkipString(s, j + 2, quote, esc) else j + 1)
    else SkipString(s, j + 1, quote, esc)
  }

  method SkipStringLiteral(s: string, at: nat, backslashEsc: bool) returns (i: nat)
    requires at < |s|
    ensures i == SkipString(s, at + 1, s[at], backslashEsc)
  {
    var quote := s[at];
    i := at + 1;
    while i < |s|
      invariant SkipString(s, at + 1, quote, backslashEsc) == SkipString(s, i, quote, backslashEsc)
    {
      if backslashEsc && s[i] == '\\' {
        i := i + 1;
      } else if s[i] == quote {
        if i + 1 < |s| && s[i + 1] == quote {
          i := i + 1;
        } else {
          return i + 1;
        }
      }
      i := i + 1;
    }
    i := |s|;
  }

  /** skipBlockComment, from inside the comment. */
  function SkipBlock(s: string, j: nat, depth: nat, nested: bool): (e: nat)
    ensures e <= |s| && (j <= |s| ==> j <= e)
    decreases |s| - j
  {
    if j >= |s| then |s|
    else if nested && s[j] == '/' && j + 1 < |s| && s[j + 1] == '*' then SkipBlock(s, j + 2, depth + 1, nested)
    else if s[j] == '*' && j + 1 < |s| && s[j + 1] == '/' then (if depth <= 1 then j + 2 else SkipBlock(s, j + 2, depth - 1, nested))
    else SkipBlock(s, j + 1, depth, nested)
  }

  /** skipBracketIdent, from inside the identifier. */
  function SkipBracket(s: string, j: nat): (e: Option<nat>)
    ensures e.Some? ==> j < e.value <= |s|
    decreases |s| - j
  {
    if j >= |s| then None
    else if s[j] != ']' then SkipBracket(s, j + 1)
    else if j + 1 < |s| && s[j + 1] == ']' then SkipBracket(s, j + 2)
    else Some(j + 1)
  }

  /** The end of a dollar-quote tag whose opening dollar is at i, looking from j. */
  function TagEnd(u: Unicode, s: string, i: nat, j: nat): (e: Option<nat>)
    requires i < j
    ensures e.Some? ==> j < e.value <= |s|
    decreases |s| - j
  {
    if j >= |s| then None
    else if s[j] == '$' then Some(j + 1)
    else if DecodeRune(u, s, j).word && (j > i + 1 || !DecodeRune(u, s, j).digit) then TagEnd(u, s, i, j + DecodeRune(u, s, j).size)
    else None
  }

  /** The first occurrence of sub in s at or after i. */
  function IndexFrom(s: string, sub: string, i: nat): (k: Option<nat>)
    ensures k.Some? ==> i <= k.value && HasPrefixAt(s, k.value, sub)
    decreases |s| - i
  {
    if HasPrefixAt(s, i, sub) then Some(i) else if i >= |s| then None else IndexFrom(s, sub, i + 1)
  }

  /** skipDollarQuoted. */
  function SkipDollar(u: Unicode, s: string, i: nat): (e: Option<nat>)
    requires i < |s|
    ensures e.Some? ==> i < e.value <= |s|
  {
    match TagEnd(u, s, i, i + 1)
    case None => None
    case Some(t) =>
      match IndexFrom(s, s[i..t], t)
      case None => Some(|s|)
      case Some(k) => Some(k + (t - i))
  }

  /** isEscStringQuote. */
  predicate EscQuote(u: Unicode, s: string, i: nat)
    requires i < |s|
  {
    && i >= 1 && (s[i - 1] == 'E' || s[i - 1] == 'e')
    && (i == 1 || if Ascii(s[i - 2]) then !AsciiWord(s[i - 2]) else !u.lastIsWord(s[RunFrom(s, i - 1)..i - 1]))
  }

  predicate BlankOrEol(c: char) {
    c == ' ' || c == '\t' || c == '\n' || c == '\r'
  }

  /** Where no two dashes stand, no comment begins. */
  lemma NoDashes(s: string, i: nat)
    requires i < |s| && (s[i] == '-' && i + 1 < |s| ==> s[i + 1] != '-')
    ensures !HasPrefixAt(s, i, "--")
  {
    if i + 2 <= |s| {
      assert s[i..i + 2][0] == s[i] && s[i..i + 2][1] == s[i + 1];
      assert "--"[0] == '-' && "--"[1] == '-';
    }
  }

  /** dashIsComment. */
  predicate DashComment(p: Profile, s: string, i: nat) {
    !p.dashCommentNeedsSpace || i + 2 >= |s| || BlankOrEol(s[i + 2])
  }

  /** hasWordAt: the ASCII word, in either case, with no word rune after it. */
  predicate HasWordAt(u: Unicode, s: string, i: nat, word: string) {
    && i + |word| <= |s|
    && (forall k :: 0 <= k < |word| ==> s[i + k] == word[k] || UpperChar(s[i + k]) == word[k])
    && (i + |word| == |s| || !WordAt(u, s, i + |word|, true))
  }

  /** stripLeadingComments. */
  function StripLeadingComments(p: Profile, t: string): string
    decreases |t|
  {
    if (HasPrefixAt(t, 0, "--") && DashComment(p, t, 0)) || (p.hashComments && HasPrefixAt(t, 0, "#")) then
      if Eol(t, 0) == |t| then "" else StripLeadingComments(p, TrimSpace(t[Eol(t, 0) + 1..]))
    else if HasPrefixAt(t, 0, "/*") then StripLeadingComments(p, TrimSpace(t[SkipBlock(t, 2, 1, p.nestedBlockComments)..]))
    else t
  }

  // --- the scanner's state -------------------------------------------------------------------------------

  /** An emitted event: a statement, as the span of the script that it is, or a marker. */
  datatype Item = Item(lo: nat, hi: nat, marker: Option<DumpMarker>)

  /** The loop's variables, but for what has been emitted.  wordStart is -1 outside a word. */
  datatype Control = Control(i: nat, delim: string, start: nat, depth: nat, pendingEnd: bool, routineKnown: bool, inRoutine: bool,
                             hasContent: bool, wordStart: int)

  const START: Control := Control(0, ";", 0, 0, false, false, false, false, -1)

  predicate InScript(s: string, c: Control) {
    c.start <= c.i <= |s| && -1 <= c.wordStart && (c.wordStart >= 0 ==> c.start <= c.wordStart < c.i) && c.delim != ""
  }

  /** The part of [lo, hi) left by trimming white space off both ends. */
  function TrimLo(s: string, lo: nat, hi: nat): (r: nat)
    requires lo <= hi <= |s|
    ensures lo <= r <= hi && (r < hi ==> !IsSpace(s[r])) && forall k :: lo <= k < r ==> IsSpace(s[k])
    decreases hi - lo
  {
    if lo < hi && IsSpace(s[lo]) then TrimLo(s, lo + 1, hi) else lo
  }

  function TrimHi(s: string, lo: nat, hi: nat): (r: nat)
    requires lo <= hi <= |s|
    ensures lo <= r <= hi && (lo < r ==> !IsSpace(s[r - 1])) && forall k :: r <= k < hi ==> IsSpace(s[k])
    decreases hi - lo
  {
    if lo < hi && IsSpace(s[hi - 1]) then TrimHi(s, lo, hi - 1) else hi
  }

  /** What flush emits for the span [lo, hi). */
  function Flushed(p: Profile, s: string, lo: nat, hi: nat): seq<Item>
    requires lo <= hi <= |s|
  {
    var a := TrimLo(s, lo, hi);
    var b := TrimHi(s, a, hi);
    if a == b || StripLeadingComments(p, s[a..b]) == "" then [] else [Item(a, b, None)]
  }

  /** ... and what it resets. */
  function Reset(c: Control): Control {
    c.(depth := 0, pendingEnd := false, routineKnown := false, inRoutine := false, hasContent := false)
  }

  const COMPOUNDS: set<string> := {"IF", "LOOP", "WHILE", "REPEAT"}

  /** The routine regex on the statement so far. */
  predicate RoutineSoFar(p: Profile, s: string, start: nat, end: nat)
    requires start <= end <= |s|
  {
    p.routineBody(StripLeadingComments(p, TrimSpace(s[start..end])))
  }

  /** Only the block bookkeeping differs. */
  predicate SamePlace(c: Control, d: Control) {
    d.i == c.i && d.start == c.start && d.delim == c.delim && d.hasContent == c.hasContent && d.wordStart == c.wordStart
  }

  /** token, for a word that does not close a compound. */
  function Opener(p: Profile, s: string, c: Control, up: string, end: nat): (d: Control)
    requires c.start <= end <= |s|
    ensures SamePlace(c, d)
  {
    if up == "BEGIN" || up == "CASE" then
      var d := if c.routineKnown then c else c.(inRoutine := RoutineSoFar(p, s, c.start, end), routineKnown := true);
      if d.inRoutine then d.(depth := d.depth + 1) else d
    else if up == "END" && c.depth > 0 then c.(pendingEnd := true)
    else c
  }

  /** token. */
  function Token(p: Profile, s: string, c: Control, word: string, end: nat): (d: Control)
    requires c.start <= end <= |s|
    ensures SamePlace(c, d)
  {
    if !p.hasRoutines || word == "" then c
    else
      var up := Upper(p.unicode, word);
      if !c.pendingEnd then Opener(p, s, c, up, end)
      else
        var d := c.(pendingEnd := false);
        if up in COMPOUNDS then d
        else
          var e := if d.depth > 0 then d.(depth := d.depth - 1) else d;
          if up == "CASE" then e else Opener(p, s, e, up, end)
  }

  /** endWord. */
  function EndWord(p: Profile, s: string, c: Control, end: nat): (d: Control)
    requires InScript(s, c) && c.i <= end <= |s|
    ensures d.i == c.i && d.start == c.start && d.delim == c.delim && d.hasContent == c.hasContent && d.wordStart == -1
  {
    if c.wordStart < 0 then c.(wordStart := -1) else Token(p, s, c, s[c.wordStart..end], end).(wordStart := -1)
  }

  // --- one iteration -------------------------------------------------------------------------------------

  type Outcome = (Control, seq<Item>)

  /** The statement ends at c.i, and the next one starts at next. */
  function EndStatement(p: Profile, s: string, c: Control, next: nat): (o: Outcome)
    requires InScript(s, c) && c.i <= next <= |s|
    ensures InScript(s, o.0) && o.0.i == next
  {
    var d := EndWord(p, s, c, c.i);
    (Reset(d).(i := next, start := next), Flushed(p, s, c.start, c.i))
  }

  function Quietly(c: Control): Outcome {
    (c, [])
  }

  /** The delimiter a DELIMITER directive names: the first quoted or white-space-terminated token from j. */
  function QuoteEnd(s: string, k: nat, q: char): (e: nat)
    requires k <= |s|
    ensures k <= e <= |s|
    decreases |s| - k
  {
    if k == |s| || s[k] == q || s[k] == '\n' then k else QuoteEnd(s, k + 1, q)
  }

  function SpaceEnd(u: Unicode, s: string, k: nat): (e: nat)
    requires k <= |s|
    ensures k <= e <= |s|
    decreases |s| - k
  {
    if k == |s| || DecodeRune(u, s, k).space then k else SpaceEnd(u, s, k + DecodeRune(u, s, k).size)
  }

  function BlankEnd(s: string, j: nat): (e: nat)
    requires j <= |s|
    ensures j <= e <= |s|
    decreases |s| - j
  {
    if j < |s| && (s[j] == ' ' || s[j] == '\t') then BlankEnd(s, j + 1) else j
  }

  function DelimiterNamed(u: Unicode, s: string, j: nat): string
    requires j <= |s|
  {
    if j < |s| && (s[j] == '\'' || s[j] == '"' || s[j] == '`') then
      var k := QuoteEnd(s, j + 1, s[j]);
      if k < |s| && s[k] == s[j] then s[j + 1..k] else ""
    else s[j..SpaceEnd(u, s, j)]
  }

  const DIRECTIVE: string := "DELIMITER"

  /** A DELIMITER directive at c.i. */
  function Directive(p: Profile, s: string, c: Control): (o: Outcome)
    requires InScript(s, c) && c.i + |DIRECTIVE| <= |s| && c.wordStart < 0
    ensures InScript(s, o.0) && o.0.i > c.i
  {
    var j := BlankEnd(s, c.i + |DIRECTIVE|);
    var named := DelimiterNamed(p.unicode, s, j);
    Quietly(c.(delim := if named != "" then named else c.delim, i := PastLine(s, j), start := PastLine(s, j)))
  }

  datatype Frame = Frame(lo: nat, hi: nat, next: nat)

  /** The terminator search of consumeFrame. */
  function FindTerminator(s: string, bodyStart: nat, at: nat, tok: string): (f: Frame)
    requires bodyStart <= at <= |s|
    ensures bodyStart <= f.lo <= f.hi <= f.next <= |s| && at <= f.next
    decreases |s| - at
  {
    var end := Eol(s, at);
    if Line(s, at) == tok then Frame(bodyStart, if at > bodyStart then at - 1 else bodyStart, if end < |s| then end + 1 else |s|)
    else if end >= |s| then Frame(bodyStart, |s|, |s|)
    else FindTerminator(s, bodyStart, end + 1, tok)
  }

  /** consumeFrame. */
  function ConsumeFrame(s: string, eol: nat, tok: string): (f: Option<Frame>)
    requires eol <= |s|
    ensures f.Some? ==> eol < f.value.lo <= f.value.hi <= f.value.next <= |s|
  {
    if eol >= |s| then None
    else if Line(s, eol + 1) != DIRECTIVE + " " + tok then None
    else if Eol(s, eol + 1) >= |s| then Some(Frame(|s|, |s|, |s|))
    else Some(FindTerminator(s, Eol(s, eol + 1) + 1, Eol(s, eol + 1) + 1, tok))
  }

  /** A line comment at c.i, outside any statement's content. */
  function CommentLine(p: Profile, s: string, c: Control): (o: Outcome)
    requires InScript(s, c) && c.i < |s| && c.wordStart == -1
    ensures InScript(s, o.0) && o.0.i > c.i
  {
    if c.hasContent || c.depth != 0 || c.delim != ";" || (c.i > 0 && s[c.i - 1] != '\n') then Quietly(c.(i := PastLine(s, c.i)))
    else
      var line, eol := Line(s, c.i), Eol(s, c.i);
      var frame := if p.delimiterDirectives && ParseFrameMarker(line).Some? then ConsumeFrame(s, eol, ParseFrameMarker(line).value) else None;
      match frame
      case Some(f) =>
        (Reset(c).(i := f.next, start := f.next), Flushed(p, s, c.start, c.i) + if f.lo < f.hi then [Item(f.lo, f.hi, None)] else [])
      case None =>
        (c.(i := PastLine(s, c.i)), match ParseCollationMarker(line) case Some(m) => [Item(c.i, c.i, Some(m))] case None => [])
  }

  /** A separator, where ';' is one. */
  function Separator(p: Profile, s: string, c: Control): (o: Outcome)
    requires InScript(s, c) && c.i < |s| && c.wordStart == -1
    ensures InScript(s, o.0) && o.0.i > c.i
  {
    var d := if !c.pendingEnd then c else c.(pendingEnd := false, depth := if c.depth > 0 then c.depth - 1 else 0);
    if d.depth > 0 then Quietly(d.(hasContent := true, i := c.i + 1))
    else (Reset(d).(i := c.i + 1, start := c.i + 1), Flushed(p, s, c.start, c.i))
  }

  /** Where the switch moves to, from a character that is no word rune, separator or line comment. */
  function Past(p: Profile, s: string, i: nat): (e: nat)
    requires i < |s|
    ensures i < e <= |s|
  {
    var u, next := p.unicode, i + DecodeRune(p.unicode, s, i).size;
    if s[i] == '\'' then SkipString(s, i + 1, s[i], p.backslashStrings || (p.escapeStringE && EscQuote(u, s, i)))
    else if s[i] == '"' then SkipString(s, i + 1, s[i], p.backslashStrings)
    else if s[i] == '`' then SkipString(s, i + 1, s[i], false)
    else if s[i] == '$' && p.dollarQuotes then (if SkipDollar(u, s, i).Some? then SkipDollar(u, s, i).value else next)
    else if s[i] == '[' && p.bracketIdentifiers then (if SkipBracket(s, i + 1).Some? then SkipBracket(s, i + 1).value else next)
    else if s[i] == '#' && p.hashComments then PastLine(s, i)
    else if HasPrefixAt(s, i, "/*") then SkipBlock(s, i + 2, 1, p.nestedBlockComments)
    else next
  }

  /** ... and whether what it moves over is white space or a comment. */
  predicate NoContent(p: Profile, s: string, i: nat)
    requires i < |s|
  {
    if s[i] == '#' then p.hashComments
    else if s[i] == '/' then HasPrefixAt(s, i, "/*")
    else s[i] !in {'\'', '"', '`', '-', '$', '[', ';'} && DecodeRune(p.unicode, s, i).space
  }

  /** The switch, at a character that is no word rune. */
  function Punctuation(p: Profile, s: string, c: Control): (o: Outcome)
    requires InScript(s, c) && c.i < |s| && c.wordStart == -1
    ensures InScript(s, o.0) && o.0.i > c.i
  {
    if HasPrefixAt(s, c.i, "--") && DashComment(p, s, c.i) then CommentLine(p, s, c)
    else if s[c.i] == ';' && c.delim == ";" then Separator(p, s, c)
    else Quietly(c.(hasContent := c.hasContent || !NoContent(p, s, c.i), i := Past(p, s, c.i)))
  }

  /** A batch separator alone on its line. */
  predicate BatchAt(p: Profile, s: string, c: Control)
    requires c.i < |s|
  {
    && p.batchSeparator != "" && c.depth == 0 && (c.i == 0 || s[c.i - 1] == '\n')
    && p.unicode.fold(TrimSpace(Line(s, c.i)), p.batchSeparator)
  }

  /** A word rune: a directive, or one more of a word. */
  function Word(p: Profile, s: string, c: Control): (o: Outcome)
    requires InScript(s, c) && c.i < |s|
    ensures InScript(s, o.0) && o.0.i > c.i
  {
    if c.wordStart < 0 && p.delimiterDirectives && !c.hasContent && HasWordAt(p.unicode, s, c.i, DIRECTIVE) then Directive(p, s, c)
    else Quietly(c.(hasContent := true, i := c.i + DecodeRune(p.unicode, s, c.i).size, wordStart := if c.wordStart < 0 then c.i else c.wordStart))
  }

  /** One iteration of the scanning loop: the new state, and the events it would emit. */
  function Step(p: Profile, s: string, c: Control): (o: Outcome)
    requires InScript(s, c) && c.i < |s|
    ensures InScript(s, o.0) && o.0.i > c.i
  {
    if c.delim != ";" && HasPrefixAt(s, c.i, c.delim) then EndStatement(p, s, c, c.i + |c.delim|)
    else if BatchAt(p, s, c) then EndStatement(p, s, c, PastLine(s, c.i))
    else if WordAt(p.unicode, s, c.i, p.dollarInWords) then Word(p, s, c)
    else Punctuation(p, s, EndWord(p, s, c, c.i))
  }

  /** All events from a state on. */
  function Events(p: Profile, s: string, c: Control): seq<Item>
    requires InScript(s, c)
    decreases |s| - c.i
  {
    if c.i >= |s| then Flushed(p, s, c.start, |s|)
    else
      var (d, items) := Step(p, s, c);
      items + Events(p, s, d)
  }

  lemma EventsStep(p: Profile, s: string, c: Control)
    requires InScript(s, c) && c.i < |s|
    ensures InScript(s, Step(p, s, c).0) && Events(p, s, c) == Step(p, s, c).1 + Events(p, s, Step(p, s, c).0)
  {
    hide Step, InScript;
  }

  lemma EventsEnd(p: Profile, s: string, c: Control)
    requires InScript(s, c) && c.i == |s|
    ensures c.start <= |s| && Events(p, s, c) == Flushed(p, s, c.start, |s|)
  {
  }

  /** Scan, uncapped. */
  function Scan(p: Profile, s: string): seq<Item> {
    Events(p, s, START)
  }
}
