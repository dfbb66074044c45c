/** Splitting a restore script into the sections that go to different databases. */
module Restore {
  import opened Wrappers
  import opened Text
  import opened Lexer
  import opened ConnectLines

  /** A chunk of a script, for one database; "" is the import's own target. */
  datatype Section = Section(db: string, script: string)

  datatype Env = Env(unicode: Unicode, decoding: Decoding)

  // --- one move of the scan ------------------------------------------------------------------------------

  datatype Move = Pass(next: nat, lineStart: bool) | Marker(db: string, eol: nat) | Broken

  /** The end of the quoted span, comment or single character at i. */
  function SpanEnd(u: Unicode, s: string, i: nat): (e: nat)
    requires i < |s|
    ensures i < e <= |s|
  {
    if s[i] == '\'' || s[i] == '"' then SkipString(s, i + 1, s[i], s[i] == '\'' && EscQuote(u, s, i))
    else if s[i] == '$' then (if SkipDollar(u, s, i).Some? then SkipDollar(u, s, i).value else i + 1)
    else if HasPrefixAt(s, i, "/*") then SkipBlock(s, i + 2, 1, true)
    else i + 1
  }

  predicate Blank(c: char) {
    c == ' ' || c == '\t' || c == '\r'
  }

  /** One iteration of the loop of SplitRestoreSections. */
  function MoveAt(e: Env, s: string, i: nat, lineStart: bool): (m: Move)
    requires i < |s|
    ensures m.Pass? ==> i < m.next <= |s|
    ensures m.Marker? ==> lineStart && i < m.eol <= |s|
  {
    if s[i] == '\n' then Pass(i + 1, true)
    else if Blank(s[i]) then Pass(i + 1, lineStart)
    else if HasPrefixAt(s, i, "--") then Pass(Eol(s, i), lineStart)
    else if s[i] == '\\' && lineStart then
      match ParseConnectLine(e.decoding, s[i..Eol(s, i)])
      case Unterminated => Broken
      case To(db) => Marker(db, Eol(s, i))
      case NotConnect => Pass(i + 1, false)
    else Pass(SpanEnd(e.unicode, s, i), false)
  }

  /** What flush appends. */
  function Flush(db: string, text: string): seq<Section> {
    if TrimSpace(text) == "" then [] else [Section(db, TrimSpace(text))]
  }

  /** The sections flushed from a state on, and whether a broken marker line then ended the scan. */
  datatype Traced = Traced(sections: seq<Section>, broken: bool)

  function Then(secs: seq<Section>, t: Traced): Traced {
    t.(sections := secs + t.sections)
  }

  function Trace(e: Env, s: string, i: nat, lineStart: bool, cur: string, start: nat): Traced
    requires start <= i <= |s|
    decreases |s| - i
  {
    if i == |s| then Traced(Flush(cur, s[start..]), false)
    else
      match MoveAt(e, s, i, lineStart)
      case Pass(next, l) => Trace(e, s, next, l, cur, start)
      case Marker(db, eol) => Then(Flush(cur, s[start..i]), Trace(e, s, eol, lineStart, db, eol))
      case Broken => Traced([], true)
  }

  lemma TracePass(e: Env, s: string, i: nat, lineStart: bool, cur: string, start: nat)
    requires start <= i < |s| && MoveAt(e, s, i, lineStart).Pass?
    ensures var m := MoveAt(e, s, i, lineStart); Trace(e, s, i, lineStart, cur, start) == Trace(e, s, m.next, m.lineStart, cur, start)
  {
    hide MoveAt;
  }

  lemma TraceMarker(e: Env, s: string, i: nat, lineStart: bool, cur: string, start: nat)
    requires start <= i < |s| && MoveAt(e, s, i, lineStart).Marker?
    ensures var m := MoveAt(e, s, i, lineStart);
            Trace(e, s, i, lineStart, cur, start) == Then(Flush(cur, s[start..i]), Trace(e, s, m.eol, lineStart, m.db, m.eol))
  {
    hide MoveAt;
  }

  lemma TraceEnd(e: Env, s: string, lineStart: bool, cur: string, start: nat)
    requires start <= |s|
    ensures Trace(e, s, |s|, lineStart, cur, start) == Traced(Flush(cur, s[start..]), false)
  {
  }

  // --- the loop ------------------------------------------------------------------------------------------

  datatype Split = Sections(items: seq<Section>) | TooManySections | BadTarget

  /** SplitRestoreSections.  Without connects the script is one inert section; with them it is split at every
      marker, or else refused as a whole: for more sections than allowed, or for a broken marker line. */
  method SplitRestoreSections(e: Env, script: string, allowConnect: bool, max: int) returns (r: Split)
    ensures !allowConnect ==> r == Sections(Flush("", script)) && |r.items| <= 1
    ensures allowConnect ==>
              var t := Trace(e, script, 0, true, "", 0);
              r == if max > 0 && |t.sections| > max then TooManySections else if t.broken then BadTarget else Sections(t.sections)
  {
    hide MoveAt, TrimSpace, Trace;
    if !allowConnect {
      var text := TrimSpace(script);
      return Sections(if text == "" then [] else [Section("", text)]);
    }
    var sections: seq<Section>, cur, start, overflow, lineStart, i := [], "", 0, false, true, 0;
    ghost var all := Trace(e, script, 0, true, "", 0);
    while i < |script| && !overflow
      invariant 0 <= start <= i <= |script| && (max > 0 ==> |sections| <= max)
      invariant !overflow ==> all == Then(sections, Trace(e, script, i, lineStart, cur, start))
      invariant overflow ==> max > 0 && |all.sections| > max
      decreases |script| - i, !overflow
    {
      var m := MoveAt(e, script, i, lineStart);
      if m.Broken? {
        assert Trace(e, script, i, lineStart, cur, start) == Traced([], true) by { TraceBroken(e, script, i, lineStart, cur, start); }
        return BadTarget;
      }
      if m.Pass? {
        TracePass(e, script, i, lineStart, cur, start);
        i, lineStart := m.next, m.lineStart;
      } else {
        TraceMarker(e, script, i, lineStart, cur, start);
        ghost var rest := Trace(e, script, m.eol, lineStart, m.db, m.eol);
        ThenTwice(sections, Flush(cur, script[start..i]), rest);
        sections, overflow := FlushOne(sections, cur, script[start..i], max);
        cur, start, i := m.db, m.eol, m.eol;
      }
    }
    if !overflow {
      assert script[start..] == script[start..|script|];
      TraceEnd(e, script, lineStart, cur, start);
      sections, overflow := FlushOne(sections, cur, script[start..], max);
    }
    r := if overflow then TooManySections else Sections(sections);
  }

  lemma TraceBroken(e: Env, s: string, i: nat, lineStart: bool, cur: string, start: nat)
    requires start <= i < |s| && MoveAt(e, s, i, lineStart).Broken?
    ensures Trace(e, s, i, lineStart, cur, start) == Traced([], true)
  {
    hide MoveAt;
  }

  lemma ThenTwice(a: seq<Section>, b: seq<Section>, t: Traced)
    ensures Then(a, Then(b, t)) == Then(a + b, t)
  {
    assert a + (b + t.sections) == a + b + t.sections;
  }

  /** flush: one section more, if there is text and room. */
  method FlushOne(sections: seq<Section>, cur: string, text: string, max: int) returns (out: seq<Section>, overflow: bool)
    ensures overflow == (max > 0 && |sections| >= max && Flush(cur, text) != [])
    ensures out == if overflow then sections else sections + Flush(cur, text)
  {
    hide TrimSpace;
    out, overflow := sections, false;
    var trimmed := TrimSpace(text);
    if trimmed != "" {
      if max > 0 && |sections| >= max {
        return sections, true;
      }
      out := sections + [Section(cur, trimmed)];
    }
  }
}
