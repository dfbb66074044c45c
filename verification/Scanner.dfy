/** The capped scanner and the shared event budget: all or nothing, and exact at the boundary. */
module Scanner {
  import opened Wrappers
  import opened Text
  import opened Markers
  import opened Lexer

  datatype Scanned = AllEvents(items: seq<Item>) | TooManyStatements

  /** scanCapped.  It fails exactly when the script has more events than allowed, and otherwise returns
      what the uncapped scan does. */
  method ScanCapped(p: Profile, s: string, max: int, strict: bool) returns (r: Scanned)
    ensures var all := Scan(p, s);
            r == if (max > 0 || (strict && max == 0)) && |all| > max then TooManyStatements else AllEvents(all)
  {
    hide Step, InScript, Flushed;
    var capped := max > 0 || (strict && max == 0);
    var out: seq<Item>, overflow := [], false;
    assert InScript(s, START) by { StartsIn(s); }
    var c := START;
    while c.i < |s| && !overflow
      invariant InScript(s, c) && (!overflow && capped ==> |out| <= max)
      invariant !overflow ==> Scan(p, s) == out + Lexer.Events(p, s, c)
      invariant overflow ==> capped && |Scan(p, s)| > max
      decreases |s| - c.i, !overflow
    {
      var (d, items) := Step(p, s, c);
      ghost var rest := Lexer.Events(p, s, d);
      assert Scan(p, s) == out + (items + rest);
      out, overflow := EmitAll(out, items, capped, max);
      c := d;
    }
    if !overflow {
      assert c.start <= |s| by { StaysIn(s, c); }
      var last := Flushed(p, s, c.start, |s|);
      out, overflow := EmitAll(out, last, capped, max);
    }
    r := if overflow then TooManyStatements else AllEvents(out);
  }

  lemma StartsIn(s: string)
    ensures InScript(s, START)
  {
  }

  lemma StaysIn(s: string, c: Control)
    requires InScript(s, c)
    ensures c.start <= c.i <= |s|
  {
  }

  /** emit, for the events of one iteration. */
  method EmitAll(out: seq<Item>, items: seq<Item>, capped: bool, max: int) returns (out': seq<Item>, overflow: bool)
    requires capped ==> |out| <= max
    ensures overflow == (capped && |out| + |items| > max)
    ensures !overflow ==> out' == out + items
  {
    out', overflow := out, false;
    for k := 0 to |items|
      invariant overflow == (capped && |out| + k > max)
      invariant !overflow ==> out' == out + items[..k]
      invariant capped && overflow ==> |out'| == max
    {
      if capped && |out'| >= max {
        overflow := true;
      } else {
        out' := out' + [items[k]];
      }
    }
  }

  /** The text of a statement event. */
  function TextOf(s: string, it: Item): string
    requires it.lo <= it.hi <= |s|
  {
    s[it.lo..it.hi]
  }

  // --- spans ---------------------------------------------------------------------------------------------

  /** Statement events are non-empty spans between lo and hi, in order and disjoint. */
  ghost predicate Spans(items: seq<Item>, lo: nat, hi: nat) {
    && (forall k :: 0 <= k < |items| && items[k].marker == None ==> lo <= items[k].lo < items[k].hi <= hi)
    && (forall j, k :: 0 <= j < k < |items| && items[j].marker == None && items[k].marker == None ==> items[j].hi <= items[k].lo)
  }

  lemma SpansAppend(a: seq<Item>, b: seq<Item>, lo: nat, mid: nat, hi: nat)
    requires Spans(a, lo, mid) && Spans(b, mid, hi) && lo <= mid <= hi
    ensures Spans(a + b, lo, hi)
  {
    var c := a + b;
    forall j, k | 0 <= j < k < |c| && c[j].marker == None && c[k].marker == None ensures c[j].hi <= c[k].lo {
      if k < |a| {
      } else if j >= |a| {
        assert c[j] == b[j - |a|] && c[k] == b[k - |a|];
      } else {
        assert c[k] == b[k - |a|];
      }
    }
  }

  lemma FlushSpans(p: Profile, s: string, lo: nat, hi: nat)
    requires lo <= hi <= |s|
    ensures Spans(Flushed(p, s, lo, hi), lo, hi)
  {
    hide StripLeadingComments;
  }

  lemma CommentSpans(p: Profile, s: string, c: Control)
    requires InScript(s, c) && c.i < |s| && c.wordStart == -1
    ensures var (d, items) := CommentLine(p, s, c); c.start <= d.start && Spans(items, c.start, d.start)
  {
    hide Flushed, ParseFrameMarker, ParseCollationMarker, ConsumeFrame, PastLine;
    FlushSpans(p, s, c.start, c.i);
    var frame := if p.delimiterDirectives && ParseFrameMarker(Line(s, c.i)).Some? then ConsumeFrame(s, Eol(s, c.i), ParseFrameMarker(Line(s, c.i)).value) else None;
    if frame.Some? {
      var body := if frame.value.lo < frame.value.hi then [Item(frame.value.lo, frame.value.hi, None)] else [];
      SpansAppend(Flushed(p, s, c.start, c.i), body, c.start, c.i, frame.value.next);
    }
  }

  lemma EndSpans(p: Profile, s: string, c: Control, next: nat)
    requires InScript(s, c) && c.i <= next <= |s|
    ensures var (d, items) := EndStatement(p, s, c, next); c.start <= d.start && Spans(items, c.start, d.start)
  {
    hide Flushed, EndWord;
    FlushSpans(p, s, c.start, c.i);
  }

  lemma SeparatorSpans(p: Profile, s: string, c: Control)
    requires InScript(s, c) && c.i < |s| && c.wordStart == -1
    ensures var (d, items) := Separator(p, s, c); c.start <= d.start && Spans(items, c.start, d.start)
  {
    hide Flushed;
    FlushSpans(p, s, c.start, c.i);
  }

  /** One iteration's statements lie between where the current one starts and where the next one does. */
  lemma StepSpans(p: Profile, s: string, c: Control)
    requires InScript(s, c) && c.i < |s|
    ensures var (d, items) := Step(p, s, c); c.start <= d.start && Spans(items, c.start, d.start)
  {
    hide CommentLine, EndStatement, Separator, BatchAt, WordAt, EndWord, HasWordAt, HasPrefixAt, Past, NoContent, DashComment, DelimiterNamed;
    EndSpans(p, s, c, PastLine(s, c.i));
    var e := EndWord(p, s, c, c.i);
    CommentSpans(p, s, e);
    SeparatorSpans(p, s, e);
    if c.delim != ";" && HasPrefixAt(s, c.i, c.delim) {
      PrefixFits(s, c.i, c.delim);
      EndSpans(p, s, c, c.i + |c.delim|);
    }
  }

  lemma PrefixFits(s: string, i: nat, t: string)
    requires HasPrefixAt(s, i, t)
    ensures i + |t| <= |s|
  {
  }

  lemma {:induction false} EventsSpans(p: Profile, s: string, c: Control)
    requires InScript(s, c)
    ensures Spans(Lexer.Events(p, s, c), c.start, |s|)
    decreases |s| - c.i
  {
    hide Step, Spans;
    if c.i >= |s| {
      FlushSpans(p, s, c.start, |s|);
    } else {
      StepSpans(p, s, c);
      var (d, items) := Step(p, s, c);
      EventsSpans(p, s, d);
      SpansAppend(items, Lexer.Events(p, s, d), c.start, d.start, |s|);
    }
  }

  /** The statements of a script are disjoint, non-empty substrings of it, in order. */
  lemma StatementsAreSpans(p: Profile, s: string)
    ensures Spans(Scan(p, s), 0, |s|)
  {
    EventsSpans(p, s, START);
  }

  // --- splitting and budgets -----------------------------------------------------------------------------

  datatype Split = Statements(texts: seq<string>) | SplitTooMany

  ghost predicate Fits(s: string, items: seq<Item>) {
    forall k :: 0 <= k < |items| && items[k].marker == None ==> items[k].lo <= items[k].hi <= |s|
  }

  /** The statement texts, without the markers. */
  function Texts(s: string, items: seq<Item>): seq<string>
    requires Fits(s, items)
  {
    if items == [] then []
    else
      var n := |items| - 1;
      Texts(s, items[..n]) + if items[n].marker == None then [TextOf(s, items[n])] else []
  }

  lemma TextsCons(s: string, it: Item, items: seq<Item>)
    requires it.marker == None && it.lo <= it.hi <= |s| && Fits(s, items)
    ensures Fits(s, [it] + items) && Texts(s, [it] + items) == [TextOf(s, it)] + Texts(s, items)
  {
    var all := [it] + items;
    if items != [] {
      var n := |items| - 1;
      TextsCons(s, it, items[..n]);
      assert all[..n + 1] == [it] + items[..n];
    }
  }

  /** SplitLimit: the cap counts events, markers included. */
  method SplitLimit(p: Profile, s: string, max: int) returns (r: Split)
    ensures Fits(s, Scan(p, s))
    ensures r == if max > 0 && |Scan(p, s)| > max then SplitTooMany else Statements(Texts(s, Scan(p, s)))
  {
    hide Scan;
    StatementsAreSpans(p, s);
    var scanned := ScanCapped(p, s, max, false);
    if scanned.TooManyStatements? {
      return SplitTooMany;
    }
    var out: seq<string> := [];
    var items := scanned.items;
    for k := 0 to |items|
      invariant Fits(s, items[..k]) && out == Texts(s, items[..k])
    {
      assert items[..k + 1][..k] == items[..k];
      if items[k].marker == None {
        out := out + [TextOf(s, items[k])];
      }
    }
    assert items[..|items|] == items;
    r := Statements(out);
  }

  class EventBudget {
    var remaining: int
    const capped: bool

    constructor (max: int)
      ensures remaining == max && capped == (max > 0)
    {
      remaining, capped := max, max > 0;
    }

    predicate Valid()
      reads this
    {
      capped ==> remaining >= 0
    }

    /** Consume: it fails, changing nothing, exactly when the script has more events than remain -- also
        when none remain. */
    method Consume(p: Profile, s: string) returns (ok: bool)
      requires Valid()
      modifies this
      ensures Valid() && ok == (capped ==> |Scan(p, s)| <= old(remaining))
      ensures remaining == if ok && capped then old(remaining) - |Scan(p, s)| else old(remaining)
    {
      if !capped {
        return true;
      }
      var r := ScanCapped(p, s, remaining, true);
      if r.TooManyStatements? {
        return false;
      }
      remaining := remaining - |r.items|;
      ok := true;
    }
  }

  function TotalEvents(p: Profile, scripts: seq<string>): nat {
    if scripts == [] then 0 else TotalEvents(p, scripts[..|scripts| - 1]) + |Scan(p, scripts[|scripts| - 1])|
  }

  /** The preflight of an import: all sections under one budget.  It stops at the first section that takes
      the running total past the cap, and only there. */
  method Preflight(p: Profile, scripts: seq<string>, max: int) returns (failed: Option<nat>)
    ensures failed == None ==> max <= 0 || TotalEvents(p, scripts) <= max
    ensures failed.Some? ==> max > 0 && failed.value < |scripts|
                             && TotalEvents(p, scripts[..failed.value]) <= max < TotalEvents(p, scripts[..failed.value + 1])
  {
    hide Scan;
    var budget := new EventBudget(max);
    assert scripts[..0] == [];
    for k := 0 to |scripts|
      invariant budget.Valid() && budget.capped == (max > 0)
      invariant max > 0 ==> budget.remaining == max - TotalEvents(p, scripts[..k])
    {
      assert scripts[..k + 1][..k] == scripts[..k];
      var ok := budget.Consume(p, scripts[k]);
      if !ok {
        return Some(k);
      }
    }
    assert scripts[..|scripts|] == scripts;
    failed := None;
  }

  /** Earlier sections never use more than later totals: a preflight that passes passes every prefix. */
  lemma {:induction false} TotalGrows(p: Profile, scripts: seq<string>, j: nat)
    requires j <= |scripts|
    ensures TotalEvents(p, scripts[..j]) <= TotalEvents(p, scripts)
  {
    hide Scan;
    if j == |scripts| {
      assert scripts[..j] == scripts;
    } else {
      var n := |scripts| - 1;
      TotalGrows(p, scripts[..n], j);
      assert scripts[..n][..j] == scripts[..j];
    }
  }
}
