/** Late-bound sequence references in default expressions, and how they come out of the rewriter. */
module NextvalRefs {
  import opened Wrappers
  import opened Text
  import opened Lexer
  import opened Quoting
  import opened SqlLiterals
  import opened QualifiedNames
  import opened SeqRewrite

  predicate IdentStart(c: char) {
    IdentChar(c) && !IsDigit(c) && c != '$'
  }

  /** What follows a literal's cast, if it has one. */
  function AfterType(v: string): string {
    var w := IdentAt(v);
    if AsciiLower(w) == "pg_catalog" && |w| < |v| && v[|w|] == '.' then v[|w| + 1 + |IdentAt(v[|w| + 1..])|..] else v[|w|..]
  }

  function AfterCast(t: string): string {
    var u := SkipSpaces(t);
    if |u| < 2 || u[0] != ':' || u[1] != ':' then t else AfterType(SkipSpaces(u[2..]))
  }

  /** The argument is over after the cast. */
  predicate ArgumentEnds(t: string) {
    var x := SkipSpaces(AfterCast(t));
    x == "" || x[0] == ')'
  }

  /** Spaces and opening parentheses. */
  function SkipOpens(t: string): (r: string)
    ensures |r| <= |t|
    ensures r != "" ==> !SqlSpace(r[0]) && r[0] != '('
  {
    if t != "" && (SqlSpace(t[0]) || t[0] == '(') then SkipOpens(t[1..]) else t
  }

  datatype Refs = Refs(found: seq<string>, dynamic: bool)

  const NOTHING: Refs := Refs([], false)

  function Plus(a: Refs, b: Refs): Refs {
    Refs(a.found + b.found, a.dynamic || b.dynamic)
  }

  /** What one literal argument adds. */
  function Argument(content: string, after: string): Refs {
    if Cast(after) == "text" && ArgumentEnds(after) then Refs([content], false)
    else if Cast(after) == "regclass" && ArgumentEnds(after) then NOTHING
    else Refs([], true)
  }

  /** How far one turn of the loop gets in t, and what it adds; no length if it ends the scan. */
  datatype Turn = Turn(rest: Option<string>, adds: Refs)

  /** A call of nextval, from behind the word. */
  function Call(t: string): (r: Turn)
    ensures r.rest.Some? ==> |r.rest.value| <= |t|
  {
    var u := SkipSpaces(t);
    if u == "" || u[0] != '(' then Turn(Some(t), NOTHING)
    else
      var v := SkipOpens(u[1..]);
      if v == "" || v[0] != '\'' then Turn(Some(t), Refs([], true))
      else
        match Inside(v[1..], '\'')
        case None => Turn(None, Refs([], true))
        case Some(d) => Turn(Some(v[1 + d.used..]), Argument(d.content, v[1 + d.used..]))
  }

  function Take(t: string): (r: Turn)
    requires t != ""
    ensures r.rest.Some? ==> |r.rest.value| < |t|
  {
    if t[0] == '"' then Turn(Some(t[SkipString(t, 1, '"', false)..]), NOTHING)
    else if t[0] == '\'' then
      match Inside(t[1..], '\'')
      case None => Turn(None, NOTHING)
      case Some(d) => Turn(Some(t[1 + d.used..]), NOTHING)
    else if IdentStart(t[0]) then
      var w := IdentAt(t);
      assert |w| > 0;
      if AsciiLower(w) != "nextval" then Turn(Some(t[|w|..]), NOTHING) else Call(t[|w|..])
    else Turn(Some(t[1..]), NOTHING)
  }

  /** NextvalTextRefs, as a function of the text. */
  function TextRefs(t: string): Refs
    decreases |t|
  {
    if t == "" then NOTHING
    else if Take(t).rest == None then Take(t).adds
    else Plus(Take(t).adds, TextRefs(Take(t).rest.value))
  }

  /** NextvalTextRefs. */
  method NextvalTextRefs(expr: string) returns (refs: seq<string>, dynamic: bool)
    ensures Refs(refs, dynamic) == TextRefs(expr)
  {
    hide Take, TextRefs;
    refs, dynamic := [], false;
    var rest := expr;
    PlusNothing(TextRefs(expr));
    while rest != ""
      invariant TextRefs(expr) == Plus(Refs(refs, dynamic), TextRefs(rest))
      decreases |rest|
    {
      TextRefsStep(rest);
      var turn := Take(rest);
      PlusTwice(Refs(refs, dynamic), turn.adds, if turn.rest.Some? then TextRefs(turn.rest.value) else NOTHING);
      refs, dynamic := refs + turn.adds.found, dynamic || turn.adds.dynamic;
      if turn.rest == None {
        return;
      }
      rest := turn.rest.value;
    }
    TextRefsStep("");
    PlusNothing(Refs(refs, dynamic));
  }

  lemma PlusNothing(r: Refs)
    ensures Plus(NOTHING, r) == r == Plus(r, NOTHING)
  {
  }

  lemma PlusTwice(a: Refs, b: Refs, c: Refs)
    ensures Plus(a, Plus(b, c)) == Plus(Plus(a, b), c)
  {
  }

  lemma TextRefsStep(t: string)
    ensures t == "" ==> TextRefs(t) == NOTHING
    ensures t != "" ==> var k := Take(t); TextRefs(t) == if k.rest == None then k.adds else Plus(k.adds, TextRefs(k.rest.value))
  {
    hide Take;
  }

  // --- after the rewriter --------------------------------------------------------------------------------

  function Rebind(fold: Folding, rw: Rewrites, content: string): string {
    if Rebound(fold, rw, content) then Printed(Replacement(fold, rw, content)) else content
  }

  function RebindAll(fold: Folding, rw: Rewrites, r: Refs): Refs {
    r.(found := seq(|r.found|, k requires 0 <= k < |r.found| => Rebind(fold, rw, r.found[k])))
  }

  /** A turn, after rewriting. */
  function RebindTurn(fold: Folding, rw: Rewrites, k: Turn): Turn {
    Turn(if k.rest.Some? then Some(Rewrite(fold, rw, k.rest.value)) else None, RebindAll(fold, rw, k.adds))
  }

  lemma RebindPlus(fold: Folding, rw: Rewrites, a: Refs, b: Refs)
    ensures RebindAll(fold, rw, Plus(a, b)) == Plus(RebindAll(fold, rw, a), RebindAll(fold, rw, b))
    ensures RebindAll(fold, rw, NOTHING) == NOTHING && RebindAll(fold, rw, Refs([], true)) == Refs([], true)
  {
    hide Rebind;
  }

  /** Text without quotes stays as it is. */
  lemma {:induction false} PlainPrefix(fold: Folding, rw: Rewrites, w: string, t: string)
    requires NoQuotes(w)
    ensures Rewrite(fold, rw, w + t) == w + Rewrite(fold, rw, t)
    decreases |w|
  {
    hide Rewrite, SegmentText;
    if w == "" {
      assert w + t == t;
      assert w + Rewrite(fold, rw, t) == Rewrite(fold, rw, t);
    } else {
      var u := w + t;
      assert u[1..] == w[1..] + t && u[0] == w[0];
      RewriteFirst(fold, rw, u);
      PlainFront(fold, rw, u);
      PlainPrefix(fold, rw, w[1..], t);
      assert [w[0]] + (w[1..] + Rewrite(fold, rw, t)) == w + Rewrite(fold, rw, t);
    }
  }

  /** What is skipped has no quote in it, and the rewritten text is skipped as far. */
  lemma {:induction false} SpacesKept(fold: Folding, rw: Rewrites, t: string)
    ensures SkipSpaces(Rewrite(fold, rw, t)) == Rewrite(fold, rw, SkipSpaces(t))
    decreases |t|
  {
    hide Rewrite;
    HeadKept(fold, rw, t);
    if t != "" && SqlSpace(t[0]) {
      PlainHead(fold, rw, t);
      SpacesKept(fold, rw, t[1..]);
    }
  }

  lemma {:induction false} OpensKept(fold: Folding, rw: Rewrites, t: string)
    ensures SkipOpens(Rewrite(fold, rw, t)) == Rewrite(fold, rw, SkipOpens(t))
    decreases |t|
  {
    hide Rewrite;
    HeadKept(fold, rw, t);
    if t != "" && (SqlSpace(t[0]) || t[0] == '(') {
      PlainHead(fold, rw, t);
      OpensKept(fold, rw, t[1..]);
    }
  }

  /** A character that is no quote stays in front. */
  lemma PlainHead(fold: Folding, rw: Rewrites, t: string)
    requires t != "" && !Quote(t[0])
    ensures var r := Rewrite(fold, rw, t); r != "" && r[0] == t[0] && r[1..] == Rewrite(fold, rw, t[1..])
  {
    hide Rewrite;
    assert t == [t[0]] + t[1..];
    PlainPrefix(fold, rw, [t[0]], t[1..]);
  }

  lemma {:induction false} IdentKept(fold: Folding, rw: Rewrites, t: string)
    ensures IdentAt(Rewrite(fold, rw, t)) == IdentAt(t)
    ensures Rewrite(fold, rw, t)[|IdentAt(t)|..] == Rewrite(fold, rw, t[|IdentAt(t)|..])
    decreases |t|
  {
    hide Rewrite;
    HeadKept(fold, rw, t);
    if t != "" && IdentChar(t[0]) {
      PlainHead(fold, rw, t);
      IdentKept(fold, rw, t[1..]);
      var n, r := |IdentAt(t[1..])|, Rewrite(fold, rw, t);
      assert r[1..][n..] == r[n + 1..] && t[1..][n..] == t[n + 1..];
    }
  }

  /** Whether an argument ends is decided before the next quote. */
  lemma EndsKept(fold: Folding, rw: Rewrites, t: string)
    ensures ArgumentEnds(Rewrite(fold, rw, t)) == ArgumentEnds(t)
  {
    hide Rewrite, SkipSpaces, IdentAt;
    AfterCastKept(fold, rw, t);
    SpacesKept(fold, rw, AfterCast(t));
    HeadKept(fold, rw, SkipSpaces(AfterCast(t)));
  }

  lemma AfterCastKept(fold: Folding, rw: Rewrites, t: string)
    ensures AfterCast(Rewrite(fold, rw, t)) == Rewrite(fold, rw, AfterCast(t))
  {
    hide Rewrite, SkipSpaces, AfterType;
    var u := SkipSpaces(t);
    SpacesKept(fold, rw, t);
    HeadKept(fold, rw, u);
    if u != "" && u[0] == ':' {
      PlainHead(fold, rw, u);
      HeadKept(fold, rw, u[1..]);
      if |u| >= 2 && u[1] == ':' {
        var r := Rewrite(fold, rw, u);
        PlainHead(fold, rw, u[1..]);
        assert r[1..][1..] == r[2..] && u[1..][1..] == u[2..];
        SpacesKept(fold, rw, u[2..]);
        AfterTypeKept(fold, rw, SkipSpaces(u[2..]));
      }
    }
  }

  lemma AfterTypeKept(fold: Folding, rw: Rewrites, v: string)
    ensures AfterType(Rewrite(fold, rw, v)) == Rewrite(fold, rw, AfterType(v))
  {
    hide Rewrite, IdentAt, AsciiLower;
    var w, r := IdentAt(v), Rewrite(fold, rw, v);
    var t := v[|w|..];
    IdentKept(fold, rw, v);
    HeadKept(fold, rw, t);
    if t != "" && t[0] == '.' {
      PlainHead(fold, rw, t);
      assert r[|w|..][1..] == r[|w| + 1..] && t[1..] == v[|w| + 1..];
      IdentKept(fold, rw, t[1..]);
      var n := |IdentAt(t[1..])|;
      assert r[|w| + 1..][n..] == r[|w| + 1 + n..] && t[1..][n..] == v[|w| + 1 + n..];
    }
  }

  /** A literal stays one, up to the same place. */
  lemma LiteralKept(fold: Folding, rw: Rewrites, t: string)
    requires t != "" && t[0] == '\''
    ensures var r := Rewrite(fold, rw, t);
            && r != "" && r[0] == '\''
            && match Inside(t[1..], '\'')
               case None => Inside(r[1..], '\'') == None
               case Some(d) =>
                 var after := t[1 + d.used..];
                 var e := Inside(r[1..], '\'');
                 e.Some? && e.value.content == Rewritten(fold, rw, Literal(d.content, Cast(after))).content && r[1 + e.value.used..] == Rewrite(fold, rw, after)
  {
    hide Rewrite, Inside, Cast, Rebound, Printed, Replacement, Doubled;
    HeadKept(fold, rw, t);
    FrontAgain(fold, rw, t);
    RewriteFirst(fold, rw, t);
    var g := Rewritten(fold, rw, Front(t).0);
    var text, rest := SegmentText(g), Rewrite(fold, rw, t[Front(t).1..]);
    assert (text + rest)[|text|..] == rest;
  }

  /** What an argument adds, after rewriting: a reference by text is rebound with its literal. */
  lemma ArgumentKept(fold: Folding, rw: Rewrites, content: string, after: string)
    ensures Argument(Rewritten(fold, rw, Literal(content, Cast(after))).content, Rewrite(fold, rw, after)) ==
            RebindAll(fold, rw, Argument(content, after))
  {
    hide Rewrite, Cast, ArgumentEnds, Rebound, Printed, Replacement;
    CastKept(fold, rw, after);
    EndsKept(fold, rw, after);
    RebindPlus(fold, rw, NOTHING, NOTHING);
    assert RebindAll(fold, rw, Refs([content], false)) == Refs([Rebind(fold, rw, content)], false);
  }

  lemma CallKept(fold: Folding, rw: Rewrites, t: string)
    ensures Call(Rewrite(fold, rw, t)) == RebindTurn(fold, rw, Call(t))
  {
    hide Rewrite, SkipSpaces, SkipOpens, Inside, Argument, Cast, Rewritten, RebindAll;
    RebindPlus(fold, rw, NOTHING, NOTHING);
    var u := SkipSpaces(t);
    SpacesKept(fold, rw, t);
    HeadKept(fold, rw, u);
    if u != "" && u[0] == '(' {
      PlainHead(fold, rw, u);
      OpensKept(fold, rw, u[1..]);
      var v := SkipOpens(u[1..]);
      HeadKept(fold, rw, v);
      if v != "" && v[0] == '\'' {
        LiteralKept(fold, rw, v);
        if Inside(v[1..], '\'').Some? {
          var d := Inside(v[1..], '\'').value;
          ArgumentKept(fold, rw, d.content, v[1 + d.used..]);
        }
      }
    }
  }

  lemma TakeKept(fold: Folding, rw: Rewrites, t: string)
    requires t != ""
    ensures Rewrite(fold, rw, t) != "" && Take(Rewrite(fold, rw, t)) == RebindTurn(fold, rw, Take(t))
  {
    hide Rewrite, Inside, IdentAt, Call, RebindAll, Cast, Rewritten, AsciiLower;
    HeadKept(fold, rw, t);
    RebindPlus(fold, rw, NOTHING, NOTHING);
    if t[0] == '"' {
      QuotedIdentKept(fold, rw, t);
    } else if t[0] == '\'' {
      LiteralKept(fold, rw, t);
    } else {
      PlainHead(fold, rw, t);
      IdentKept(fold, rw, t);
      CallKept(fold, rw, t[|IdentAt(t)|..]);
    }
  }

  lemma QuotedIdentKept(fold: Folding, rw: Rewrites, t: string)
    requires t != "" && t[0] == '"'
    ensures var n, r := SkipString(t, 1, '"', false), Rewrite(fold, rw, t);
            r != "" && r[0] == '"' && SkipString(r, 1, '"', false) == n <= |r| && r[n..] == Rewrite(fold, rw, t[n..])
  {
    hide Rewrite, SkipString;
    HeadKept(fold, rw, t);
    IdentAgain(fold, rw, t);
    RewriteFirst(fold, rw, t);
    var n := SkipString(t, 1, '"', false);
    assert (t[..n] + Rewrite(fold, rw, t[n..]))[n..] == Rewrite(fold, rw, t[n..]);
  }

  /** The late-bound references of rewritten text are those of the text, each rebound if it names a key, in the same order; and
      neither hides a dynamic one. */
  lemma {:induction false} RefsRebound(fold: Folding, rw: Rewrites, t: string)
    ensures TextRefs(Rewrite(fold, rw, t)) == RebindAll(fold, rw, TextRefs(t))
    decreases |t|
  {
    hide Rewrite, Take, TextRefs, Plus, RebindAll;
    HeadKept(fold, rw, t);
    TextRefsStep(t);
    TextRefsStep(Rewrite(fold, rw, t));
    RebindPlus(fold, rw, NOTHING, NOTHING);
    if t != "" {
      var k := Take(t);
      TakeKept(fold, rw, t);
      if k.rest.Some? {
        RefsRebound(fold, rw, k.rest.value);
        RebindPlus(fold, rw, k.adds, TextRefs(k.rest.value));
      }
    }
  }
}
