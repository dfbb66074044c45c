/** Rebinding sequence references: literals that name a sequence are pointed at its replacement, and nothing else changes. */
module SeqRewrite {
  import opened Wrappers
  import opened Text
  import opened Lexer
  import opened Quoting
  import opened SqlLiterals
  import opened QualifiedNames

  // --- keys ----------------------------------------------------------------------------------------------

  const NUL: char := 0 as char

  /** SeqRefKey. */
  function Key(n: Name): string {
    n.schema + [NUL] + n.name
  }

  /** strings.Cut on NUL. */
  function Cut(k: string): Name {
    if k == "" then Name("", "")
    else if k[0] == NUL then Name("", k[1..])
    else var n := Cut(k[1..]); Name([k[0]] + n.schema, n.name)
  }

  lemma {:induction false} CutKey(n: Name)
    requires NUL !in n.schema
    ensures Cut(Key(n)) == n
    decreases |n.schema|
  {
    var k := Key(n);
    if n.schema == "" {
      assert k == [NUL] + n.name;
    } else {
      var m := Name(n.schema[1..], n.name);
      assert k[1..] == Key(m);
      CutKey(m);
      assert [n.schema[0]] + n.schema[1..] == n.schema;
    }
  }

  /** Two names share a key only if a schema holds a NUL, so a dot in a relation's name collides with
      nothing. */
  lemma KeysDistinct(a: Name, b: Name)
    requires NUL !in a.schema && NUL !in b.schema && Key(a) == Key(b)
    ensures a == b
  {
    CutKey(a);
    CutKey(b);
  }

  // --- segments ------------------------------------------------------------------------------------------

  /** What the rewriter distinguishes: text it copies, and literals with the cast that follows them. */
  datatype Segment = Copied(text: string) | Literal(content: string, cast: string)

  function SegmentText(g: Segment): string {
    match g
    case Copied(text) => text
    case Literal(content, _) => Quoted(content, '\'')
  }

  function Joined(gs: seq<Segment>): string {
    if gs == [] then "" else SegmentText(gs[0]) + Joined(gs[1..])
  }

  /** The segment at the front of t, and its length. */
  function Front(t: string): (r: (Segment, nat))
    requires t != ""
    ensures 1 <= r.1 <= |t|
  {
    if t[0] == '"' then
      var n := SkipString(t, 1, '"', false);
      (Copied(t[..n]), n)
    else if t[0] == '\'' then
      match Inside(t[1..], '\'')
      case None => (Copied(t), |t|)
      case Some(d) => (Literal(d.content, Cast(t[1 + d.used..])), 1 + d.used)
    else (Copied([t[0]]), 1)
  }

  function Segments(t: string): seq<Segment>
    decreases |t|
  {
    if t == "" then [] else [Front(t).0] + Segments(t[Front(t).1..])
  }

  // --- rewriting -----------------------------------------------------------------------------------------

  type Rewrites = map<string, string>

  predicate Rebound(fold: Folding, rw: Rewrites, content: string) {
    Parsed(fold, content).Some? && Key(Parsed(fold, content).value) in rw
  }

  function Replacement(fold: Folding, rw: Rewrites, content: string): Name
    requires Rebound(fold, rw, content)
  {
    Cut(rw[Key(Parsed(fold, content).value)])
  }

  predicate Hit(fold: Folding, rw: Rewrites, g: Segment) {
    g.Literal? && (g.cast == "regclass" || g.cast == "text") && Rebound(fold, rw, g.content)
  }

  function Rewritten(fold: Folding, rw: Rewrites, g: Segment): Segment {
    if Hit(fold, rw, g) then g.(content := Printed(Replacement(fold, rw, g.content))) else g
  }

  function AllRewritten(fold: Folding, rw: Rewrites, gs: seq<Segment>): (r: seq<Segment>)
    ensures |r| == |gs|
  {
    seq(|gs|, k requires 0 <= k < |gs| => Rewritten(fold, rw, gs[k]))
  }

  /** RewriteSequenceRefs, as a function of the text. */
  function Rewrite(fold: Folding, rw: Rewrites, t: string): string {
    Joined(AllRewritten(fold, rw, Segments(t)))
  }

  // --- segments and their text ---------------------------------------------------------------------------

  lemma JoinedFirst(gs: seq<Segment>)
    requires gs != []
    ensures Joined(gs) == SegmentText(gs[0]) + Joined(gs[1..])
  {
  }

  lemma AllRewrittenFirst(fold: Folding, rw: Rewrites, gs: seq<Segment>)
    requires gs != []
    ensures AllRewritten(fold, rw, gs)[0] == Rewritten(fold, rw, gs[0])
    ensures AllRewritten(fold, rw, gs)[1..] == AllRewritten(fold, rw, gs[1..])
  {
    hide Rewritten;
    var a, b := AllRewritten(fold, rw, gs)[1..], AllRewritten(fold, rw, gs[1..]);
    forall k | 0 <= k < |b| ensures a[k] == b[k] {
      assert gs[1..][k] == gs[k + 1];
    }
  }

  lemma SegmentsFirst(t: string)
    requires t != ""
    ensures var gs := Segments(t); gs != [] && gs[0] == Front(t).0 && gs[1..] == Segments(t[Front(t).1..])
  {
    hide Front;
  }

  /** A segment's text is what it stands for. */
  lemma FrontText(t: string)
    requires t != ""
    ensures SegmentText(Front(t).0) == t[..Front(t).1]
  {
    hide Inside, Cast, Doubled;
    if t[0] == '\'' && Inside(t[1..], '\'').Some? {
      InsideOnly(t[1..], '\'');
      QuotedSlices(t, |Doubled(Inside(t[1..], '\'').value.content, '\'')|);
    }
  }

  lemma QuotedSlices(t: string, n: nat)
    requires n + 2 <= |t|
    ensures t[1..][..n] == t[1..1 + n] && t[..n + 2] == [t[0]] + t[1..1 + n] + [t[n + 1]]
  {
  }

  /** The segments of a text are the whole of it, in order. */
  lemma {:induction false} SegmentsJoin(t: string)
    ensures Joined(Segments(t)) == t
    decreases |t|
  {
    hide Front, SegmentText;
    if t != "" {
      var n := Front(t).1;
      SegmentsFirst(t);
      FrontText(t);
      SegmentsJoin(t[n..]);
      JoinedFirst(Segments(t));
      assert t[..n] + t[n..] == t;
    }
  }

  /** The rewritten text, from the front. */
  lemma RewriteFirst(fold: Folding, rw: Rewrites, t: string)
    requires t != ""
    ensures Rewrite(fold, rw, t) == SegmentText(Rewritten(fold, rw, Front(t).0)) + Rewrite(fold, rw, t[Front(t).1..])
  {
    hide Front, SegmentText, Rewritten, AllRewritten, Segments, Joined;
    SegmentsFirst(t);
    AllRewrittenFirst(fold, rw, Segments(t));
    JoinedFirst(AllRewritten(fold, rw, Segments(t)));
  }

  lemma RewriteNothing(fold: Folding, rw: Rewrites)
    ensures Rewrite(fold, rw, "") == "" && Segments("") == [] && AllRewritten(fold, rw, []) == []
  {
  }

  /** A text keeps its first character, so what ends a segment in front of it still does. */
  lemma HeadKept(fold: Folding, rw: Rewrites, t: string)
    ensures Rewrite(fold, rw, t) == "" <==> t == ""
    ensures t != "" ==> Rewrite(fold, rw, t)[0] == t[0]
  {
    hide Front, Rewrite, Printed, Replacement, Doubled;
    RewriteNothing(fold, rw);
    if t != "" {
      RewriteFirst(fold, rw, t);
      FrontText(t);
      var g := Front(t).0;
      assert SegmentText(g)[0] == t[0];
    }
  }

  // --- the output, read again ----------------------------------------------------------------------------

  /** Up to the first quote the text stays as it is. */
  lemma {:induction false} SameLead(fold: Folding, rw: Rewrites, t: string) returns (w: string, r: string, s: string)
    ensures t == w + r && Rewrite(fold, rw, t) == w + s && NoQuotes(w)
    ensures (r == "" || Quote(r[0])) && (s == "" || Quote(s[0]))
    decreases |t|
  {
    hide Rewrite, SegmentText;
    HeadKept(fold, rw, t);
    if t == "" || Quote(t[0]) {
      w, r, s := "", t, Rewrite(fold, rw, t);
    } else {
      RewriteFirst(fold, rw, t);
      PlainFront(fold, rw, t);
      hide Front;
      var v: string;
      v, r, s := SameLead(fold, rw, t[1..]);
      w := [t[0]] + v;
      assert t == [t[0]] + t[1..];
      assert [t[0]] + (v + r) == w + r && [t[0]] + (v + s) == w + s;
    }
  }

  lemma PlainFront(fold: Folding, rw: Rewrites, t: string)
    requires t != "" && !Quote(t[0])
    ensures Front(t) == (Copied([t[0]]), 1) && SegmentText(Rewritten(fold, rw, Front(t).0)) == [t[0]]
  {
  }

  lemma CastKept(fold: Folding, rw: Rewrites, t: string)
    ensures Cast(Rewrite(fold, rw, t)) == Cast(t)
  {
    hide Cast, Rewrite;
    var w, r, s := SameLead(fold, rw, t);
    CastStops(w, r);
    CastStops(w, s);
  }

  lemma {:induction false} SkipSame(t: string, u: string, j: nat, q: char)
    requires j <= SkipString(t, j, q, false) < |t| && SkipString(t, j, q, false) < |u|
    requires forall k :: 0 <= k <= SkipString(t, j, q, false) ==> t[k] == u[k]
    ensures SkipString(u, j, q, false) == SkipString(t, j, q, false)
    decreases |t| - j
  {
    if t[j] == q && j + 1 < |t| && t[j + 1] == q {
      SkipSame(t, u, j + 2, q);
    } else if t[j] != q {
      SkipSame(t, u, j + 1, q);
    }
  }

  /** The first segment of the output is the first segment, rewritten. */
  lemma FrontAgain(fold: Folding, rw: Rewrites, t: string)
    requires t != ""
    ensures Rewrite(fold, rw, t) != ""
    ensures var g := Rewritten(fold, rw, Front(t).0); Front(Rewrite(fold, rw, t)) == (g, |SegmentText(g)|)
  {
    hide Rewrite;
    HeadKept(fold, rw, t);
    RewriteFirst(fold, rw, t);
    if t[0] == '"' {
      IdentAgain(fold, rw, t);
    } else if t[0] == '\'' {
      LiteralAgain(fold, rw, t);
    } else {
      PlainFront(fold, rw, t);
      PlainFront(fold, rw, Rewrite(fold, rw, t));
    }
  }

  lemma IdentAgain(fold: Folding, rw: Rewrites, t: string)
    requires t != "" && t[0] == '"'
    ensures Rewrite(fold, rw, t) != "" && Front(Rewrite(fold, rw, t)) == Front(t) && Front(t).0.Copied?
    ensures Front(t).1 == |SegmentText(Front(t).0)|
  {
    hide Rewrite;
    HeadKept(fold, rw, t);
    RewriteFirst(fold, rw, t);
    var n, u := SkipString(t, 1, '"', false), Rewrite(fold, rw, t);
    HeadKept(fold, rw, t[n..]);
    assert u == t[..n] + Rewrite(fold, rw, t[n..]);
    if n == |t| {
      assert u == t;
    } else {
      assert u[n] == t[n];
      SkipSame(t, u, 1, '"');
      assert u[..n] == t[..n];
    }
  }

  lemma LiteralAgain(fold: Folding, rw: Rewrites, t: string)
    requires t != "" && t[0] == '\''
    ensures Rewrite(fold, rw, t) != ""
    ensures var g := Rewritten(fold, rw, Front(t).0); Front(Rewrite(fold, rw, t)) == (g, |SegmentText(g)|)
  {
    hide Rewrite, Inside, Doubled, Cast, Printed, Rebound, Replacement, Closes, Rewritten;
    HeadKept(fold, rw, t);
    RewriteFirst(fold, rw, t);
    var u := Rewrite(fold, rw, t);
    if Inside(t[1..], '\'') == None {
      CopiedStays(fold, rw, t);
      RewriteNothing(fold, rw);
      assert t[|t|..] == "";
      assert u == t + "" == t;
    } else {
      var rest := t[Front(t).1..];
      AfterLiteral(t);
      HeadKept(fold, rw, rest);
      CastKept(fold, rw, rest);
      LiteralStays(fold, rw, Front(t).0);
      QuotedFront(Rewritten(fold, rw, Front(t).0), Rewrite(fold, rw, rest));
    }
  }

  lemma CopiedStays(fold: Folding, rw: Rewrites, text: string)
    ensures Rewritten(fold, rw, Copied(text)) == Copied(text)
  {
  }

  lemma LiteralStays(fold: Folding, rw: Rewrites, g: Segment)
    requires g.Literal?
    ensures Rewritten(fold, rw, g).Literal? && Rewritten(fold, rw, g).cast == g.cast
  {
  }

  /** What follows a literal starts with no quote, and decides its cast. */
  lemma AfterLiteral(t: string)
    requires t != "" && t[0] == '\'' && Inside(t[1..], '\'').Some?
    ensures var (g, n) := Front(t); g.Literal? && g.cast == Cast(t[n..]) && (t[n..] != "" ==> t[n..][0] != '\'')
  {
    InsideOnly(t[1..], '\'');
    hide Inside, Cast, Doubled;
  }

  lemma QuotedFront(g: Segment, rest: string)
    requires g.Literal? && g.cast == Cast(rest) && (rest != "" ==> rest[0] != '\'')
    ensures Front(SegmentText(g) + rest) == (g, |SegmentText(g)|)
  {
    hide Doubled, Inside, Cast;
    QuotedBack(g.content, '\'', rest);
  }

  /** Reading the output again gives the same segments, with the literals that hit a key rebound: a value
      or a name that is put in cannot end its literal early, join with what follows it, or change a cast. */
  lemma {:induction false} RewriteRescans(fold: Folding, rw: Rewrites, t: string)
    ensures Segments(Rewrite(fold, rw, t)) == AllRewritten(fold, rw, Segments(t))
    decreases |t|
  {
    hide Front, SegmentText, Rewritten, AllRewritten, Segments, Rewrite;
    if t == "" {
      RewriteNothing(fold, rw);
    } else {
      var n, u := Front(t).1, Rewrite(fold, rw, t);
      FrontAgain(fold, rw, t);
      RewriteFirst(fold, rw, t);
      SegmentsFirst(t);
      SegmentsFirst(u);
      AllRewrittenFirst(fold, rw, Segments(t));
      RewriteRescans(fold, rw, t[n..]);
      FirstAndRest(Segments(u), AllRewritten(fold, rw, Segments(t)));
    }
  }

  lemma FirstAndRest(a: seq<Segment>, b: seq<Segment>)
    requires a != [] && b != [] && a[0] == b[0] && a[1..] == b[1..]
    ensures a == b
  {
    assert a == [a[0]] + a[1..] && b == [b[0]] + b[1..];
  }

  /** Exactly the cast literals that name a key change, each to the name it is mapped to. */
  lemma RewriteTouchesOnlyHits(fold: Folding, rw: Rewrites, t: string, k: nat)
    requires k < |Segments(t)|
    ensures Joined(Segments(t)) == t && |Segments(Rewrite(fold, rw, t))| == |Segments(t)|
    ensures var g, h := Segments(t)[k], Segments(Rewrite(fold, rw, t))[k];
            if Hit(fold, rw, g) then
              var n := Replacement(fold, rw, g.content);
              h.Literal? && h.cast == g.cast && (n.schema != "" && n.name != "" ==> Parsed(fold, h.content) == Some(n))
            else h == g
  {
    hide Front, Rewrite, Printed, Hit;
    SegmentsJoin(t);
    RewriteRescans(fold, rw, t);
    var g := Segments(t)[k];
    if Hit(fold, rw, g) {
      HitIs(fold, rw, g);
      PrintedRoundTrip(fold, Replacement(fold, rw, g.content));
    }
  }

  lemma HitIs(fold: Folding, rw: Rewrites, g: Segment)
    requires Hit(fold, rw, g)
    ensures g.Literal? && Rebound(fold, rw, g.content)
  {
  }

  /** Without a hit the text is unchanged. */
  lemma RewriteKeeps(fold: Folding, rw: Rewrites, t: string)
    requires forall k :: 0 <= k < |Segments(t)| ==> !Hit(fold, rw, Segments(t)[k])
    ensures Rewrite(fold, rw, t) == t
  {
    hide Hit, Segments, Joined;
    assert AllRewritten(fold, rw, Segments(t)) == Segments(t);
    SegmentsJoin(t);
  }

  lemma {:induction false} NoLiterals(t: string)
    requires '\'' !in t
    ensures forall k :: 0 <= k < |Segments(t)| ==> Segments(t)[k].Copied?
    decreases |t|
  {
    if t != "" {
      SegmentsFirst(t);
      assert Front(t).0.Copied?;
      hide Front;
      NoLiterals(t[Front(t).1..]);
    }
  }

  // --- the loop ------------------------------------------------------------------------------------------

  /** RewriteSequenceRefs. */
  method RewriteSequenceRefs(fold: Folding, ddl: string, rw: Rewrites) returns (out: string)
    ensures out == Rewrite(fold, rw, ddl)
  {
    hide Rewrite, Segments, Front, SegmentText, Rewritten, Joined, AllRewritten;
    if |rw| == 0 || '\'' !in ddl {
      NothingToRewrite(fold, rw, ddl);
      return ddl;
    }
    out := "";
    var i := 0;
    WholeAhead(ddl, Rewrite(fold, rw, ddl));
    while i < |ddl|
      invariant 0 <= i <= |ddl| && Rewrite(fold, rw, ddl) == out + Rewrite(fold, rw, ddl[i..])
    {
      ghost var before, t := out, ddl[i..];
      RewriteFirst(fold, rw, t);
      var text, n := RewriteFront(fold, ddl, i, rw);
      AppendOne(Rewrite(fold, rw, ddl), before, text, Rewrite(fold, rw, t[n..]));
      TailOf(ddl, i, n);
      out := out + text;
      i := i + n;
    }
    RewriteNothing(fold, rw);
    NothingAhead(ddl, out);
  }

  lemma WholeAhead(t: string, u: string)
    ensures t[0..] == t && "" + u == u
  {
  }

  lemma TailOf(t: string, i: nat, n: nat)
    requires i + n <= |t|
    ensures t[i..][n..] == t[i + n..]
  {
  }

  lemma NothingAhead(t: string, u: string)
    ensures t[|t|..] == "" && u + "" == u
  {
  }

  lemma AppendOne(all: string, a: string, b: string, c: string)
    requires all == a + (b + c)
    ensures all == a + b + c
  {
  }

  lemma NothingToRewrite(fold: Folding, rw: Rewrites, t: string)
    requires |rw| == 0 || '\'' !in t
    ensures Rewrite(fold, rw, t) == t
  {
    hide Segments, Rewrite, Parsed;
    if '\'' !in t {
      NoLiterals(t);
    }
    RewriteKeeps(fold, rw, t);
  }

  /** The switch of the loop, at i: what it writes, and how far it moves. */
  method RewriteFront(fold: Folding, ddl: string, i: nat, rw: Rewrites) returns (text: string, n: nat)
    requires i < |ddl|
    ensures n == Front(ddl[i..]).1 && text == SegmentText(Rewritten(fold, rw, Front(ddl[i..]).0))
  {
    hide Rewritten, Inside, Cast, SegmentText;
    ghost var t := ddl[i..];
    FrontText(t);
    assert t[0] == ddl[i] && t[1..] == ddl[i + 1..];
    if ddl[i] == '"' {
      var j := SkipStringLiteral(ddl, i, false);
      SkipShift(ddl, i, 1, '"');
      n := j - i;
      text := ddl[i..j];
      assert t[..n] == text;
      CopiedStays(fold, rw, text);
    } else if ddl[i] == '\'' {
      var lit := ScanQuoted(ddl, i);
      if lit == None {
        CopiedStays(fold, rw, t);
        return ddl[i..], |ddl| - i;
      }
      var content, end := lit.value.content, lit.value.end;
      n := end - i;
      assert t[n..] == ddl[end..];
      var cast := Cast(ddl[end..]);
      ghost var g := Front(t).0;
      assert g == Literal(content, cast);
      if cast == "regclass" || cast == "text" {
        var name := ParseQualifiedIdent(fold, content);
        if name.Some? && Key(name.value) in rw {
          var to := Cut(rw[Key(name.value)]);
          text := "'" + Doubled(Printed(to), '\'') + "'";
          HitText(fold, rw, g);
          return text, n;
        }
      }
      MissText(fold, rw, g);
      text := ddl[i..end];
      assert t[..n] == text;
    } else {
      CopiedStays(fold, rw, [ddl[i]]);
      text, n := [ddl[i]], 1;
      assert t[..1] == text;
    }
  }

  lemma HitText(fold: Folding, rw: Rewrites, g: Segment)
    requires Hit(fold, rw, g)
    ensures SegmentText(Rewritten(fold, rw, g)) == "'" + Doubled(Printed(Replacement(fold, rw, g.content)), '\'') + "'"
  {
    hide Hit, Doubled, Printed;
    HitIs(fold, rw, g);
  }

  lemma MissText(fold: Folding, rw: Rewrites, g: Segment)
    requires !Hit(fold, rw, g)
    ensures Rewritten(fold, rw, g) == g
  {
  }

  lemma {:induction false} SkipShift(s: string, i: nat, j: nat, q: char)
    requires i <= |s|
    ensures SkipString(s, i + j, q, false) == i + SkipString(s[i..], j, q, false)
    decreases |s| - i - j
  {
    if i + j < |s| {
      assert s[i + j] == s[i..][j] && (i + j + 1 < |s| ==> s[i + j + 1] == s[i..][j + 1]);
      if s[i + j] == q && i + j + 1 < |s| && s[i + j + 1] == q {
        SkipShift(s, i, j + 2, q);
      } else if s[i + j] != q {
        SkipShift(s, i, j + 1, q);
      }
    }
  }

  // --- rewriting twice -----------------------------------------------------------------------------------

  /** A replacement that is a key is its own replacement.  (A name with an empty part is never looked up.) */
  predicate Last(rw: Rewrites, n: Name) {
    n.schema == "" || n.name == "" || Key(n) !in rw || Cut(rw[Key(n)]) == n
  }

  /** No replacement that a name can lead to is replaced in turn. */
  ghost predicate Settled(rw: Rewrites) {
    forall n: Name :: n.schema != "" && n.name != "" && Key(n) in rw ==> Last(rw, Cut(rw[Key(n)]))
  }

  lemma RewrittenTwice(fold: Folding, rw: Rewrites, g: Segment)
    requires Settled(rw)
    ensures Rewritten(fold, rw, Rewritten(fold, rw, g)) == Rewritten(fold, rw, g)
  {
    hide Parsed, Printed, Key, Cut;
    if Hit(fold, rw, g) {
      ParsedFilled(fold, g.content);
      var m := Replacement(fold, rw, g.content);
      assert Last(rw, m);
      PrintedRoundTrip(fold, m);
    }
  }

  lemma Idempotent(fold: Folding, rw: Rewrites, t: string)
    requires Settled(rw)
    ensures Rewrite(fold, rw, Rewrite(fold, rw, t)) == Rewrite(fold, rw, t)
  {
    hide Settled, Rewritten, Segments, Joined;
    RewriteRescans(fold, rw, t);
    var gs := Segments(t);
    forall k | 0 <= k < |gs| ensures AllRewritten(fold, rw, AllRewritten(fold, rw, gs))[k] == AllRewritten(fold, rw, gs)[k] {
      RewrittenTwice(fold, rw, gs[k]);
    }
    assert AllRewritten(fold, rw, AllRewritten(fold, rw, gs)) == AllRewritten(fold, rw, gs);
  }

  /** DDL with one reference to a name. */
  function Sample(n: Name): string {
    Quoted(Printed(n), '\'') + "::text"
  }

  lemma TextCast()
    ensures Cast("::text") == "text"
  {
    var t := "::text"[2..];
    assert t == "text" && SkipSpaces(t) == t && SkipSpaces("::text") == "::text";
    assert IdentAt("t") == "t" by { assert IdentAt("") == ""; }
    assert IdentAt("xt") == "xt" by { assert "xt"[1..] == "t"; }
    assert IdentAt("ext") == "ext" by { assert "ext"[1..] == "xt"; }
    assert IdentAt("text") == "text" by { assert "text"[1..] == "ext"; }
    assert AsciiLower("text") == "text";
  }

  lemma SampleFront(n: Name)
    ensures Sample(n) != "" && Front(Sample(n)).0 == Literal(Printed(n), "text")
  {
    hide Cast, Printed, Front, Doubled;
    TextCast();
    QuotedFront(Literal(Printed(n), "text"), "::text");
  }

  lemma PrintedDiffer(fold: Folding, a: Name, b: Name)
    requires a.schema != "" && a.name != "" && a != b
    ensures Printed(a) != Printed(b)
  {
    hide Printed, Parsed;
    PrintedRoundTrip(fold, a);
    PrintedRoundTrip(fold, b);
  }

  /** A chain of replacements shows. */
  lemma ChainShows(fold: Folding, rw: Rewrites, n: Name)
    requires n.schema != "" && n.name != "" && Key(n) in rw && !Last(rw, Cut(rw[Key(n)]))
    ensures var r := Rewrite(fold, rw, Sample(n)); Rewrite(fold, rw, r) != r
  {
    hide Printed, Parsed, Key, Cut, Segments, Rewrite, Front, Sample;
    var m := Cut(rw[Key(n)]);
    PrintedRoundTrip(fold, n);
    PrintedRoundTrip(fold, m);
    PrintedDiffer(fold, m, Cut(rw[Key(m)]));
    var t := Sample(n);
    var r := Rewrite(fold, rw, t);
    SampleFront(n);
    SegmentsFirst(t);
    RewriteRescans(fold, rw, t);
    RewriteRescans(fold, rw, r);
    assert Segments(t)[0] == Literal(Printed(n), "text");
    assert Segments(r)[0] == Literal(Printed(m), "text");
    assert Segments(Rewrite(fold, rw, r))[0] == Literal(Printed(Cut(rw[Key(m)])), "text");
  }

  /** Rewriting again changes nothing, whatever the text, exactly when no replacement is itself a key. */
  lemma IdempotentIff(fold: Folding, rw: Rewrites)
    ensures (forall t :: Rewrite(fold, rw, Rewrite(fold, rw, t)) == Rewrite(fold, rw, t)) <==> Settled(rw)
  {
    hide Rewrite, Cut, Key, Last;
    if Settled(rw) {
      forall t ensures Rewrite(fold, rw, Rewrite(fold, rw, t)) == Rewrite(fold, rw, t) {
        Idempotent(fold, rw, t);
      }
    } else {
      var n: Name :| n.schema != "" && n.name != "" && Key(n) in rw && !Last(rw, Cut(rw[Key(n)]));
      ChainShows(fold, rw, n);
    }
  }
}
