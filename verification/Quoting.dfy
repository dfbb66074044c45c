/** The ANSI quoters, and the scanner's view of what they produce. */
module Quoting {
  import opened Text
  import opened Lexer

  /** t stands in s from i on. */
  predicate At(s: string, i: nat, t: string) {
    i + |t| <= |s| && forall j {:trigger s[j]} :: i <= j < i + |t| ==> s[j] == t[j - i]
  }

  lemma AtSplit(s: string, i: nat, a: string, b: string)
    ensures At(s, i, a + b) <==> At(s, i, a) && At(s, i + |a|, b)
  {
    if At(s, i, a + b) {
      forall j | i + |a| <= j < i + |a| + |b| ensures s[j] == b[j - (i + |a|)] {
        assert (a + b)[j - i] == b[j - (i + |a|)];
      }
    }
  }

  /** strings.ReplaceAll of a quote by two. */
  function Doubled(x: string, q: char): string {
    if x == "" then "" else (if x[0] == q then [q, q] else [x[0]]) + Doubled(x[1..], q)
  }

  function Quoted(x: string, q: char): string {
    [q] + Doubled(x, q) + [q]
  }

  /** QuoteAnsiString. */
  function QuoteAnsiString(x: string): string {
    Quoted(x, '\'')
  }

  /** QuoteAnsiIdent. */
  function QuoteAnsiIdent(x: string): string {
    Quoted(x, '"')
  }

  /** The scanner leaves a quoted value exactly at its end, whatever the value holds -- unless another
      quote follows. */
  lemma {:induction false} SkipDoubled(s: string, j: nat, x: string, q: char)
    requires At(s, j, Doubled(x, q) + [q]) && (j + |Doubled(x, q)| + 1 < |s| ==> s[j + |Doubled(x, q)| + 1] != q)
    ensures SkipString(s, j, q, false) == j + |Doubled(x, q)| + 1
    decreases |x|
  {
    var t := Doubled(x, q) + [q];
    if x == "" {
      assert s[j] == t[0];
    } else {
      var head := if x[0] == q then [q, q] else [x[0]];
      assert t == head + (Doubled(x[1..], q) + [q]);
      AtSplit(s, j, head, Doubled(x[1..], q) + [q]);
      assert s[j] == head[0];
      SkipDoubled(s, j + |head|, x[1..], q);
      if x[0] == q {
        assert s[j + 1] == head[1];
      }
    }
  }

  lemma SkipQuoted(s: string, i: nat, x: string, q: char)
    requires At(s, i, Quoted(x, q)) && (i + |Quoted(x, q)| < |s| ==> s[i + |Quoted(x, q)|] != q)
    ensures i < |s| && s[i] == q && SkipString(s, i + 1, q, false) == i + |Quoted(x, q)|
  {
    assert Quoted(x, q) == [q] + (Doubled(x, q) + [q]);
    AtSplit(s, i, [q], Doubled(x, q) + [q]);
    assert s[i] == [q][0];
    SkipDoubled(s, i + 1, x, q);
  }
}
