/** Quoted SQL values and the casts that follow them. */
module SqlLiterals {
  import opened Wrappers
  import opened Text
  import opened Lexer
  import opened Quoting

  // --- literals ------------------------------------------------------------------------------------------

  datatype Delimited = Delimited(content: string, used: nat)

  /** The rest of a value quoted by q, from inside it: what it holds, and how much of t it takes. */
  function Inside(t: string, q: char): (r: Option<Delimited>)
    ensures r.Some? ==> 1 <= r.value.used <= |t|
  {
    if t == "" then None
    else if t[0] == q && (|t| == 1 || t[1] != q) then Some(Delimited("", 1))
    else
      var n := if t[0] == q then 2 else 1;
      match Inside(t[n..], q)
      case None => None
      case Some(d) => Some(Delimited([t[0]] + d.content, n + d.used))
  }

  /** One step of the reading, at j. */
  lemma InsideMoves(s: string, j: nat, q: char)
    requires j < |s|
    ensures s[j] != q ==> Inside(s[j..], q) == Onto([s[j]], 1, Inside(s[j + 1..], q))
    ensures s[j] == q && j + 1 < |s| && s[j + 1] == q ==> Inside(s[j..], q) == Onto([q], 2, Inside(s[j + 2..], q))
    ensures s[j] == q && (j + 1 == |s| || s[j + 1] != q) ==> Inside(s[j..], q) == Some(Delimited("", 1))
  {
    var t := s[j..];
    assert t[1..] == s[j + 1..];
    if j + 1 < |s| {
      assert t[2..] == s[j + 2..];
    }
  }

  /** t starts with the quoted form of x, without its opening quote, and no quote follows that. */
  predicate Closes(t: string, x: string, q: char) {
    var n := |Doubled(x, q)|;
    n < |t| && t[..n] == Doubled(x, q) && t[n] == q && (n + 1 < |t| ==> t[n + 1] != q)
  }

  /** The first character of x takes n characters of t, and the rest of t closes the rest of x. */
  predicate Starts(t: string, c: char, q: char) {
    if c == q then |t| >= 2 && t[0] == q && t[1] == q else t != "" && t[0] == c
  }

  lemma ClosesCons(t: string, x: string, q: char)
    requires x != ""
    ensures Closes(t, x, q) <==> Starts(t, x[0], q) && Closes(t[if x[0] == q then 2 else 1..], x[1..], q)
  {
    var head, more := if x[0] == q then [q, q] else [x[0]], Doubled(x[1..], q);
    var n, m := |head|, |head| + |more|;
    assert Doubled(x, q) == head + more;
    hide Doubled;
    if m < |t| {
      assert t[..m] == t[..n] + t[n..][..|more|];
      assert t[..n] == head <==> Starts(t, x[0], q);
    }
  }

  /** Reading is the inverse of quoting ... */
  lemma {:induction false} InsideBack(t: string, x: string, q: char)
    requires Closes(t, x, q)
    ensures Inside(t, q) == Some(Delimited(x, |Doubled(x, q)| + 1))
    decreases |x|
  {
    if x == "" {
      ClosesNothing(t, q);
    } else {
      var n := if x[0] == q then 2 else 1;
      assert t[0..] == t;
      ClosesCons(t, x, q);
      InsideBack(t[n..], x[1..], q);
      InsideMoves(t, 0, q);
      hide Inside, Closes, Onto;
      DoubledLength(x, q);
      OntoFirst(x, n, |Doubled(x[1..], q)| + 1);
    }
  }

  lemma DoubledLength(x: string, q: char)
    requires x != ""
    ensures |Doubled(x, q)| == (if x[0] == q then 2 else 1) + |Doubled(x[1..], q)|
  {
  }

  lemma OntoFirst(x: string, n: nat, m: nat)
    requires x != ""
    ensures Onto([x[0]], n, Some(Delimited(x[1..], m))) == Some(Delimited(x, n + m))
  {
    assert [x[0]] + x[1..] == x;
  }

  /** A quoted value in front of other text. */
  lemma QuotedBack(x: string, q: char, r: string)
    requires r == "" || r[0] != q
    ensures var t := Quoted(x, q) + r;
            t[0] == q && Inside(t[1..], q) == Some(Delimited(x, |Quoted(x, q)| - 1)) && t[|Quoted(x, q)|..] == r
  {
    hide Inside;
    var t := Quoted(x, q) + r;
    QuotedCloses(x, q, r);
    InsideBack(t[1..], x, q);
  }

  lemma QuotedCloses(x: string, q: char, r: string)
    requires r == "" || r[0] != q
    ensures Closes((Quoted(x, q) + r)[1..], x, q)
  {
    hide Doubled;
    var d := Doubled(x, q);
    var u := d + ([q] + r);
    assert (Quoted(x, q) + r)[1..] == u;
    assert u[..|d|] == d && u[|d|] == q && (|d| + 1 < |u| ==> u[|d| + 1] == r[0]);
  }

  /** ... and the other way: what was read is the quoted form of what it holds, and no quote follows it. */
  lemma {:induction false} InsideOnly(t: string, q: char)
    requires Inside(t, q).Some?
    ensures var d := Inside(t, q).value; Closes(t, d.content, q) && d.used == |Doubled(d.content, q)| + 1
    decreases |t|
  {
    assert t[0..] == t;
    NothingInside(q);
    hide Closes;
    if t[0] == q && (|t| == 1 || t[1] != q) {
      ClosesNothing(t, q);
    } else {
      InsideMoves(t, 0, q);
      var n := if t[0] == q then 2 else 1;
      hide Inside;
      InsideOnly(t[n..], q);
      var d, e := Inside(t, q).value, Inside(t[n..], q).value;
      assert d.content[0] == t[0] && d.content[1..] == e.content;
      ClosesCons(t, d.content, q);
    }
  }

  lemma ClosesNothing(t: string, q: char)
    ensures Closes(t, "", q) <==> t != "" && t[0] == q && (|t| == 1 || t[1] != q)
    ensures Closes(t, "", q) ==> Inside(t, q) == Some(Delimited("", 1)) && |Doubled("", q)| == 0
  {
  }

  datatype ScanResult = ScanResult(content: string, end: nat)

  /** scanSQLLiteral, for the value whose opening quote is at i. */
  method ScanQuoted(s: string, i: nat) returns (r: Option<ScanResult>)
    requires i < |s|
    ensures r == match Inside(s[i + 1..], s[i])
                 case None => None
                 case Some(d) => Some(ScanResult(d.content, i + 1 + d.used))
  {
    var q := s[i];
    var c: string, j := "", i + 1;
    hide Reading;
    ReadFrom(s, i, q);
    while j < |s|
      invariant i < j <= |s| && Reading(s, i, c, j, q)
    {
      ReadOn(s, i, c, j, q);
      if s[j] == q {
        if j + 1 < |s| && s[j + 1] == q {
          c, j := c + [s[j]], j + 2;
          continue;
        }
        return Some(ScanResult(c, j + 1));
      }
      c, j := c + [s[j]], j + 1;
    }
    ReadOut(s, i, c, q);
    r := None;
  }

  /** What the loop has read of the value whose opening quote is at i. */
  ghost predicate Reading(s: string, i: nat, c: string, j: nat, q: char) {
    i < j <= |s| && Inside(s[i + 1..], q) == Onto(c, j - i - 1, Inside(s[j..], q))
  }

  lemma ReadFrom(s: string, i: nat, q: char)
    requires i < |s|
    ensures Reading(s, i, "", i + 1, q)
  {
    OntoNothing(Inside(s[i + 1..], q));
  }

  lemma ReadOn(s: string, i: nat, c: string, j: nat, q: char)
    requires Reading(s, i, c, j, q) && j < |s|
    ensures s[j] != q ==> Reading(s, i, c + [s[j]], j + 1, q)
    ensures s[j] == q && j + 1 < |s| && s[j + 1] == q ==> Reading(s, i, c + [q], j + 2, q)
    ensures s[j] == q && (j + 1 == |s| || s[j + 1] != q) ==> Inside(s[i + 1..], q) == Some(Delimited(c, j - i))
  {
    InsideMoves(s, j, q);
    hide Inside, Onto;
    if s[j] != q {
      OntoOnto(c, [s[j]], j - i - 1, 1, Inside(s[j + 1..], q));
    } else if j + 1 < |s| && s[j + 1] == q {
      OntoOnto(c, [q], j - i - 1, 2, Inside(s[j + 2..], q));
    } else {
      OntoLast(c, j - i - 1);
    }
  }

  lemma ReadOut(s: string, i: nat, c: string, q: char)
    requires Reading(s, i, c, |s|, q)
    ensures Inside(s[i + 1..], q) == None
  {
    NothingInside(q);
    OntoNone(c, |s| - i - 1);
  }

  function Onto(c: string, n: nat, r: Option<Delimited>): Option<Delimited> {
    match r
    case None => None
    case Some(d) => Some(Delimited(c + d.content, n + d.used))
  }

  lemma OntoNothing(r: Option<Delimited>)
    ensures Onto("", 0, r) == r
  {
    if r.Some? {
      assert "" + r.value.content == r.value.content;
    }
  }

  lemma OntoNone(c: string, n: nat)
    ensures Onto(c, n, None) == None
  {
  }

  lemma OntoLast(c: string, n: nat)
    ensures Onto(c, n, Some(Delimited("", 1))) == Some(Delimited(c, n + 1))
  {
    assert c + "" == c;
  }

  lemma NothingInside(q: char)
    ensures Inside("", q) == None
  {
  }

  lemma OntoOnto(c: string, e: string, n: nat, m: nat, r: Option<Delimited>)
    ensures Onto(c, n, Onto(e, m, r)) == Onto(c + e, n + m, r)
  {
    if r.Some? {
      assert c + (e + r.value.content) == c + e + r.value.content;
    }
  }

  // --- casts ---------------------------------------------------------------------------------------------

  predicate SqlSpace(c: char) {
    c == ' ' || c == '\t' || c == '\n' || c == '\r'
  }

  predicate IdentChar(c: char) {
    AsciiWord(c) || !Ascii(c) || c == '$'
  }

  /** skipSQLSpaces, as what is left. */
  function SkipSpaces(t: string): (r: string)
    ensures |r| <= |t| && (r != "" ==> !SqlSpace(r[0]))
  {
    if t != "" && SqlSpace(t[0]) then SkipSpaces(t[1..]) else t
  }

  function IdentAt(t: string): (w: string)
    ensures |w| <= |t| && w == t[..|w|]
    ensures forall k :: 0 <= k < |w| ==> IdentChar(w[k])
  {
    if t != "" && IdentChar(t[0]) then [t[0]] + IdentAt(t[1..]) else ""
  }

  function LowerChar(c: char): char {
    if 'A' <= c <= 'Z' then (c as int + 32) as char else c
  }

  function AsciiLower(w: string): (l: string)
    ensures |l| == |w| && forall k :: 0 <= k < |w| ==> l[k] == LowerChar(w[k])
  {
    seq(|w|, i requires 0 <= i < |w| => LowerChar(w[i]))
  }

  function TypeName(v: string): string {
    var w := IdentAt(v);
    if AsciiLower(w) == "pg_catalog" && |w| < |v| && v[|w|] == '.' then AsciiLower(IdentAt(v[|w| + 1..])) else AsciiLower(w)
  }

  /** literalCastType. */
  function Cast(t: string): string {
    var u := SkipSpaces(t);
    if |u| < 2 || u[0] != ':' || u[1] != ':' then ""
    else TypeName(SkipSpaces(u[2..]))
  }

  predicate Quote(c: char) {
    c == '\'' || c == '"'
  }

  predicate NoQuotes(w: string) {
    forall k :: 0 <= k < |w| ==> !Quote(w[k])
  }

  /** Nothing from a quote on has a say in the cast. */
  lemma CastStops(w: string, r: string)
    requires NoQuotes(w) && (r == "" || Quote(r[0]))
    ensures Cast(w + r) == Cast(w)
  {
    SpacesStop(w, r);
    var u := SkipSpaces(w);
    if |u| >= 2 && u[0] == ':' && u[1] == ':' {
      assert (u + r)[2..] == u[2..] + r;
      SpacesStop(u[2..], r);
      hide SkipSpaces, AsciiLower;
      TypeStops(SkipSpaces(u[2..]), r);
    }
  }

  lemma TypeStops(v: string, r: string)
    requires NoQuotes(v) && (r == "" || Quote(r[0]))
    ensures TypeName(v + r) == TypeName(v)
  {
    IdentStops(v, r);
    hide AsciiLower;
    var x := IdentAt(v);
    if |x| < |v| {
      assert (v + r)[|x| + 1..] == v[|x| + 1..] + r;
      IdentStops(v[|x| + 1..], r);
    }
  }

  lemma {:induction false} SpacesStop(w: string, r: string)
    requires NoQuotes(w) && (r == "" || Quote(r[0]))
    ensures SkipSpaces(w + r) == SkipSpaces(w) + r && NoQuotes(SkipSpaces(w))
  {
    if w == "" {
      assert w + r == r && SkipSpaces(r) == r;
    } else {
      SpacesStop(w[1..], r);
      assert (w + r)[1..] == w[1..] + r;
    }
  }

  lemma {:induction false} IdentStops(w: string, r: string)
    requires NoQuotes(w) && (r == "" || Quote(r[0]))
    ensures IdentAt(w + r) == IdentAt(w)
  {
    if w == "" {
      assert w + r == r;
    } else {
      assert (w + r)[1..] == w[1..] + r && (w + r)[0] == w[0];
      IdentStops(w[1..], r);
    }
  }
}
