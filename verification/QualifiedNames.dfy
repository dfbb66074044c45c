/** Schema-qualified names, as PostgreSQL prints and reads them. */
module QualifiedNames {
  import opened Wrappers
  import opened Text
  import opened Lexer
  import opened Quoting
  import opened SqlLiterals

  /** What ToLower of TrimSpace gives for text beyond ASCII; nothing about it is assumed. */
  type Folding = string -> string

  function Folded(fold: Folding, w: string): string {
    if AllAscii(w) then AsciiLower(TrimSpace(w)) else fold(w)
  }

  // --- reading -------------------------------------------------------------------------------------------

  function UntilDot(t: string): (w: string)
    ensures |w| <= |t|
  {
    if t != "" && t[0] != '.' then [t[0]] + UntilDot(t[1..]) else ""
  }

  datatype Part = Part(text: string, rest: string)

  /** One identifier, at the front of t, and what follows it. */
  function NextPart(fold: Folding, t: string): (r: Option<Part>)
    ensures r.Some? ==> r.value.text != "" && |r.value.rest| <= |t|
  {
    if t != "" && t[0] == '"' then
      match Inside(t[1..], '"')
      case None => None
      case Some(d) => if d.content == "" then None else Some(Part(d.content, t[1 + d.used..]))
    else
      var w := UntilDot(t);
      if '"' in w || Folded(fold, w) == "" then None else Some(Part(Folded(fold, w), t[|w|..]))
  }

  /** The dot-separated identifiers that t consists of. */
  function Parts(fold: Folding, t: string): Option<seq<string>>
    decreases |t|
  {
    match NextPart(fold, SkipSpaces(t))
    case None => None
    case Some(p) =>
      var r := SkipSpaces(p.rest);
      if r == "" then Some([p.text])
      else if r[0] != '.' then None
      else
        match Parts(fold, r[1..])
        case None => None
        case Some(ps) => Some([p.text] + ps)
  }

  datatype Name = Name(schema: string, name: string)

  function Parsed(fold: Folding, t: string): Option<Name> {
    match Parts(fold, t)
    case None => None
    case Some(ps) => if |ps| == 2 then Some(Name(ps[0], ps[1])) else None
  }

  /** No part of a name that was read is empty. */
  lemma {:induction false} PartsFilled(fold: Folding, t: string)
    ensures Parts(fold, t).Some? ==> "" !in Parts(fold, t).value
    decreases |t|
  {
    hide NextPart, SkipSpaces;
    if NextPart(fold, SkipSpaces(t)).Some? {
      var r := SkipSpaces(NextPart(fold, SkipSpaces(t)).value.rest);
      if r != "" && r[0] == '.' {
        PartsFilled(fold, r[1..]);
      }
    }
  }

  lemma ParsedFilled(fold: Folding, t: string)
    requires Parsed(fold, t).Some?
    ensures Parsed(fold, t).value.schema != "" && Parsed(fold, t).value.name != ""
  {
    PartsFilled(fold, t);
    hide Parts;
    var ps := Parts(fold, t).value;
    assert ps[0] in ps && ps[1] in ps;
  }

  function SpacesEnd(s: string, i: nat): (e: nat)
    requires i <= |s|
    ensures i <= e <= |s| && s[e..] == SkipSpaces(s[i..])
    decreases |s| - i
  {
    if i < |s| && SqlSpace(s[i]) then
      assert s[i..][1..] == s[i + 1..];
      SpacesEnd(s, i + 1)
    else i
  }

  function Prepend(ps: seq<string>, r: Option<seq<string>>): Option<seq<string>> {
    match r
    case None => None
    case Some(qs) => Some(ps + qs)
  }

  /** What the loop has read. */
  ghost predicate Reading(fold: Folding, s: string, parts: seq<string>, i: nat) {
    i <= |s| && Parts(fold, s) == Prepend(parts, Parts(fold, s[i..]))
  }

  lemma ReadFrom(fold: Folding, s: string)
    ensures Reading(fold, s, [], 0)
  {
    assert s[0..] == s;
    if Parts(fold, s).Some? {
      assert [] + Parts(fold, s).value == Parts(fold, s).value;
    }
  }

  /** One identifier more, which is p, up to j; the separator or the end is at k. */
  lemma ReadOn(fold: Folding, s: string, parts: seq<string>, i: nat, p: string, j: nat)
    requires i <= j <= |s|
    ensures Reading(fold, s, parts, i) && NextPart(fold, SkipSpaces(s[i..])) == Some(Part(p, s[j..])) ==>
              var k := SpacesEnd(s, j);
              && (k == |s| ==> Parts(fold, s) == Some(parts + [p]))
              && (k < |s| && s[k] != '.' ==> Parts(fold, s) == None)
              && (k < |s| && s[k] == '.' ==> Reading(fold, s, parts + [p], k + 1))
  {
    hide NextPart, Parts, SkipSpaces, SpacesEnd, Prepend, ReadAs;
    if Reading(fold, s, parts, i) && NextPart(fold, SkipSpaces(s[i..])) == Some(Part(p, s[j..])) {
      var k := SpacesEnd(s, j);
      PartsStep(fold, s[i..], p, s[j..]);
      Tail(s, k);
      var more := if k < |s| then Parts(fold, s[k + 1..]) else None;
      ReadWhole(parts, p, s[k..], Parts(fold, s[i..]), more);
    }
  }

  /** What the parts from one on are, given what follows the first of them. */
  predicate ReadAs(p: string, rest: string, whole: Option<seq<string>>, more: Option<seq<string>>) {
    whole == if rest == "" then Some([p]) else if rest[0] != '.' then None else Prepend([p], more)
  }

  lemma ReadWhole(parts: seq<string>, p: string, rest: string, whole: Option<seq<string>>, more: Option<seq<string>>)
    requires ReadAs(p, rest, whole, more)
    ensures rest == "" ==> Prepend(parts, whole) == Some(parts + [p])
    ensures rest != "" && rest[0] != '.' ==> Prepend(parts, whole) == None
    ensures rest != "" && rest[0] == '.' ==> Prepend(parts, whole) == Prepend(parts + [p], more)
  {
    PrependTwice(parts, p, more);
  }

  lemma Tail(s: string, k: nat)
    requires k <= |s|
    ensures |s[k..]| == |s| - k && (k < |s| ==> s[k..][0] == s[k] && s[k..][1..] == s[k + 1..])
  {
  }

  lemma PartsStep(fold: Folding, t: string, p: string, rest: string)
    requires NextPart(fold, SkipSpaces(t)) == Some(Part(p, rest))
    ensures var r := SkipSpaces(rest);
            ReadAs(p, r, Parts(fold, t), if r == "" then None else Parts(fold, r[1..]))
  {
    hide NextPart, SkipSpaces;
  }

  lemma PrependTwice(ps: seq<string>, p: string, r: Option<seq<string>>)
    ensures Prepend(ps, Prepend([p], r)) == Prepend(ps + [p], r)
  {
    if r.Some? {
      assert ps + ([p] + r.value) == ps + [p] + r.value;
    }
  }

  lemma ReadNone(fold: Folding, s: string, parts: seq<string>, i: nat)
    requires Reading(fold, s, parts, i) && NextPart(fold, SkipSpaces(s[i..])) == None
    ensures Parts(fold, s) == None
  {
  }

  /** The characters up to the next dot, unless one of them is a quote. */
  method ReadBare(s: string, i: nat) returns (w: Option<string>, j: nat)
    requires i <= |s|
    ensures w == if '"' in UntilDot(s[i..]) then None else Some(UntilDot(s[i..]))
    ensures w.Some? ==> i <= j <= |s| && j == i + |w.value|
  {
    hide BareRead;
    var v := "";
    j := i;
    BareFrom(s, i);
    while j < |s| && s[j] != '.'
      invariant i <= j <= |s| && BareRead(s, i, v, j) && '"' !in v
    {
      BareOn(s, i, v, j);
      if s[j] == '"' {
        return None, i;
      }
      v, j := v + [s[j]], j + 1;
    }
    BareTo(s, i, v, j);
    w := Some(v);
  }

  ghost predicate BareRead(s: string, i: nat, v: string, j: nat) {
    i <= j <= |s| && UntilDot(s[i..]) == v + UntilDot(s[j..]) && |v| == j - i
  }

  lemma BareFrom(s: string, i: nat)
    requires i <= |s|
    ensures BareRead(s, i, "", i)
  {
    assert "" + UntilDot(s[i..]) == UntilDot(s[i..]);
  }

  lemma BareOn(s: string, i: nat, v: string, j: nat)
    requires BareRead(s, i, v, j) && j < |s| && s[j] != '.'
    ensures BareRead(s, i, v + [s[j]], j + 1) && s[j] in UntilDot(s[i..])
  {
    assert s[j..][1..] == s[j + 1..];
    assert UntilDot(s[j..]) == [s[j]] + UntilDot(s[j + 1..]);
    hide UntilDot;
    assert v + ([s[j]] + UntilDot(s[j + 1..])) == v + [s[j]] + UntilDot(s[j + 1..]);
    assert UntilDot(s[i..])[j - i] == s[j];
  }

  lemma BareTo(s: string, i: nat, v: string, j: nat)
    requires BareRead(s, i, v, j) && (j == |s| || s[j] == '.')
    ensures UntilDot(s[i..]) == v && |v| == j - i
  {
    assert UntilDot(s[j..]) == "";
    assert v + "" == v;
  }

  /** One part, from i on, where spaces have been skipped. */
  method ReadPart(fold: Folding, s: string, i: nat) returns (r: Option<Part>, j: nat)
    requires i <= |s|
    ensures r == NextPart(fold, s[i..]) && (r.Some? ==> i <= j <= |s| && r.value.rest == s[j..])
  {
    hide Folded, Inside, UntilDot;
    Tail(s, i);
    if i < |s| && s[i] == '"' {
      var d := ScanQuoted(s, i);
      if d == None || d.value.content == "" {
        return None, i;
      }
      assert s[i..][d.value.end - i..] == s[d.value.end..];
      return Some(Part(d.value.content, s[d.value.end..])), d.value.end;
    }
    var w;
    w, j := ReadBare(s, i);
    if w == None {
      return None, i;
    }
    assert s[i..][|w.value|..] == s[j..];
    var folded := Folded(fold, w.value);
    r := if folded == "" then None else Some(Part(folded, s[j..]));
  }

  /** parseQualifiedIdent. */
  method ParseQualifiedIdent(fold: Folding, s: string) returns (r: Option<Name>)
    ensures r == Parsed(fold, s)
  {
    hide Reading, NextPart;
    var parts: seq<string>, i := [], 0;
    ReadFrom(fold, s);
    while true
      invariant i <= |s| && Reading(fold, s, parts, i)
      decreases |s| - i
    {
      var at := SpacesEnd(s, i);
      var p, j := ReadPart(fold, s, at);
      if p == None {
        ReadNone(fold, s, parts, i);
        return None;
      }
      ReadOn(fold, s, parts, i, p.value.text, j);
      parts := parts + [p.value.text];
      i := SpacesEnd(s, j);
      if i == |s| {
        break;
      }
      if s[i] != '.' {
        return None;
      }
      i := i + 1;
    }
    r := if |parts| == 2 then Some(Name(parts[0], parts[1])) else None;
  }

  // --- printing ------------------------------------------------------------------------------------------

  predicate SafePart(p: string) {
    p != "" && forall k :: 0 <= k < |p| ==> 'a' <= p[k] <= 'z' || p[k] == '_' || (k > 0 && (IsDigit(p[k]) || p[k] == '$'))
  }

  /** maybeQuoteIdentPart. */
  function PrintPart(p: string): (t: string)
    ensures t != "" && !SqlSpace(t[0])
  {
    if SafePart(p) then p else Quoted(p, '"')
  }

  /** renderQualifiedIdent. */
  function Printed(n: Name): string {
    PrintPart(n.schema) + "." + PrintPart(n.name)
  }

  /** A part that is printed bare is read back as it stands ... */
  lemma BarePartBack(fold: Folding, p: string, r: string)
    requires SafePart(p) && (r == "" || r[0] == '.')
    ensures NextPart(fold, p + r) == Some(Part(p, r))
  {
    hide Folded, UntilDot, Inside;
    BareIs(p, r);
    FoldedIs(fold, p);
    assert '"' !in p;
    assert (p + r)[0] == p[0] && (p + r)[|p|..] == r;
  }

  lemma FoldedIs(fold: Folding, p: string)
    requires SafePart(p)
    ensures Folded(fold, p) == p
  {
    assert AllAscii(p);
    NothingTrimmed(p);
    hide TrimSpace, AsciiLower;
    forall k | 0 <= k < |p| ensures LowerChar(p[k]) == p[k] {
    }
  }

  lemma NothingTrimmed(p: string)
    requires p != "" && !IsSpace(p[0]) && !IsSpace(p[|p| - 1])
    ensures TrimSpace(p) == p
  {
  }

  lemma {:induction false} BareIs(p: string, r: string)
    requires (forall k :: 0 <= k < |p| ==> p[k] != '.') && (r == "" || r[0] == '.')
    ensures UntilDot(p + r) == p
  {
    if p == "" {
      assert p + r == r;
    } else {
      assert (p + r)[0] == p[0] && (p + r)[1..] == p[1..] + r;
      BareIs(p[1..], r);
    }
  }

  /** ... and so is what a quoted part holds, unless that is nothing. */
  lemma QuotedPartBack(fold: Folding, p: string, r: string)
    requires r == "" || r[0] == '.'
    ensures NextPart(fold, Quoted(p, '"') + r) == if p == "" then None else Some(Part(p, r))
  {
    hide Inside, Doubled;
    QuotedBack(p, '"', r);
  }

  lemma PartBack(fold: Folding, p: string, r: string)
    requires r == "" || r[0] == '.'
    ensures NextPart(fold, SkipSpaces(PrintPart(p) + r)) == if p == "" then None else Some(Part(p, r))
  {
    hide NextPart, SafePart;
    assert SkipSpaces(PrintPart(p) + r) == PrintPart(p) + r;
    if SafePart(p) {
      assert p != "" by { SafeSome(p); }
      BarePartBack(fold, p, r);
    } else {
      QuotedPartBack(fold, p, r);
    }
  }

  lemma SafeSome(p: string)
    requires SafePart(p)
    ensures p != ""
  {
  }

  /** Reading what was printed gives the same name, for every schema and name that are not empty -- and for
      no others, since an empty part is refused. */
  lemma PrintedRoundTrip(fold: Folding, n: Name)
    ensures Parsed(fold, Printed(n)) == Some(n) <==> n.schema != "" && n.name != ""
    ensures Parsed(fold, Printed(n)) == None <==> n.schema == "" || n.name == ""
  {
    var a, b := PrintPart(n.schema), PrintPart(n.name);
    var t := a + ("." + b);
    assert Printed(n) == t;
    PartBack(fold, n.schema, "." + b);
    PartBack(fold, n.name, "");
    assert b + "" == b;
    hide NextPart, PrintPart, Printed;
    DotStays(b);
    if n.schema == "" || n.name == "" {
      PartsNone(fold, t);
      PartsNone(fold, b);
    }
    if n.schema != "" {
      PartsStep(fold, t, n.schema, "." + b);
      if n.name != "" {
        PartsStep(fold, b, n.name, "");
      }
    }
  }

  lemma DotStays(b: string)
    ensures SkipSpaces("." + b) == "." + b && ("." + b)[1..] == b && SkipSpaces("") == ""
  {
  }

  lemma PartsNone(fold: Folding, t: string)
    ensures NextPart(fold, SkipSpaces(t)) == None ==> Parts(fold, t) == None
  {
  }
}
