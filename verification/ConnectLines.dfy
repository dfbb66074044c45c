/** psql-style \connect lines. */
module ConnectLines {
  import opened Wrappers
  import opened Text
  import opened Lexer
  import opened Quoting
  import opened SqlLiterals

  /** What turning text beyond ASCII into runes and back makes of it; nothing about it is assumed. */
  type Decoding = string -> string

  function Runes(dec: Decoding, t: string): string {
    if AllAscii(t) then t else dec(t)
  }

  // --- the target ----------------------------------------------------------------------------------------

  function OntoName(name: string, r: Option<string>): Option<string> {
    match r
    case None => None
    case Some(more) => Some(name + more)
  }

  /** The first argument of a \connect line, as psql splits it; None if a quote is not closed. */
  function Target(t: string): Option<string> {
    if t == "" || t[0] == ' ' || t[0] == '\t' || t[0] == '\r' then Some("")
    else if t[0] == '"' then
      match Inside(t[1..], '"')
      case None => None
      case Some(d) => OntoName(d.content, Target(t[1 + d.used..]))
    else OntoName([t[0]], Target(t[1..]))
  }

  /** parseConnectTarget. */
  method ParseConnectTarget(rest: string) returns (r: Option<string>)
    ensures r == Target(rest)
  {
    hide Target, OntoName, Inside;
    var name, i := "", 0;
    assert rest[0..] == rest;
    OntoEmpty(Target(rest));
    while i < |rest|
      invariant 0 <= i <= |rest| && Target(rest) == OntoName(name, Target(rest[i..]))
    {
      TargetStep(rest[i..]);
      if rest[i] == ' ' || rest[i] == '\t' || rest[i] == '\r' {
        OntoEnd(name);
        return Some(name);
      }
      if rest[i] == '"' {
        var d := ScanQuoted(rest, i);
        assert rest[i..][1..] == rest[i + 1..];
        if d == None {
          OntoEnd(name);
          return None;
        }
        assert rest[i..][d.value.end - i..] == rest[d.value.end..];
        OntoTwice(name, d.value.content, Target(rest[d.value.end..]));
        name, i := name + d.value.content, d.value.end;
      } else {
        assert rest[i..][1..] == rest[i + 1..];
        OntoTwice(name, [rest[i]], Target(rest[i + 1..]));
        name, i := name + [rest[i]], i + 1;
      }
    }
    assert rest[i..] == "";
    TargetStep("");
    OntoEnd(name);
    r := Some(name);
  }

  lemma TargetStep(t: string)
    ensures t == "" || t[0] == ' ' || t[0] == '\t' || t[0] == '\r' ==> Target(t) == Some("")
    ensures t != "" && t[0] == '"' ==> match Inside(t[1..], '"')
                                       case None => Target(t) == None
                                       case Some(d) => Target(t) == OntoName(d.content, Target(t[1 + d.used..]))
    ensures t != "" && t[0] !in {' ', '\t', '\r', '"'} ==> Target(t) == OntoName([t[0]], Target(t[1..]))
  {
    hide OntoName, Inside;
  }

  lemma OntoEmpty(r: Option<string>)
    ensures OntoName("", r) == r
  {
    if r.Some? {
      assert "" + r.value == r.value;
    }
  }

  lemma OntoEnd(name: string)
    ensures OntoName(name, Some("")) == Some(name) && OntoName(name, None) == None
  {
    assert name + "" == name;
  }

  lemma OntoTwice(a: string, b: string, r: Option<string>)
    ensures OntoName(a, OntoName(b, r)) == OntoName(a + b, r)
  {
    if r.Some? {
      assert a + (b + r.value) == a + b + r.value;
    }
  }

  // --- the line ------------------------------------------------------------------------------------------

  const CONNECT: string := "\\connect"

  /** What follows the command word, or something that begins like it. */
  function CommandRest(s: string): Option<string> {
    if HasPrefixAt(s, 0, CONNECT) then Some(s[|CONNECT|..]) else if HasPrefixAt(s, 0, "\\c") then Some(s[2..]) else None
  }

  datatype Connect = NotConnect | Unterminated | To(db: string)

  /** ParseConnectLine. */
  function ParseConnectLine(dec: Decoding, line: string): Connect {
    match CommandRest(TrimSpace(line))
    case None => NotConnect
    case Some(rest) =>
      if rest == "" || (rest[0] != ' ' && rest[0] != '\t') || TrimSpace(rest) == "" then NotConnect
      else
        match Target(Runes(dec, TrimSpace(rest)))
        case None => Unterminated
        case Some(name) => if name == "" then NotConnect else To(name)
  }

  /** WriteDatabaseSectionHeader's line. */
  function ConnectText(db: string): string {
    CONNECT + (" " + Quoted(db, '"'))
  }

  /** The name survives being turned into runes: it is valid in its encoding. */
  predicate WellEncoded(dec: Decoding, db: string) {
    Runes(dec, Quoted(db, '"')) == Quoted(db, '"')
  }

  lemma TrimOnlyEnds(s: string)
    requires s != "" && !IsSpace(s[0]) && !IsSpace(s[|s| - 1])
    ensures TrimSpace(s) == s && TrimSpace(" " + s) == s
  {
    assert (" " + s)[1..] == s;
  }

  lemma TargetBack(db: string)
    ensures Target(Quoted(db, '"')) == Some(db)
  {
    hide Inside, Doubled, Target;
    var t := Quoted(db, '"');
    QuotedBack(db, '"', "");
    assert t + "" == t;
    TargetStep(t);
    TargetStep("");
    OntoEnd(db);
  }

  lemma ConnectRest(q: string)
    ensures CommandRest(CONNECT + (" " + q)) == Some(" " + q)
  {
    var s := CONNECT + (" " + q);
    assert s[0..0 + |CONNECT|] == CONNECT;
    assert s[|CONNECT|..] == " " + q;
  }

  /** A printed line names its database again -- any name but the empty one, which is no name to psql. */
  lemma ConnectRoundTrip(dec: Decoding, db: string)
    requires WellEncoded(dec, db)
    ensures ParseConnectLine(dec, ConnectText(db)) == if db == "" then NotConnect else To(db)
  {
    hide Target, CommandRest, TrimSpace, Runes, Doubled;
    var q := Quoted(db, '"');
    QuotedEnds(db);
    ConnectEnds(q);
    hide Quoted;
    TrimOnlyEnds(q);
    TrimOnlyEnds(CONNECT + (" " + q));
    ConnectRest(q);
    TargetBack(db);
  }

  lemma ConnectEnds(q: string)
    requires q != "" && q[|q| - 1] == '"'
    ensures var t := CONNECT + (" " + q); t != "" && t[0] == '\\' && t[|t| - 1] == '"' && (" " + q) != "" && (" " + q)[0] == ' '
  {
  }

  lemma QuotedEnds(x: string)
    ensures Quoted(x, '"') != "" && Quoted(x, '"')[0] == '"' && Quoted(x, '"')[|Quoted(x, '"')| - 1] == '"'
  {
  }
}
