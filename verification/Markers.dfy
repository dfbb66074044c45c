/** TableX's dump markers: exact comment lines, and the body-derived delimiter of an opaque frame. */
module Markers {
  import opened Wrappers
  import opened Text

  const MARKER_PREFIX: string := "-- tablex:v1 "
  const MAX_MARKER_HEX_FIELD: nat := 1024
  const MAX_FRAME_DELIM_BYTES: nat := 16

  datatype DumpMarker = DumpMarker(kind: string, name: string, collation: string)

  const COLLATION_KINDS: set<string> := {"routine", "trigger", "event"}

  /** strings.CutPrefix. */
  function CutPrefix(s: string, p: string): (r: Option<string>)
    ensures r.Some? ==> s == p + r.value
  {
    if HasPrefixAt(s, 0, p) then Some(s[|p|..]) else None
  }

  lemma CutBack(p: string, t: string)
    ensures CutPrefix(p + t, p) == Some(t)
  {
    assert (p + t)[0..0 + |p|] == p;
  }

  /** cutMarker. */
  function CutMarker(line: string, kind: string): Option<string> {
    var bare := if line != "" && line[|line| - 1] == '\r' then line[..|line| - 1] else line;
    match CutPrefix(bare, MARKER_PREFIX)
    case None => None
    case Some(rest) => CutPrefix(rest, kind + " ")
  }

  /** The marker of a line that does not end in a carriage return. */
  lemma CutMarkerBack(kind: string, rest: string)
    requires rest != "" && rest[|rest| - 1] != '\r'
    ensures CutMarker(MARKER_PREFIX + (kind + " " + rest), kind) == Some(rest)
  {
    var line := MARKER_PREFIX + (kind + " " + rest);
    assert line[|line| - 1] == rest[|rest| - 1];
    CutBack(MARKER_PREFIX, kind + " " + rest);
    CutBack(kind + " ", rest);
  }

  /** ... and nothing else has one. */
  lemma CutMarkerOnly(line: string, kind: string)
    requires CutMarker(line, kind).Some?
    ensures var m := MARKER_PREFIX + (kind + " " + CutMarker(line, kind).value); line == m || line == m + "\r"
  {
    hide CutPrefix;
    var bare := if line != "" && line[|line| - 1] == '\r' then line[..|line| - 1] else line;
    assert line == bare || line == bare + "\r";
    var rest := CutPrefix(bare, MARKER_PREFIX).value;
    assert bare == MARKER_PREFIX + rest && rest == kind + " " + CutMarker(line, kind).value;
  }

  // --- frames --------------------------------------------------------------------------------------------

  predicate FrameChar(c: char) {
    ' ' < c <= '~' && c != '\'' && c != '"' && c != '`' && c != '\\'
  }

  /** validFrameDelimiter. */
  predicate ValidFrameDelimiter(s: string) {
    1 <= |s| <= MAX_FRAME_DELIM_BYTES && forall i :: 0 <= i < |s| ==> FrameChar(s[i])
  }

  const FRAME_FIELD: string := "delimiter="

  function FormatFrameMarker(delim: string): string {
    MARKER_PREFIX + ("frame" + " " + (FRAME_FIELD + delim))
  }

  function ParseFrameMarker(line: string): Option<string> {
    match CutMarker(line, "frame")
    case None => None
    case Some(rest) =>
      match CutPrefix(rest, FRAME_FIELD)
      case None => None
      case Some(d) => if ValidFrameDelimiter(d) then Some(d) else None
  }

  lemma FrameMarkerRoundTrip(d: string)
    requires ValidFrameDelimiter(d)
    ensures ParseFrameMarker(FormatFrameMarker(d)) == Some(d)
  {
    var rest := FRAME_FIELD + d;
    assert rest[|rest| - 1] == d[|d| - 1];
    CutMarkerBack("frame", rest);
    CutBack(FRAME_FIELD, d);
  }

  /** Only a rendered frame marker, possibly with a carriage return after it, parses as one. */
  lemma FrameMarkerOnly(line: string)
    requires ParseFrameMarker(line).Some?
    ensures var d := ParseFrameMarker(line).value;
            ValidFrameDelimiter(d) && (line == FormatFrameMarker(d) || line == FormatFrameMarker(d) + "\r")
  {
    hide CutMarker, CutPrefix, ValidFrameDelimiter;
    CutMarkerOnly(line, "frame");
    assert CutMarker(line, "frame").value == FRAME_FIELD + ParseFrameMarker(line).value;
  }

  // --- the delimiter -------------------------------------------------------------------------------------

  predicate Digits(n: string) {
    n != "" && forall i :: 0 <= i < |n| ==> IsDigit(n[i])
  }

  function Token(n: string): string {
    "$$" + n + "$$"
  }

  /** How far a run of digits goes, within the width cap. */
  function RunEnd(body: string, i: nat, j: nat): (k: nat)
    requires i <= j <= |body|
    ensures j <= k <= |body| && forall m :: j <= m < k ==> IsDigit(body[m])
    ensures k < |body| && k - i <= MAX_FRAME_DELIM_BYTES ==> !IsDigit(body[k])
    decreases |body| - j
  {
    if j < |body| && IsDigit(body[j]) && j - i <= MAX_FRAME_DELIM_BYTES then RunEnd(body, i, j + 1) else j
  }

  /** A numbered token that starts at i. */
  predicate TokenAt(body: string, i: nat, n: string) {
    Digits(n) && |n| < MAX_FRAME_DELIM_BYTES && HasPrefixAt(body, i, Token(n))
  }

  /** The scan finds the token at i, if there is one. */
  lemma TokenFound(body: string, i: nat, n: string)
    requires TokenAt(body, i, n)
    ensures i + 3 < |body| && body[i] == '$' && body[i + 1] == '$'
    ensures var j := RunEnd(body, i, i + 2);
            j == i + 2 + |n| && body[i + 2..j] == n && j + 1 < |body| && body[j] == '$' && body[j + 1] == '$'
  {
    hide Token, HasPrefixAt, RunEnd;
    TextAt(body, i, Token(n));
    TokenText(n);
    NumberIn(body, i, n);
    RunIs(body, i, i + 2, i + 2 + |n|);
  }

  lemma TokenText(n: string)
    ensures var t := Token(n);
            && |t| == |n| + 4 && t[0] == '$' && t[1] == '$' && t[|n| + 2] == '$' && t[|n| + 3] == '$'
            && forall k :: 0 <= k < |n| ==> t[2 + k] == n[k]
  {
  }

  /** The token's number, where the token stands. */
  lemma NumberIn(body: string, i: nat, n: string)
    requires var t := Token(n);
             i + |t| <= |body| && |t| == |n| + 4 && (forall k :: 0 <= k < |t| ==> body[i + k] == t[k]) && forall k :: 0 <= k < |n| ==> t[2 + k] == n[k]
    ensures body[i + 2..i + 2 + |n|] == n && forall m :: i + 2 <= m < i + 2 + |n| ==> body[m] == n[m - i - 2]
    ensures body[i] == Token(n)[0] && body[i + 1] == Token(n)[1]
    ensures body[i + 2 + |n|] == Token(n)[|n| + 2] && body[i + 3 + |n|] == Token(n)[|n| + 3]
  {
    hide Token;
    var t := Token(n);
    forall m | i + 2 <= m < i + 2 + |n| ensures body[m] == n[m - i - 2] {
      assert body[i + (m - i)] == t[m - i] && t[2 + (m - i - 2)] == n[m - i - 2];
    }
    assert body[i + 0] == t[0] && body[i + 1] == t[1];
    assert body[i + (|n| + 2)] == t[|n| + 2] && body[i + (|n| + 3)] == t[|n| + 3];
  }

  lemma TextAt(s: string, i: nat, t: string)
    requires HasPrefixAt(s, i, t)
    ensures i + |t| <= |s| && forall k :: 0 <= k < |t| ==> s[i + k] == t[k]
  {
    assert s[i..i + |t|] == t;
  }

  lemma {:induction false} RunIs(body: string, i: nat, j: nat, k: nat)
    requires i <= j <= k < |body| && k - i <= MAX_FRAME_DELIM_BYTES + 1 && !IsDigit(body[k])
    requires forall m :: j <= m < k ==> IsDigit(body[m])
    ensures RunEnd(body, i, j) == k
    decreases k - j
  {
    if j < k {
      RunIs(body, i, j + 1, k);
    }
  }

  const FRAME_CANDIDATES: seq<string> := ["$$", ";;", "@@", "//"]

  /** The digits after a token's opening. */
  method SkipDigits(body: string, i: nat) returns (j: nat)
    requires i + 2 <= |body|
    ensures j == RunEnd(body, i, i + 2)
  {
    j := i + 2;
    while j < |body| && IsDigit(body[j]) && j - i <= MAX_FRAME_DELIM_BYTES
      invariant i + 2 <= j <= |body| && RunEnd(body, i, i + 2) == RunEnd(body, i, j)
    {
      j := j + 1;
    }
  }

  method FindOccupied(body: string) returns (occupied: set<string>)
    ensures forall i: nat, n :: TokenAt(body, i, n) ==> n in occupied
    ensures occupied == {} || |occupied| + 3 <= |body|
  {
    occupied := {};
    var i := 0;
    while i + 3 < |body|
      invariant 0 <= i && |occupied| <= i && (i == 0 || i + 3 <= |body|)
      invariant forall k: nat, n :: k < i && TokenAt(body, k, n) ==> n in occupied
    {
      hide TokenAt, RunEnd;
      if body[i] == '$' && body[i + 1] == '$' {
        var j := SkipDigits(body, i);
        if j > i + 2 && j + 1 < |body| && body[j] == '$' && body[j + 1] == '$' {
          occupied := occupied + {body[i + 2..j]};
        }
      }
      forall n | TokenAt(body, i, n) ensures n in occupied {
        TokenFound(body, i, n);
      }
      i := i + 1;
    }
    forall k: nat, n | TokenAt(body, k, n) ensures k < i {
      TokenFound(body, k, n);
    }
  }

  /** The first of the fixed candidates that does not occur, or else a numbered one. */
  ghost predicate FirstFree(body: string, d: string) {
    && (d in FRAME_CANDIDATES || exists n: nat :: n >= 1 && d == Token(Itoa(n)))
    && forall k :: 0 <= k < |FRAME_CANDIDATES| && !Contains(body, FRAME_CANDIDATES[k]) ==> d in FRAME_CANDIDATES[..k + 1]
  }

  /** ChooseFrameDelimiter: a token that occurs nowhere in the body.  It is always found, and it fits the
      width cap for every body shorter than 10^12 bytes. */
  method ChooseFrameDelimiter(body: string) returns (d: string)
    ensures |body| < 1000000000000 ==> ValidFrameDelimiter(d) && !Contains(body, d)
    ensures FirstFree(body, d)
  {
    for c := 0 to |FRAME_CANDIDATES|
      invariant forall k :: 0 <= k < c ==> Contains(body, FRAME_CANDIDATES[k])
    {
      var there := ContainsAt(body, FRAME_CANDIDATES[c]);
      if !there {
        return FRAME_CANDIDATES[c];
      }
    }
    var occupied := FindOccupied(body);
    var n := PickNumber(occupied);
    d := Token(Itoa(n));
    assert n >= 1 && d == Token(Itoa(n));
    if |body| < 1000000000000 {
      ItoaWidth(n);
      NumberedFree(body, occupied, Itoa(n));
    }
  }

  /** The least number whose token is free: at most one more than there are occupied ones. */
  method PickNumber(occupied: set<string>) returns (i: nat)
    ensures 1 <= i <= |occupied| + 1 && Itoa(i) !in occupied
    ensures forall n: nat :: 1 <= n < i ==> Itoa(n) in occupied
  {
    i := 1;
    ghost var tried: set<string> := {};
    while Itoa(i) in occupied
      invariant i >= 1 && |tried| == i - 1 && tried <= occupied && |tried| <= |occupied|
      invariant forall n: nat :: Itoa(n) in tried ==> n < i
      invariant forall n: nat :: 1 <= n < i ==> Itoa(n) in occupied
      decreases |occupied| + 1 - i
    {
      forall n: nat | Itoa(n) == Itoa(i) ensures n == i {
        ItoaInjective(n, i);
      }
      tried := tried + {Itoa(i)};
      Subset(tried, occupied);
      i := i + 1;
    }
  }

  /** strings.Contains. */
  method ContainsAt(s: string, t: string) returns (there: bool)
    ensures there == Contains(s, t)
  {
    for i := 0 to |s| + 1
      invariant forall k :: 0 <= k < i ==> !HasPrefixAt(s, k, t)
    {
      if HasPrefixAt(s, i, t) {
        return true;
      }
    }
    there := false;
  }

  lemma {:induction false} Subset(a: set<string>, b: set<string>)
    requires a <= b
    ensures |a| <= |b|
    decreases |a|
  {
    if a != {} {
      var x :| x in a;
      Subset(a - {x}, b - {x});
    }
  }

  function Pow10(k: nat): nat {
    if k == 0 then 1 else 10 * Pow10(k - 1)
  }

  lemma {:induction false} ItoaShort(n: nat, k: nat)
    requires k >= 1 && n < Pow10(k)
    ensures |Itoa(n)| <= k
    decreases k
  {
    assert Pow10(k) == 10 * Pow10(k - 1);
    if n >= 10 && k > 1 {
      ItoaShort(n / 10, k - 1);
    }
  }

  lemma ItoaWidth(n: nat)
    requires n < 1000000000000
    ensures |Itoa(n)| <= 12
  {
    PowersOfTen();
    ItoaShort(n, 12);
  }

  lemma PowersOfTen()
    ensures Pow10(12) == 1000000000000
  {
    assert Pow10(3) == 1000;
    assert Pow10(6) == 1000000;
    assert Pow10(9) == 1000000000;
  }

  lemma NumberedFree(body: string, occupied: set<string>, n: string)
    requires forall i: nat, m :: TokenAt(body, i, m) ==> m in occupied
    requires n !in occupied && Digits(n) && |n| <= 12
    ensures ValidFrameDelimiter(Token(n)) && !Contains(body, Token(n))
  {
    forall i | 0 <= i <= |body| ensures !HasPrefixAt(body, i, Token(n)) {
      assert !TokenAt(body, i, n);
    }
    forall k | 0 <= k < |Token(n)| ensures FrameChar(Token(n)[k]) {
      if 2 <= k < 2 + |n| {
        assert Token(n)[k] == n[k - 2];
      }
    }
  }

  // --- collation markers ---------------------------------------------------------------------------------

  predicate HexChar(c: char) {
    IsDigit(c) || 'a' <= c <= 'f'
  }

  predicate AllHex(h: string) {
    forall i :: 0 <= i < |h| ==> HexChar(h[i])
  }

  function HexDigit(v: nat): (c: char)
    requires v < 16
    ensures HexChar(c)
  {
    if v < 10 then '0' + v as char else 'a' + (v - 10) as char
  }

  function HexValue(c: char): (v: nat)
    requires HexChar(c)
    ensures v < 16
  {
    if IsDigit(c) then c as int - '0' as int else c as int - 'a' as int + 10
  }

  predicate Bytes(s: string) {
    forall i :: 0 <= i < |s| ==> s[i] < 256 as char
  }

  /** hex.EncodeToString. */
  function HexEncode(b: string): (h: string)
    requires Bytes(b)
    ensures |h| == 2 * |b| && AllHex(h)
  {
    if b == "" then "" else [HexDigit(b[0] as nat / 16), HexDigit(b[0] as nat % 16)] + HexEncode(b[1..])
  }

  /** hex.DecodeString, on lower-case input of even length. */
  function HexDecode(h: string): (b: string)
    requires |h| % 2 == 0 && AllHex(h)
    ensures |h| == 2 * |b| && Bytes(b)
  {
    if h == "" then "" else [(16 * HexValue(h[0]) + HexValue(h[1])) as char] + HexDecode(h[2..])
  }

  lemma {:induction false} HexRoundTrip(b: string)
    requires Bytes(b)
    ensures HexDecode(HexEncode(b)) == b
  {
    if b != "" {
      hide HexDigit, HexValue;
      HexRoundTrip(b[1..]);
      var v := b[0] as nat;
      DigitRoundTrip(v / 16);
      DigitRoundTrip(v % 16);
      assert HexEncode(b)[2..] == HexEncode(b[1..]);
    }
  }

  lemma DigitRoundTrip(v: nat)
    requires v < 16
    ensures HexValue(HexDigit(v)) == v
  {
  }

  /** markerHexField. */
  function HexField(field: string, key: string): Option<string> {
    match CutPrefix(field, key)
    case None => None
    case Some(h) =>
      if h == "" || |h| > MAX_MARKER_HEX_FIELD || |h| % 2 != 0 || !AllHex(h) then None else Some(HexDecode(h))
  }

  /** strings.Split on one character. */
  function SplitOn(s: string, c: char): (parts: seq<string>)
    ensures parts != []
  {
    if s == "" then [""]
    else
      var rest := SplitOn(s[1..], c);
      if s[0] == c then [""] + rest else [[s[0]] + rest[0]] + rest[1..]
  }

  lemma {:induction false} SplitFirst(a: string, c: char, b: string)
    requires c !in a
    ensures SplitOn(a + [c] + b, c) == [a] + SplitOn(b, c)
  {
    if a == "" {
      assert a + [c] + b == [c] + b && ([c] + b)[1..] == b;
    } else {
      SplitFirst(a[1..], c, b);
      assert (a + [c] + b)[1..] == a[1..] + [c] + b;
      assert [a[0]] + a[1..] == a;
    }
  }

  lemma {:induction false} SplitNone(a: string, c: char)
    requires c !in a
    ensures SplitOn(a, c) == [a]
  {
    if a != "" {
      SplitNone(a[1..], c);
      assert [a[0]] + a[1..] == a;
    }
  }

  const KIND: string := "kind="
  const NAME: string := "name="
  const VALUE: string := "value="

  function FormatCollationMarker(m: DumpMarker): string
    requires Bytes(m.name) && Bytes(m.collation)
  {
    MARKER_PREFIX + ("db-collation" + " " + ((KIND + m.kind) + [' '] + ((NAME + HexEncode(m.name)) + [' '] + (VALUE + HexEncode(m.collation)))))
  }

  function ParseCollationMarker(line: string): Option<DumpMarker> {
    match CutMarker(line, "db-collation")
    case None => None
    case Some(rest) =>
      var fields := SplitOn(rest, ' ');
      if |fields| != 3 then None
      else
        match (CutPrefix(fields[0], KIND), HexField(fields[1], NAME), HexField(fields[2], VALUE))
        case (Some(kind), Some(name), Some(collation)) => if kind in COLLATION_KINDS then Some(DumpMarker(kind, name, collation)) else None
        case _ => None
  }

  lemma NoSpaceIn(h: string, key: string)
    requires ' ' !in key && AllHex(h)
    ensures ' ' !in key + h
  {
  }

  lemma HexFieldBack(b: string, key: string)
    requires Bytes(b) && 1 <= |b| <= MAX_MARKER_HEX_FIELD / 2
    ensures HexField(key + HexEncode(b), key) == Some(b)
  {
    hide HexEncode, HexDecode, AllHex, CutPrefix;
    CutBack(key, HexEncode(b));
    HexRoundTrip(b);
  }

  /** Every marker within the field bounds survives being written and read back. */
  lemma CollationMarkerRoundTrip(m: DumpMarker)
    requires m.kind in COLLATION_KINDS && Bytes(m.name) && Bytes(m.collation)
    requires 1 <= |m.name| <= MAX_MARKER_HEX_FIELD / 2 && 1 <= |m.collation| <= MAX_MARKER_HEX_FIELD / 2
    ensures ParseCollationMarker(FormatCollationMarker(m)) == Some(m)
  {
    hide HexEncode, HexField, SplitOn, CutPrefix, HasPrefixAt, AllHex, CutMarker;
    var a, b, c := KIND + m.kind, NAME + HexEncode(m.name), VALUE + HexEncode(m.collation);
    var tail := b + [' '] + c;
    var rest := a + [' '] + tail;
    assert rest[|rest| - 1] == HexEncode(m.collation)[|HexEncode(m.collation)| - 1] != '\r' by { LastHex(m.collation); }
    CutMarkerBack("db-collation", rest);
    FieldsBack(m, a, b, c);
    CutBack(KIND, m.kind);
    HexFieldBack(m.name, NAME);
    HexFieldBack(m.collation, VALUE);
  }

  lemma LastHex(b: string)
    requires Bytes(b) && b != ""
    ensures HexEncode(b)[|HexEncode(b)| - 1] != '\r'
  {
    assert HexChar(HexEncode(b)[|HexEncode(b)| - 1]);
  }

  lemma FieldsBack(m: DumpMarker, a: string, b: string, c: string)
    requires m.kind in COLLATION_KINDS && Bytes(m.name) && Bytes(m.collation)
    requires a == KIND + m.kind && b == NAME + HexEncode(m.name) && c == VALUE + HexEncode(m.collation)
    ensures SplitOn(a + [' '] + (b + [' '] + c), ' ') == [a, b, c]
  {
    assert ' ' !in a;
    NoSpaceIn(HexEncode(m.name), NAME);
    NoSpaceIn(HexEncode(m.collation), VALUE);
    hide HexEncode, SplitOn, AllHex;
    SplitFirst(a, ' ', b + [' '] + c);
    SplitFirst(b, ' ', c);
    SplitNone(c, ' ');
  }
}
