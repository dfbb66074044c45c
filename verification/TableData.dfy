/** Streaming a table's rows as batched INSERTs with ANSI quoting, and why no cell can change where a statement ends. */
module TableData {
  import opened Wrappers
  import opened Text
  import opened Markers
  import opened Lexer
  import opened Scanner
  import opened Quoting
  import opened Weave

  // --- literals ------------------------------------------------------------------------------------------

  datatype Value = Null | Binary(bytes: string) | Cell(str: string, numeric: bool)

  datatype Column = Column(numeric: bool)

  /** NonFiniteFloat, as a test. */
  function Lower(s: string): string {
    seq(|s|, i requires 0 <= i < |s| => if 'A' <= s[i] <= 'Z' then (s[i] as int + 32) as char else s[i])
  }

  predicate NonFinite(s: string) {
    Lower(TrimSpace(s)) in {"nan", "inf", "+inf", "infinity", "+infinity", "-inf", "-infinity"}
  }

  function DigitsEnd(s: string, i: nat): (e: nat)
    requires i <= |s|
    ensures i <= e <= |s| && forall k :: i <= k < e ==> IsDigit(s[k])
    decreases |s| - i
  {
    if i < |s| && IsDigit(s[i]) then DigitsEnd(s, i + 1) else i
  }

  predicate JsonSpace(c: char) {
    c == ' ' || c == '\t' || c == '\n' || c == '\r'
  }

  /** The end of the integer part of a JSON number. */
  function IntEnd(s: string, i: nat): (e: Option<nat>)
    requires i <= |s|
    ensures e.Some? ==> i < e.value <= |s| && forall k :: i <= k < e.value ==> IsDigit(s[k])
  {
    if i == |s| || !IsDigit(s[i]) then None else if s[i] == '0' then Some(i + 1) else Some(DigitsEnd(s, i))
  }

  /** ... of its fraction, if it has one ... */
  function FracEnd(s: string, i: nat): (e: Option<nat>)
    requires i <= |s|
    ensures e.Some? ==> i <= e.value <= |s| && forall k :: i <= k < e.value ==> IsDigit(s[k]) || s[k] == '.'
  {
    if i == |s| || s[i] != '.' then Some(i) else if DigitsEnd(s, i + 1) == i + 1 then None else Some(DigitsEnd(s, i + 1))
  }

  /** ... and of its exponent. */
  function ExpEnd(s: string, i: nat): (e: Option<nat>)
    requires i <= |s|
    ensures e.Some? ==> i <= e.value <= |s| && forall k :: i <= k < e.value ==> IsDigit(s[k]) || s[k] in {'e', 'E', '+', '-'}
    ensures e.Some? ==> forall k :: i <= k < e.value && s[k] == '-' ==> k + 1 < e.value && IsDigit(s[k + 1])
  {
    if i == |s| || (s[i] != 'e' && s[i] != 'E') then Some(i)
    else
      var j := if i + 1 < |s| && (s[i + 1] == '+' || s[i + 1] == '-') then i + 2 else i + 1;
      if DigitsEnd(s, j) == j then None else Some(DigitsEnd(s, j))
  }

  /** IsNumericLiteral: a JSON number that starts at once; json.Valid allows white space after it. */
  predicate IsNumericLiteral(s: string) {
    && s != "" && (s[0] == '-' || IsDigit(s[0]))
    && var i := if s[0] == '-' then 1 else 0;
       IntEnd(s, i).Some? && FracEnd(s, IntEnd(s, i).value).Some?
       && var j := FracEnd(s, IntEnd(s, i).value).value;
          ExpEnd(s, j).Some? && forall k :: ExpEnd(s, j).value <= k < |s| ==> JsonSpace(s[k])
  }

  /** XHexLiteral. */
  function XHex(bytes: string): string
    requires Bytes(bytes)
  {
    "X" + QuoteAnsiString(HexEncode(bytes))
  }

  ghost predicate GoodValue(v: Value) {
    v.Binary? ==> Bytes(v.bytes)
  }

  /** Whether RenderValueLiteral emits a cell's text bare. */
  predicate Bare(preferValueKind: bool, col: Column, v: Value) {
    && v.Cell? && (if preferValueKind then v.numeric else col.numeric)
    && v.str != "" && !NonFinite(v.str) && IsNumericLiteral(v.str)
  }

  /** RenderValueLiteral with the ANSI quoter and no special text or non-finite hook. */
  function Literal(preferValueKind: bool, col: Column, v: Value): string
    requires GoodValue(v)
  {
    match v
    case Null => "NULL"
    case Binary(b) => XHex(b)
    case Cell(x, _) => if Bare(preferValueKind, col, v) then x else QuoteAnsiString(x)
  }

  /** The bare text of a number is harmless to the scanner. */
  lemma NumberIsRun(s: string)
    requires IsNumericLiteral(s)
    ensures GoodRun(s) && s != ""
  {
    var i := if s[0] == '-' then 1 else 0;
    var a := IntEnd(s, i).value;
    var b := FracEnd(s, a).value;
    var c := ExpEnd(s, b).value;
    forall k | 0 <= k < |s| ensures RunChar(s[k]) && (s[k] == '-' ==> k + 1 < |s| && s[k + 1] != '-') {
      if k < i {
      } else if k < a {
        assert IsDigit(s[k]);
      } else if k < b {
        assert IsDigit(s[k]) || s[k] == '.';
      } else if k < c {
        assert IsDigit(s[k]) || s[k] in {'e', 'E', '+', '-'};
      } else {
        assert JsonSpace(s[k]);
      }
    }
  }

  // --- statements ----------------------------------------------------------------------------------------

  type Row = seq<Value>

  /** What the writer knows of a table: its quoted path and columns, and how its cells are typed. */
  datatype Table = Table(name: string, path: seq<string>, insertCols: seq<string>, overriding: bool, preferValueKind: bool, cols: seq<Column>)

  ghost predicate GoodRow(t: Table, row: Row) {
    |row| == |t.cols| && forall k :: 0 <= k < |row| ==> GoodValue(row[k])
  }

  ghost predicate GoodRows(t: Table, rows: seq<Row>) {
    forall k :: 0 <= k < |rows| ==> GoodRow(t, rows[k])
  }

  function IdentsText(names: seq<string>, sep: string): string {
    if names == [] then ""
    else
      var n := |names| - 1;
      (if n == 0 then "" else IdentsText(names[..n], sep) + sep) + QuoteAnsiIdent(names[n])
  }

  const OVERRIDING: string := " OVERRIDING SYSTEM VALUE"

  function PrefixText(t: Table): string {
    "INSERT INTO " + IdentsText(t.path, ".") + " (" + IdentsText(t.insertCols, ", ") + ")" + (if t.overriding then OVERRIDING else "") + " VALUES "
  }

  /** The first k cells of a row, joined. */
  function CellsText(t: Table, row: Row, k: nat): string
    requires GoodRow(t, row) && k <= |row|
  {
    if k == 0 then "" else (if k == 1 then "" else CellsText(t, row, k - 1) + ", ") + Literal(t.preferValueKind, t.cols[k - 1], row[k - 1])
  }

  function RowText(t: Table, row: Row): string
    requires GoodRow(t, row)
  {
    "(" + CellsText(t, row, |row|) + ")"
  }

  function RowsText(t: Table, rows: seq<Row>): string
    requires GoodRows(t, rows)
  {
    if rows == [] then ""
    else
      var n := |rows| - 1;
      (if n == 0 then "" else RowsText(t, rows[..n]) + ",\n") + RowText(t, rows[n])
  }

  /** One statement, without its terminator. */
  function BatchText(t: Table, rows: seq<Row>): string
    requires GoodRows(t, rows)
  {
    PrefixText(t) + RowsText(t, rows)
  }

  // --- the same texts, woven -----------------------------------------------------------------------------

  /** A woven text that may still be extended. */
  predicate GoodSoFar(w: Woven) {
    (forall k :: 0 <= k < |w.pieces| ==> GoodPiece(w.pieces[k])) && GoodRun(w.tail)
  }

  /** ... and that a literal may follow. */
  predicate Ready(w: Woven) {
    GoodSoFar(w) && w.tail != "" && w.tail[|w.tail| - 1] !in {'e', 'E'}
  }

  lemma RunAdded(w: Woven, r: string)
    requires GoodSoFar(w) && GoodRun(r)
    ensures GoodSoFar(AddRun(w, r)) && WovenText(AddRun(w, r)) == WovenText(w) + r
    ensures r != "" && r[|r| - 1] !in {'e', 'E'} ==> Ready(AddRun(w, r))
  {
    AddRunText(w, r);
    var t := w.tail + r;
    forall k | 0 <= k < |t| ensures RunChar(t[k]) && (t[k] == '-' ==> k + 1 < |t| && t[k + 1] != '-') {
      if k < |w.tail| {
        assert t[k] == w.tail[k];
      } else {
        assert t[k] == r[k - |w.tail|];
      }
    }
  }

  lemma LitAdded(w: Woven, l: Lit)
    requires GoodSoFar(w) && w.tail != "" && (l.Str? ==> w.tail[|w.tail| - 1] !in {'e', 'E'})
    ensures GoodSoFar(AddLit(w, l)) && WovenText(AddLit(w, l)) == WovenText(w) + LitText(l)
  {
    AddLitText(w, l);
    hide GoodRun, LitText, WovenText;
    assert GoodRun("") by { EmptyRun(); }
    var q := Piece(w.tail, l);
    assert GoodPiece(q);
  }

  lemma EmptyRun()
    ensures GoodRun("")
  {
  }

  function AddValue(w: Woven, preferValueKind: bool, col: Column, v: Value): Woven
    requires GoodValue(v)
  {
    match v
    case Null => AddRun(w, "NULL")
    case Binary(b) => AddLit(AddRun(w, "X"), Str(HexEncode(b)))
    case Cell(x, _) => if Bare(preferValueKind, col, v) then AddRun(w, x) else AddLit(w, Str(x))
  }

  lemma ValueAdded(w: Woven, preferValueKind: bool, col: Column, v: Value)
    requires Ready(w) && GoodValue(v)
    ensures var u := AddValue(w, preferValueKind, col, v);
            GoodSoFar(u) && WovenText(u) == WovenText(w) + Literal(preferValueKind, col, v)
  {
    hide GoodRun, GoodSoFar, WovenText, IsNumericLiteral, NonFinite, LitText, HexEncode, QuoteAnsiString, AddRun, AddLit;
    match v
    case Null =>
      WordRuns();
      RunAdded(w, "NULL");
    case Binary(b) =>
      BinaryAdded(w, HexEncode(b));
    case Cell(x, _) =>
      if Bare(preferValueKind, col, v) {
        NumberIsRun(x);
        RunAdded(w, x);
      } else {
        StrText(x);
        LitAdded(w, Str(x));
      }
  }

  lemma WordRuns()
    ensures GoodRun("NULL") && GoodRun("X")
  {
  }

  lemma BinaryAdded(w: Woven, hex: string)
    requires Ready(w)
    ensures var u := AddLit(AddRun(w, "X"), Str(hex)); GoodSoFar(u) && WovenText(u) == WovenText(w) + ("X" + QuoteAnsiString(hex))
  {
    hide GoodRun, GoodSoFar, WovenText, LitText, QuoteAnsiString, AddRun, AddLit;
    WordRuns();
    RunAdded(w, "X");
    XTail(w);
    LitAdded(AddRun(w, "X"), Str(hex));
    StrText(hex);
    Assoc(WovenText(w), "X", QuoteAnsiString(hex));
  }

  lemma Assoc(a: string, b: string, c: string)
    ensures (a + b) + c == a + (b + c)
  {
  }

  lemma XTail(w: Woven)
    ensures AddRun(w, "X").tail != "" && AddRun(w, "X").tail[|AddRun(w, "X").tail| - 1] !in {'e', 'E'}
  {
  }

  lemma StrText(x: string)
    ensures LitText(Str(x)) == QuoteAnsiString(x) && LitText(Ident(x)) == QuoteAnsiIdent(x)
  {
  }

  function AddIdents(w: Woven, names: seq<string>, sep: string): Woven {
    if names == [] then w
    else
      var n := |names| - 1;
      AddLit(if n == 0 then w else AddRun(AddIdents(w, names[..n], sep), sep), Ident(names[n]))
  }

  lemma {:induction false} IdentsAdded(w: Woven, names: seq<string>, sep: string)
    requires Ready(w) && GoodRun(sep) && sep != "" && names != []
    ensures var u := AddIdents(w, names, sep); GoodSoFar(u) && WovenText(u) == WovenText(w) + IdentsText(names, sep)
    decreases |names|
  {
    hide GoodRun, WovenText, LitText, QuoteAnsiIdent;
    var n := |names| - 1;
    StrText(names[n]);
    if n == 0 {
      LitAdded(w, Ident(names[0]));
      assert names[..0] == [];
      assert "" + QuoteAnsiIdent(names[n]) == QuoteAnsiIdent(names[n]);
    } else {
      IdentsAdded(w, names[..n], sep);
      var u := AddIdents(w, names[..n], sep);
      RunAdded(u, sep);
      assert AddRun(u, sep).tail == u.tail + sep != "";
      LitAdded(AddRun(u, sep), Ident(names[n]));
      assert WovenText(w) + IdentsText(names[..n], sep) + sep + QuoteAnsiIdent(names[n]) ==
             WovenText(w) + (IdentsText(names[..n], sep) + sep + QuoteAnsiIdent(names[n]));
    }
  }

  function AddCells(w: Woven, t: Table, row: Row, k: nat): Woven
    requires GoodRow(t, row) && k <= |row|
  {
    if k == 0 then w
    else AddValue(if k == 1 then w else AddRun(AddCells(w, t, row, k - 1), ", "), t.preferValueKind, t.cols[k - 1], row[k - 1])
  }

  lemma {:induction false} CellsAdded(w: Woven, t: Table, row: Row, k: nat)
    requires Ready(w) && GoodRow(t, row) && k <= |row|
    ensures var u := AddCells(w, t, row, k); GoodSoFar(u) && WovenText(u) == WovenText(w) + CellsText(t, row, k)
  {
    hide WovenText, Literal, AddValue, GoodSoFar, AddRun;
    if k == 0 {
      ReadyIs(w);
      assert WovenText(w) + "" == WovenText(w);
    } else if k == 1 {
      ValueAdded(w, t.preferValueKind, t.cols[0], row[0]);
      var lit := Literal(t.preferValueKind, t.cols[0], row[0]);
      assert "" + lit == lit;
    } else {
      CellsAdded(w, t, row, k - 1);
      var u := AddCells(w, t, row, k - 1);
      CommaRuns();
      RunAdded(u, ", ");
      ValueAdded(AddRun(u, ", "), t.preferValueKind, t.cols[k - 1], row[k - 1]);
      var lit := Literal(t.preferValueKind, t.cols[k - 1], row[k - 1]);
      assert WovenText(w) + CellsText(t, row, k - 1) + ", " + lit == WovenText(w) + (CellsText(t, row, k - 1) + ", " + lit);
    }
  }

  lemma ReadyIs(w: Woven)
    requires Ready(w)
    ensures GoodSoFar(w)
  {
  }

  lemma CommaRuns()
    ensures GoodRun(", ") && GoodRun("(") && GoodRun(")") && GoodRun(",\n") && GoodRun(".") && GoodRun(" (")
    ensures ", "[|", "| - 1] !in {'e', 'E'} && "("[|"("| - 1] !in {'e', 'E'} && " ("[|" ("| - 1] !in {'e', 'E'}
  {
  }

  function AddRow(w: Woven, t: Table, row: Row): Woven
    requires GoodRow(t, row)
  {
    AddRun(AddCells(AddRun(w, "("), t, row, |row|), ")")
  }

  lemma RowAdded(w: Woven, t: Table, row: Row)
    requires GoodSoFar(w) && GoodRow(t, row)
    ensures var u := AddRow(w, t, row);
            GoodSoFar(u) && WovenText(u) == WovenText(w) + RowText(t, row) && u.tail != "" && u.tail[|u.tail| - 1] == ')'
  {
    hide WovenText, CellsText, GoodSoFar, AddCells;
    CommaRuns();
    RunAdded(w, "(");
    CellsAdded(AddRun(w, "("), t, row, |row|);
    var u := AddCells(AddRun(w, "("), t, row, |row|);
    RunAdded(u, ")");
    assert WovenText(w) + "(" + CellsText(t, row, |row|) + ")" == WovenText(w) + ("(" + CellsText(t, row, |row|) + ")");
  }

  function AddRows(w: Woven, t: Table, rows: seq<Row>): Woven
    requires GoodRows(t, rows)
  {
    if rows == [] then w
    else
      var n := |rows| - 1;
      AddRow(if n == 0 then w else AddRun(AddRows(w, t, rows[..n]), ",\n"), t, rows[n])
  }

  lemma {:induction false} RowsAdded(w: Woven, t: Table, rows: seq<Row>)
    requires GoodSoFar(w) && GoodRows(t, rows) && rows != []
    ensures var u := AddRows(w, t, rows);
            GoodSoFar(u) && WovenText(u) == WovenText(w) + RowsText(t, rows) && u.tail != "" && u.tail[|u.tail| - 1] == ')'
    decreases |rows|
  {
    hide WovenText, RowText, GoodSoFar, AddRow, GoodRow;
    var n := |rows| - 1;
    var last := RowText(t, rows[n]);
    if n == 0 {
      RowAdded(w, t, rows[0]);
      assert "" + last == last;
    } else {
      RowsAdded(w, t, rows[..n]);
      var u := AddRows(w, t, rows[..n]);
      CommaRuns();
      RunAdded(u, ",\n");
      RowAdded(AddRun(u, ",\n"), t, rows[n]);
      assert WovenText(w) + RowsText(t, rows[..n]) + ",\n" + last == WovenText(w) + (RowsText(t, rows[..n]) + ",\n" + last);
    }
  }

  /** The table has a path and columns to insert into. */
  predicate GoodTable(t: Table) {
    t.path != [] && t.insertCols != [] && '\n' !in t.name
  }

  function Overriding(t: Table): string {
    if t.overriding then OVERRIDING else ""
  }

  function AddPrefix(t: Table): Woven {
    var a := AddIdents(AddRun(Woven([], ""), "INSERT INTO "), t.path, ".");
    var b := AddIdents(AddRun(a, " ("), t.insertCols, ", ");
    AddRun(AddRun(AddRun(b, ")"), Overriding(t)), " VALUES ")
  }

  lemma PrefixRuns(t: Table)
    ensures GoodRun("INSERT INTO ") && GoodRun(" VALUES ") && GoodRun(Overriding(t)) && WovenText(Woven([], "")) == "" && GoodSoFar(Woven([], ""))
    ensures "INSERT INTO "[|"INSERT INTO "| - 1] !in {'e', 'E'}
  {
    hide GoodRun;
    assert GoodRun("INSERT INTO ") && GoodRun(" VALUES ") by { StatementRuns(); }
    assert GoodRun("") by { EmptyRun(); }
    assert GoodRun(OVERRIDING) by { OverridingRun(); }
  }

  lemma StatementRuns()
    ensures GoodRun("INSERT INTO ") && GoodRun(" VALUES ")
  {
  }

  lemma OverridingRun()
    ensures GoodRun(OVERRIDING)
  {
  }

  lemma PrefixAdded(t: Table)
    requires GoodTable(t)
    ensures GoodSoFar(AddPrefix(t)) && WovenText(AddPrefix(t)) == PrefixText(t)
  {
    hide WovenText, GoodSoFar, IdentsText, AddIdents, GoodRun, Overriding;
    PrefixRuns(t);
    CommaRuns();
    var i := "INSERT INTO ";
    var w := AddRun(Woven([], ""), i);
    RunAdded(Woven([], ""), i);
    IdentsAdded(w, t.path, ".");
    var a := AddIdents(w, t.path, ".");
    RunAdded(a, " (");
    IdentsAdded(AddRun(a, " ("), t.insertCols, ", ");
    var b := AddIdents(AddRun(a, " ("), t.insertCols, ", ");
    RunAdded(b, ")");
    RunAdded(AddRun(b, ")"), Overriding(t));
    RunAdded(AddRun(AddRun(b, ")"), Overriding(t)), " VALUES ");
    PrefixIs(t, WovenText(a), WovenText(b));
  }

  lemma PrefixIs(t: Table, a: string, b: string)
    requires a == "" + "INSERT INTO " + IdentsText(t.path, ".") && b == a + " (" + IdentsText(t.insertCols, ", ")
    ensures b + ")" + Overriding(t) + " VALUES " == PrefixText(t)
  {
    hide IdentsText;
  }

  function BatchWoven(t: Table, rows: seq<Row>): Woven
    requires GoodRows(t, rows)
  {
    AddRows(AddPrefix(t), t, rows)
  }

  lemma BatchIsWoven(t: Table, rows: seq<Row>)
    requires GoodTable(t) && GoodRows(t, rows) && rows != []
    ensures GoodWoven(BatchWoven(t, rows)) && WovenText(BatchWoven(t, rows)) == BatchText(t, rows)
    ensures BatchText(t, rows) != "" && BatchText(t, rows)[|BatchText(t, rows)| - 1] == ')' && BatchText(t, rows)[0] == 'I'
  {
    hide WovenText, AddPrefix, AddRows, RowsText, PrefixText;
    PrefixAdded(t);
    RowsAdded(AddPrefix(t), t, rows);
    Starts(t);
    Ends(t, rows);
  }

  lemma Starts(t: Table)
    ensures PrefixText(t) != "" && PrefixText(t)[0] == 'I'
  {
  }

  lemma Ends(t: Table, rows: seq<Row>)
    requires GoodRows(t, rows) && rows != []
    ensures RowsText(t, rows) != "" && RowsText(t, rows)[|RowsText(t, rows)| - 1] == ')'
  {
    hide CellsText;
    var n := |rows| - 1;
    var r := RowText(t, rows[n]);
    assert r[|r| - 1] == ')';
  }

  // --- the writer ----------------------------------------------------------------------------------------

  const INSERT_BATCH_BUDGET: nat := 524288

  function Header(t: Table): string {
    "-- Data: " + t.name + "\n"
  }

  ghost predicate GoodBatches(t: Table, bs: seq<seq<Row>>) {
    forall k :: 0 <= k < |bs| ==> GoodRows(t, bs[k]) && bs[k] != []
  }

  function BatchesText(t: Table, bs: seq<seq<Row>>): string
    requires GoodBatches(t, bs)
  {
    if bs == [] then "" else BatchText(t, bs[0]) + ";\n" + BatchesText(t, bs[1..])
  }

  function Output(t: Table, bs: seq<seq<Row>>): string
    requires GoodBatches(t, bs)
  {
    Header(t) + BatchesText(t, bs) + "\n"
  }

  function Flatten(bs: seq<seq<Row>>): seq<Row> {
    if bs == [] then [] else bs[0] + Flatten(bs[1..])
  }

  /** A batch is flushed at the first row that takes it to the budget. */
  ghost predicate Full(t: Table, rows: seq<Row>) {
    && GoodRows(t, rows) && rows != [] && |BatchText(t, rows)| >= INSERT_BATCH_BUDGET
    && (|rows| > 1 ==> |BatchText(t, rows[..|rows| - 1])| < INSERT_BATCH_BUDGET)
  }

  ghost predicate Batched(t: Table, bs: seq<seq<Row>>, rows: seq<Row>) {
    && GoodBatches(t, bs) && Flatten(bs) == rows
    && forall k :: 0 <= k < |bs| - 1 ==> Full(t, bs[k])
  }

  lemma {:induction false} BatchesSnoc(t: Table, bs: seq<seq<Row>>, b: seq<Row>)
    requires GoodBatches(t, bs) && GoodRows(t, b) && b != []
    ensures GoodBatches(t, bs + [b]) && BatchesText(t, bs + [b]) == BatchesText(t, bs) + (BatchText(t, b) + ";\n")
    ensures Flatten(bs + [b]) == Flatten(bs) + b
    decreases |bs|
  {
    hide BatchText, GoodRows;
    if bs == [] {
      assert bs + [b] == [b];
      assert [b][1..] == [];
      assert BatchesText(t, [b]) == BatchText(t, b) + ";\n" + "";
    } else {
      assert GoodBatches(t, bs[1..]);
      BatchesSnoc(t, bs[1..], b);
      assert (bs + [b])[1..] == bs[1..] + [b];
      assert BatchText(t, bs[0]) + ";\n" + (BatchesText(t, bs[1..]) + (BatchText(t, b) + ";\n")) ==
             BatchText(t, bs[0]) + ";\n" + BatchesText(t, bs[1..]) + (BatchText(t, b) + ";\n");
    }
  }

  /** What the loop has written and holds back. */
  ghost predicate Writing(t: Table, out: string, batch: string, bs: seq<seq<Row>>, held: seq<Row>, done: seq<Row>) {
    && GoodBatches(t, bs) && GoodRows(t, held) && Flatten(bs) + held == done && (forall k :: 0 <= k < |bs| ==> Full(t, bs[k]))
    && out == Header(t) + BatchesText(t, bs) && batch == (if held == [] then "" else BatchText(t, held))
    && |batch| < INSERT_BATCH_BUDGET
  }

  /** The text of one more row. */
  lemma RowHeld(t: Table, out: string, batch: string, bs: seq<seq<Row>>, held: seq<Row>, done: seq<Row>, row: Row)
    requires Writing(t, out, batch, bs, held, done) && GoodRow(t, row)
    ensures GoodRows(t, held + [row])
    ensures BatchText(t, held + [row]) == (if held == [] then PrefixText(t) else batch + ",\n") + RowText(t, row)
  {
    hide Header, BatchesText, GoodRow, RowText, PrefixText, Full, GoodBatches, Flatten;
    var more := held + [row];
    assert more[..|held|] == held;
    if held == [] {
      assert "" + RowText(t, row) == RowText(t, row);
    } else {
      assert PrefixText(t) + (RowsText(t, held) + ",\n" + RowText(t, row)) == (PrefixText(t) + RowsText(t, held)) + ",\n" + RowText(t, row);
    }
  }

  lemma RowKept(t: Table, out: string, batch: string, bs: seq<seq<Row>>, held: seq<Row>, done: seq<Row>, row: Row, batch': string)
    requires Writing(t, out, batch, bs, held, done) && GoodRow(t, row) && GoodRows(t, held + [row]) && batch' == BatchText(t, held + [row])
    ensures |batch'| < INSERT_BATCH_BUDGET ==> Writing(t, out, batch', bs, held + [row], done + [row])
    ensures |batch'| >= INSERT_BATCH_BUDGET ==> Writing(t, out + (batch' + ";\n"), "", bs + [held + [row]], [], done + [row])
  {
    hide Header, BatchesText, GoodRow, GoodBatches, Flatten, GoodRows, BatchText;
    var more := held + [row];
    assert more[..|more| - 1] == held;
    assert Flatten(bs) + held + [row] == Flatten(bs) + more;
    if |batch'| >= INSERT_BATCH_BUDGET {
      BatchesSnoc(t, bs, more);
      assert Full(t, more);
      assert GoodRows(t, []) by { NoRows(t); }
      assert Flatten(bs + [more]) + [] == done + [row];
      assert Header(t) + BatchesText(t, bs) + (batch' + ";\n") == Header(t) + (BatchesText(t, bs) + (batch' + ";\n"));
    }
  }

  lemma NoRows(t: Table)
    ensures GoodRows(t, [])
  {
  }

  /** writeTableData, for a stream that does not fail: every row once, in order, in batches that are
      flushed as soon as they reach the budget. */
  method WriteTableData(t: Table, rows: seq<Row>) returns (out: string)
    requires GoodRows(t, rows)
    ensures exists bs :: Batched(t, bs, rows) && out == Output(t, bs)
  {
    hide Writing, Output, Batched, Header, PrefixText, RowText, GoodRow, BatchText, IdentsText;
    var prefix := "INSERT INTO " + IdentsText(t.path, ".") + " (" + IdentsText(t.insertCols, ", ") + ")";
    if t.overriding {
      prefix := prefix + OVERRIDING;
    }
    prefix := prefix + " VALUES ";
    assert prefix == PrefixText(t) by { PrefixSame(t, prefix); }
    out := Header(t);
    var batch := "";
    ghost var bs: seq<seq<Row>>, held: seq<Row> := [], [];
    StartWriting(t);
    for k := 0 to |rows|
      invariant Writing(t, out, batch, bs, held, rows[..k])
    {
      var row := rows[k];
      assert GoodRow(t, row);
      assert rows[..k + 1] == rows[..k] + [row];
      RowHeld(t, out, batch, bs, held, rows[..k], row);
      BatchEmpty(t, out, batch, bs, held, rows[..k]);
      var text := (if batch == "" then prefix else batch + ",\n") + RowText(t, row);
      RowKept(t, out, batch, bs, held, rows[..k], row, text);
      if |text| >= INSERT_BATCH_BUDGET {
        out := out + (text + ";\n");
        batch := "";
        bs, held := bs + [held + [row]], [];
      } else {
        batch := text;
        held := held + [row];
      }
    }
    assert rows[..|rows|] == rows;
    BatchEmpty(t, out, batch, bs, held, rows);
    LastBatch(t, out, batch, bs, held, rows);
    if batch != "" {
      out := out + (batch + ";\n");
      bs := bs + [held];
    }
    out := out + "\n";
  }

  lemma PrefixSame(t: Table, prefix: string)
    requires prefix == "INSERT INTO " + IdentsText(t.path, ".") + " (" + IdentsText(t.insertCols, ", ") + ")" + (if t.overriding then OVERRIDING else "") + " VALUES "
    ensures prefix == PrefixText(t)
  {
  }

  lemma StartWriting(t: Table)
    ensures Writing(t, Header(t), "", [], [], [])
  {
    hide Header;
    assert Header(t) + "" == Header(t);
  }

  lemma BatchEmpty(t: Table, out: string, batch: string, bs: seq<seq<Row>>, held: seq<Row>, done: seq<Row>)
    requires Writing(t, out, batch, bs, held, done)
    ensures batch == "" <==> held == []
  {
    hide Header, BatchesText, RowsText, Full, Flatten, GoodBatches;
    if held != [] {
      Starts(t);
    }
  }

  lemma LastBatch(t: Table, out: string, batch: string, bs: seq<seq<Row>>, held: seq<Row>, rows: seq<Row>)
    requires Writing(t, out, batch, bs, held, rows)
    ensures batch == "" ==> Batched(t, bs, rows) && out + "\n" == Output(t, bs)
    ensures batch != "" ==> Batched(t, bs + [held], rows) && out + (batch + ";\n") + "\n" == Output(t, bs + [held])
  {
    hide Header, BatchesText, Full, GoodBatches, Flatten, GoodRows, BatchText;
    BatchEmpty(t, out, batch, bs, held, rows);
    if batch == "" {
      assert Flatten(bs) + [] == Flatten(bs);
    } else {
      BatchesSnoc(t, bs, held);
      assert Header(t) + BatchesText(t, bs) + (batch + ";\n") == Header(t) + (BatchesText(t, bs) + (batch + ";\n"));
    }
  }
}
