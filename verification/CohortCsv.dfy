/** The CSV printer of cohort applications, and a reader for what it prints (section 2 of RFC 4180). */
module CohortCsv {
  import opened Prelude
  import opened JsText

  const CSV_BOM := "\U{FEFF}"
  const CRLF := "\r\n"

  /** A value as the export passes it; numbers and booleans arrive as their text. */
  datatype Cell = Null | Date(iso: string) | List(items: seq<string>) | Text(text: string)

  /** `/^[\s]*[=+\-@]|^[\t\r]/`. */
  predicate FormulaStart(s: string) {
    var t := TrimStart(s);
    (t != "" && t[0] in {'=', '+', '-', '@'}) || (s != "" && s[0] in {'\t', '\r'})
  }

  function NeutralizeFormula(s: string): string { if FormulaStart(s) then "'" + s else s }

  function Join(parts: seq<string>, sep: string): string {
    if parts == [] then "" else if |parts| == 1 then parts[0] else parts[0] + sep + Join(parts[1..], sep)
  }

  function CellText(c: Cell): string {
    match c
    case Null => ""
    case Date(iso) => iso
    case List(items) => Join(items, ";")
    case Text(t) => t
  }

  /** What a reader is to find in the cell. */
  function Shown(c: Cell): string { NeutralizeFormula(CellText(c)) }

  function Doubled(s: string): string {
    if s == "" then "" else (if s[0] == '"' then "\"\"" else [s[0]]) + Doubled(s[1..])
  }

  function CsvCell(c: Cell): string { "\"" + Doubled(Shown(c)) + "\"" }

  function Mapped<A, B>(f: A -> B, xs: seq<A>): (r: seq<B>)
    ensures |r| == |xs| && forall i :: 0 <= i < |xs| ==> r[i] == f(xs[i])
  {
    if xs == [] then [] else [f(xs[0])] + Mapped(f, xs[1..])
  }

  function RowText(row: seq<Cell>): string { Join(Mapped(CsvCell, row), ",") }

  function ToCsv(header: seq<Cell>, rows: seq<seq<Cell>>): string {
    CSV_BOM + Join(Mapped(RowText, [header] + rows), CRLF) + CRLF
  }

  // ----- RFC 4180, section 2 -----

  /** The rest of a quoted field: its content, and what follows the closing quote. */
  function ReadQuoted(s: string): (r: Option<(string, string)>)
    ensures r.Some? ==> |r.value.1| < |s|
  {
    if s == "" then None
    else if s[0] != '"' then
      match ReadQuoted(s[1..]) case Some(v) => Some(([s[0]] + v.0, v.1)) case None => None
    else if |s| > 1 && s[1] == '"' then
      match ReadQuoted(s[2..]) case Some(v) => Some(("\"" + v.0, v.1)) case None => None
    else Some(("", s[1..]))
  }

  predicate Plain(c: char) { c !in {'"', ',', '\r', '\n'} }

  function ReadPlain(s: string): (r: (string, string))
    ensures |r.1| <= |s|
  {
    if s != "" && Plain(s[0]) then ([s[0]] + ReadPlain(s[1..]).0, ReadPlain(s[1..]).1) else ("", s)
  }

  function ReadField(s: string): (r: Option<(string, string)>)
    ensures r.Some? ==> |r.value.1| <= |s|
  {
    if s != "" && s[0] == '"' then ReadQuoted(s[1..]) else Some(ReadPlain(s))
  }

  function ReadRecord(s: string): (r: Option<(seq<string>, string)>)
    ensures r.Some? ==> |r.value.1| <= |s|
    decreases |s|
  {
    match ReadField(s)
    case None => None
    case Some(field) =>
      if field.1 != "" && field.1[0] == ',' then
        match ReadRecord(field.1[1..]) case Some(more) => Some(([field.0] + more.0, more.1)) case None => None
      else Some(([field.0], field.1))
  }

  /** Records separated by CRLF, the last of which may end with one. */
  function ReadFile(s: string): Option<seq<seq<string>>>
    decreases |s|
  {
    match ReadRecord(s)
    case None => None
    case Some(record) =>
      if record.1 == "" || record.1 == "\r\n" then Some([record.0])
      else if |record.1| > 1 && record.1[..2] == "\r\n" then
        match ReadFile(record.1[2..]) case Some(more) => Some([record.0] + more) case None => None
      else None
  }

  // ----- Round trip -----

  /** A row as it reads back: an empty one as one empty field, as every record has at least one. */
  function ReadBack(row: seq<Cell>): seq<string> { if row == [] then [""] else Mapped(Shown, row) }

  function ShownRow(row: seq<Cell>): seq<string> { Mapped(Shown, row) }

  lemma {:induction false} QuotedReads(t: string, rest: string)
    requires rest == "" || rest[0] != '"'
    ensures ReadQuoted(Doubled(t) + "\"" + rest) == Some((t, rest))
  {
    var s := Doubled(t) + "\"" + rest;
    if t == "" {
      assert s == "\"" + rest && s[1..] == rest;
    } else {
      QuotedReads(t[1..], rest);
      var more := Doubled(t[1..]) + "\"" + rest;
      if t[0] == '"' {
        assert s == "\"\"" + more && s[2..] == more;
      } else {
        assert s == [t[0]] + more && s[1..] == more;
      }
      assert [t[0]] + t[1..] == t;
    }
  }

  lemma CellReads(c: Cell, rest: string)
    requires rest == "" || rest[0] != '"'
    ensures ReadField(CsvCell(c) + rest) == Some((Shown(c), rest))
  {
    hide Shown, Doubled;
    QuotedReads(Shown(c), rest);
    assert (CsvCell(c) + rest)[1..] == Doubled(Shown(c)) + "\"" + rest;
  }

  lemma {:induction false} RowReads(row: seq<Cell>, rest: string)
    requires rest == "" || rest[0] == '\r'
    ensures ReadRecord(RowText(row) + rest) == Some((ReadBack(row), rest))
    decreases |row|
  {
    hide CsvCell, Shown;
    var s := RowText(row) + rest;
    if row == [] {
      assert s == rest;
    } else if |row| == 1 {
      CellReads(row[0], rest);
      assert RowText(row) == CsvCell(row[0]);
      assert Mapped(Shown, row) == [Shown(row[0])];
    } else {
      assert Mapped(CsvCell, row)[1..] == Mapped(CsvCell, row[1..]);
      var more := "," + (RowText(row[1..]) + rest);
      assert s == CsvCell(row[0]) + more;
      CellReads(row[0], more);
      RowReads(row[1..], rest);
      assert more[1..] == RowText(row[1..]) + rest;
    }
  }

  lemma {:induction false} FileReads(rows: seq<seq<Cell>>)
    requires rows != []
    ensures ReadFile(Join(Mapped(RowText, rows), CRLF) + CRLF) == Some(Mapped(ReadBack, rows))
    decreases |rows|
  {
    hide ReadRecord, RowText, ReadBack;
    var lines := Mapped(RowText, rows);
    var s := Join(lines, CRLF) + CRLF;
    if |rows| == 1 {
      RowReads(rows[0], CRLF);
      assert s == RowText(rows[0]) + CRLF;
      assert Mapped(ReadBack, rows) == [ReadBack(rows[0])];
    } else {
      assert lines[1..] == Mapped(RowText, rows[1..]);
      var more := Join(Mapped(RowText, rows[1..]), CRLF) + CRLF;
      assert s == RowText(rows[0]) + (CRLF + more);
      RowReads(rows[0], CRLF + more);
      FileReads(rows[1..]);
      assert (CRLF + more)[..2] == CRLF && (CRLF + more)[2..] == more && |CRLF + more| > 2;
    }
  }

  /** The file after its byte order mark reads back as the neutralised cells, whatever they contain; a row without cells
      comes back with one empty cell. */
  lemma CsvRoundTrip(header: seq<Cell>, rows: seq<seq<Cell>>)
    ensures var file := ToCsv(header, rows);
      file[..1] == "\U{FEFF}" && ReadFile(file[1..]) == Some([ReadBack(header)] + Mapped(ReadBack, rows))
  {
    hide ReadFile, ReadBack;
    FileReads([header] + rows);
    var body := Join(Mapped(RowText, [header] + rows), CRLF) + CRLF;
    assert ToCsv(header, rows) == CSV_BOM + body && ToCsv(header, rows)[1..] == body;
    assert ([header] + rows)[1..] == rows;
  }

  /** So it reads back exactly iff no row is empty. */
  lemma WhenCsvIsExact(header: seq<Cell>, rows: seq<seq<Cell>>)
    ensures var shown := [ShownRow(header)] + Mapped(ShownRow, rows);
      ReadFile(ToCsv(header, rows)[1..]) == Some(shown) <==>
      header != [] && forall i :: 0 <= i < |rows| ==> rows[i] != []
  {
    CsvRoundTrip(header, rows);
    hide *;
    RowsMatch(header, rows);
  }

  lemma RowsMatch(header: seq<Cell>, rows: seq<seq<Cell>>)
    ensures [ReadBack(header)] + Mapped(ReadBack, rows) == [ShownRow(header)] + Mapped(ShownRow, rows) <==>
      header != [] && forall i :: 0 <= i < |rows| ==> rows[i] != []
  {
    hide ShownRow, ReadBack;
    var back, exact := Mapped(ReadBack, rows), Mapped(ShownRow, rows);
    ShownIsRead(header);
    forall i | 0 <= i < |rows| ensures rows[i] != [] <==> back[i] == exact[i] { ShownIsRead(rows[i]); }
    HeadAndTail(ReadBack(header), back, ShownRow(header), exact);
  }

  lemma HeadAndTail<T>(a: T, x: seq<T>, b: T, y: seq<T>)
    requires |x| == |y|
    ensures [a] + x == [b] + y <==> a == b && forall i :: 0 <= i < |x| ==> x[i] == y[i]
  {
    assert ([a] + x)[0] == a && ([b] + y)[0] == b && ([a] + x)[1..] == x && ([b] + y)[1..] == y;
  }

  lemma ShownIsRead(row: seq<Cell>)
    ensures row != [] <==> ReadBack(row) == ShownRow(row)
  {
    hide Shown;
  }

  // ----- What a reader finds in a cell -----

  /** Behind nothing but white space stands one of `=`, `+`, `-`, `@`, or the first character is a tab or a CR. */
  ghost predicate Dangerous(s: string) {
    || (exists i :: 0 <= i < |s| && AllSpace(s[..i]) && (s[i] == '=' || s[i] == '+' || s[i] == '-' || s[i] == '@'))
    || (s != "" && (s[0] == '\t' || s[0] == '\r'))
  }

  lemma TrimStep(s: string)
    ensures TrimStart(s) == (if s != "" && IsSpace(s[0]) then TrimStart(s[1..]) else s[0..]) && AllSpace(s[..0])
  {
    hide IsSpace;
  }

  lemma OneMoreSpace(s: string, i: nat)
    requires s != "" && IsSpace(s[0]) && i <= |s| - 1 && AllSpace(s[1..][..i])
    ensures AllSpace(s[..i + 1]) && s[1..][i..] == s[i + 1..] && (i < |s| - 1 ==> s[1..][i] == s[i + 1])
  {
    hide IsSpace;
    assert s[..i + 1] == [s[0]] + s[1..][..i];
  }

  lemma {:induction false} FirstVisible(s: string) returns (i: nat)
    ensures i <= |s| && AllSpace(s[..i]) && TrimStart(s) == s[i..] && (i < |s| ==> !IsSpace(s[i]))
  {
    hide IsSpace, AllSpace, TrimStart;
    i := 0;
    TrimStep(s);
    if s != "" && IsSpace(s[0]) {
      i := FirstVisible(s[1..]);
      OneMoreSpace(s, i);
      i := i + 1;
    }
  }

  lemma SignsAreVisible()
    ensures !IsSpace('=') && !IsSpace('+') && !IsSpace('-') && !IsSpace('@')
  {
  }

  lemma DangerousIsFormula(s: string)
    ensures Dangerous(s) <==> FormulaStart(s)
  {
    hide IsSpace, TrimStart;
    SignsAreVisible();
    var i := FirstVisible(s);
    if k :| 0 <= k < |s| && AllSpace(s[..k]) && (s[k] == '=' || s[k] == '+' || s[k] == '-' || s[k] == '@') {
      if k < i { assert s[..i][k] == s[k]; }
      if i < k { assert s[..k][i] == s[i]; }
    }
  }

  /** A text is shown as it is, and behind an apostrophe exactly if it is dangerous. */
  lemma WhatATextShows(s: string)
    ensures Shown(Text(s)) == if Dangerous(s) then "'" + s else s
  {
    hide Dangerous, FormulaStart;
    DangerousIsFormula(s);
  }

  /** Nothing is shown of a missing value; a date is shown as its ISO text; a list as its items between semicolons. */
  lemma WhatOtherCellsShow(iso: string, items: seq<string>, item: string)
    ensures Shown(Null) == "" && Shown(Date(iso)) == Shown(Text(iso))
    ensures Shown(List([])) == "" && Shown(List([item])) == Shown(Text(item))
    ensures items != [] ==> CellText(List(items + [item])) == CellText(List(items)) + ";" + item
  {
    if items != [] { JoinLast(items, item); }
  }

  lemma {:induction false} JoinLast(items: seq<string>, item: string)
    requires items != []
    ensures Join(items + [item], ";") == Join(items, ";") + ";" + item
  {
    if |items| == 1 {
      assert (items + [item])[1..] == [item];
    } else {
      JoinLast(items[1..], item);
      assert (items + [item])[1..] == items[1..] + [item];
    }
  }

  lemma MarkFirst(header: seq<Cell>, rows: seq<seq<Cell>>)
    ensures |ToCsv(header, rows)| > 0
  {
    hide Join, Mapped;
  }

  lemma CellIsNoFormula(row: seq<Cell>, j: nat)
    requires j < |ReadBack(row)|
    ensures !Dangerous(ReadBack(row)[j])
  {
    hide CellText, Dangerous;
    if row != [] {
      NeutralizedIsNoFormula(CellText(row[j]));
      DangerousIsFormula(Shown(row[j]));
    } else {
      DangerousIsFormula("");
    }
  }

  /** No cell that is read back starts a formula. */
  lemma NothingReadIsAFormula(header: seq<Cell>, rows: seq<seq<Cell>>, i: nat, j: nat)
    requires i <= |rows| && j < |([ReadBack(header)] + Mapped(ReadBack, rows))[i]|
    ensures |ToCsv(header, rows)| > 0 && ReadFile(ToCsv(header, rows)[1..]).Some?
    ensures var table := ReadFile(ToCsv(header, rows)[1..]).value;
      |table| == |rows| + 1 && j < |table[i]| && !Dangerous(table[i][j])
  {
    hide ReadFile, ReadBack, ToCsv, Dangerous;
    CsvRoundTrip(header, rows);
    MarkFirst(header, rows);
    CellIsNoFormula(if i == 0 then header else rows[i - 1], j);
  }

  lemma NeutralizedIsNoFormula(s: string)
    ensures !FormulaStart(NeutralizeFormula(s))
  {
    var t := "'" + s;
    assert t[0] == '\'' && TrimStart(t) == t;
  }
}
