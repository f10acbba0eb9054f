/** The table's CSV download and a reader for section 2 of RFC 4180: what is
    printed reads back as the table, cell for cell. */
module CsvExport {
  import opened Wrappers

  type Row = seq<Option<string>>

  const BOM := "\U{FEFF}"

  const CRLF := "\r\n"

  // ---- printing ------------------------------------------------------------

  predicate IsFormulaStart(c: char) {
    c == '=' || c == '+' || c == '-' || c == '@'
  }

  predicate IsSpecial(c: char) {
    c == '"' || c == ',' || c == '\r' || c == '\n'
  }

  predicate NeedsQuotes(s: string) {
    exists i :: 0 <= i < |s| && IsSpecial(s[i])
  }

  /** A missing value is empty; a value a spreadsheet would run gets a leading
      apostrophe. */
  function Guarded(value: Option<string>): string {
    var s := if value.None? then "" else value.value;
    if s != "" && IsFormulaStart(s[0]) then "'" + s else s
  }

  function Escape(s: string): string {
    if s == "" then "" else (if s[0] == '"' then "\"\"" else [s[0]]) + Escape(s[1..])
  }

  function Encode(s: string): string {
    if NeedsQuotes(s) then "\"" + Escape(s) + "\"" else s
  }

  method CsvCell(value: Option<string>) returns (s: string)
    ensures s == Encode(Guarded(value))
  {
    s := if value.None? then "" else value.value;
    if s != "" && IsFormulaStart(s[0]) { s := "'" + s; }
    if exists i :: 0 <= i < |s| && IsSpecial(s[i]) { s := "\"" + Escape(s) + "\""; }
  }

  function GuardedRow(row: Row): seq<string> {
    seq(|row|, i requires 0 <= i < |row| => Guarded(row[i]))
  }

  function Join(parts: seq<string>, separator: string): string {
    if parts == [] then ""
    else if |parts| == 1 then parts[0]
    else parts[0] + separator + Join(parts[1..], separator)
  }

  function EncodeRow(cells: seq<string>): string {
    Join(seq(|cells|, i requires 0 <= i < |cells| => Encode(cells[i])), ",")
  }

  function EncodeRows(table: seq<seq<string>>): string {
    Join(seq(|table|, i requires 0 <= i < |table| => EncodeRow(table[i])), CRLF)
  }

  function EncodeTable(table: seq<seq<string>>): string {
    BOM + EncodeRows(table)
  }

  /** The header and the rows as a spreadsheet should show them. */
  function GuardedTable(columns: Row, rows: seq<Row>): seq<seq<string>> {
    [GuardedRow(columns)] + seq(|rows|, i requires 0 <= i < |rows| => GuardedRow(rows[i]))
  }

  method PrintRow(row: Row) returns (line: string)
    ensures line == EncodeRow(GuardedRow(row))
  {
    var cells: seq<string> := [];
    for i := 0 to |row|
      invariant |cells| == i && forall k :: 0 <= k < i ==> cells[k] == Encode(Guarded(row[k]))
    {
      var cell := CsvCell(row[i]);
      cells := cells + [cell];
    }
    assert cells == seq(|row|, i requires 0 <= i < |row| => Encode(GuardedRow(row)[i]));
    return Join(cells, ",");
  }

  method DownloadCsv(columns: Row, rows: seq<Row>) returns (text: string)
    ensures text == EncodeTable(GuardedTable(columns, rows))
  {
    var header := PrintRow(columns);
    var lines := [header];
    for r := 0 to |rows|
      invariant |lines| == r + 1 && forall k :: 0 <= k <= r ==> lines[k] == EncodeRow(GuardedTable(columns, rows)[k])
    {
      var line := PrintRow(rows[r]);
      lines := lines + [line];
    }
    var table := GuardedTable(columns, rows);
    assert lines == seq(|table|, i requires 0 <= i < |table| => EncodeRow(table[i]));
    return BOM + Join(lines, CRLF);
  }

  // ---- reading -------------------------------------------------------------

  datatype FieldRead = Field(value: string, rest: string) | BadField

  predicate AtCrlf(s: string) {
    |s| >= 2 && s[0] == '\r' && s[1] == '\n'
  }

  predicate AtFieldEnd(s: string) {
    s == "" || s[0] == ',' || AtCrlf(s)
  }

  function Prefixed(c: char, r: FieldRead): FieldRead {
    match r
    case BadField => BadField
    case Field(value, rest) => Field([c] + value, rest)
  }

  function ReadPlain(s: string): (r: FieldRead)
    ensures r.Field? ==> |r.rest| <= |s|
  {
    if AtFieldEnd(s) then Field("", s)
    else if IsSpecial(s[0]) then BadField
    else Prefixed(s[0], ReadPlain(s[1..]))
  }

  function ReadQuoted(s: string): (r: FieldRead)
    ensures r.Field? ==> |r.rest| <= |s|
    decreases |s|
  {
    if s == "" then BadField
    else if s[0] != '"' then Prefixed(s[0], ReadQuoted(s[1..]))
    else if |s| > 1 && s[1] == '"' then Prefixed('"', ReadQuoted(s[2..]))
    else Field("", s[1..])
  }

  function ReadField(s: string): (r: FieldRead)
    ensures r.Field? ==> |r.rest| <= |s|
  {
    if s != "" && s[0] == '"' then ReadQuoted(s[1..]) else ReadPlain(s)
  }

  datatype RecordRead = Record(cells: seq<string>, rest: string) | BadRecord

  function ReadRecord(s: string): (r: RecordRead)
    ensures r.Record? ==> |r.rest| <= |s| && r.cells != [] && (r.rest == "" || AtCrlf(r.rest))
    decreases |s|
  {
    match ReadField(s)
    case BadField => BadRecord
    case Field(value, rest) =>
      if rest == "" || AtCrlf(rest) then Record([value], rest)
      else if rest[0] != ',' then BadRecord
      else
        match ReadRecord(rest[1..])
        case BadRecord => BadRecord
        case Record(cells, rest') => Record([value] + cells, rest')
  }

  /** Records are separated by line breaks; the last one may have one too. */
  function ReadRecords(s: string): (r: Option<seq<seq<string>>>)
    ensures r.Some? ==> forall k :: 0 <= k < |r.value| ==> r.value[k] != []
    decreases |s|
  {
    match ReadRecord(s)
    case BadRecord => None
    case Record(cells, rest) =>
      if rest == "" || rest == CRLF then Some([cells])
      else
        match ReadRecords(rest[2..])
        case None => None
        case Some(more) => Some([cells] + more)
  }

  function ReadCsv(text: string): Option<seq<seq<string>>> {
    if |text| >= |BOM| && text[..|BOM|] == BOM then ReadRecords(text[|BOM|..]) else ReadRecords(text)
  }

  // ---- reading what was printed --------------------------------------------

  lemma ReadEscapedStep(c: char, text: string)
    ensures ReadQuoted((if c == '"' then "\"\"" else [c]) + text) == Prefixed(c, ReadQuoted(text))
  {
    if c == '"' {
      assert ("\"\"" + text)[2..] == text;
    } else {
      assert ([c] + text)[1..] == text;
    }
  }

  lemma {:induction false} ReadEscaped(s: string, tail: string)
    requires tail == "" || tail[0] != '"'
    ensures ReadQuoted(Escape(s) + "\"" + tail) == Field(s, tail)
  {
    if s == "" {
      assert Escape(s) + "\"" + tail == "\"" + tail;
      assert ("\"" + tail)[1..] == tail;
    } else {
      hide ReadQuoted;
      ReadEscaped(s[1..], tail);
      ReadEscapedStep(s[0], Escape(s[1..]) + "\"" + tail);
      assert Escape(s) + "\"" + tail == (if s[0] == '"' then "\"\"" else [s[0]]) + (Escape(s[1..]) + "\"" + tail);
      assert [s[0]] + s[1..] == s;
    }
  }

  lemma {:induction false} ReadUnquoted(s: string, tail: string)
    requires AtFieldEnd(tail) && forall i :: 0 <= i < |s| ==> !IsSpecial(s[i])
    ensures ReadPlain(s + tail) == Field(s, tail)
  {
    if s == "" {
      assert s + tail == tail;
    } else {
      assert (s + tail)[0] == s[0] && (s + tail)[1..] == s[1..] + tail;
      assert !AtFieldEnd(s + tail);
      ReadUnquoted(s[1..], tail);
      assert [s[0]] + s[1..] == s;
    }
  }

  /** Whatever commas, quotes or line breaks a cell holds, it reads back. */
  lemma ReadCell(s: string, tail: string)
    requires AtFieldEnd(tail)
    ensures ReadField(Encode(s) + tail) == Field(s, tail)
  {
    hide ReadPlain, ReadQuoted, Escape;
    var text := Encode(s) + tail;
    if NeedsQuotes(s) {
      assert text == "\"" + (Escape(s) + "\"" + tail);
      assert text[1..] == Escape(s) + "\"" + tail;
      ReadEscaped(s, tail);
    } else {
      assert forall i :: 0 <= i < |s| ==> !IsSpecial(s[i]);
      ReadUnquoted(s, tail);
      assert text != "" ==> text[0] != '"' by {
        if s != "" { assert text[0] == s[0]; } else { assert text == tail; }
      }
    }
  }

  lemma RowUnfolds(cells: seq<string>)
    requires cells != []
    ensures EncodeRow(cells) == if |cells| == 1 then Encode(cells[0]) else Encode(cells[0]) + "," + EncodeRow(cells[1..])
  {
    var encoded := seq(|cells|, i requires 0 <= i < |cells| => Encode(cells[i]));
    assert encoded[1..] == seq(|cells| - 1, i requires 0 <= i < |cells| - 1 => Encode(cells[1..][i]));
  }

  lemma {:induction false} ReadRow(cells: seq<string>, tail: string)
    requires cells != [] && (tail == "" || AtCrlf(tail))
    ensures ReadRecord(EncodeRow(cells) + tail) == Record(cells, tail)
  {
    hide ReadField, Encode, EncodeRow;
    RowUnfolds(cells);
    if |cells| == 1 {
      ReadCell(cells[0], tail);
      assert [cells[0]] == cells;
    } else {
      var rest := "," + (EncodeRow(cells[1..]) + tail);
      assert EncodeRow(cells) + tail == Encode(cells[0]) + rest;
      ReadCell(cells[0], rest);
      assert rest[1..] == EncodeRow(cells[1..]) + tail;
      ReadRow(cells[1..], tail);
      assert [cells[0]] + cells[1..] == cells;
    }
  }

  lemma TableUnfolds(table: seq<seq<string>>)
    requires table != []
    ensures EncodeRows(table) == if |table| == 1 then EncodeRow(table[0]) else EncodeRow(table[0]) + CRLF + EncodeRows(table[1..])
  {
    var encoded := seq(|table|, i requires 0 <= i < |table| => EncodeRow(table[i]));
    assert encoded[1..] == seq(|table| - 1, i requires 0 <= i < |table| - 1 => EncodeRow(table[1..][i]));
  }

  /** The last row would print as nothing, which a reader takes for the optional
      final line break. */
  predicate EndsBlank(table: seq<seq<string>>) {
    |table| > 1 && table[|table| - 1] == [""]
  }

  ghost predicate NoEmptyRow(table: seq<seq<string>>) {
    forall i :: 0 <= i < |table| ==> table[i] != []
  }

  lemma BlankRow(cells: seq<string>)
    requires cells != []
    ensures EncodeRow(cells) == "" <==> cells == [""]
  {
    RowUnfolds(cells);
    assert Encode(cells[0]) == "" <==> cells[0] == "" by {
      if NeedsQuotes(cells[0]) { assert |Encode(cells[0])| >= 2; }
    }
    if |cells| == 1 { assert cells == [cells[0]]; }
  }

  lemma {:induction false} TableIsBlank(table: seq<seq<string>>)
    requires table != [] && NoEmptyRow(table)
    ensures EncodeRows(table) == "" <==> table == [[""]]
  {
    TableUnfolds(table);
    BlankRow(table[0]);
    if |table| == 1 { assert table == [table[0]]; }
  }

  /** Reading back a table without empty rows: all of it, or all but a last blank
      row. */
  lemma {:induction false} ReadTable(table: seq<seq<string>>)
    requires table != [] && NoEmptyRow(table)
    ensures ReadRecords(EncodeRows(table)) == Some(if EndsBlank(table) then table[..|table| - 1] else table)
  {
    hide EncodeRows, EncodeRow, ReadRecord, Join, Encode;
    TableUnfolds(table);
    if |table| == 1 {
      assert EncodeRows(table) == EncodeRow(table[0]) + "";
      ReadRow(table[0], "");
      assert [table[0]] == table;
    } else {
      var rest := table[1..];
      var tail := CRLF + EncodeRows(rest);
      assert EncodeRows(table) == EncodeRow(table[0]) + tail;
      ReadRow(table[0], tail);
      TableIsBlank(rest);
      assert tail[2..] == EncodeRows(rest);
      assert [table[0]] + rest == table;
      if EncodeRows(rest) == "" {
        assert rest == [[""]];
        assert table[..|table| - 1] == [table[0]];
      } else {
        ReadTable(rest);
        if EndsBlank(rest) { assert [table[0]] + rest[..|rest| - 1] == table[..|table| - 1]; }
      }
    }
  }

  lemma StripBom(text: string)
    ensures ReadCsv(BOM + text) == ReadRecords(text) && BOM == "\U{FEFF}"
  {
    assert (BOM + text)[..|BOM|] == BOM && (BOM + text)[|BOM|..] == text;
  }

  /** The row as a spreadsheet should show it: each value as it is, with an apostrophe in
      front of one it would run, and what is missing as nothing. */
  ghost predicate ShowsRow(row: Row, cells: seq<string>) {
    && |cells| == |row|
    && forall c :: 0 <= c < |row| ==>
         match row[c]
         case None => cells[c] == ""
         case Some(value) => cells[c] == if IsHarmless(value) then value else "'" + value
  }

  /** Main result: the printed table reads back as the guarded table exactly when
      no row is without cells and the last row is not a single empty cell. */
  lemma PrintedTableReadsBack(columns: Row, rows: seq<Row>)
    ensures var table := GuardedTable(columns, rows);
            && (ReadCsv(EncodeTable(table)) == Some(table) <==> NoEmptyRow(table) && !EndsBlank(table))
            && |table| == |rows| + 1 && ShowsRow(columns, table[0]) && forall r :: 0 <= r < |rows| ==> ShowsRow(rows[r], table[r + 1])
  {
    hide ReadRecords, GuardedTable, EncodeRow;
    var table := GuardedTable(columns, rows);
    GuardedTableShows(columns, rows);
    StripBom(EncodeRows(table));
    if NoEmptyRow(table) {
      ReadTable(table);
    } else {
      NeverAnEmptyRow(EncodeRows(table));
    }
  }

  lemma GuardedTableShows(columns: Row, rows: seq<Row>)
    ensures var table := GuardedTable(columns, rows);
            && |table| == |rows| + 1 && ShowsRow(columns, table[0]) && forall r :: 0 <= r < |rows| ==> ShowsRow(rows[r], table[r + 1])
  {
  }

  lemma NeverAnEmptyRow(text: string)
    ensures ReadRecords(text).Some? ==> NoEmptyRow(ReadRecords(text).value)
  {
  }

  /** In particular every table of two or more columns, whatever is in it. */
  lemma WideTableReadsBack(columns: Row, rows: seq<Row>)
    requires |columns| >= 2 && forall i :: 0 <= i < |rows| ==> |rows[i]| == |columns|
    ensures ReadCsv(EncodeTable(GuardedTable(columns, rows))) == Some(GuardedTable(columns, rows))
  {
    hide ReadCsv, EncodeTable;
    PrintedTableReadsBack(columns, rows);
    var table := GuardedTable(columns, rows);
    assert forall i :: 0 <= i < |table| ==> |table[i]| == |columns|;
  }

  // ---- what the guard is for -----------------------------------------------

  /** A spreadsheet takes no such cell for a formula. */
  ghost predicate IsHarmless(cell: string) {
    cell == "" || (cell[0] != '=' && cell[0] != '+' && cell[0] != '-' && cell[0] != '@')
  }

  ghost predicate AllHarmless(table: seq<seq<string>>) {
    forall r, c :: 0 <= r < |table| && 0 <= c < |table[r]| ==> IsHarmless(table[r][c])
  }

  /** A cell is shown as it is, with an apostrophe in front exactly when it would be taken
      for a formula; what is missing is shown as nothing. */
  lemma GuardSays(value: string)
    ensures Guarded(Some(value)) == (if IsHarmless(value) then value else "'" + value) && Guarded(None) == ""
    ensures IsHarmless(Guarded(Some(value)))
  {
  }

  /** A cell is quoted exactly when it holds a quote, a comma or a line break. */
  lemma QuotingSays(s: string)
    ensures Encode(s) == s <==> forall i :: 0 <= i < |s| ==> s[i] != '"' && s[i] != ',' && s[i] != '\r' && s[i] != '\n'
  {
    if NeedsQuotes(s) { EscapeGrows(s); }
  }

  lemma {:induction false} EscapeGrows(s: string)
    ensures |Escape(s)| >= |s|
  {
    if s != "" { EscapeGrows(s[1..]); }
  }

  /** A row without cells prints like one with a single blank cell. */
  function Filled(table: seq<seq<string>>): (filled: seq<seq<string>>)
    ensures |filled| == |table| && NoEmptyRow(filled)
  {
    seq(|table|, i requires 0 <= i < |table| => if table[i] == [] then [""] else table[i])
  }

  lemma FilledPrintsAlike(table: seq<seq<string>>)
    ensures EncodeRows(Filled(table)) == EncodeRows(table)
  {
    hide Join, Encode;
    BlankPrints();
    var a, b := seq(|table|, i requires 0 <= i < |table| => EncodeRow(Filled(table)[i])),
                seq(|table|, i requires 0 <= i < |table| => EncodeRow(table[i]));
    assert forall i :: 0 <= i < |table| ==> a[i] == b[i];
    assert a == b;
  }

  lemma BlankPrints()
    ensures EncodeRow([""]) == EncodeRow([])
  {
    assert seq(1, i requires 0 <= i < 1 => Encode([""][i])) == [""];
  }

  /** Main result on the guard: whatever the table holds, no cell that is read back from
      the file starts with a character a spreadsheet takes for a formula. */
  lemma NothingReadsAsFormula(columns: Row, rows: seq<Row>)
    ensures var read := ReadCsv(EncodeTable(GuardedTable(columns, rows))); read.Some? ==> AllHarmless(read.value)
  {
    hide ReadRecords, EncodeRows, IsHarmless, Guarded;
    var table := GuardedTable(columns, rows);
    forall value: Option<string> ensures IsHarmless(Guarded(value)) {
      GuardSays(if value.Some? then value.value else "");
      BlankIsHarmless();
    }
    BlankIsHarmless();
    assert AllHarmless(Filled(table));
    StripBom(EncodeRows(table));
    FilledPrintsAlike(table);
    ReadTable(Filled(table));
  }

  lemma BlankIsHarmless()
    ensures IsHarmless("")
  {
  }
}
