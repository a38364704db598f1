/** The reader for comma-separated attachments, and the quoting of section 2 of RFC 4180 it inverts. */
module CsvRows {
  // It drops every carriage return, also inside quotes, drops a blank last row, and keeps at most 500
  // rows of at most 100 cells; the round trip is exact precisely where none of that bites.

  const MAX_ROWS := 500
  const MAX_CELLS := 100

  type Table = seq<seq<string>>

  // ---- the reader

  datatype Reading = Reading(rows: Table, row: seq<string>, cell: string, quoted: bool)

  /** One character of the loop (two for a doubled quote), on the text that is left. */
  function Read(text: string, s: Reading): Reading
    decreases |text|
  {
    if text == [] then s
    else
      var c := text[0];
      if c == '"' then
        if s.quoted && |text| > 1 && text[1] == '"' then Read(text[2..], s.(cell := s.cell + ['"']))
        else Read(text[1..], s.(quoted := !s.quoted))
      else if c == ',' && !s.quoted then Read(text[1..], s.(row := s.row + [s.cell], cell := []))
      else if c == '\n' && !s.quoted then Read(text[1..], Reading(s.rows + [s.row + [s.cell]], [], [], s.quoted))
      else if c != '\r' then Read(text[1..], s.(cell := s.cell + [c]))
      else Read(text[1..], s)
  }

  predicate HasText(row: seq<string>) {
    exists i :: 0 <= i < |row| && |row[i]| > 0
  }

  function Finish(s: Reading): Table {
    var row := s.row + [s.cell];
    if HasText(row) then s.rows + [row] else s.rows
  }

  function Take<T>(s: seq<T>, n: nat): seq<T> {
    if |s| <= n then s else s[..n]
  }

  function Clip(rows: Table): Table {
    var kept := Take(rows, MAX_ROWS);
    seq(|kept|, i requires 0 <= i < |kept| => Take(kept[i], MAX_CELLS))
  }

  function Fresh(): Reading {
    Reading([], [], [], false)
  }

  function Parse(text: string): Table {
    Clip(Finish(Read(text, Fresh())))
  }

  method ReadRows(value: string) returns (result: Table)
    ensures result == Parse(value)
    ensures |result| <= 500 && forall row :: row in result ==> |row| <= 100
  {
    var rows: Table, row: seq<string>, cell: string, quoted := [], [], [], false;
    var index := 0;
    assert value[0..] == value;
    while index < |value|
      invariant 0 <= index <= |value|
      invariant Read(value, Fresh()) == Read(value[index..], Reading(rows, row, cell, quoted))
    {
      var character := value[index];
      assert value[index..][1..] == value[index + 1..];
      if character == '"' {
        if quoted && index + 1 < |value| && value[index + 1] == '"' {
          assert value[index..][2..] == value[index + 2..];
          cell := cell + ['"'];
          index := index + 1;
        } else {
          quoted := !quoted;
        }
      } else if character == ',' && !quoted {
        row := row + [cell];
        cell := [];
      } else if character == '\n' && !quoted {
        row := row + [cell];
        rows := rows + [row];
        row := [];
        cell := [];
      } else if character != '\r' {
        cell := cell + [character];
      }
      index := index + 1;
    }
    row := row + [cell];
    if HasText(row) {
      rows := rows + [row];
    }
    result := Clip(rows);
  }

  // ---- the writer: any mixture of quoted and plain cells that the format allows

  datatype Cell = Cell(text: string, quoted: bool)

  function Doubled(text: string): string {
    if text == [] then []
    else (if text[0] == '"' then "\"\"" else [text[0]]) + Doubled(text[1..])
  }

  predicate Plain(text: string) {
    forall c :: c in text ==> c != '"' && c != ',' && c != '\n'
  }

  function WriteCell(cell: Cell): string {
    if cell.quoted then ['"'] + (Doubled(cell.text) + ['"']) else cell.text
  }

  function WriteRow(cells: seq<Cell>): string {
    if cells == [] then []
    else if |cells| == 1 then WriteCell(cells[0])
    else WriteCell(cells[0]) + ([','] + WriteRow(cells[1..]))
  }

  function Write(table: seq<seq<Cell>>): string {
    if table == [] then []
    else if |table| == 1 then WriteRow(table[0])
    else WriteRow(table[0]) + (['\n'] + Write(table[1..]))
  }

  /** Rows have cells, and only cells without special characters stand unquoted. */
  predicate Writable(table: seq<seq<Cell>>) {
    forall i :: 0 <= i < |table| ==> table[i] != [] && WritableRow(table[i])
  }

  predicate WritableRow(cells: seq<Cell>) {
    forall i :: 0 <= i < |cells| ==> cells[i].quoted || Plain(cells[i].text)
  }

  // ---- reading what was written

  function WithoutCr(text: string): string {
    if text == [] then [] else (if text[0] == '\r' then [] else [text[0]]) + WithoutCr(text[1..])
  }

  function Values(cells: seq<Cell>): seq<string> {
    seq(|cells|, i requires 0 <= i < |cells| => WithoutCr(cells[i].text))
  }

  function TableValues(table: seq<seq<Cell>>): Table {
    seq(|table|, i requires 0 <= i < |table| => Values(table[i]))
  }

  function Kept(c: char): string {
    if c == '\r' then [] else [c]
  }

  lemma WithoutCrFront(text: string, cell: string)
    requires text != []
    ensures cell + WithoutCr(text) == cell + Kept(text[0]) + WithoutCr(text[1..])
  {
  }

  /** Inside quotes one character of the cell is read back from its one or two characters. */
  lemma {:induction false} StepQuoted(c: char, after: string, s: Reading)
    requires s.quoted
    ensures Read((if c == '"' then "\"\"" else [c]) + after, s) == Read(after, s.(cell := s.cell + Kept(c)))
  {
    var spelled := if c == '"' then "\"\"" else [c];
    var all := spelled + after;
    assert all[|spelled|..] == after;
    assert all[0] == c;
    assert s.cell + [] == s.cell;
  }

  lemma {:induction false} StepPlain(c: char, after: string, s: Reading)
    requires !s.quoted && c != '"' && c != ',' && c != '\n'
    ensures Read([c] + after, s) == Read(after, s.(cell := s.cell + Kept(c)))
  {
    assert ([c] + after)[1..] == after;
    assert s.cell + [] == s.cell;
  }

  lemma {:induction false} ReadDoubled(text: string, rest: string, s: Reading)
    requires s.quoted
    ensures Read(Doubled(text) + rest, s) == Read(rest, s.(cell := s.cell + WithoutCr(text)))
    decreases |text|
  {
    if text == [] {
      assert Doubled(text) + rest == rest;
      assert s.cell + WithoutCr(text) == s.cell;
    } else {
      var spelled, after := if text[0] == '"' then "\"\"" else [text[0]], Doubled(text[1..]) + rest;
      assert Doubled(text) + rest == spelled + after;
      StepQuoted(text[0], after, s);
      ReadDoubled(text[1..], rest, s.(cell := s.cell + Kept(text[0])));
      WithoutCrFront(text, s.cell);
    }
  }

  lemma {:induction false} ReadPlain(text: string, rest: string, s: Reading)
    requires !s.quoted && Plain(text)
    ensures Read(text + rest, s) == Read(rest, s.(cell := s.cell + WithoutCr(text)))
    decreases |text|
  {
    if text == [] {
      assert text + rest == rest;
      assert s.cell + WithoutCr(text) == s.cell;
    } else {
      assert text[0] in text && forall d :: d in text[1..] ==> d in text;
      assert text + rest == [text[0]] + (text[1..] + rest);
      StepPlain(text[0], text[1..] + rest, s);
      ReadPlain(text[1..], rest, s.(cell := s.cell + Kept(text[0])));
      WithoutCrFront(text, s.cell);
    }
  }

  predicate EndsCell(rest: string) {
    rest == [] || rest[0] == ',' || rest[0] == '\n'
  }

  lemma {:induction false} ReadCell(cell: Cell, rest: string, s: Reading)
    requires !s.quoted && s.cell == [] && EndsCell(rest) && (cell.quoted || Plain(cell.text))
    ensures Read(WriteCell(cell) + rest, s) == Read(rest, s.(cell := WithoutCr(cell.text)))
  {
    var text := WithoutCr(cell.text);
    assert [] + text == text;
    if cell.quoted {
      var close := ['"'] + rest;
      var body := Doubled(cell.text) + close;
      assert WriteCell(cell) + rest == ['"'] + body;
      assert (['"'] + body)[1..] == body;
      ReadDoubled(cell.text, close, s.(quoted := true));
      assert close[1..] == rest;
    } else {
      ReadPlain(cell.text, rest, s);
    }
  }

  lemma {:induction false} StepComma(after: string, s: Reading)
    requires !s.quoted
    ensures Read([','] + after, s) == Read(after, s.(row := s.row + [s.cell], cell := []))
  {
    assert ([','] + after)[1..] == after;
  }

  lemma {:induction false} StepNewline(after: string, s: Reading)
    requires !s.quoted
    ensures Read(['\n'] + after, s) == Read(after, Reading(s.rows + [s.row + [s.cell]], [], [], false))
  {
    assert (['\n'] + after)[1..] == after;
  }

  /** The reading after a row whose end has not been seen: its last cell is still open. */
  function OpenRow(rows: Table, row: seq<string>, values: seq<string>): Reading
    requires values != []
  {
    Reading(rows, row + values[..|values| - 1], values[|values| - 1], false)
  }

  lemma OpenRowFront(rows: Table, row: seq<string>, values: seq<string>)
    requires |values| > 1
    ensures OpenRow(rows, row + [values[0]], values[1..]) == OpenRow(rows, row, values)
  {
    assert row + [values[0]] + values[1..][..|values| - 2] == row + values[..|values| - 1];
  }

  lemma {:induction false} RowFront(cells: seq<Cell>, rest: string)
    requires |cells| > 1
    ensures WriteRow(cells) + rest == WriteCell(cells[0]) + ([','] + (WriteRow(cells[1..]) + rest))
    ensures Values(cells) == [WithoutCr(cells[0].text)] + Values(cells[1..])
    ensures Values(cells[1..]) == Values(cells)[1..]
  {
  }

  lemma {:induction false} TableFront(table: seq<seq<Cell>>)
    requires |table| > 1
    ensures TableValues(table) == [Values(table[0])] + TableValues(table[1..])
    ensures TableValues(table[1..]) == TableValues(table)[1..]
  {
  }

  lemma {:induction false} ReadRow(cells: seq<Cell>, rest: string, rows: Table, row: seq<string>)
    requires cells != [] && WritableRow(cells) && (rest == [] || rest[0] == '\n')
    ensures Read(WriteRow(cells) + rest, Reading(rows, row, [], false)) == Read(rest, OpenRow(rows, row, Values(cells)))
    decreases |cells|
  {
    var values, s := Values(cells), Reading(rows, row, [], false);
    if |cells| == 1 {
      ReadCell(cells[0], rest, s);
      assert row + values[..0] == row;
    } else {
      var more := WriteRow(cells[1..]) + rest;
      RowFront(cells, rest);
      ReadCell(cells[0], [','] + more, s);
      StepComma(more, s.(cell := values[0]));
      ReadRow(cells[1..], rest, rows, row + [values[0]]);
      OpenRowFront(rows, row, values);
    }
  }

  /** All rows but the last are complete; the last one is still open. */
  function OpenTable(rows: Table, values: Table): Reading
    requires values != [] && values[|values| - 1] != []
  {
    OpenRow(rows + values[..|values| - 1], [], values[|values| - 1])
  }

  lemma OpenTableFront(rows: Table, values: Table)
    requires |values| > 1 && values[|values| - 1] != []
    ensures OpenTable(rows + [values[0]], values[1..]) == OpenTable(rows, values)
  {
    assert rows + [values[0]] + values[1..][..|values| - 2] == rows + values[..|values| - 1];
  }

  lemma {:induction false} ReadFullRow(cells: seq<Cell>, more: string, rows: Table)
    requires cells != [] && WritableRow(cells)
    ensures Read(WriteRow(cells) + (['\n'] + more), Reading(rows, [], [], false)) == Read(more, Reading(rows + [Values(cells)], [], [], false))
  {
    var first := Values(cells);
    ReadRow(cells, ['\n'] + more, rows, []);
    StepNewline(more, OpenRow(rows, [], first));
    assert [] + first[..|first| - 1] + [first[|first| - 1]] == first;
  }

  lemma {:induction false} ReadTable(table: seq<seq<Cell>>, rows: Table)
    requires table != [] && Writable(table)
    ensures Read(Write(table), Reading(rows, [], [], false)) == OpenTable(rows, TableValues(table))
    decreases |table|
  {
    var values := TableValues(table);
    var first := values[0];
    assert table[0] != [] && WritableRow(table[0]);
    if |table| == 1 {
      ReadRow(table[0], [], rows, []);
      assert WriteRow(table[0]) + [] == WriteRow(table[0]);
      assert rows + values[..0] == rows;
    } else {
      ReadFullRow(table[0], Write(table[1..]), rows);
      TableFront(table);
      ReadTable(table[1..], rows + [first]);
      OpenTableFront(rows, values);
    }
  }

  function DropBlankLast(rows: Table): Table {
    if rows == [] || HasText(rows[|rows| - 1]) then rows else rows[..|rows| - 1]
  }

  lemma FinishOpenTable(values: Table)
    requires values != [] && values[|values| - 1] != []
    ensures Finish(OpenTable([], values)) == DropBlankLast(values)
  {
    var last := values[|values| - 1];
    assert [] + last[..|last| - 1] + [last[|last| - 1]] == last;
    assert [] + values[..|values| - 1] == values[..|values| - 1];
    assert values[..|values| - 1] + [last] == values;
  }

  /** What reading gives back, for every table and every admissible choice of quotes. */
  lemma {:induction false} ParseWrite(table: seq<seq<Cell>>)
    requires Writable(table)
    ensures Parse(Write(table)) == Clip(DropBlankLast(TableValues(table)))
  {
    if table == [] {
      assert Read([], Fresh()) == Fresh();
      assert !HasText([[]]);
      assert Fresh().row + [Fresh().cell] == [[]];
    } else {
      ReadTable(table, []);
      FinishOpenTable(TableValues(table));
    }
  }

  // ---- the round trip

  function Quoted(rows: Table): seq<seq<Cell>> {
    seq(|rows|, i requires 0 <= i < |rows| => seq(|rows[i]|, j requires 0 <= j < |rows[i]| => Cell(rows[i][j], true)))
  }

  predicate Fits(rows: Table) {
    && |rows| <= 500
    && forall i :: 0 <= i < |rows| ==> |rows[i]| <= 100
  }

  predicate CrFree(rows: Table) {
    forall i, j :: 0 <= i < |rows| && 0 <= j < |rows[i]| ==> '\r' !in rows[i][j]
  }

  lemma WithoutCrSame(text: string)
    ensures |WithoutCr(text)| <= |text|
    ensures WithoutCr(text) == text <==> '\r' !in text
  {
    if text != [] {
      WithoutCrSame(text[1..]);
      assert text == [text[0]] + text[1..];
      if text[0] == '\r' {
        assert |WithoutCr(text)| < |text|;
      } else if WithoutCr(text) == text {
        assert WithoutCr(text)[1..] == WithoutCr(text[1..]);
      }
    }
  }

  predicate NoEmptyRow(rows: Table) {
    forall i :: 0 <= i < |rows| ==> rows[i] != []
  }

  lemma {:induction false} ReadRowsHaveCells(text: string, s: Reading)
    requires NoEmptyRow(s.rows)
    ensures NoEmptyRow(Read(text, s).rows)
    decreases |text|
  {
    if text != [] {
      var c := text[0];
      if c == '"' && s.quoted && |text| > 1 && text[1] == '"' {
        ReadRowsHaveCells(text[2..], s.(cell := s.cell + ['"']));
      } else if c == '"' {
        ReadRowsHaveCells(text[1..], s.(quoted := !s.quoted));
      } else if c == ',' && !s.quoted {
        ReadRowsHaveCells(text[1..], s.(row := s.row + [s.cell], cell := []));
      } else if c == '\n' && !s.quoted {
        ReadRowsHaveCells(text[1..], Reading(s.rows + [s.row + [s.cell]], [], [], s.quoted));
      } else if c != '\r' {
        ReadRowsHaveCells(text[1..], s.(cell := s.cell + [c]));
      } else {
        ReadRowsHaveCells(text[1..], s);
      }
    }
  }

  /** Whatever is read, every row has at least one cell. */
  lemma ParsedRowsHaveCells(text: string)
    ensures NoEmptyRow(Parse(text))
  {
    ReadRowsHaveCells(text, Fresh());
  }

  /** Reading the fully quoted text gives the table back exactly under this condition on the table. */
  lemma RoundTrip(rows: Table)
    ensures Parse(Write(Quoted(rows))) == rows
       <==> NoEmptyRow(rows) && Fits(rows) && CrFree(rows) && (rows != [] ==> HasText(rows[|rows| - 1]))
  {
    ParsedRowsHaveCells(Write(Quoted(rows)));
    if NoEmptyRow(rows) {
      RoundTripOfRows(rows);
    }
  }

  lemma RoundTripOfRows(rows: Table)
    requires NoEmptyRow(rows)
    ensures Parse(Write(Quoted(rows))) == rows
       <==> Fits(rows) && CrFree(rows) && (rows != [] ==> HasText(rows[|rows| - 1]))
  {
    var table := Quoted(rows);
    var values := TableValues(table);
    ParseWrite(table);
    forall i, j | 0 <= i < |rows| && 0 <= j < |rows[i]|
      ensures values[i][j] == WithoutCr(rows[i][j]) && (values[i][j] == rows[i][j] <==> '\r' !in rows[i][j])
    {
      WithoutCrSame(rows[i][j]);
    }
    var read := Clip(DropBlankLast(values));
    if Fits(rows) && CrFree(rows) && (rows != [] ==> HasText(rows[|rows| - 1])) {
      SameTable(values, rows);
      assert read == rows;
    }
    if read == rows {
      assert |values| == |rows| && DropBlankLast(values) == values;
      forall i | 0 <= i < |rows| ensures |rows[i]| <= MAX_CELLS && values[i] == rows[i] {
        assert read[i] == Take(values[i], MAX_CELLS);
      }
      SameTable(values, rows);
    }
  }

  lemma SameTable(a: Table, b: Table)
    requires |a| == |b| && forall i :: 0 <= i < |a| ==> |a[i]| == |b[i]| && forall j :: 0 <= j < |a[i]| ==> a[i][j] == b[i][j]
    ensures a == b
  {
    forall i | 0 <= i < |a| ensures a[i] == b[i] {
    }
  }
}
