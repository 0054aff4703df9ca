/**
 Audience lists as CSV: the parser, the printer, and the import built on them
 (quoting as in section 2 of RFC 4180).
 */
module AudienceCsv {
  import opened Text

  datatype Result<+T> = Ok(value: T) | Error(message: string)

  // ---------------------------------------------------------------- the parser

  /** What the parser has read so far: whole rows, the row and the cell it is in, and whether inside quotes. */
  datatype Reading = Reading(rows: seq<seq<string>>, row: seq<string>, cell: string, quoted: bool)

  const NOTHING: Reading := Reading([], [], "", false)

  function DropReturn(s: string): string {
    if s != "" && s[|s| - 1] == '\r' then s[..|s| - 1] else s
  }

  function DropMark(s: string): string {
    if s != "" && s[0] == '\U{FEFF}' then s[1..] else s
  }

  /** One character that is not the first of a doubled quote. */
  function Next(c: char, r: Reading): Reading {
    if r.quoted then
      if c == '"' then r.(quoted := false) else r.(cell := r.cell + [c])
    else if c == '"' then r.(quoted := true)
    else if c == ',' then r.(row := r.row + [r.cell], cell := "")
    else if c == '\n' then Reading(r.rows + [r.row + [DropReturn(r.cell)]], [], "", false)
    else r.(cell := r.cell + [c])
  }

  /** Read all of `s`, one character at a time (two for a doubled quote). */
  function Read(s: string, r: Reading): Reading {
    if s == "" then r
    else if r.quoted && s[0] == '"' && |s| > 1 && s[1] == '"' then Read(s[2..], r.(cell := r.cell + "\""))
    else Read(s[1..], Next(s[0], r))
  }

  predicate AllEmpty(row: seq<string>) {
    forall i | 0 <= i < |row| :: row[i] == ""
  }

  /** The last row counts unless it is all empty and not the only one. */
  function Finish(r: Reading): seq<seq<string>> {
    var row := r.row + [DropReturn(r.cell)];
    if !AllEmpty(row) || r.rows == [] then r.rows + [row] else r.rows
  }

  function Parse(text: string): seq<seq<string>> {
    Finish(Read(DropMark(text), NOTHING))
  }

  method ParseCsv(text: string) returns (rows: seq<seq<string>>)
    ensures rows == Parse(text)
  {
    var input := DropMark(text);
    rows := [];
    var row, cell, quoted := [], "", false;
    var i := 0;
    while i < |input|
      invariant 0 <= i <= |input|
      invariant Read(input, NOTHING) == Read(input[i..], Reading(rows, row, cell, quoted))
    {
      var c := input[i];
      assert input[i..][1..] == input[i + 1..];
      if quoted {
        if c == '"' && i + 1 < |input| && input[i + 1] == '"' {
          assert input[i..][2..] == input[i + 2..];
          cell := cell + "\"";
          i := i + 1;
        } else if c == '"' {
          quoted := false;
        } else {
          cell := cell + [c];
        }
      } else if c == '"' {
        quoted := true;
      } else if c == ',' {
        row := row + [cell];
        cell := "";
      } else if c == '\n' {
        rows := rows + [row + [DropReturn(cell)]];
        row, cell := [], "";
      } else {
        cell := cell + [c];
      }
      i := i + 1;
    }
    row := row + [DropReturn(cell)];
    if rows == [] || exists k | 0 <= k < |row| :: row[k] != "" {
      rows := rows + [row];
    }
  }

  // ---------------------------------------------------------------- the printer

  function DoubleQuotes(s: string): string {
    if s == "" then "" else (if s[0] == '"' then "\"\"" else [s[0]]) + DoubleQuotes(s[1..])
  }

  function Escape(s: string): string {
    "\"" + DoubleQuotes(s) + "\""
  }

  function Join(parts: seq<string>, separator: string): string {
    if parts == [] then ""
    else if |parts| == 1 then parts[0]
    else parts[0] + separator + Join(parts[1..], separator)
  }

  function EscapeAll(cells: seq<string>): (r: seq<string>)
    ensures |r| == |cells|
  {
    if cells == [] then [] else [Escape(cells[0])] + EscapeAll(cells[1..])
  }

  /** A row as it is printed. */
  function Line(cells: seq<string>): string {
    Join(EscapeAll(cells), ",")
  }

  function Lines(rows: seq<seq<string>>): (r: seq<string>)
    ensures |r| == |rows|
  {
    if rows == [] then [] else [Line(rows[0])] + Lines(rows[1..])
  }

  // ---------------------------------------------------------------- reading back what was printed

  lemma ReadOne(c: char, t: string, r: Reading)
    requires !(r.quoted && c == '"' && t != "" && t[0] == '"')
    ensures Read([c] + t, r) == Read(t, Next(c, r))
  {
  }

  lemma ReadDoubled(t: string, r: Reading)
    requires r.quoted
    ensures Read("\"\"" + t, r) == Read(t, r.(cell := r.cell + "\""))
  {
  }

  lemma ReadQuotedChar(v: string, rest: string, r: Reading)
    requires r.quoted && v != ""
    ensures Read(DoubleQuotes(v) + "\"" + rest, r)
            == Read(DoubleQuotes(v[1..]) + "\"" + rest, r.(cell := r.cell + [v[0]]))
  {
    var tail := DoubleQuotes(v[1..]) + "\"" + rest;
    if v[0] == '"' {
      assert DoubleQuotes(v) + "\"" + rest == "\"\"" + tail;
      ReadDoubled(tail, r);
    } else {
      assert DoubleQuotes(v) + "\"" + rest == [v[0]] + tail;
      ReadOne(v[0], tail, r);
    }
  }

  lemma Regroup<T>(before: seq<T>, all: seq<T>)
    requires all != []
    ensures (before + [all[0]]) + all[1..] == before + all
  {
  }

  lemma {:induction false} ReadQuoted(v: string, rest: string, r: Reading)
    requires r.quoted && (rest == "" || rest[0] != '"')
    ensures Read(DoubleQuotes(v) + "\"" + rest, r) == Read(rest, r.(cell := r.cell + v, quoted := false))
  {
    if v == "" {
      assert DoubleQuotes(v) + "\"" + rest == ['"'] + rest;
      ReadOne('"', rest, r);
      assert r.cell + v == r.cell;
    } else {
      ReadQuotedChar(v, rest, r);
      ReadQuoted(v[1..], rest, r.(cell := r.cell + [v[0]]));
      Regroup(r.cell, v);
    }
  }

  lemma ReadCell(v: string, rest: string, r: Reading)
    requires !r.quoted && r.cell == "" && (rest == "" || rest[0] != '"')
    ensures Read(Escape(v) + rest, r) == Read(rest, r.(cell := v))
  {
    var tail := DoubleQuotes(v) + "\"" + rest;
    assert Escape(v) + rest == ['"'] + tail;
    ReadOne('"', tail, r);
    ReadQuoted(v, rest, r.(quoted := true));
    assert "" + v == v;
  }

  lemma LineSplits(cells: seq<string>)
    requires |cells| > 1
    ensures Line(cells) == Escape(cells[0]) + "," + Line(cells[1..])
  {
  }

  lemma RegroupRow(row: seq<string>, cells: seq<string>)
    requires |cells| > 1
    ensures (row + [cells[0]]) + cells[1..][..|cells[1..]| - 1] == row + cells[..|cells| - 1]
    ensures cells[1..][|cells[1..]| - 1] == cells[|cells| - 1]
  {
  }

  /** The cells of a printed row, up to the last, are read back as they were. */
  lemma {:induction false} ReadLine(cells: seq<string>, rest: string, r: Reading)
    requires cells != [] && !r.quoted && r.cell == "" && (rest == "" || rest[0] == '\n')
    ensures Read(Line(cells) + rest, r)
            == Read(rest, r.(row := r.row + cells[..|cells| - 1], cell := cells[|cells| - 1]))
  {
    if |cells| == 1 {
      assert Line(cells) == Escape(cells[0]);
      ReadCell(cells[0], rest, r);
      assert r.row + cells[..0] == r.row;
    } else {
      FirstCell(cells, rest, r);
      ReadLine(cells[1..], rest, r.(row := r.row + [cells[0]]));
      RegroupRow(r.row, cells);
    }
  }

  lemma FirstCell(cells: seq<string>, rest: string, r: Reading)
    requires |cells| > 1 && !r.quoted && r.cell == ""
    ensures Read(Line(cells) + rest, r) == Read(Line(cells[1..]) + rest, r.(row := r.row + [cells[0]]))
  {
    var more := Line(cells[1..]) + rest;
    LineSplits(cells);
    assert Line(cells) + rest == Escape(cells[0]) + ([','] + more);
    ReadCell(cells[0], [','] + more, r);
    var r1 := r.(cell := cells[0]);
    ReadOne(',', more, r1);
    assert Next(',', r1) == r.(row := r.row + [cells[0]]);
  }

  /** A printed row comes back with one carriage return off the end of its last cell. */
  function ReadBack(cells: seq<string>): seq<string>
    requires cells != []
  {
    cells[..|cells| - 1] + [DropReturn(cells[|cells| - 1])]
  }

  function ReadBackAll(rows: seq<seq<string>>): seq<seq<string>>
    requires forall i | 0 <= i < |rows| :: rows[i] != []
  {
    if rows == [] then [] else [ReadBack(rows[0])] + ReadBackAll(rows[1..])
  }

  /** All the rows that come back; a last row of empty cells does not. */
  function WithoutEmptyLast(rows: seq<seq<string>>): seq<seq<string>> {
    if rows != [] && AllEmpty(rows[|rows| - 1]) then rows[..|rows| - 1] else rows
  }

  lemma LinesSplit(rows: seq<seq<string>>)
    requires |rows| > 1
    ensures Join(Lines(rows), "\n") == Line(rows[0]) + "\n" + Join(Lines(rows[1..]), "\n")
  {
  }

  /** A printed row and the line feed after it. */
  lemma ReadLineEnd(cells: seq<string>, rest: string, before: seq<seq<string>>)
    requires cells != []
    ensures Read(Line(cells) + "\n" + rest, Reading(before, [], "", false))
            == Read(rest, Reading(before + [ReadBack(cells)], [], "", false))
  {
    var r := Reading(before, [], "", false);
    assert Line(cells) + "\n" + rest == Line(cells) + (['\n'] + rest);
    ReadLine(cells, ['\n'] + rest, r);
    assert [] + cells[..|cells| - 1] == cells[..|cells| - 1];
    ReadOne('\n', rest, r.(row := cells[..|cells| - 1], cell := cells[|cells| - 1]));
  }

  lemma ReadLastLine(cells: seq<string>, before: seq<seq<string>>)
    requires cells != [] && before != []
    ensures Finish(Read(Line(cells), Reading(before, [], "", false))) == before + WithoutEmptyLast([ReadBack(cells)])
  {
    assert Line(cells) == Line(cells) + "";
    ReadLine(cells, "", Reading(before, [], "", false));
    assert [] + cells[..|cells| - 1] == cells[..|cells| - 1];
  }

  /** Rows printed after earlier ones are read back after them, whatever quotes, commas, line feeds or
      carriage returns their cells hold. */
  lemma {:induction false} ReadLines(rows: seq<seq<string>>, before: seq<seq<string>>)
    requires rows != [] && forall i | 0 <= i < |rows| :: rows[i] != []
    requires before != []
    ensures Finish(Read(Join(Lines(rows), "\n"), Reading(before, [], "", false)))
            == before + WithoutEmptyLast(ReadBackAll(rows))
  {
    var first := ReadBack(rows[0]);
    if |rows| == 1 {
      assert Join(Lines(rows), "\n") == Line(rows[0]);
      ReadLastLine(rows[0], before);
      assert ReadBackAll(rows) == [first];
    } else {
      LinesSplit(rows);
      ReadLineEnd(rows[0], Join(Lines(rows[1..]), "\n"), before);
      ReadLines(rows[1..], before + [first]);
      LastOfTail(first, ReadBackAll(rows[1..]));
      Regroup(before, [first] + WithoutEmptyLast(ReadBackAll(rows[1..])));
    }
  }

  lemma LastOfTail(row: seq<string>, rows: seq<seq<string>>)
    requires rows != []
    ensures WithoutEmptyLast([row] + rows) == [row] + WithoutEmptyLast(rows)
  {
  }
}
