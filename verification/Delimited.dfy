/** The delimited printer of internal/service/export_tabular.go, and an independent reader that uses the
    quoting of section 2 of RFC 4180 with a line feed as the row end. */
module Delimited {
  import opened Wrappers

  const QUOTE := '"'
  const NEWLINE := '\n'

  /** The delimiters a template may name. */
  predicate Delimiter(d: char) {
    d == ',' || d == '\t'
  }

  // ── printing ────────────────────────────────────────────────────────

  predicate NeedsQuotes(value: string, delimiter: char) {
    QUOTE in value || NEWLINE in value || delimiter in value
  }

  function Doubled(value: string): string {
    if value == "" then ""
    else (if value[0] == QUOTE then [QUOTE, QUOTE] else [value[0]]) + Doubled(value[1..])
  }

  function Escaped(value: string, delimiter: char): string {
    if NeedsQuotes(value, delimiter) then [QUOTE] + Doubled(value) + [QUOTE] else value
  }

  function Join(parts: seq<string>, separator: char): string {
    if parts == [] then ""
    else if |parts| == 1 then parts[0]
    else parts[0] + [separator] + Join(parts[1..], separator)
  }

  function EscapedAll(cells: seq<string>, delimiter: char): seq<string> {
    seq(|cells|, i requires 0 <= i < |cells| => Escaped(cells[i], delimiter))
  }

  function PrintRow(cells: seq<string>, delimiter: char): string {
    Join(EscapedAll(cells, delimiter), delimiter)
  }

  function PrintTable(table: seq<seq<string>>, delimiter: char): string {
    Join(seq(|table|, i requires 0 <= i < |table| => PrintRow(table[i], delimiter)), NEWLINE)
  }

  lemma {:induction false} DoubledPush(value: string, c: char)
    ensures Doubled(value + [c]) == Doubled(value) + if c == QUOTE then [QUOTE, QUOTE] else [c]
  {
    if value == "" {
      assert value + [c] == [c];
      assert [c][1..] == "";
    } else {
      assert (value + [c])[1..] == value[1..] + [c];
      DoubledPush(value[1..], c);
    }
  }

  /** A cell is printed as it is exactly when it holds no delimiter, quote or row end. */
  lemma QuotedExactly(value: string, delimiter: char)
    ensures Escaped(value, delimiter) == value <==> forall i :: 0 <= i < |value| ==> value[i] != QUOTE && value[i] != NEWLINE && value[i] != delimiter
  {
    DoubledLength(value);
  }

  lemma {:induction false} DoubledLength(value: string)
    ensures |Doubled(value)| >= |value|
  {
    if value != "" { DoubledLength(value[1..]); }
  }

  method EscapeDelimitedCell(value: string, delimiter: char) returns (out: string)
    ensures out == Escaped(value, delimiter)
  {
    if !(QUOTE in value || NEWLINE in value || delimiter in value) {
      return value;
    }
    var doubled := "";
    for n := 0 to |value|
      invariant doubled == Doubled(value[..n])
    {
      assert value[..n + 1] == value[..n] + [value[n]];
      DoubledPush(value[..n], value[n]);
      doubled := doubled + if value[n] == QUOTE then [QUOTE, QUOTE] else [value[n]];
    }
    assert value[..|value|] == value;
    return [QUOTE] + doubled + [QUOTE];
  }

  method JoinDelimited(cells: seq<string>, delimiter: char) returns (line: string)
    ensures line == PrintRow(cells, delimiter)
  {
    var escaped: seq<string> := [];
    for i := 0 to |cells|
      invariant |escaped| == i && forall j :: 0 <= j < i ==> escaped[j] == Escaped(cells[j], delimiter)
    {
      var cell := EscapeDelimitedCell(cells[i], delimiter);
      escaped := escaped + [cell];
    }
    assert escaped == EscapedAll(cells, delimiter);
    return Join(escaped, delimiter);
  }

  // ── reading ─────────────────────────────────────────────────────────

  /** The rest of a quoted field, after its opening quote: two quotes stand for one, a single one ends
      the field. */
  function ReadQuoted(text: string): (r: Option<(string, string)>)
    ensures r.Some? ==> |r.value.1| < |text|
  {
    if text == "" then None
    else if text[0] == QUOTE then
      if |text| > 1 && text[1] == QUOTE then
        var r := ReadQuoted(text[2..]);
        if r.None? then None else Some(([QUOTE] + r.value.0, r.value.1))
      else Some(("", text[1..]))
    else
      var r := ReadQuoted(text[1..]);
      if r.None? then None else Some(([text[0]] + r.value.0, r.value.1))
  }

  /** An unquoted field holds no quote and runs to the next delimiter or row end. */
  function ReadPlain(text: string, delimiter: char): (r: Option<(string, string)>)
    ensures r.Some? ==> |r.value.1| <= |text|
  {
    if text == "" || text[0] == delimiter || text[0] == NEWLINE then Some(("", text))
    else if text[0] == QUOTE then None
    else
      var r := ReadPlain(text[1..], delimiter);
      if r.None? then None else Some(([text[0]] + r.value.0, r.value.1))
  }

  function ReadCell(text: string, delimiter: char): (r: Option<(string, string)>)
    ensures r.Some? ==> |r.value.1| <= |text|
  {
    if text != "" && text[0] == QUOTE then ReadQuoted(text[1..]) else ReadPlain(text, delimiter)
  }

  function ReadTable(text: string, delimiter: char): (r: Option<seq<seq<string>>>)
    ensures r.Some? ==> r.value != []
    decreases |text|
  {
    var c := ReadCell(text, delimiter);
    if c.None? then None
    else
      var (cell, rest) := c.value;
      if rest == "" then Some([[cell]])
      else if rest[0] == delimiter then
        var r := ReadTable(rest[1..], delimiter);
        if r.None? then None else Some([[cell] + r.value[0]] + r.value[1..])
      else if rest[0] == NEWLINE then
        var r := ReadTable(rest[1..], delimiter);
        if r.None? then None else Some([[cell]] + r.value)
      else None
  }

  // ── round trip ──────────────────────────────────────────────────────

  /** What may follow a printed cell. */
  predicate Boundary(tail: string, delimiter: char) {
    tail == "" || tail[0] == delimiter || tail[0] == NEWLINE
  }

  lemma {:induction false} ReadQuotedBack(value: string, tail: string)
    requires tail == "" || tail[0] != QUOTE
    ensures ReadQuoted(Doubled(value) + [QUOTE] + tail) == Some((value, tail))
  {
    var text := Doubled(value) + [QUOTE] + tail;
    if value == "" {
      assert text == [QUOTE] + tail && text[1..] == tail;
    } else {
      ReadQuotedBack(value[1..], tail);
      var rest := Doubled(value[1..]) + [QUOTE] + tail;
      if value[0] == QUOTE {
        assert text == [QUOTE, QUOTE] + rest && text[2..] == rest;
      } else {
        assert text == [value[0]] + rest && text[1..] == rest;
      }
      assert value == [value[0]] + value[1..];
    }
  }

  lemma {:induction false} ReadPlainBack(value: string, tail: string, delimiter: char)
    requires !NeedsQuotes(value, delimiter) && Boundary(tail, delimiter)
    ensures ReadPlain(value + tail, delimiter) == Some((value, tail))
  {
    if value == "" {
      assert value + tail == tail;
    } else {
      assert value == [value[0]] + value[1..];
      assert forall c :: c in value[1..] ==> c in value;
      assert value[0] in value;
      ReadPlainBack(value[1..], tail, delimiter);
      assert (value + tail)[1..] == value[1..] + tail;
    }
  }

  lemma ReadCellBack(value: string, tail: string, delimiter: char)
    requires Delimiter(delimiter) && Boundary(tail, delimiter)
    ensures ReadCell(Escaped(value, delimiter) + tail, delimiter) == Some((value, tail))
  {
    if NeedsQuotes(value, delimiter) {
      ReadQuotedBack(value, tail);
      assert (Escaped(value, delimiter) + tail)[1..] == Doubled(value) + [QUOTE] + tail;
    } else {
      ReadPlainBack(value, tail, delimiter);
      if value != "" { assert value[0] in value; }
    }
  }

  lemma PrintRowStep(cells: seq<string>, delimiter: char)
    requires cells != []
    ensures PrintRow(cells, delimiter)
            == Escaped(cells[0], delimiter) + if |cells| == 1 then "" else [delimiter] + PrintRow(cells[1..], delimiter)
  {
    var escaped := EscapedAll(cells, delimiter);
    assert escaped[1..] == EscapedAll(cells[1..], delimiter);
    assert |escaped| == |cells| && escaped[0] == Escaped(cells[0], delimiter);
  }

  lemma PrintTableStep(table: seq<seq<string>>, delimiter: char)
    requires table != []
    ensures PrintTable(table, delimiter)
            == PrintRow(table[0], delimiter) + if |table| == 1 then "" else [NEWLINE] + PrintTable(table[1..], delimiter)
  {
    var lines := seq(|table|, i requires 0 <= i < |table| => PrintRow(table[i], delimiter));
    var rest := table[1..];
    assert lines[1..] == seq(|rest|, i requires 0 <= i < |rest| => PrintRow(rest[i], delimiter));
  }

  /** What reading does after one cell. */
  lemma ReadOn(text: string, cell: string, rest: string, delimiter: char)
    requires Delimiter(delimiter) && ReadCell(text, delimiter) == Some((cell, rest))
    ensures rest == "" ==> ReadTable(text, delimiter) == Some([[cell]])
    ensures rest != "" && rest[0] == delimiter && ReadTable(rest[1..], delimiter).Some? ==>
              var r := ReadTable(rest[1..], delimiter).value;
              ReadTable(text, delimiter) == Some([[cell] + r[0]] + r[1..])
    ensures rest != "" && rest[0] == NEWLINE && ReadTable(rest[1..], delimiter).Some? ==>
              ReadTable(text, delimiter) == Some([[cell]] + ReadTable(rest[1..], delimiter).value)
  {
  }

  /** `end` is nothing, or further printed rows. */
  ghost predicate Continues(end: string, rows: seq<seq<string>>, delimiter: char) {
    if end == "" then rows == [] else end[0] == NEWLINE && ReadTable(end[1..], delimiter) == Some(rows)
  }

  lemma ReadLastCell(cell: string, end: string, rows: seq<seq<string>>, delimiter: char)
    requires Delimiter(delimiter) && Continues(end, rows, delimiter)
    ensures ReadTable(Escaped(cell, delimiter) + end, delimiter) == Some([[cell]] + rows)
  {
    hide ReadTable, ReadCell, Escaped;
    ReadCellBack(cell, end, delimiter);
    ReadOn(Escaped(cell, delimiter) + end, cell, end, delimiter);
    assert [[cell]] + [] == [[cell]];
  }

  lemma ReadInnerCell(cell: string, others: seq<string>, rest: string, rows: seq<seq<string>>, delimiter: char)
    requires Delimiter(delimiter) && ReadTable(rest, delimiter) == Some([others] + rows)
    ensures ReadTable(Escaped(cell, delimiter) + ([delimiter] + rest), delimiter) == Some([[cell] + others] + rows)
  {
    hide ReadTable, ReadCell, Escaped;
    var tail := [delimiter] + rest;
    assert tail[1..] == rest;
    ReadCellBack(cell, tail, delimiter);
    ReadOn(Escaped(cell, delimiter) + tail, cell, tail, delimiter);
    assert ([others] + rows)[1..] == rows;
  }

  /** A printed row followed by further rows, or by nothing. */
  lemma {:induction false} ReadRowBack(cells: seq<string>, end: string, rows: seq<seq<string>>, delimiter: char)
    requires Delimiter(delimiter) && cells != [] && Continues(end, rows, delimiter)
    ensures ReadTable(PrintRow(cells, delimiter) + end, delimiter) == Some([cells] + rows)
  {
    hide ReadTable, PrintRow, Escaped, Continues;
    PrintRowStep(cells, delimiter);
    var first := Escaped(cells[0], delimiter);
    if |cells| == 1 {
      ReadLastCell(cells[0], end, rows, delimiter);
      assert PrintRow(cells, delimiter) == first && cells == [cells[0]];
    } else {
      var rest := PrintRow(cells[1..], delimiter) + end;
      ReadRowBack(cells[1..], end, rows, delimiter);
      ReadInnerCell(cells[0], cells[1..], rest, rows, delimiter);
      assert PrintRow(cells, delimiter) + end == first + ([delimiter] + rest);
      assert [cells[0]] + cells[1..] == cells;
    }
  }

  /** Every non-empty table of non-empty rows is read back cell by cell, whatever the cells hold. */
  lemma {:induction false} ReadTableBack(table: seq<seq<string>>, delimiter: char)
    requires Delimiter(delimiter) && table != [] && forall i :: 0 <= i < |table| ==> table[i] != []
    ensures ReadTable(PrintTable(table, delimiter), delimiter) == Some(table)
  {
    PrintTableStep(table, delimiter);
    hide ReadTable, PrintRow, PrintTable;
    if |table| == 1 {
      ReadRowBack(table[0], "", [], delimiter);
      assert PrintRow(table[0], delimiter) + "" == PrintRow(table[0], delimiter);
      assert [table[0]] + [] == table;
    } else {
      var rest := table[1..];
      ReadTableBack(rest, delimiter);
      var end := [NEWLINE] + PrintTable(rest, delimiter);
      assert end[1..] == PrintTable(rest, delimiter);
      ReadRowBack(table[0], end, rest, delimiter);
      assert [table[0]] + rest == table;
    }
  }

  /** So printed tables decode uniquely. */
  lemma PrintedOnce(a: seq<seq<string>>, b: seq<seq<string>>, delimiter: char)
    requires Delimiter(delimiter) && a != [] && b != []
    requires (forall i :: 0 <= i < |a| ==> a[i] != []) && (forall i :: 0 <= i < |b| ==> b[i] != [])
    requires PrintTable(a, delimiter) == PrintTable(b, delimiter)
    ensures a == b
  {
    ReadTableBack(a, delimiter);
    ReadTableBack(b, delimiter);
  }
}
