/** The header/row mapping of `ParseTable` in utils/html_parser.go, over a
    table the HTML parser has already split into rows of cells. */
module HtmlTable {
  import opened Base
  import opened Text

  /** A `th` or `td` element (or any other element) with its text content. */
  datatype HtmlCell = HtmlCell(tag: string, text: string)

  /** A `tr` element: its cells in document order. */
  type Row = seq<HtmlCell>

  type Record = map<string, string>

  /** The trimmed texts of the cells of one tag, in order. */
  function TextsOf(row: Row, tag: string): (texts: seq<string>)
    ensures |texts| <= |row|
  {
    if row == [] then []
    else
      var last := row[|row| - 1];
      TextsOf(row[..|row| - 1], tag) + (if last.tag == tag then [TrimSpace(last.text)] else [])
  }

  /** A row's record: data cell `c` stored under `headers[c]`, left to right,
      cells past the last header dropped. */
  function RecordOf(headers: seq<string>, cells: seq<string>): Record
  {
    if cells == [] then map[]
    else
      var c := |cells| - 1;
      var prev := RecordOf(headers, cells[..c]);
      if c < |headers| then prev[headers[c] := cells[c]] else prev
  }

  /** The records of a table: one per row after the header row. */
  function TableRecords(rows: seq<Row>): seq<Record>
  {
    if rows == [] then []
    else seq(|rows| - 1, i requires 0 <= i < |rows| - 1 => RecordOf(TextsOf(rows[0], "th"), TextsOf(rows[i + 1], "td")))
  }

  /** `ParseTable` after parsing: row 0 gives the headers, every later row
      one record. */
  method ParseTable(rows: seq<Row>) returns (records: seq<Record>)
    ensures |records| == if |rows| == 0 then 0 else |rows| - 1
    ensures forall i :: 0 <= i < |records| ==>
      records[i] == RecordOf(TextsOf(rows[0], "th"), TextsOf(rows[i + 1], "td"))
  {
    var headers: seq<string> := [];
    records := [];
    var rowIndex := 0;
    while rowIndex < |rows|
      invariant 0 <= rowIndex <= |rows|
      invariant rowIndex == 0 ==> headers == []
      invariant rowIndex > 0 ==> headers == TextsOf(rows[0], "th")
      invariant |records| == if rowIndex == 0 then 0 else rowIndex - 1
      invariant forall i :: 0 <= i < |records| ==>
        records[i] == RecordOf(TextsOf(rows[0], "th"), TextsOf(rows[i + 1], "td"))
    {
      var row := rows[rowIndex];
      if rowIndex == 0 {
        var j := 0;
        while j < |row|
          invariant 0 <= j <= |row|
          invariant headers == TextsOf(row[..j], "th")
        {
          assert row[..j + 1][..j] == row[..j];
          if row[j].tag == "th" {
            headers := headers + [TrimSpace(row[j].text)];
          }
          j := j + 1;
        }
        assert row[..|row|] == row;
      } else {
        var rowData: Record := map[];
        var colIndex := 0;
        var j := 0;
        while j < |row|
          invariant 0 <= j <= |row|
          invariant colIndex == |TextsOf(row[..j], "td")|
          invariant rowData == RecordOf(headers, TextsOf(row[..j], "td"))
        {
          assert row[..j + 1][..j] == row[..j];
          if row[j].tag == "td" {
            ghost var tds := TextsOf(row[..j + 1], "td");
            assert tds == TextsOf(row[..j], "td") + [TrimSpace(row[j].text)];
            assert tds[..colIndex] == TextsOf(row[..j], "td");
            assert |tds| == colIndex + 1 && tds[colIndex] == TrimSpace(row[j].text);
            assert RecordOf(headers, tds) ==
              if colIndex < |headers| then rowData[headers[colIndex] := tds[colIndex]] else rowData;
            if colIndex < |headers| {
              rowData := rowData[headers[colIndex] := TrimSpace(row[j].text)];
            }
            colIndex := colIndex + 1;
          } else {
            assert TextsOf(row[..j + 1], "td") == TextsOf(row[..j], "td");
          }
          j := j + 1;
        }
        assert row[..|row|] == row;
        records := records + [rowData];
      }
      rowIndex := rowIndex + 1;
    }
  }

  // ---------------------------------------------------------------------
  // Properties.

  /** A record's keys are the headers of the columns that have a data cell;
      with no headers every record is empty. */
  lemma {:induction false} RecordKeys(headers: seq<string>, cells: seq<string>)
    ensures RecordOf(headers, cells).Keys == set c | 0 <= c < |cells| && c < |headers| :: headers[c]
    ensures headers == [] ==> RecordOf(headers, cells) == map[]
    decreases |cells|
  {
    if cells != [] {
      RecordKeys(headers, cells[..|cells| - 1]);
    }
  }

  /** A header's value is the cell of the LAST column carrying that header:
      duplicate names are overwritten left to right. */
  lemma {:induction false} LastColumnWins(headers: seq<string>, cells: seq<string>, c: nat)
    requires c < |cells| && c < |headers|
    requires forall d :: c < d < |cells| && d < |headers| ==> headers[d] != headers[c]
    ensures headers[c] in RecordOf(headers, cells)
    ensures RecordOf(headers, cells)[headers[c]] == cells[c]
    decreases |cells|
  {
    var n := |cells| - 1;
    if n != c {
      assert cells[..n][c] == cells[c];
      LastColumnWins(headers, cells[..n], c);
    }
  }

  /** Cells of other tags are ignored: adding one to a row does not change
      what the row contributes. */
  lemma OtherTagsIgnored(row: Row, cell: HtmlCell, tag: string)
    requires cell.tag != tag
    ensures TextsOf(row + [cell], tag) == TextsOf(row, tag)
  {
    assert (row + [cell])[..|row|] == row;
  }

  /** Data cells past the last header are dropped: a row's record is the
      record of its first `|headers|` cells. */
  lemma {:induction false} CellsPastHeadersDropped(headers: seq<string>, cells: seq<string>)
    requires |cells| > |headers|
    ensures RecordOf(headers, cells) == RecordOf(headers, cells[..|headers|])
    decreases |cells|
  {
    var c := |cells| - 1;
    if c > |headers| {
      CellsPastHeadersDropped(headers, cells[..c]);
      assert cells[..c][..|headers|] == cells[..|headers|];
    } else {
      assert cells[..c] == cells[..|headers|];
    }
  }

  /** A two-row table with headers `a`, `b` and one data row gives one
      record mapping them to the trimmed cells; the third cell is dropped. */
  lemma ExampleTable()
    ensures RecordOf(["a", "b"], ["1", "2", "3"]) == map["a" := "1", "b" := "2"]
  {
    assert ["1", "2", "3"][..2] == ["1", "2"];
    assert ["1", "2"][..1] == ["1"];
    assert ["1"][..0] == [];
  }
}
