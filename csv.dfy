/** The CSV rendering shared by the INEGI, Banxico and SHCP adapters: every
    cell wrapped in double quotes (the field form of section 2 of RFC 4180),
    cells joined by `,`, rows joined by `\n`. Quotes inside a cell are NOT
    doubled, so a cell holding `"` does not render as RFC 4180 requires. */
module Csv {
  import opened Text

  type Table = seq<seq<string>>

  /** What the three parsers return: `{ table, csv }`. */
  datatype Parsed = Parsed(table: Table, csv: string)

  /** `` `"${cell}"` `` */
  function Quote(cell: string): string {
    "\"" + cell + "\""
  }

  /** The quoted cells of one row: `row.map(c => `"${c}"`)`. */
  function QuotedCells(row: seq<string>): (r: seq<string>)
    ensures |r| == |row| && forall i :: 0 <= i < |row| ==> r[i] == Quote(row[i])
  {
    seq(|row|, i requires 0 <= i < |row| => Quote(row[i]))
  }

  /** One CSV line: the quoted cells joined by commas. */
  function RenderRow(row: seq<string>): string {
    Join(QuotedCells(row), ",")
  }

  function RenderedRows(t: Table): (r: seq<string>)
    ensures |r| == |t| && forall i :: 0 <= i < |t| ==> r[i] == RenderRow(t[i])
  {
    seq(|t|, i requires 0 <= i < |t| => RenderRow(t[i]))
  }

  /** `table.map(row => row.map(c => `"${c}"`).join(',')).join('\n')` */
  function Render(t: Table): string {
    Join(RenderedRows(t), "\n")
  }

  /** No cell of the table holds character `c`. */
  predicate NoCellHolds(t: Table, c: char) {
    forall i, j :: 0 <= i < |t| && 0 <= j < |t[i]| ==> c !in t[i][j]
  }

  lemma RowAvoids(row: seq<string>, c: char)
    requires c != '"' && c != ','
    requires forall j :: 0 <= j < |row| ==> c !in row[j]
    ensures c !in RenderRow(row)
  {
    JoinAvoids(QuotedCells(row), ",", c);
  }

  /** The CSV text has exactly one line per table row, and line `i` is row `i`
      rendered: splitting the text at `\n` recovers the rendered rows. */
  lemma RenderLines(t: Table)
    requires |t| >= 1
    requires NoCellHolds(t, '\n')
    ensures Split(Render(t), '\n') == RenderedRows(t)
  {
    var rs := RenderedRows(t);
    forall i | 0 <= i < |t|
      ensures '\n' !in rs[i]
    {
      RowAvoids(t[i], '\n');
    }
    SplitJoin(rs, '\n');
  }

  /** Splitting a rendered line at `,` gives one quoted field per cell, provided
      no cell holds a comma. */
  lemma RenderRowFields(row: seq<string>)
    requires |row| >= 1
    requires forall j :: 0 <= j < |row| ==> ',' !in row[j]
    ensures Split(RenderRow(row), ',') == QuotedCells(row)
  {
    SplitJoin(QuotedCells(row), ',');
  }

  /** A rendered non-empty row starts and ends with a double quote. */
  lemma RenderRowEdges(row: seq<string>)
    requires |row| >= 1
    ensures var l := RenderRow(row); |l| >= 2 && l[0] == '"' && l[|l| - 1] == '"'
  {
    var qs := QuotedCells(row);
    JoinStartsWith(qs, ",");
    JoinEndsWith(qs, ",");
    var l := RenderRow(row);
    assert l[..|qs[0]|][0] == '"';
    assert l[|l| - |qs[|qs| - 1]|..][|qs[|qs| - 1]| - 1] == '"';
  }

  /** The rendered text of a table whose rows are all non-empty starts and
      ends with a double quote, so trimming it changes nothing. */
  lemma RenderTrimmed(t: Table)
    requires |t| >= 1
    requires forall i :: 0 <= i < |t| ==> |t[i]| >= 1
    ensures Trim(Render(t)) == Render(t)
  {
    var rs := RenderedRows(t);
    RenderRowEdges(t[0]);
    RenderRowEdges(t[|t| - 1]);
    JoinStartsWith(rs, "\n");
    JoinEndsWith(rs, "\n");
    var c := Render(t);
    assert c[..|rs[0]|][0] == '"';
    assert c[|c| - |rs[|rs| - 1]|..][|rs[|rs| - 1]| - 1] == '"';
    TrimNoEdgeSpace(c);
  }
}
