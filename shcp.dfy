/** The SHCP (treasury) adapter: five fixed open-data CSV files, a keyword
    classifier that picks one of them, a catalogue filter, and the CSV parser
    that turns a downloaded file into a table. */
module Shcp {
  import opened Wrappers
  import opened Text
  import opened Seqs
  import opened Csv
  import Http

  /** The keys of `SHCP_DATA_URLS`, i.e. the type `SHCPDataset`. */
  datatype Dataset = DeudaPublica | IngresoGasto | Transferencias | Rfsp | DeudaAmplia

  function Id(d: Dataset): string {
    match d
    case DeudaPublica => "deuda_publica"
    case IngresoGasto => "ingreso_gasto"
    case Transferencias => "transferencias"
    case Rfsp => "rfsp"
    case DeudaAmplia => "deuda_amplia"
  }

  /** Looking a string up among the keys of `SHCP_DATA_URLS`. */
  function FromId(s: string): (r: Option<Dataset>)
    ensures r.Some? ==> Id(r.value) == s
    ensures forall d: Dataset :: Id(d) == s ==> r == Some(d)
  {
    if s == "deuda_publica" then Some(DeudaPublica)
    else if s == "ingreso_gasto" then Some(IngresoGasto)
    else if s == "transferencias" then Some(Transferencias)
    else if s == "rfsp" then Some(Rfsp)
    else if s == "deuda_amplia" then Some(DeudaAmplia)
    else None
  }

  const DataBase := "https://repodatos.atdt.gob.mx/s_hacienda_cred_publico/indicadores_fiscales/"

  /** `SHCP_DATA_URLS[d]`. */
  function DataUrl(d: Dataset): string {
    DataBase + match d
      case DeudaPublica => "deuda_publica.csv"
      case IngresoGasto => "ingreso_gasto_finan.csv"
      case Transferencias => "transferencias_entidades_fed.csv"
      case Rfsp => "rfsp.csv"
      case DeudaAmplia => "shrfsp_deuda_amplia_actual.csv"
  }

  /** `SHCP_DATASET_NAMES[d]`. */
  function DatasetName(d: Dataset): string {
    match d
    case DeudaPublica => "Deuda Pública"
    case IngresoGasto => "Ingreso, Gasto y Financiamiento Público"
    case Transferencias => "Transferencias a Entidades Federativas"
    case Rfsp => "Requerimientos Financieros del Sector Público"
    case DeudaAmplia => "Saldo Histórico RFSP (Deuda Amplia)"
  }

  datatype DatasetInfo = DatasetInfo(id: Dataset, name: string, description: string)

  /** `SHCP_DATASETS`, in declaration order. */
  const Datasets: seq<DatasetInfo> := [
    DatasetInfo(DeudaPublica, "Deuda Pública", "Indicadores de deuda pública"),
    DatasetInfo(IngresoGasto, "Ingreso, Gasto y Financiamiento Público", "Balances, ingresos y gastos"),
    DatasetInfo(Transferencias, "Transferencias a Entidades Federativas", "Transferencias federales"),
    DatasetInfo(Rfsp, "Requerimientos Financieros del Sector Público", "RFSP"),
    DatasetInfo(DeudaAmplia, "Saldo Histórico RFSP", "Deuda amplia")
  ]

  /** The URL table, the name table and the dataset list describe the same five
      datasets: `Datasets` lists each of them exactly once, and every id maps
      to a URL and a name (those two are total on `Dataset`). */
  lemma DatasetTablesAgree()
    ensures |Datasets| == 5
    ensures forall d: Dataset :: d in DatasetIds()
    ensures forall j, k :: 0 <= j < k < |Datasets| ==> Datasets[j].id != Datasets[k].id
    ensures forall d: Dataset :: FromId(Id(d)) == Some(d)
  {
    var ids := DatasetIds();
    assert ids == [DeudaPublica, IngresoGasto, Transferencias, Rfsp, DeudaAmplia];
    forall d: Dataset
      ensures d in ids
    {
      match d
      case DeudaPublica => assert ids[0] == d;
      case IngresoGasto => assert ids[1] == d;
      case Transferencias => assert ids[2] == d;
      case Rfsp => assert ids[3] == d;
      case DeudaAmplia => assert ids[4] == d;
    }
  }

  /** The ids of `Datasets`, in order. */
  function DatasetIds(): (r: seq<Dataset>)
    ensures |r| == |Datasets| && forall k :: 0 <= k < |r| ==> r[k] == Datasets[k].id
  {
    seq(|Datasets|, k requires 0 <= k < |Datasets| => Datasets[k].id)
  }

  /** The condition `searchSHCPDataset` keeps a dataset under (it takes the
      query already lower-cased). */
  predicate DatasetMatches(d: DatasetInfo, lower: string) {
    Contains(Lower(d.name), lower) || Contains(Lower(d.description), lower) || Contains(Id(d.id), lower)
  }

  function DatasetFilter(lower: string): DatasetInfo -> bool {
    d => DatasetMatches(d, lower)
  }

  /** `searchSHCPDataset(query)`. */
  function SearchShcpDataset(query: string): seq<DatasetInfo> {
    Filter(Datasets, DatasetFilter(Lower(query)))
  }

  /** The search returns exactly the datasets whose lower-cased name or
      description, or whose id, contains the lower-cased query, in declaration
      order. */
  lemma SearchShcpDatasetSpec(query: string)
    ensures Subseq(SearchShcpDataset(query), Datasets)
    ensures forall d :: d in SearchShcpDataset(query) <==> d in Datasets && DatasetMatches(d, Lower(query))
  {
    var lower := Lower(query);
    var p := DatasetFilter(lower);
    FilterIsSubseq(Datasets, p);
    forall d
      ensures d in SearchShcpDataset(query) <==> d in Datasets && DatasetMatches(d, lower)
    {
      FilterMembership(Datasets, p, d);
    }
  }

  /** `findSHCPDataset(query)`: the dataset of the first keyword rule that
      the lower-cased query satisfies. */
  function FindShcpDataset(query: string): Option<Dataset> {
    var q := Lower(query);
    if Contains(q, "deuda") && !Contains(q, "amplia") then Some(DeudaPublica)
    else if Contains(q, "ingreso") || Contains(q, "gasto") || Contains(q, "financiamiento") then Some(IngresoGasto)
    else if Contains(q, "transferencia") || Contains(q, "entidades federativas") then Some(Transferencias)
    else if Contains(q, "rfsp") || Contains(q, "requerimiento financiero") then Some(Rfsp)
    else if Contains(q, "deuda amplia") || Contains(q, "saldo histórico") then Some(DeudaAmplia)
    else None
  }

  /** Rule 1 wins over every later rule: any query mentioning `deuda` without
      `amplia` is public debt, whatever else it says. */
  lemma DeudaWithoutAmplia(query: string)
    requires Contains(Lower(query), "deuda") && !Contains(Lower(query), "amplia")
    ensures FindShcpDataset(query) == Some(DeudaPublica)
  {
  }

  /** `deuda amplia` always reaches the last rule unless an earlier keyword of
      rules 2-4 is present: it contains `amplia`, so rule 1 cannot fire. */
  lemma DeudaAmpliaPhrase(query: string)
    requires Contains(Lower(query), "deuda amplia")
    requires !Contains(Lower(query), "ingreso") && !Contains(Lower(query), "gasto")
    requires !Contains(Lower(query), "financiamiento") && !Contains(Lower(query), "transferencia")
    requires !Contains(Lower(query), "entidades federativas") && !Contains(Lower(query), "rfsp")
    requires !Contains(Lower(query), "requerimiento financiero")
    ensures FindShcpDataset(query) == Some(DeudaAmplia)
  {
    var q := Lower(query);
    ContainsIff(q, "deuda amplia");
    var i: nat :| OccursAt(q, "deuda amplia", i);
    assert q[i + 6..i + 12] == q[i..i + 12][6..12] == "amplia";
    assert OccursAt(q, "amplia", i + 6);
    ContainsAt(q, "amplia", i + 6);
  }

  /** A query containing `saldo histórico` and none of the keywords of the
      earlier rules is the historical-balance dataset. */
  lemma SaldoHistorico(query: string)
    requires Contains(Lower(query), "saldo histórico")
    requires !Contains(Lower(query), "deuda")
    requires !Contains(Lower(query), "ingreso") && !Contains(Lower(query), "gasto")
    requires !Contains(Lower(query), "financiamiento") && !Contains(Lower(query), "transferencia")
    requires !Contains(Lower(query), "entidades federativas") && !Contains(Lower(query), "rfsp")
    requires !Contains(Lower(query), "requerimiento financiero")
    ensures FindShcpDataset(query) == Some(DeudaAmplia)
  {
  }

  /** `fetchSHCPData(dataset)`: the body of an OK response, `null` on any
      failure. The dataset id comes from the LLM unchecked; an id that is not
      a key of `SHCP_DATA_URLS` makes `fetch(undefined)` reject, so it fails
      as well. `http` is the network: the outcome of fetching a URL. */
  function FetchShcpData(id: string, http: string -> Http.Outcome): (r: Option<string>)
    ensures r.Some? <==> FromId(id).Some? && http(DataUrl(FromId(id).value)).Ok()
    ensures r.Some? ==> r.value == http(DataUrl(FromId(id).value)).body
  {
    match FromId(id)
    case None => None
    case Some(d) =>
      var o := http(DataUrl(d));
      if o.Ok() then Some(o.body) else None
  }

  // ---------------------------------------------------------------------
  // parseSHCPData

  /** The optional `filters` argument; absent fields are `None`. */
  datatype Filters = Filters(column: Option<string>, value: Option<string>, limit: Option<int>)

  const NoFilters := Filters(None, None, None)

  /** `s.replace(/^"|"$/g, '')`: at most one leading and one trailing quote go. */
  function StripQuotes(s: string): (r: string)
    ensures |s| - 2 <= |r| <= |s|
  {
    var a := if s != [] && s[0] == '"' then s[1..] else s;
    if a != [] && a[|a| - 1] == '"' then a[..|a| - 1] else a
  }

  /** `r` is `s` less at most a leading and a trailing double quote. */
  ghost predicate QuotesDropped(s: string, r: string) {
    exists i, j :: 0 <= i <= 1 && i <= j && |s| - 1 <= j <= |s| && r == s[i..j]
                   && (i == 1 ==> s[0] == '"') && (j < |s| ==> s[|s| - 1] == '"')
  }

  /** A cell is unchanged exactly when it neither starts nor ends with a
      quote; otherwise what remains is the slice between the quotes removed,
      and a cell quoted at both ends loses both. */
  lemma StripQuotesSpec(s: string)
    ensures StripQuotes(s) == s <==> s == [] || (s[0] != '"' && s[|s| - 1] != '"')
    ensures QuotesDropped(s, StripQuotes(s))
    ensures |s| >= 2 && s[0] == '"' && s[|s| - 1] == '"' ==> StripQuotes(s) == s[1..|s| - 1]
  {
    var i := if s != [] && s[0] == '"' then 1 else 0;
    var j := if i < |s| && s[|s| - 1] == '"' then |s| - 1 else |s|;
    assert StripQuotes(s) == s[i..j];
  }

  function ParseCell(field: string): string {
    StripQuotes(Trim(field))
  }

  /** One line: `line.split(',').map(cell => cell.trim().replace(/^"|"$/g, ''))`. */
  function ParseLine(line: string): (r: seq<string>)
    ensures |r| >= 1
  {
    var fields := Split(line, ',');
    seq(|fields|, i requires 0 <= i < |fields| => ParseCell(fields[i]))
  }

  /** `csvText.trim().split('\n')` with every line parsed. */
  function ParseLines(text: string): (r: Table)
    ensures |r| >= 1
  {
    var lines := Split(Trim(text), '\n');
    seq(|lines|, i requires 0 <= i < |lines| => ParseLine(lines[i]))
  }

  /** The row filter: the cell in the chosen column exists and contains the
      value, both compared lower-cased. */
  predicate RowMatches(row: seq<string>, col: nat, value: string) {
    col < |row| && Contains(Lower(row[col]), Lower(value))
  }

  function RowFilter(col: nat, value: string): seq<string> -> bool {
    row => RowMatches(row, col, value)
  }

  /** The index of the header cell equal to `column` ignoring case, if any. */
  function ColumnIndex(header: seq<string>, column: string): int {
    FindIndex(header, h => Lower(h) == Lower(column))
  }

  /** `filteredLines`: the rows the column/value filter keeps, header first;
      everything when the filter is incomplete or names no header column. */
  function FilterLines(lines: Table, f: Filters): Table
    requires |lines| >= 1
  {
    if Truthy(f.column) && Truthy(f.value) then
      var k := ColumnIndex(lines[0], f.column.value);
      if k != -1 then [lines[0]] + Filter(lines[1..], RowFilter(k, f.value.value))
      else lines
    else lines
  }

  /** `filters?.limit || 100`: zero and an absent limit both mean 100. */
  function EffectiveLimit(f: Filters): int {
    if f.limit.Some? && f.limit.value != 0 then f.limit.value else 100
  }

  /** `parseSHCPData(csvText, filters)`. The source's `lines.length === 0`
      branch is left out: `split` never returns an empty array
      (see `TableNeverEmpty`). */
  function ParseShcpData(text: string, f: Filters): (r: Parsed)
    ensures r.csv == Render(r.table)
  {
    var lines := ParseLines(text);
    var kept := FilterLines(lines, f);
    var table := SliceTo(kept, EffectiveLimit(f) + 1);
    Parsed(table, Render(table))
  }

  /** Every row of the output is a row of the parsed input, in input order. */
  lemma {:induction false} OutputIsSubseqOfInput(text: string, f: Filters)
    ensures Subseq(ParseShcpData(text, f).table, ParseLines(text))
  {
    var lines := ParseLines(text);
    KeptIsSubseq(lines, f);
    SlicedIsSubseq(FilterLines(lines, f), lines, EffectiveLimit(f) + 1);
  }

  /** Cutting a subsequence short leaves a subsequence. */
  lemma {:induction false} SlicedIsSubseq(kept: Table, lines: Table, end: int)
    requires Subseq(kept, lines)
    ensures Subseq(SliceTo(kept, end), lines)
  {
    var t := SliceTo(kept, end);
    SubseqPrefix(kept, |t|);
    SubseqTrans(t, kept, lines);
  }

  /** The column/value filter keeps the header and a subsequence of the
      other rows. */
  lemma {:induction false} KeptIsSubseq(lines: Table, f: Filters)
    requires |lines| >= 1
    ensures Subseq(FilterLines(lines, f), lines)
  {
    var kept := FilterLines(lines, f);
    if Truthy(f.column) && Truthy(f.value) && ColumnIndex(lines[0], f.column.value) != -1 {
      var p := RowFilter(ColumnIndex(lines[0], f.column.value), f.value.value);
      FilterIsSubseq(lines[1..], p);
      assert kept[0] == lines[0] && kept[1..] == Filter(lines[1..], p);
    } else {
      SubseqPrefix(lines, |lines|);
      assert lines[..|lines|] == lines;
    }
  }

  /** The table is never empty while the limit is absent or not negative, so
      the `{ table: [], csv: '' }` branch of the source cannot be taken. */
  lemma TableNeverEmpty(text: string, f: Filters)
    requires f.limit.None? || f.limit.value >= 0
    ensures |ParseShcpData(text, f).table| >= 1
  {
    var lines := ParseLines(text);
    var kept := FilterLines(lines, f);
    assert kept[0] == lines[0];
    SliceKeepsFirst(kept, EffectiveLimit(f) + 1);
  }

  /** A slice to a positive end keeps the first element. */
  lemma SliceKeepsFirst<T>(s: seq<T>, end: int)
    requires |s| >= 1 && end >= 1
    ensures |SliceTo(s, end)| >= 1
  {
    assert |Take(s, end)| >= 1;
  }

  /** Without a complete filter, or with a column that is not in the header,
      the table is the first `limit + 1` parsed lines (all of them if fewer). */
  lemma Unfiltered(text: string, f: Filters)
    requires !(Truthy(f.column) && Truthy(f.value)) || ColumnIndex(ParseLines(text)[0], f.column.value) == -1
    requires EffectiveLimit(f) >= 0
    ensures ParseShcpData(text, f).table == Take(ParseLines(text), EffectiveLimit(f) + 1)
  {
  }

  /** With the default limit and no filters the table is the first 101 lines:
      the header and at most 100 data rows. */
  lemma DefaultLimit(text: string)
    ensures ParseShcpData(text, NoFilters).table == Take(ParseLines(text), 101)
  {
    assert !Truthy(NoFilters.column) && EffectiveLimit(NoFilters) == 100;
    assert FilterLines(ParseLines(text), NoFilters) == ParseLines(text);
  }

  /** The table under a column/value filter, header first. */
  lemma FilteredTable(text: string, f: Filters)
    requires Truthy(f.column) && Truthy(f.value)
    requires ColumnIndex(ParseLines(text)[0], f.column.value) != -1
    requires EffectiveLimit(f) >= 0
    ensures var lines := ParseLines(text);
            var k := ColumnIndex(lines[0], f.column.value);
            ParseShcpData(text, f).table == Take([lines[0]] + Filter(lines[1..], RowFilter(k, f.value.value)), EffectiveLimit(f) + 1)
  {
  }

  /** With a column that the header names (ignoring case) and a value, the
      header stays first, every other row has a cell in that column containing
      the value (ignoring case), the rows keep their input order, and when the
      limit leaves room every matching row is there. */
  lemma {:induction false} FilteredByColumn(text: string, f: Filters)
    requires Truthy(f.column) && Truthy(f.value)
    requires ColumnIndex(ParseLines(text)[0], f.column.value) != -1
    requires EffectiveLimit(f) >= 0
    ensures var lines := ParseLines(text);
            var t := ParseShcpData(text, f).table;
            var k := ColumnIndex(lines[0], f.column.value);
            && |t| >= 1 && t[0] == lines[0]
            && Lower(lines[0][k]) == Lower(f.column.value)
            && (forall i :: 1 <= i < |t| ==> RowMatches(t[i], k, f.value.value))
            && Subseq(t, lines)
            && (|Filter(lines[1..], RowFilter(k, f.value.value))| <= EffectiveLimit(f) ==>
                  forall row :: row in lines[1..] && RowMatches(row, k, f.value.value) ==> row in t[1..])
  {
    var lines := ParseLines(text);
    var k := ColumnIndex(lines[0], f.column.value);
    var matching := Filter(lines[1..], RowFilter(k, f.value.value));
    FilteredTable(text, f);
    FilteredRowsMatch(lines, k, f.value.value, EffectiveLimit(f) + 1);
    FilteredComplete(lines, k, f.value.value, EffectiveLimit(f) + 1);
    OutputIsSubseqOfInput(text, f);
  }

  /** Every row after the header of a filtered, cut table matches. */
  lemma {:induction false} FilteredRowsMatch(lines: Table, k: nat, value: string, n: int)
    requires |lines| >= 1 && n >= 1
    ensures var t := Take([lines[0]] + Filter(lines[1..], RowFilter(k, value)), n);
            forall i :: 1 <= i < |t| ==> RowMatches(t[i], k, value)
  {
    var matching := Filter(lines[1..], RowFilter(k, value));
    var t := Take([lines[0]] + matching, n);
    forall i | 1 <= i < |t|
      ensures RowMatches(t[i], k, value)
    {
      assert t[i] == matching[i - 1];
      FilterMembership(lines[1..], RowFilter(k, value), matching[i - 1]);
    }
  }

  /** A cut that leaves room for every match keeps every match. */
  lemma {:induction false} FilteredComplete(lines: Table, k: nat, value: string, n: int)
    requires |lines| >= 1 && n >= 1
    ensures var matching := Filter(lines[1..], RowFilter(k, value));
            var t := Take([lines[0]] + matching, n);
            |matching| <= n - 1 ==>
              forall row :: row in lines[1..] && RowMatches(row, k, value) ==> row in t[1..]
  {
    var matching := Filter(lines[1..], RowFilter(k, value));
    var t := Take([lines[0]] + matching, n);
    if |matching| <= n - 1 {
      assert t == [lines[0]] + matching;
      assert t[1..] == matching;
      forall row | row in lines[1..] && RowMatches(row, k, value)
        ensures row in t[1..]
      {
        FilterMembership(lines[1..], RowFilter(k, value), row);
      }
    }
  }

  lemma StripQuotesOfQuote(c: string)
    ensures StripQuotes(Quote(c)) == c
  {
    var q := Quote(c);
    assert q[1..] == c + "\"";
    assert (c + "\"")[..|c|] == c;
  }

  /** Parsing a rendered row gives the row back when no cell holds a comma. */
  lemma ParseRenderedRow(row: seq<string>)
    requires |row| >= 1
    requires forall j :: 0 <= j < |row| ==> ',' !in row[j]
    ensures ParseLine(RenderRow(row)) == row
  {
    RenderRowFields(row);
    var fields := Split(RenderRow(row), ',');
    forall j | 0 <= j < |row|
      ensures ParseCell(fields[j]) == row[j]
    {
      var q := Quote(row[j]);
      assert fields[j] == q;
      assert q[0] == '"' && q[|q| - 1] == '"';
      TrimNoEdgeSpace(q);
      StripQuotesOfQuote(row[j]);
    }
  }

  lemma ParseRenderedLines(t: Table)
    requires |t| >= 1
    requires forall i :: 0 <= i < |t| ==> |t[i]| >= 1
    requires NoCellHolds(t, ',') && NoCellHolds(t, '\n')
    ensures ParseLines(Render(t)) == t
  {
    var text := Render(t);
    RenderTrimmed(t);
    RenderLines(t);
    var lines := ParseLines(text);
    forall i | 0 <= i < |t|
      ensures lines[i] == t[i]
    {
      ParseRenderedRow(t[i]);
    }
  }

  /** Re-parsing a rendered table gives it back, as long as no cell holds a
      comma or a newline (the only characters the parser splits on: it removes
      only the outer quotes, so quotes and edge spaces inside a quoted cell
      survive), every row has a cell, and the table fits the default limit. */
  lemma {:induction false} RoundTrip(t: Table)
    requires 1 <= |t| <= 101
    requires forall i :: 0 <= i < |t| ==> |t[i]| >= 1
    requires NoCellHolds(t, ',') && NoCellHolds(t, '\n')
    ensures ParseShcpData(Render(t), NoFilters) == Parsed(t, Render(t))
  {
    ParseRenderedLines(t);
    DefaultLimit(Render(t));
  }
}
