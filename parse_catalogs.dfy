/** The catalogue build script: it turns the Banxico series CSV and the
    INEGI equivalence sheet into the two JSON catalogues that
    `/api/search-indicators` loads, keeping the first entry for each id. */
module ParseCatalogs {
  import opened Wrappers
  import opened Text
  import opened Seqs
  import opened SearchIndicators

  // ---------------------------------------------------------------------
  // First-occurrence de-duplication, shared by both parsers

  /** What a loop over `xs` collects when each item yields an optional
      entry through `entry`, an entry is kept only if its key is not in the
      `seen` set yet, and a kept key joins `seen`. */
  function Collect<L, T>(xs: seq<L>, entry: L -> Option<T>, key: T -> string, seen: set<string>): (r: seq<T>)
    ensures forall i :: 0 <= i < |r| ==> key(r[i]) !in seen
  {
    if xs == [] then []
    else match entry(xs[0])
      case Some(e) =>
        if key(e) in seen then Collect(xs[1..], entry, key, seen)
        else [e] + Collect(xs[1..], entry, key, seen + {key(e)})
      case None => Collect(xs[1..], entry, key, seen)
  }

  /** One step of `Collect`. */
  lemma CollectUnfold<L, T>(xs: seq<L>, entry: L -> Option<T>, key: T -> string, seen: set<string>)
    requires xs != []
    ensures Collect(xs, entry, key, seen) ==
              if entry(xs[0]).Some? && key(entry(xs[0]).value) !in seen
              then [entry(xs[0]).value] + Collect(xs[1..], entry, key, seen + {key(entry(xs[0]).value)})
              else Collect(xs[1..], entry, key, seen)
  {
  }

  /** No two entries of `r` share a key. */
  predicate DistinctKeys<T>(r: seq<T>, key: T -> string) {
    forall i, j :: 0 <= i < j < |r| ==> key(r[i]) != key(r[j])
  }

  /** No two collected entries share a key. */
  lemma {:induction false} CollectKeysDistinct<L, T>(xs: seq<L>, entry: L -> Option<T>, key: T -> string, seen: set<string>)
    ensures DistinctKeys(Collect(xs, entry, key, seen), key)
  {
    if xs != [] {
      var isNew := entry(xs[0]).Some? && key(entry(xs[0]).value) !in seen;
      var seen' := if isNew then seen + {key(entry(xs[0]).value)} else seen;
      var rest := Collect(xs[1..], entry, key, seen');
      CollectKeysDistinct(xs[1..], entry, key, seen');
      var r := Collect(xs, entry, key, seen);
      assert r == if isNew then [entry(xs[0]).value] + rest else rest;
      if isNew {
        forall i, j | 0 <= i < j < |r|
          ensures key(r[i]) != key(r[j])
        {
          assert r[j] == rest[j - 1];
          assert key(rest[j - 1]) !in seen';
          if i > 0 {
            assert r[i] == rest[i - 1];
            assert key(rest[i - 1]) != key(rest[j - 1]);
          } else {
            assert r[i] == entry(xs[0]).value;
            assert key(r[i]) in seen';
          }
        }
      }
    }
  }

  /** Every entry of `r` is what some item of `xs` yields. */
  ghost predicate AllYielded<L, T>(r: seq<T>, xs: seq<L>, entry: L -> Option<T>) {
    forall e :: e in r ==> exists k :: 0 <= k < |xs| && entry(xs[k]) == Some(e)
  }

  /** Every collected entry is what some item yielded. */
  lemma {:induction false} CollectSound<L, T>(xs: seq<L>, entry: L -> Option<T>, key: T -> string, seen: set<string>)
    ensures AllYielded(Collect(xs, entry, key, seen), xs, entry)
  {
    if xs != [] {
      var r := Collect(xs, entry, key, seen);
      var seen' := if entry(xs[0]).Some? then seen + {key(entry(xs[0]).value)} else seen;
      CollectSound(xs[1..], entry, key, seen);
      CollectSound(xs[1..], entry, key, seen');
      forall e | e in r
        ensures exists k :: 0 <= k < |xs| && entry(xs[k]) == Some(e)
      {
        if entry(xs[0]) == Some(e) {
          assert entry(xs[0]) == Some(e);
        } else {
          var k :| 0 <= k < |xs[1..]| && entry(xs[1..][k]) == Some(e);
          assert entry(xs[k + 1]) == Some(e);
        }
      }
    }
  }

  /** The item at `j` yields an entry whose key is new: neither in `seen` nor
      yielded by an earlier item. */
  predicate FirstOfKey<L, T>(xs: seq<L>, entry: L -> Option<T>, key: T -> string, seen: set<string>, j: int)
    requires 0 <= j < |xs|
  {
    && entry(xs[j]).Some? && key(entry(xs[j]).value) !in seen
    && forall k :: 0 <= k < j && entry(xs[k]).Some? ==> key(entry(xs[k]).value) != key(entry(xs[j]).value)
  }

  /** The first entry yielded for each new key is the one that is kept. */
  lemma {:induction false} CollectKeepsFirst<L, T>(xs: seq<L>, entry: L -> Option<T>, key: T -> string, seen: set<string>, j: int)
    requires 0 <= j < |xs| && FirstOfKey(xs, entry, key, seen, j)
    ensures entry(xs[j]).value in Collect(xs, entry, key, seen)
  {
    var isNew := entry(xs[0]).Some? && key(entry(xs[0]).value) !in seen;
    var seen' := if isNew then seen + {key(entry(xs[0]).value)} else seen;
    var rest := Collect(xs[1..], entry, key, seen');
    assert Collect(xs, entry, key, seen) == if isNew then [entry(xs[0]).value] + rest else rest;
    if j > 0 {
      assert FirstOfKey(xs[1..], entry, key, seen', j - 1) by {
        forall k | 0 <= k < j - 1 && entry(xs[1..][k]).Some?
          ensures key(entry(xs[1..][k]).value) != key(entry(xs[1..][j - 1]).value)
        {
          assert xs[1..][k] == xs[k + 1];
        }
        if isNew {
          assert key(entry(xs[0]).value) != key(entry(xs[j]).value);
        }
      }
      CollectKeepsFirst(xs[1..], entry, key, seen', j - 1);
    }
  }

  /** The entries the items of `xs` yield, in item order, repeats included. */
  function Yielded<L, T>(xs: seq<L>, entry: L -> Option<T>): seq<T> {
    if xs == [] then []
    else (if entry(xs[0]).Some? then [entry(xs[0]).value] else []) + Yielded(xs[1..], entry)
  }

  /** The kept entries come in the order their items come: they are a
      subsequence of everything the items yield. */
  lemma {:induction false} CollectInOrder<L, T>(xs: seq<L>, entry: L -> Option<T>, key: T -> string, seen: set<string>)
    ensures Subseq(Collect(xs, entry, key, seen), Yielded(xs, entry))
  {
    if xs != [] {
      var y := Yielded(xs, entry);
      var rest := Yielded(xs[1..], entry);
      if entry(xs[0]).Some? {
        var e := entry(xs[0]).value;
        assert y == [e] + rest && y[1..] == rest;
        if key(e) in seen {
          CollectInOrder(xs[1..], entry, key, seen);
        } else {
          var c := Collect(xs[1..], entry, key, seen + {key(e)});
          CollectInOrder(xs[1..], entry, key, seen + {key(e)});
          assert ([e] + c)[1..] == c;
        }
      } else {
        assert y == rest;
        CollectInOrder(xs[1..], entry, key, seen);
      }
    }
  }

  /** `str.trim().replace(/"/g, '')` */
  function Clean(s: string): (r: string)
    ensures '"' !in r
  {
    RemoveAll(Trim(s), '"')
  }

  /** `content.split('\n').filter(l => l.trim())`, then everything after the
      first remaining line. */
  predicate NonBlank(l: string) {
    Trim(l) != ""
  }

  function IsNonBlank(): string -> bool {
    l => NonBlank(l)
  }

  function ContentLines(content: string): seq<string> {
    Filter(Split(content, '\n'), IsNonBlank())
  }

  // ---------------------------------------------------------------------
  // parseBanxicoCSV

  function SerieId(s: BanxicoSerie): string {
    s.id
  }

  /** The entry one CSV line yields: `clave` is the text after the last comma,
      `nombre` the last comma-separated field before it, both cleaned; the
      line yields nothing without a comma or when either is empty. */
  function BanxicoEntry(line: string): (r: Option<BanxicoSerie>)
    ensures r.Some? ==> r.value.id != "" && r.value.titulo != ""
    ensures r.Some? ==> ',' !in r.value.id && '"' !in r.value.id && '"' !in r.value.titulo
    ensures LastIndexOf(line, ',') == -1 ==> r.None?
  {
    var k := LastIndexOf(line, ',');
    if k == -1 then None
    else
      AfterLastComma(line);
      EntryOf(ClaveAt(line, k), NombreAt(line, k))
  }

  /** No comma follows the last one. */
  lemma {:induction false} AfterLastComma(line: string)
    ensures var k := LastIndexOf(line, ',');
            k != -1 ==> ',' !in line[k + 1..]
  {
    var k := LastIndexOf(line, ',');
    if k != -1 {
      var tail := line[k + 1..];
      forall j | 0 <= j < |tail|
        ensures tail[j] != ','
      {
        assert tail[j] == line[k + 1 + j];
      }
    }
  }

  /** The cleaned text after the comma at `k`, the last one of the line. */
  function ClaveAt(line: string, k: int): (r: string)
    requires 0 <= k < |line| && ',' !in line[k + 1..]
    ensures ',' !in r && '"' !in r
  {
    RemoveAllAvoids(Trim(line[k + 1..]), '"', ',');
    Clean(line[k + 1..])
  }

  /** The cleaned last comma-separated field of the text before `k`. */
  function NombreAt(line: string, k: int): (r: string)
    requires 0 <= k < |line|
    ensures '"' !in r
  {
    Clean(Last(Split(line[..k], ',')))
  }

  /** `parts[parts.length - 1]` */
  function Last(parts: seq<string>): string
    requires |parts| >= 1
  {
    parts[|parts| - 1]
  }

  /** An entry needs both fields. */
  function EntryOf(clave: string, nombre: string): (r: Option<BanxicoSerie>)
    ensures r.Some? <==> clave != "" && nombre != ""
    ensures r.Some? ==> r.value == BanxicoSerie(clave, nombre)
  {
    if clave != "" && nombre != "" then Some(BanxicoSerie(clave, nombre)) else None
  }

  /** Removing characters adds none. */
  lemma {:induction false} RemoveAllAvoids(s: string, c: char, d: char)
    requires d !in s
    ensures d !in RemoveAll(s, c)
  {
    if s != [] {
      RemoveAllAvoids(s[1..], c, d);
    }
  }

  function BanxicoLine(): string -> Option<BanxicoSerie> {
    line => BanxicoEntry(line)
  }

  /** What `parseBanxicoCSV` returns for the file contents. */
  function BanxicoCatalog(content: string): seq<BanxicoSerie> {
    if ContentLines(content) == [] then [] else Collect(ContentLines(content)[1..], BanxicoLine(), SerieId, {})
  }

  /** `parseBanxicoCSV()`, with the file contents as the argument: the
      non-blank lines, then the loop over all of them but the first. */
  method ParseBanxicoCsv(content: string) returns (results: seq<BanxicoSerie>)
    ensures results == BanxicoCatalog(content)
  {
    var lines := ContentLines(content);
    if lines == [] {
      return [];
    }
    results := CollectBanxicoLines(lines);
  }

  /** The loop of `parseBanxicoCSV`, from the second line on: each line that
      yields an entry with an id not seen yet adds it and records the id. */
  method CollectBanxicoLines(lines: seq<string>) returns (results: seq<BanxicoSerie>)
    requires lines != []
    ensures results == Collect(lines[1..], BanxicoLine(), SerieId, {})
  {
    results := [];
    var seen: set<string> := {};
    ghost var target := Collect(lines[1..], BanxicoLine(), SerieId, {});
    for i := 1 to |lines|
      invariant results + Collect(lines[i..], BanxicoLine(), SerieId, seen) == target
    {
      var entry := ParseBanxicoLine(lines[i]);
      BanxicoStep(lines[i..], seen);
      assert lines[i..][0] == lines[i] && lines[i..][1..] == lines[i + 1..];
      if entry.Some? && entry.value.id !in seen {
        AppendAssoc(results, [entry.value], Collect(lines[i + 1..], BanxicoLine(), SerieId, seen + {entry.value.id}));
        seen := seen + {entry.value.id};
        results := results + [entry.value];
      }
    }
  }

  /** The body of that loop up to the `seen` test: the entry one line
      yields, or `None` where the loop skips the line. */
  method ParseBanxicoLine(line: string) returns (entry: Option<BanxicoSerie>)
    ensures entry == BanxicoEntry(line)
  {
    BanxicoEntryParts(line);
    var lastComma := LastIndexOf(line, ',');
    if lastComma == -1 {
      return None;
    }
    var clave := ClaveAt(line, lastComma);
    var nombre := NombreAt(line, lastComma);
    if clave != "" && nombre != "" {
      return Some(BanxicoSerie(clave, nombre));
    }
    return None;
  }

  /** One iteration of the loop of `parseBanxicoCSV`: what the first line
      adds, and the lines and `seen` set it leaves for the rest. */
  lemma {:induction false} BanxicoStep(lines: seq<string>, seen: set<string>)
    requires lines != []
    ensures var e := BanxicoEntry(lines[0]);
            Collect(lines, BanxicoLine(), SerieId, seen) ==
              if e.Some? && e.value.id !in seen
              then [e.value] + Collect(lines[1..], BanxicoLine(), SerieId, seen + {e.value.id})
              else Collect(lines[1..], BanxicoLine(), SerieId, seen)
  {
    CollectUnfold(lines, BanxicoLine(), SerieId, seen);
  }

  /** How a line with a comma yields its entry. */
  lemma {:induction false} BanxicoEntryParts(line: string)
    ensures var k := LastIndexOf(line, ',');
            k != -1 ==> ',' !in line[k + 1..] && BanxicoEntry(line) == EntryOf(ClaveAt(line, k), NombreAt(line, k))
  {
    AfterLastComma(line);
  }

  /** No two entries of the Banxico catalogue share an id. */
  lemma BanxicoIdsUnique(content: string)
    ensures DistinctKeys(BanxicoCatalog(content), SerieId)
  {
    var lines := ContentLines(content);
    if lines != [] {
      CollectKeysDistinct(lines[1..], BanxicoLine(), SerieId, {});
    }
  }

  /** Every entry of the Banxico catalogue is what some line after the first
      non-blank one yields. */
  lemma BanxicoEntriesFromLines(content: string)
    ensures ContentLines(content) != [] ==> AllYielded(BanxicoCatalog(content), ContentLines(content)[1..], BanxicoLine())
  {
    var lines := ContentLines(content);
    if lines != [] {
      CollectSound(lines[1..], BanxicoLine(), SerieId, {});
    }
  }

  /** The Banxico catalogue lists its series in the order of their lines. */
  lemma BanxicoInOrder(content: string)
    ensures ContentLines(content) != [] ==>
              Subseq(BanxicoCatalog(content), Yielded(ContentLines(content)[1..], BanxicoLine()))
  {
    var lines := ContentLines(content);
    if lines != [] {
      CollectInOrder(lines[1..], BanxicoLine(), SerieId, {});
    }
  }

  /** Every entry has a non-empty id and title, and neither holds a double
      quote. */
  lemma BanxicoEntriesClean(content: string)
    ensures forall e :: e in BanxicoCatalog(content) ==> e.id != "" && e.titulo != "" && '"' !in e.id && '"' !in e.titulo
  {
    BanxicoEntriesFromLines(content);
  }

  /** The first line (after the first non-blank one) to yield a given id is
      the entry kept for that id. */
  lemma BanxicoFirstWins(content: string, j: int)
    requires var lines := ContentLines(content); 1 <= j < |lines|
    requires FirstOfKey(ContentLines(content)[1..], BanxicoLine(), SerieId, {}, j - 1)
    ensures BanxicoEntry(ContentLines(content)[j]).value in BanxicoCatalog(content)
  {
    var lines := ContentLines(content);
    FirstOfLines(lines, BanxicoLine(), SerieId, j);
    assert BanxicoLine()(lines[j]) == BanxicoEntry(lines[j]);
  }

  /** What `CollectKeepsFirst` says of the lines after the first. */
  lemma {:induction false} FirstOfLines<T>(lines: seq<string>, entry: string -> Option<T>, key: T -> string, j: int)
    requires 1 <= j < |lines|
    requires FirstOfKey(lines[1..], entry, key, {}, j - 1)
    ensures entry(lines[j]).value in Collect(lines[1..], entry, key, {})
  {
    CollectKeepsFirst(lines[1..], entry, key, {}, j - 1);
    assert lines[1..][j - 1] == lines[j];
  }

  /** A line of the form `...,nombre,clave` yields exactly that entry when
      neither field holds a comma or a double quote, or starts or ends with
      whitespace. */
  lemma {:induction false} BanxicoLineRoundTrip(prefix: string, nombre: string, clave: string)
    requires nombre != "" && clave != ""
    requires ',' !in nombre && ',' !in clave && '"' !in nombre && '"' !in clave
    requires Trim(nombre) == nombre && Trim(clave) == clave
    ensures BanxicoEntry(prefix + "," + nombre + "," + clave) == Some(BanxicoSerie(clave, nombre))
  {
    var line := prefix + "," + nombre + "," + clave;
    var head := prefix + "," + nombre;
    assert line == head + [','] + clave;
    LastIndexOfBefore(head, clave, ',');
    var k := |head|;
    assert line[k + 1..] == clave;
    assert line[..k] == prefix + [','] + nombre;
    BanxicoEntryParts(line);
    RemoveAllNone(clave, '"');
    assert ClaveAt(line, k) == clave;
    SplitAppend(prefix, nombre, ',');
    SplitNoSep(nombre, ',');
    RemoveAllNone(nombre, '"');
    assert NombreAt(line, k) == nombre;
  }

  /** The last `c` of `a + [c] + b` is the one before `b` when `b` holds none. */
  lemma {:induction false} LastIndexOfBefore(a: string, b: string, c: char)
    requires c !in b
    ensures LastIndexOf(a + [c] + b, c) == |a|
  {
    if b == [] {
      assert a + [c] + b == a + [c];
    } else {
      var s := a + [c] + b;
      assert s[..|s| - 1] == a + [c] + b[..|b| - 1];
      assert s[|s| - 1] == b[|b| - 1];
      LastIndexOfBefore(a, b[..|b| - 1], c);
    }
  }

  lemma {:induction false} RemoveAllNone(s: string, c: char)
    requires c !in s
    ensures RemoveAll(s, c) == s
  {
    if s != [] {
      RemoveAllNone(s[1..], c);
      assert s == [s[0]] + s[1..];
    }
  }

  // ---------------------------------------------------------------------
  // parseInegiXLSX

  type Row = seq<string>

  function IndicatorId(ind: InegiIndicator): string {
    ind.id
  }

  /** `header.findIndex(h => h.includes('ID BIE') || h.includes('ID_NUEVO'))` */
  function IdColumn(header: Row): int {
    FindIndex(header, IsIdHeader())
  }

  function IsIdHeader(): string -> bool {
    h => Contains(h, "ID BIE") || Contains(h, "ID_NUEVO")
  }

  /** `header.findIndex(h => h.includes('RUTA'))` */
  function RutaColumn(header: Row): int {
    FindIndex(header, IsRutaHeader())
  }

  function IsRutaHeader(): string -> bool {
    h => Contains(h, "RUTA")
  }

  /** `String(row[idx] || '')`: a missing cell, including the one at index
      -1 when a column was not found, reads as the empty string. */
  function Cell(row: Row, idx: int): (r: string)
    ensures 0 <= idx < |row| ==> r == row[idx]
    ensures !(0 <= idx < |row|) ==> r == ""
  {
    if 0 <= idx < |row| then row[idx] else ""
  }

  /** The entry one sheet row yields: the trimmed id, and the trimmed route
      as description or `Indicador <id>` when the route is empty. */
  function InegiEntry(row: Row, idIdx: int, rutaIdx: int): (r: Option<InegiIndicator>)
    ensures r.Some? <==> Trim(Cell(row, idIdx)) != ""
    ensures r.Some? ==> r.value.id == Trim(Cell(row, idIdx))
    ensures r.Some? && Trim(Cell(row, rutaIdx)) != "" ==> r.value.descripcion == Trim(Cell(row, rutaIdx))
    ensures r.Some? && Trim(Cell(row, rutaIdx)) == "" ==> r.value.descripcion == "Indicador " + r.value.id
  {
    var id := Trim(Cell(row, idIdx));
    var ruta := Trim(Cell(row, rutaIdx));
    if id == "" then None
    else Some(InegiIndicator(id, if ruta != "" then ruta else "Indicador " + id))
  }

  function InegiRow(idIdx: int, rutaIdx: int): Row -> Option<InegiIndicator> {
    row => InegiEntry(row, idIdx, rutaIdx)
  }

  /** What `parseInegiXLSX` returns for the rows of the first sheet. */
  function InegiCatalog(rows: seq<Row>): seq<InegiIndicator> {
    if rows == [] then []
    else Collect(rows[1..], InegiRow(IdColumn(rows[0]), RutaColumn(rows[0])), IndicatorId, {})
  }

  /** `parseInegiXLSX()`, with the rows of the first sheet as the argument. */
  method ParseInegiRows(rows: seq<Row>) returns (results: seq<InegiIndicator>)
    ensures results == InegiCatalog(rows)
  {
    if rows == [] {
      return [];
    }
    var header := rows[0];
    var idBieIdx := IdColumn(header);
    var rutaIdx := RutaColumn(header);
    results := [];
    var seen: set<string> := {};
    ghost var target := InegiCatalog(rows);
    for i := 1 to |rows|
      invariant results + Collect(rows[i..], InegiRow(idBieIdx, rutaIdx), IndicatorId, seen) == target
    {
      var row := rows[i];
      InegiStep(rows[i..], idBieIdx, rutaIdx, seen);
      assert rows[i..][0] == row && rows[i..][1..] == rows[i + 1..];
      var id := Trim(Cell(row, idBieIdx));
      var ruta := Trim(Cell(row, rutaIdx));
      if id != "" && id !in seen {
        var ind := InegiIndicator(id, if ruta != "" then ruta else "Indicador " + id);
        AppendAssoc(results, [ind], Collect(rows[i + 1..], InegiRow(idBieIdx, rutaIdx), IndicatorId, seen + {id}));
        seen := seen + {id};
        results := results + [ind];
      }
    }
  }

  /** One iteration of the loop of `parseInegiXLSX`. */
  lemma {:induction false} InegiStep(rows: seq<Row>, idIdx: int, rutaIdx: int, seen: set<string>)
    requires rows != []
    ensures var e := InegiEntry(rows[0], idIdx, rutaIdx);
            Collect(rows, InegiRow(idIdx, rutaIdx), IndicatorId, seen) ==
              if e.Some? && e.value.id !in seen
              then [e.value] + Collect(rows[1..], InegiRow(idIdx, rutaIdx), IndicatorId, seen + {e.value.id})
              else Collect(rows[1..], InegiRow(idIdx, rutaIdx), IndicatorId, seen)
  {
    CollectUnfold(rows, InegiRow(idIdx, rutaIdx), IndicatorId, seen);
  }

  /** No two entries of the INEGI catalogue share an id. */
  lemma InegiIdsUnique(rows: seq<Row>)
    ensures DistinctKeys(InegiCatalog(rows), IndicatorId)
  {
    if rows != [] {
      CollectKeysDistinct(rows[1..], InegiRow(IdColumn(rows[0]), RutaColumn(rows[0])), IndicatorId, {});
    }
  }

  /** Every entry of the INEGI catalogue is what some data row (not the
      header) yields. */
  lemma InegiEntriesFromRows(rows: seq<Row>)
    ensures rows != [] ==> AllYielded(InegiCatalog(rows), rows[1..], InegiRow(IdColumn(rows[0]), RutaColumn(rows[0])))
  {
    if rows != [] {
      CollectSound(rows[1..], InegiRow(IdColumn(rows[0]), RutaColumn(rows[0])), IndicatorId, {});
    }
  }

  /** The INEGI catalogue lists its indicators in the order of their rows. */
  lemma InegiInOrder(rows: seq<Row>)
    ensures rows != [] ==>
              Subseq(InegiCatalog(rows), Yielded(rows[1..], InegiRow(IdColumn(rows[0]), RutaColumn(rows[0]))))
  {
    if rows != [] {
      CollectInOrder(rows[1..], InegiRow(IdColumn(rows[0]), RutaColumn(rows[0])), IndicatorId, {});
    }
  }

  /** `e` is the indicator `row` describes: its trimmed id cell, and its
      trimmed route cell as description, or `Indicador <id>` when that cell
      is empty. */
  predicate Describes(row: Row, idIdx: int, rutaIdx: int, e: InegiIndicator) {
    && e.id == Trim(Cell(row, idIdx)) && e.id != ""
    && e.descripcion == (if Trim(Cell(row, rutaIdx)) != "" then Trim(Cell(row, rutaIdx)) else "Indicador " + e.id)
  }

  /** Every indicator of the catalogue is described by some data row, through
      the id and route columns the header names. */
  lemma InegiDescriptions(rows: seq<Row>)
    ensures rows != [] ==>
              forall e :: e in InegiCatalog(rows) ==>
                exists row :: row in rows[1..] && Describes(row, IdColumn(rows[0]), RutaColumn(rows[0]), e)
  {
    if rows != [] {
      InegiEntriesFromRows(rows);
      DescribedRows(rows[1..], IdColumn(rows[0]), RutaColumn(rows[0]), InegiCatalog(rows));
    }
  }

  lemma {:induction false} DescribedRows(data: seq<Row>, idIdx: int, rutaIdx: int, r: seq<InegiIndicator>)
    requires AllYielded(r, data, InegiRow(idIdx, rutaIdx))
    ensures forall e :: e in r ==> exists row :: row in data && Describes(row, idIdx, rutaIdx, e)
  {
    forall e | e in r
      ensures exists row :: row in data && Describes(row, idIdx, rutaIdx, e)
    {
      var k :| 0 <= k < |data| && InegiRow(idIdx, rutaIdx)(data[k]) == Some(e);
      assert Describes(data[k], idIdx, rutaIdx, e);
    }
  }

  /** Every entry has a non-empty id and a non-empty description. */
  lemma InegiEntriesClean(rows: seq<Row>)
    ensures forall e :: e in InegiCatalog(rows) ==> e.id != "" && e.descripcion != ""
  {
    InegiEntriesFromRows(rows);
  }

  /** The first data row to yield a given id is the entry kept for it. */
  lemma {:induction false} InegiFirstWins(rows: seq<Row>, j: int)
    requires rows != [] && 0 <= j < |rows| - 1
    requires FirstOfKey(rows[1..], InegiRow(IdColumn(rows[0]), RutaColumn(rows[0])), IndicatorId, {}, j)
    ensures InegiRow(IdColumn(rows[0]), RutaColumn(rows[0]))(rows[1..][j]).value in InegiCatalog(rows)
  {
    CollectKeepsFirst(rows[1..], InegiRow(IdColumn(rows[0]), RutaColumn(rows[0])), IndicatorId, {}, j);
  }

  /** A sheet whose header has no id column yields nothing: every row reads
      as an empty id. */
  lemma {:induction false} NoIdColumnNoEntries(rows: seq<Row>)
    requires rows != [] && IdColumn(rows[0]) == -1
    ensures InegiCatalog(rows) == []
  {
    var f := InegiRow(-1, RutaColumn(rows[0]));
    NoneCollected(rows[1..], f, IndicatorId, {});
  }

  lemma {:induction false} NoneCollected<L, T>(xs: seq<L>, entry: L -> Option<T>, key: T -> string, seen: set<string>)
    requires forall k :: 0 <= k < |xs| ==> entry(xs[k]).None?
    ensures Collect(xs, entry, key, seen) == []
  {
    if xs != [] {
      NoneCollected(xs[1..], entry, key, seen);
    }
  }
}
