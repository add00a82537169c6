/** `GET /api/search-indicators`: a case-insensitive filter over one of the
    two catalogue files, capped at ten results, with each file read at most
    once per process. */
module SearchIndicators {
  import opened Wrappers
  import opened Text
  import opened Seqs

  /** An entry of `inegi-catalogo.json`. */
  datatype InegiIndicator = InegiIndicator(id: string, descripcion: string)

  /** An entry of `banxico-catalogo.json`. */
  datatype BanxicoSerie = BanxicoSerie(id: string, titulo: string)

  /** One element of `results`. */
  datatype Hit = Hit(id: string, descripcion: string)

  datatype SearchResponse = SearchResponse(results: seq<Hit>, error: Option<string>)

  const Limit := 10
  const LoadError := "Error loading catalog"

  // ---------------------------------------------------------------------
  // The filter / slice / map chains

  predicate InegiMatches(item: InegiIndicator, query: string) {
    Contains(Lower(item.descripcion), query)
  }

  function InegiFilter(query: string): InegiIndicator -> bool {
    item => InegiMatches(item, query)
  }

  predicate BanxicoMatches(item: BanxicoSerie, query: string) {
    Contains(Lower(item.titulo), query)
  }

  function BanxicoFilter(query: string): BanxicoSerie -> bool {
    item => BanxicoMatches(item, query)
  }

  function InegiHits(items: seq<InegiIndicator>): (r: seq<Hit>)
    ensures |r| == |items|
    ensures forall k :: 0 <= k < |items| ==> r[k] == Hit(items[k].id, items[k].descripcion)
  {
    seq(|items|, k requires 0 <= k < |items| => Hit(items[k].id, items[k].descripcion))
  }

  function BanxicoHits(items: seq<BanxicoSerie>): (r: seq<Hit>)
    ensures |r| == |items|
    ensures forall k :: 0 <= k < |items| ==> r[k] == Hit(items[k].id, items[k].titulo)
  {
    seq(|items|, k requires 0 <= k < |items| => Hit(items[k].id, items[k].titulo))
  }

  /** The INEGI branch for an already lower-cased `query`. */
  function InegiResults(catalog: seq<InegiIndicator>, query: string): seq<Hit> {
    InegiHits(Take(Filter(catalog, InegiFilter(query)), Limit))
  }

  /** The Banxico branch for an already lower-cased `query`. */
  function BanxicoResults(catalog: seq<BanxicoSerie>, query: string): seq<Hit> {
    BanxicoHits(Take(Filter(catalog, BanxicoFilter(query)), Limit))
  }

  /** The INEGI results are the first matching entries of the catalogue, in
      catalogue order: at most ten, all of the matches when there are no more
      than ten, and each one carries its entry's id and description. */
  lemma {:induction false} InegiResultsSpec(catalog: seq<InegiIndicator>, query: string)
    ensures var r := InegiResults(catalog, query);
            var matches := Filter(catalog, InegiFilter(query));
            && |r| == (if |matches| < Limit then |matches| else Limit)
            && (forall k :: 0 <= k < |r| ==> r[k] == Hit(matches[k].id, matches[k].descripcion))
            && (forall k :: 0 <= k < |r| ==> matches[k] in catalog && InegiMatches(matches[k], query))
            && Subseq(matches, catalog)
  {
    var matches := Filter(catalog, InegiFilter(query));
    FilterIsSubseq(catalog, InegiFilter(query));
    forall k | 0 <= k < |matches|
      ensures matches[k] in catalog && InegiMatches(matches[k], query)
    {
      FilterMembership(catalog, InegiFilter(query), matches[k]);
    }
  }

  /** The Banxico results likewise, with the title reported as `descripcion`
      and the id unchanged. */
  lemma {:induction false} BanxicoResultsSpec(catalog: seq<BanxicoSerie>, query: string)
    ensures var r := BanxicoResults(catalog, query);
            var matches := Filter(catalog, BanxicoFilter(query));
            && |r| == (if |matches| < Limit then |matches| else Limit)
            && (forall k :: 0 <= k < |r| ==> r[k] == Hit(matches[k].id, matches[k].titulo))
            && (forall k :: 0 <= k < |r| ==> matches[k] in catalog && BanxicoMatches(matches[k], query))
            && Subseq(matches, catalog)
  {
    var matches := Filter(catalog, BanxicoFilter(query));
    FilterIsSubseq(catalog, BanxicoFilter(query));
    forall k | 0 <= k < |matches|
      ensures matches[k] in catalog && BanxicoMatches(matches[k], query)
    {
      FilterMembership(catalog, BanxicoFilter(query), matches[k]);
    }
  }

  /** `searchParams.get('q')?.toLowerCase() || ''` */
  function QueryOf(q: Option<string>): (r: string)
    ensures q.None? ==> r == ""
    ensures q.Some? ==> |r| == |q.value|
  {
    if q.Some? then Lower(q.value) else ""
  }

  /** `searchParams.get('source') || 'inegi'` */
  function SourceOf(source: Option<string>): (r: string)
    ensures Truthy(source) ==> r == source.value
    ensures !Truthy(source) ==> r == "inegi"
  {
    if Truthy(source) then source.value else "inegi"
  }

  /** What a loader returns: the cached catalogue, or else what reading and
      parsing the file gives. */
  function Loaded<T>(cache: Option<seq<T>>, file: Result<seq<T>>): Result<seq<T>> {
    if cache.Some? then Ok(cache.value) else file
  }

  /** What a cache holds after its loader returned `r`. */
  function Stored<T>(r: Result<seq<T>>): Option<seq<T>> {
    if r.Ok? then Some(r.value) else None
  }

  /** The response of `GET`, given what the loader of the chosen catalogue
      returns. */
  function Response(q: Option<string>, source: Option<string>,
                    inegi: Result<seq<InegiIndicator>>, banxico: Result<seq<BanxicoSerie>>): SearchResponse
  {
    var query := QueryOf(q);
    var src := SourceOf(source);
    if query == "" then SearchResponse([], None)
    else if src == "inegi" then
      if inegi.Err? then SearchResponse([], Some(LoadError)) else SearchResponse(InegiResults(inegi.value, query), None)
    else if src == "banxico" then
      if banxico.Err? then SearchResponse([], Some(LoadError)) else SearchResponse(BanxicoResults(banxico.value, query), None)
    else SearchResponse([], None)
  }

  /** The response is never an exception: an empty or missing query and an
      unknown source give no results, a failed load gives no results and the
      error message, and otherwise at most ten results come back. */
  lemma ResponseCases(q: Option<string>, source: Option<string>,
                      inegi: Result<seq<InegiIndicator>>, banxico: Result<seq<BanxicoSerie>>)
    ensures var r := Response(q, source, inegi, banxico);
            && (QueryOf(q) == "" ==> r == SearchResponse([], None))
            && (SourceOf(source) != "inegi" && SourceOf(source) != "banxico" ==> r.results == [] && r.error.None?)
            && (r.error.Some? ==> r.results == [] && r.error.value == LoadError)
            && |r.results| <= Limit
  {
  }

  /** A missing or empty `source` means INEGI. */
  lemma DefaultSourceIsInegi(q: Option<string>, source: Option<string>,
                             inegi: Result<seq<InegiIndicator>>, banxico: Result<seq<BanxicoSerie>>)
    requires !Truthy(source)
    ensures Response(q, source, inegi, banxico) == Response(q, Some("inegi"), inegi, banxico)
  {
  }

  // ---------------------------------------------------------------------
  // The module-level caches and the route

  /** The two module-level variables `inegiCatalog` and `banxicoCatalog`. */
  class CatalogCache {
    var inegi: Option<seq<InegiIndicator>>
    var banxico: Option<seq<BanxicoSerie>>

    constructor ()
      ensures inegi.None? && banxico.None?
    {
      inegi := None;
      banxico := None;
    }

    /** `loadInegiCatalog()`: `file` is what reading and parsing the file
        would give (an `Err` is a thrown error). The file is consulted only
        while the cache is empty, and a successful load fills the cache. */
    method LoadInegi(file: Result<seq<InegiIndicator>>) returns (r: Result<seq<InegiIndicator>>)
      modifies this
      ensures r == Loaded(old(inegi), file)
      ensures inegi == Stored(r)
      ensures old(inegi).Some? ==> inegi == old(inegi)
      ensures banxico == old(banxico)
    {
      if inegi.Some? {
        return Ok(inegi.value);
      }
      if file.Err? {
        return file;
      }
      inegi := Some(file.value);
      r := Ok(file.value);
    }

    /** `loadBanxicoCatalog()`, the same for the Banxico file. */
    method LoadBanxico(file: Result<seq<BanxicoSerie>>) returns (r: Result<seq<BanxicoSerie>>)
      modifies this
      ensures r == Loaded(old(banxico), file)
      ensures banxico == Stored(r)
      ensures old(banxico).Some? ==> banxico == old(banxico)
      ensures inegi == old(inegi)
    {
      if banxico.Some? {
        return Ok(banxico.value);
      }
      if file.Err? {
        return file;
      }
      banxico := Some(file.value);
      r := Ok(file.value);
    }

    /** `GET(request)` with the `q` and `source` parameters, given what the
        two files hold. Only the loader of the chosen source runs, and only
        when the query is non-empty. */
    method Get(q: Option<string>, source: Option<string>,
               inegiFile: Result<seq<InegiIndicator>>, banxicoFile: Result<seq<BanxicoSerie>>)
      returns (resp: SearchResponse)
      modifies this
      ensures resp == Response(q, source, Loaded(old(inegi), inegiFile), Loaded(old(banxico), banxicoFile))
      ensures QueryOf(q) == "" || SourceOf(source) != "inegi" ==> inegi == old(inegi)
      ensures QueryOf(q) == "" || SourceOf(source) != "banxico" ==> banxico == old(banxico)
      ensures old(inegi).Some? ==> inegi == old(inegi)
      ensures old(banxico).Some? ==> banxico == old(banxico)
      ensures QueryOf(q) != "" && SourceOf(source) == "inegi" ==>
                inegi == Stored(Loaded(old(inegi), inegiFile))
      ensures QueryOf(q) != "" && SourceOf(source) == "banxico" ==>
                banxico == Stored(Loaded(old(banxico), banxicoFile))
    {
      var query := QueryOf(q);
      var src := SourceOf(source);
      if query == "" {
        return SearchResponse([], None);
      }
      var results: seq<Hit> := [];
      if src == "inegi" {
        var catalog := LoadInegi(inegiFile);
        if catalog.Err? {
          return SearchResponse([], Some(LoadError));
        }
        results := InegiResults(catalog.value, query);
      } else if src == "banxico" {
        var catalog := LoadBanxico(banxicoFile);
        if catalog.Err? {
          return SearchResponse([], Some(LoadError));
        }
        results := BanxicoResults(catalog.value, query);
      }
      resp := SearchResponse(results, None);
    }
  }

  /** Two INEGI requests in one process: once the first has read the file,
      the second answers from that catalogue whatever the file holds by then,
      and the Banxico file is still unread. */
  method TwoInegiRequests(q1: Option<string>, q2: Option<string>, source2: Option<string>,
                          first: seq<InegiIndicator>, later: Result<seq<InegiIndicator>>,
                          banxicoFile: Result<seq<BanxicoSerie>>)
    returns (r1: SearchResponse, r2: SearchResponse)
    requires QueryOf(q1) != ""
    ensures r1 == Response(q1, Some("inegi"), Ok(first), banxicoFile)
    ensures r2 == Response(q2, source2, Ok(first), banxicoFile)
  {
    var cache := new CatalogCache();
    r1 := cache.Get(q1, Some("inegi"), Ok(first), banxicoFile);
    r2 := cache.Get(q2, source2, later, banxicoFile);
  }
}
