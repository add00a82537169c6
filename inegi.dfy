/** The INEGI adapter: the indicator URL, the classification of what the
    request came back with, and the parser that turns the JSON payload into
    a table. */
module Inegi {
  import opened Wrappers
  import opened Text
  import opened Csv
  import Http

  // ---------------------------------------------------------------------
  // Payload: `InegiResponse`. Fields can be missing from the JSON, so the
  // arrays the parser tests for are optional.

  datatype Observation = Observation(timePeriod: string, obsValue: string)

  /** The fields of one series that the parser reads. */
  datatype Series = Series(unit: string, lastUpdate: string, observations: Option<seq<Observation>>)

  datatype Response = Response(series: Option<seq<Series>>)

  // ---------------------------------------------------------------------
  // fetchInegiIndicator

  const UrlPrefix := "https://www.inegi.org.mx/app/api/indicadores/desarrolladores/jsonxml/INDICATOR/"
  const UrlSuffix := "?type=json"
  const DefaultArea := "00"

  function RecentFlag(recent: bool): string {
    if recent then "true" else "false"
  }

  /** The request URL: indicator, language `es`, area, the recent-only flag,
      the data bank `BIE-BISE`, version `2.0` and the token, then the format. */
  function InegiUrl(indicatorId: string, token: string, area: string, recent: bool): string {
    UrlPrefix + (indicatorId + ("/" + AfterId(area, recent, token)))
  }

  /** The part of the URL after the indicator id and its slash. */
  function AfterId(area: string, recent: bool, token: string): string {
    "es/" + (area + ("/" + AfterArea(recent, token)))
  }

  /** The part of the URL after the area and its slash. */
  function AfterArea(recent: bool, token: string): string {
    RecentFlag(recent) + ("/BIE-BISE/2.0/" + (token + UrlSuffix))
  }

  /** A separator-free prefix followed by the separator can be read back off. */
  lemma {:induction false} PeelAtSeparator(a1: string, t1: string, a2: string, t2: string, sep: char)
    requires sep !in a1 && sep !in a2
    requires a1 + ([sep] + t1) == a2 + ([sep] + t2)
    ensures a1 == a2 && t1 == t2
  {
    assert a1 + ([sep] + t1) == a1 + [sep] + t1;
    assert a2 + ([sep] + t2) == a2 + [sep] + t2;
    SplitConcat(a1, t1, sep);
    SplitConcat(a2, t2, sep);
    var u := a1 + [sep] + t1;
    assert u == a2 + [sep] + t2;
    assert ([a1] + Split(t1, sep))[0] == a1 && ([a2] + Split(t2, sep))[0] == a2;
    assert a1 == a2;
    assert t1 == u[|a1| + 1..] == t2;
  }

  /** Different arguments give different URLs, as long as the indicator id and
      the area hold no `/`: the URL determines the id, the area, the flag and
      the token it was built from. */
  lemma {:induction false} InegiUrlInjective(id1: string, tok1: string, area1: string, rec1: bool,
                                             id2: string, tok2: string, area2: string, rec2: bool)
    requires '/' !in id1 && '/' !in id2 && '/' !in area1 && '/' !in area2
    requires InegiUrl(id1, tok1, area1, rec1) == InegiUrl(id2, tok2, area2, rec2)
    ensures id1 == id2 && tok1 == tok2 && area1 == area2 && rec1 == rec2
  {
    var u := InegiUrl(id1, tok1, area1, rec1);
    var y1 := AfterId(area1, rec1, tok1);
    var y2 := AfterId(area2, rec2, tok2);
    assert id1 + ("/" + y1) == u[|UrlPrefix|..] == id2 + ("/" + y2);
    PeelAtSeparator(id1, y1, id2, y2, '/');
    var w1 := AfterArea(rec1, tok1);
    var w2 := AfterArea(rec2, tok2);
    assert area1 + ("/" + w1) == y1[3..] == area2 + ("/" + w2);
    PeelAtSeparator(area1, w1, area2, w2, '/');
    assert w1[0] == RecentFlag(rec1)[0] && w2[0] == RecentFlag(rec2)[0];
    var n := |RecentFlag(rec1)| + 14;
    assert tok1 + UrlSuffix == w1[n..] == tok2 + UrlSuffix;
    assert tok1 == (tok1 + UrlSuffix)[..|tok1|];
  }

  /** What the request ended in: the payload, the not-found error the
      function throws (`INEGI_NOT_FOUND`), or `null`. */
  datatype FetchResult = Fetched(data: Response) | NotFound | Failed

  /** The error handling of `fetchInegiIndicator`, given what `fetch` came back
      with and how the body parses as JSON (`None`: `response.json()` throws). */
  function ClassifyFetch(o: Http.Outcome, json: string -> Option<Response>): (r: FetchResult)
    ensures r.NotFound? <==> o.Response? && !o.Ok() && Contains(o.body, "ErrorCode:100")
    ensures r.Fetched? <==> o.Ok() && json(o.body).Some?
    ensures r.Fetched? ==> r.data == json(o.body).value
  {
    if o.NetworkError? then Failed
    else if !o.Ok() then
      if Contains(o.body, "ErrorCode:100") then NotFound else Failed
    else match json(o.body)
      case None => Failed
      case Some(d) => Fetched(d)
  }

  /** `fetchInegiIndicator(indicatorId, token, area, recent)`: `http` is the
      network, `json` the JSON decoder. */
  function FetchInegiIndicator(indicatorId: string, token: string, area: string, recent: bool,
                               http: string -> Http.Outcome, json: string -> Option<Response>): FetchResult
  {
    ClassifyFetch(http(InegiUrl(indicatorId, token, area, recent)), json)
  }

  /** Only an error response whose body names `ErrorCode:100` is reported as
      "not found"; a network failure, any other error response and a body that
      is not JSON all come back as `null`, never as a thrown error. */
  lemma OnlyErrorCode100IsNotFound(o: Http.Outcome, json: string -> Option<Response>)
    ensures o.NetworkError? ==> ClassifyFetch(o, json) == Failed
    ensures o.Response? && !o.Ok() && !Contains(o.body, "ErrorCode:100") ==> ClassifyFetch(o, json) == Failed
    ensures o.Ok() && json(o.body).None? ==> ClassifyFetch(o, json) == Failed
  {
  }

  // ---------------------------------------------------------------------
  // parseInegiData

  const Header: seq<string> := ["Periodo", "Valor", "Unidad", "UltimaActualizacion"]

  /** The row of one observation of series `s`. */
  function ObservationRow(o: Observation, s: Series): seq<string> {
    [o.timePeriod, o.obsValue, s.unit, s.lastUpdate]
  }

  /** The payload holds something to tabulate: a first series with at least
      one observation. */
  predicate HasObservations(data: Response) {
    && data.series.Some? && |data.series.value| > 0
    && data.series.value[0].observations.Some? && |data.series.value[0].observations.value| > 0
  }

  /** One row per observation, in order. */
  function ObservationRows(obs: seq<Observation>, s: Series): (r: Table)
    ensures |r| == |obs| && forall i :: 0 <= i < |obs| ==> r[i] == ObservationRow(obs[i], s)
  {
    seq(|obs|, i requires 0 <= i < |obs| => ObservationRow(obs[i], s))
  }

  /** What `parseInegiData` returns, as a function of the payload. */
  function InegiTable(data: Response): (r: Option<Parsed>)
    ensures r.None? <==> !HasObservations(data)
    ensures r.Some? ==>
              var s := data.series.value[0];
              var obs := s.observations.value;
              var t := r.value.table;
              && |t| == |obs| + 1
              && t[0] == Header
              && (forall i :: 0 <= i < |obs| ==> t[i + 1] == [obs[i].timePeriod, obs[i].obsValue, s.unit, s.lastUpdate])
              && (forall i :: 0 <= i < |t| ==> |t[i]| == 4)
              && r.value.csv == Render(t)
  {
    if !HasObservations(data) then None
    else
      var s := data.series.value[0];
      var t := [Header] + ObservationRows(s.observations.value, s);
      assert forall i :: 1 <= i < |t| ==> t[i] == ObservationRow(s.observations.value[i - 1], s);
      Some(Parsed(t, Render(t)))
  }

  /** `parseInegiData(data)`: the header row, then one row per observation of
      the first series. */
  method ParseInegiData(data: Response) returns (r: Option<Parsed>)
    ensures r == InegiTable(data)
  {
    if data.series.None? || |data.series.value| == 0 {
      return None;
    }
    var series := data.series.value[0];
    if series.observations.None? || |series.observations.value| == 0 {
      return None;
    }
    var table := BuildTable(series.observations.value, series);
    r := Some(Parsed(table, Render(table)));
  }

  /** The `table.push` loop of `parseInegiData`. */
  method BuildTable(observations: seq<Observation>, series: Series) returns (table: Table)
    ensures table == [Header] + ObservationRows(observations, series)
  {
    table := [Header];
    for i := 0 to |observations|
      invariant |table| == i + 1 && table[0] == Header
      invariant forall j :: 0 <= j < i ==> table[j + 1] == ObservationRow(observations[j], series)
    {
      table := table + [ObservationRow(observations[i], series)];
    }
  }

  /** The CSV text has one line per table row, line 0 being the header. */
  lemma InegiCsvLines(data: Response)
    requires HasObservations(data)
    requires NoCellHolds(InegiTable(data).value.table, '\n')
    ensures var p := InegiTable(data).value;
            Split(p.csv, '\n') == RenderedRows(p.table) && Split(p.csv, '\n')[0] == RenderRow(Header)
  {
    RenderLines(InegiTable(data).value.table);
  }
}
