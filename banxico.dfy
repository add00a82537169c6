/** The Banxico SIE adapter: the series URL, the classification of what the
    request came back with, and the parser that turns the JSON payload into
    a table. */
module Banxico {
  import opened Wrappers
  import opened Text
  import opened Csv
  import Http

  // ---------------------------------------------------------------------
  // Payload: `BanxicoResponse`. Fields can be missing from the JSON, so the
  // objects and arrays the parser tests for are optional.

  datatype Observation = Observation(fecha: string, dato: string)

  datatype Series = Series(idSerie: string, titulo: string, datos: Option<seq<Observation>>)

  datatype Bmx = Bmx(series: Option<seq<Series>>)

  datatype Response = Response(bmx: Option<Bmx>)

  // ---------------------------------------------------------------------
  // fetchBanxicoSeries

  const SeriesBase := "https://www.banxico.org.mx/SieAPIRest/service/v1/series/"

  /** The request URL: the latest observation (`/oportuno`) when `latest` is
      set, otherwise the date range when both dates are given and non-empty,
      otherwise the whole series. */
  function BanxicoUrl(seriesId: string, startDate: Option<string>, endDate: Option<string>, latest: bool): (r: string)
    ensures StartsWith(r, SeriesBase + seriesId + "/datos")
  {
    var stem := SeriesBase + seriesId + "/datos";
    if latest then stem + "/oportuno"
    else if Truthy(startDate) && Truthy(endDate) then stem + "/" + startDate.value + "/" + endDate.value
    else stem
  }

  /** `latest` takes precedence over any dates. */
  lemma LatestIgnoresDates(seriesId: string, s1: Option<string>, e1: Option<string>, s2: Option<string>, e2: Option<string>)
    ensures BanxicoUrl(seriesId, s1, e1, true) == BanxicoUrl(seriesId, s2, e2, true)
  {
  }

  /** A single date, or an empty one, is ignored: the whole series is asked for. */
  lemma {:induction false} OneDateIsIgnored(seriesId: string, startDate: Option<string>, endDate: Option<string>)
    requires !Truthy(startDate) || !Truthy(endDate)
    ensures BanxicoUrl(seriesId, startDate, endDate, false) == BanxicoUrl(seriesId, None, None, false)
    ensures |BanxicoUrl(seriesId, startDate, endDate, false)| == |SeriesBase| + |seriesId| + 6
  {
  }

  /** A date range asks for exactly that range: the URL ends in
      `/start/end`. */
  lemma {:induction false} RangeUrl(seriesId: string, startDate: string, endDate: string)
    requires startDate != "" && endDate != ""
    ensures var u := BanxicoUrl(seriesId, Some(startDate), Some(endDate), false);
            var tail := "/" + startDate + "/" + endDate;
            |tail| <= |u| && u[|u| - |tail|..] == tail
  {
  }

  /** Of what the request ended in, only a successful response whose body parses
      as JSON yields a payload; a network failure, a non-2xx status (the thrown
      `Banxico API error`) and a body that is not JSON all yield `null`. */
  function ClassifyFetch(o: Http.Outcome, json: string -> Option<Response>): (r: Option<Response>)
    ensures r.Some? <==> o.Ok() && json(o.body).Some?
    ensures r.Some? ==> r.value == json(o.body).value
  {
    if !o.Ok() then None else json(o.body)
  }

  /** `fetchBanxicoSeries(seriesId, token, startDate, endDate, latest)`:
      `http` is the network (the token travels in the `Bmx-Token` header, not
      in the URL), `json` the JSON decoder. */
  function FetchBanxicoSeries(seriesId: string, token: string, startDate: Option<string>, endDate: Option<string>,
                              latest: bool, http: (string, string) -> Http.Outcome,
                              json: string -> Option<Response>): Option<Response>
  {
    ClassifyFetch(http(BanxicoUrl(seriesId, startDate, endDate, latest), token), json)
  }

  // ---------------------------------------------------------------------
  // parseBanxicoData

  const Header: seq<string> := ["Fecha", "Valor", "Serie", "Titulo"]

  /** The row of one observation of series `s`. */
  function ObservationRow(o: Observation, s: Series): seq<string> {
    [o.fecha, o.dato, s.idSerie, s.titulo]
  }

  /** The payload holds something to tabulate: a first series with at least
      one observation. */
  predicate HasDatos(data: Response) {
    && data.bmx.Some? && data.bmx.value.series.Some? && |data.bmx.value.series.value| > 0
    && data.bmx.value.series.value[0].datos.Some? && |data.bmx.value.series.value[0].datos.value| > 0
  }

  /** One row per observation, in order. */
  function ObservationRows(obs: seq<Observation>, s: Series): (r: Table)
    ensures |r| == |obs| && forall i :: 0 <= i < |obs| ==> r[i] == ObservationRow(obs[i], s)
  {
    seq(|obs|, i requires 0 <= i < |obs| => ObservationRow(obs[i], s))
  }

  /** What `parseBanxicoData` returns, as a function of the payload. */
  function BanxicoTable(data: Response): (r: Option<Parsed>)
    ensures r.None? <==> !HasDatos(data)
    ensures r.Some? ==>
              var s := data.bmx.value.series.value[0];
              var obs := s.datos.value;
              var t := r.value.table;
              && |t| == |obs| + 1
              && t[0] == Header
              && (forall i :: 0 <= i < |obs| ==> t[i + 1] == [obs[i].fecha, obs[i].dato, s.idSerie, s.titulo])
              && (forall i :: 0 <= i < |t| ==> |t[i]| == 4)
              && r.value.csv == Render(t)
  {
    if !HasDatos(data) then None
    else
      var s := data.bmx.value.series.value[0];
      var t := [Header] + ObservationRows(s.datos.value, s);
      assert forall i :: 1 <= i < |t| ==> t[i] == ObservationRow(s.datos.value[i - 1], s);
      Some(Parsed(t, Render(t)))
  }

  /** `parseBanxicoData(data)`: the header row, then one row per observation of
      the first series. */
  method ParseBanxicoData(data: Response) returns (r: Option<Parsed>)
    ensures r == BanxicoTable(data)
  {
    if data.bmx.None? || data.bmx.value.series.None? || |data.bmx.value.series.value| == 0 {
      return None;
    }
    var series := data.bmx.value.series.value[0];
    if series.datos.None? || |series.datos.value| == 0 {
      return None;
    }
    var table := BuildTable(series.datos.value, series);
    r := Some(Parsed(table, Render(table)));
  }

  /** The `table.push` loop of `parseBanxicoData`. */
  method BuildTable(observations: seq<Observation>, series: Series) returns (table: Table)
    ensures table == [Header] + ObservationRows(observations, series)
  {
    table := [Header];
    for i := 0 to |observations|
      invariant |table| == i + 1 && table[0] == Header
      invariant forall j :: 0 <= j < i ==> table[j + 1] == ObservationRow(observations[j], series)
    {
      table := table + [ObservationRow(observations[i], series)];
    }
  }

  /** Every row after the header carries the series id and title, so the
      series a table came from can be read back off any data row. */
  lemma {:induction false} RowsNameTheirSeries(data: Response, i: int)
    requires HasDatos(data)
    requires 1 <= i < |BanxicoTable(data).value.table|
    ensures var s := data.bmx.value.series.value[0];
            BanxicoTable(data).value.table[i][2..] == [s.idSerie, s.titulo]
  {
  }
}
