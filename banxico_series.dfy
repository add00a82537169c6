/** The built-in catalogue of Banxico SIE series and its text search. */
module BanxicoSeries {
  import opened Text
  import opened Seqs

  datatype Serie = Serie(id: string, nombre: string, descripcion: string, unidad: string, frecuencia: string)

  /** `BANXICO_SERIES`, in declaration order. */
  const Catalog: seq<Serie> := [
    Serie("SF43707", "Reservas Internacionales", "Reservas internacionales brutas", "Millones de dólares", "Diaria"),
    Serie("SF61745", "Tasa objetivo", "Tasa de interés objetivo de Banxico", "Porcentaje", "Diaria"),
    Serie("SF60648", "TIIE a 28 días", "Tasa de Interés Interbancaria de Equilibrio a 28 días", "Porcentaje", "Diaria"),
    Serie("SF60649", "TIIE a 91 días", "Tasa de Interés Interbancaria de Equilibrio a 91 días", "Porcentaje", "Diaria"),
    Serie("SF60633", "CETES a 28 días", "Tasa de rendimiento de los CETES a 28 días", "Porcentaje", "Semanal"),
    Serie("SF43718", "Tipo de cambio FIX", "Tipo de cambio pesos por dólar - Fecha de determinación (FIX)", "Pesos por dólar", "Diaria"),
    Serie("SF60653", "Tipo de cambio fecha de liquidación", "Pesos por dólar - Fecha de liquidación", "Pesos por dólar", "Diaria"),
    Serie("SF46410", "Euro", "Tipo de cambio pesos por Euro", "Pesos por Euro", "Diaria"),
    Serie("SF46406", "Yen japonés", "Tipo de cambio pesos por Yen japonés", "Pesos por Yen", "Diaria"),
    Serie("SF46407", "Libra esterlina", "Tipo de cambio pesos por Libra esterlina", "Pesos por Libra", "Diaria"),
    Serie("SF60632", "Dólar canadiense", "Tipo de cambio pesos por Dólar canadiense", "Pesos por Dólar", "Diaria"),
    Serie("SP68257", "UDIS", "Valor de las Unidades de Inversión (UDIS)", "Pesos por UDI", "Diaria"),
    Serie("SF223628", "Tasa de fondeo bancario", "Tasa de interés de fondeo bancario", "Porcentaje", "Diaria"),
    Serie("SF178536", "Índice de precios y cotizaciones (IPC)", "Índice bursátil de la Bolsa Mexicana de Valores", "Puntos", "Diaria"),
    Serie("SF179258", "Base monetaria", "Base monetaria del Banco de México", "Millones de pesos", "Semanal"),
    Serie("SF43783", "Saldo en cuentas de cheques", "Saldo total en cuentas de cheques bancarias", "Millones de pesos", "Semanal")
  ]

  /** The condition `searchBanxicoSeries` keeps a series under, given the
      lower-cased query: its name, description or id, lower-cased, contains
      it. */
  predicate Matches(s: Serie, lower: string) {
    || Contains(Lower(s.nombre), lower)
    || Contains(Lower(s.descripcion), lower)
    || Contains(Lower(s.id), lower)
  }

  function MatchesLower(lower: string): Serie -> bool {
    s => Matches(s, lower)
  }

  /** `searchBanxicoSeries(query)`. */
  function Search(query: string): seq<Serie> {
    Filter(Catalog, MatchesLower(Lower(query)))
  }

  /** The result lists, in catalogue order, exactly the series that match. */
  lemma SearchSpec(query: string)
    ensures Subseq(Search(query), Catalog)
    ensures forall s :: s in Search(query) <==> s in Catalog && Matches(s, Lower(query))
  {
    FilterIsSubseq(Catalog, MatchesLower(Lower(query)));
    forall s
      ensures s in Search(query) <==> s in Catalog && Matches(s, Lower(query))
    {
      FilterMembership(Catalog, MatchesLower(Lower(query)), s);
    }
  }

  /** The search depends on the query only through its lower-cased form, so
      two queries that differ only in case give the same result. */
  lemma CaseInsensitive(q1: string, q2: string)
    requires Lower(q1) == Lower(q2)
    ensures Search(q1) == Search(q2)
  {
  }

  /** The id is compared lower-cased too: any spelling of a series' id, in any
      case, finds that series (`sf43718` finds `SF43718`). */
  lemma {:induction false} FindsByIdAnyCase(i: int, query: string)
    requires 0 <= i < |Catalog|
    requires Lower(query) == Lower(Catalog[i].id)
    ensures Catalog[i] in Search(query)
  {
    var l := Lower(query);
    assert OccursAt(l, l, 0);
    ContainsAt(Lower(Catalog[i].id), l, 0);
    SearchSpec(query);
  }

  /** The empty query matches everything. */
  lemma EmptyQuery()
    ensures Search("") == Catalog
  {
    forall i | 0 <= i < |Catalog|
      ensures Matches(Catalog[i], Lower(""))
    {
      ContainsEmpty(Lower(Catalog[i].id));
    }
    FilterAll(Catalog, MatchesLower(Lower("")));
  }

  /** The catalogue holds 16 series, no two with the same id. */
  lemma CatalogIds()
    ensures |Catalog| == 16
    ensures forall i, j :: 0 <= i < j < |Catalog| ==> Catalog[i].id != Catalog[j].id
  {
    forall i, j | 0 <= i < j < |Catalog|
      ensures Catalog[i].id != Catalog[j].id
    {
      if i < 8 { DistinctFromFirstHalf(i, j); } else { DistinctInSecondHalf(i, j); }
    }
  }

  lemma DistinctFromFirstHalf(i: int, j: int)
    requires 0 <= i < 8 && i < j < |Catalog|
    ensures Catalog[i].id != Catalog[j].id
  {
  }

  lemma DistinctInSecondHalf(i: int, j: int)
    requires 8 <= i < j < |Catalog|
    ensures Catalog[i].id != Catalog[j].id
  {
  }
}
