/** The built-in catalogue of INEGI indicators and its text search. */
module InegiIndicadores {
  import opened Text
  import opened Seqs

  datatype Indicador = Indicador(id: string, nombre: string, tema: string, unidad: string, frecuencia: string)

  /** `INEGI_INDICADORES`, in declaration order. */
  const Catalog: seq<Indicador> := [
    Indicador("1002000001", "Población total", "Población", "Personas", "Anual"),
    Indicador("1002000002", "Población masculina", "Población", "Personas", "Anual"),
    Indicador("1002000003", "Población femenina", "Población", "Personas", "Anual"),
    Indicador("444456", "PIB (Producto Interno Bruto) a precios constantes", "Cuentas Nacionales", "Millones de pesos", "Trimestral"),
    Indicador("444457", "PIB (Producto Interno Bruto) a precios corrientes", "Cuentas Nacionales", "Millones de pesos", "Trimestral"),
    Indicador("5264721", "INPC (Índice Nacional de Precios al Consumidor)", "Precios", "Índice", "Mensual"),
    Indicador("5264722", "Inflación anual INPC", "Precios", "Porcentaje", "Mensual"),
    Indicador("289237", "Tasa de desocupación", "Mercado Laboral", "Porcentaje", "Mensual"),
    Indicador("289238", "Población económicamente activa", "Mercado Laboral", "Personas", "Mensual"),
    Indicador("289239", "Población ocupada", "Mercado Laboral", "Personas", "Mensual"),
    Indicador("575213", "Índice de volumen físico de la actividad industrial", "Actividad Económica", "Índice", "Mensual"),
    Indicador("575214", "IGAE (Indicador Global de la Actividad Económica)", "Actividad Económica", "Índice", "Mensual"),
    Indicador("575234", "Indicador de actividad económica del sector terciario", "Actividad Económica", "Índice", "Mensual"),
    Indicador("575235", "Indicador de actividad económica del sector secundario", "Actividad Económica", "Índice", "Mensual"),
    Indicador("389336", "Índice de confianza del consumidor", "Expectativas", "Puntos", "Mensual"),
    Indicador("389337", "Índice de confianza del productor", "Expectativas", "Puntos", "Mensual"),
    Indicador("5303789", "Exportaciones totales", "Comercio Exterior", "Millones de dólares", "Mensual"),
    Indicador("5303790", "Importaciones totales", "Comercio Exterior", "Millones de dólares", "Mensual"),
    Indicador("620686890", "Inversión extranjera directa", "Comercio Exterior", "Millones de dólares", "Trimestral"),
    Indicador("531217", "Remesas totales", "Sector Externo", "Millones de dólares", "Mensual")
  ]

  /** The condition `searchInegiIndicadores(query)` keeps an entry under: the
      name or the topic contains the query case-insensitively, or the id
      contains the query as typed (the id is not lower-cased). */
  predicate Matches(ind: Indicador, query: string) {
    || Contains(Lower(ind.nombre), Lower(query))
    || Contains(Lower(ind.tema), Lower(query))
    || Contains(ind.id, query)
  }

  function MatchesQuery(query: string): Indicador -> bool {
    ind => Matches(ind, query)
  }

  /** `searchInegiIndicadores(query)`. */
  function Search(query: string): seq<Indicador> {
    Filter(Catalog, MatchesQuery(query))
  }

  /** The result lists, in catalogue order, exactly the entries that match. */
  lemma SearchSpec(query: string)
    ensures Subseq(Search(query), Catalog)
    ensures forall ind :: ind in Search(query) <==> ind in Catalog && Matches(ind, query)
  {
    FilterIsSubseq(Catalog, MatchesQuery(query));
    forall ind
      ensures ind in Search(query) <==> ind in Catalog && Matches(ind, query)
    {
      FilterMembership(Catalog, MatchesQuery(query), ind);
    }
  }

  /** The empty query matches everything. */
  lemma EmptyQuery()
    ensures Search("") == Catalog
  {
    forall i | 0 <= i < |Catalog|
      ensures Matches(Catalog[i], "")
    {
      ContainsEmpty(Catalog[i].id);
    }
    FilterAll(Catalog, MatchesQuery(""));
  }

  /** Searching for an entry's own id finds that entry. */
  lemma {:induction false} FindsById(i: int)
    requires 0 <= i < |Catalog|
    ensures Catalog[i] in Search(Catalog[i].id)
  {
    var ind := Catalog[i];
    assert OccursAt(ind.id, ind.id, 0);
    ContainsAt(ind.id, ind.id, 0);
    SearchSpec(ind.id);
  }

  /** The catalogue holds 20 entries, no two with the same id. */
  lemma CatalogIds()
    ensures |Catalog| == 20
    ensures forall i, j :: 0 <= i < j < |Catalog| ==> Catalog[i].id != Catalog[j].id
  {
  }
}
