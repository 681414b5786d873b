/**
 * The delivery-route page: the customer selection of the route form, the customer search,
 * the submit validation, loading a route back for editing, the preview of a route's stops
 * and the ordering of the route table.
 */
module Rutas {
  import opened Wrappers
  import opened Text
  import opened Seqs
  import opened Sorting
  import opened Records

  /** A stored route; `notas` and `clientes` may be absent from the document. */
  datatype Route = Route(id: string, nombre: string, notas: Option<string>,
                         clientes: Option<seq<string>>, fechaCreacion: string)

  // ---------------------------------------------------------------------------------------
  // Selecting customers

  function IsNot(id: string): string -> bool {
    (x: string) => x != id
  }

  /** `handleClienteSelection`: a selected id is removed everywhere, another one is appended. */
  function Toggle(selected: seq<string>, id: string): seq<string> {
    if id in selected then Filter(selected, IsNot(id)) else selected + [id]
  }

  /** Exactly the toggled id changes membership. */
  lemma ToggleFlips(selected: seq<string>, id: string)
    ensures id in Toggle(selected, id) <==> id !in selected
    ensures forall x :: x != id ==> (x in Toggle(selected, id) <==> x in selected)
  {
  }

  /** The other ids keep their relative order, and a new id goes last. */
  lemma ToggleKeepsOthers(selected: seq<string>, id: string)
    ensures Filter(Toggle(selected, id), IsNot(id)) == Filter(selected, IsNot(id))
    ensures id !in selected ==> Toggle(selected, id) == selected + [id]
  {
    if id in selected {
      FilterFilter(selected, IsNot(id), IsNot(id), IsNot(id));
    } else {
      FilterAppend(selected, [id], IsNot(id));
    }
  }

  /** A selection without repeats stays without repeats. */
  lemma ToggleNoDup(selected: seq<string>, id: string)
    requires NoDup(selected)
    ensures NoDup(Toggle(selected, id))
  {
    if id in selected {
      FilterNoDup(selected, IsNot(id));
    }
  }

  /** Toggling an absent id twice gives the selection back. */
  lemma ToggleTwice(selected: seq<string>, id: string)
    requires id !in selected
    ensures Toggle(Toggle(selected, id), id) == selected
  {
    FilterAppend(selected, [id], IsNot(id));
    FilterAll(selected, IsNot(id));
  }

  // ---------------------------------------------------------------------------------------
  // Searching customers

  predicate Matches(c: Customer, term: string) {
    Contains(ToLower(c.nombre), ToLower(term)) || Contains(ToLower(c.direccion), ToLower(term))
  }

  function MatchesTerm(term: string): Customer -> bool {
    (c: Customer) => Matches(c, term)
  }

  /** `filteredClientes`. */
  function FilteredClientes(clientes: seq<Customer>, term: string): (r: seq<Customer>)
    ensures forall c :: c in r <==> c in clientes && Matches(c, term)
  {
    Filter(clientes, MatchesTerm(term))
  }

  /** An empty search term shows every customer; the search ignores case on both sides. */
  lemma SearchCases(clientes: seq<Customer>, term: string)
    ensures FilteredClientes(clientes, "") == clientes
    ensures FilteredClientes(clientes, ToLower(term)) == FilteredClientes(clientes, term)
  {
    forall c | c in clientes
      ensures MatchesTerm("")(c)
    {
      assert OccursAt(ToLower(c.nombre), ToLower(""), 0);
    }
    FilterAll(clientes, MatchesTerm(""));
    assert ToLower(ToLower(term)) == ToLower(term) by {
      LowerTwice(term);
    }
    assert forall c :: MatchesTerm(ToLower(term))(c) == MatchesTerm(term)(c);
    FilterSame(clientes, MatchesTerm(ToLower(term)), MatchesTerm(term));
  }

  // ---------------------------------------------------------------------------------------
  // Saving and editing

  const MissingName := "El nombre de la ruta es requerido"
  const MissingClients := "Debe seleccionar al menos un cliente"

  /** The route data a submission stores. */
  datatype RouteData = RouteData(nombre: string, notas: string, clientes: seq<string>, fechaCreacion: string)

  /**
   * The validation of `handleSubmit`. The name is stored as typed (only the test trims it);
   * the stored customers are the selection; the creation date is `today`'s.
   */
  function ValidateRoute(nombre: string, notas: string, selected: seq<string>, today: string): Result<RouteData, string> {
    if Trim(nombre) == [] then Err(MissingName)
    else if |selected| == 0 then Err(MissingClients)
    else Ok(RouteData(nombre, notas, selected, today))
  }

  /** A blank name is reported first, then an empty selection; otherwise the selection is stored in order. */
  lemma ValidateRouteCases(nombre: string, notas: string, selected: seq<string>, today: string)
    ensures IsBlank(nombre) <==> ValidateRoute(nombre, notas, selected, today) == Err(MissingName)
    ensures !IsBlank(nombre) && selected == [] <==> ValidateRoute(nombre, notas, selected, today) == Err(MissingClients)
    ensures !IsBlank(nombre) && selected != [] ==>
              ValidateRoute(nombre, notas, selected, today) == Ok(RouteData(nombre, notas, selected, today))
  {
    TrimEmptyIffBlank(nombre);
  }

  /** The route as stored under `id`. */
  function Stored(id: string, data: RouteData): Route {
    Route(id, data.nombre, Some(data.notas), Some(data.clientes), data.fechaCreacion)
  }

  /** The form `handleEdit` loads: name, notes (empty when absent) and the selection (empty when absent). */
  datatype RouteForm = RouteForm(nombre: string, notas: string, selected: seq<string>)

  function LoadForEdit(r: Route): RouteForm {
    RouteForm(r.nombre,
              match r.notas case Some(n) => n case None => "",
              match r.clientes case Some(c) => c case None => [])
  }

  /** Editing a saved route loads back the name, the notes and the selection in its order. */
  lemma EditRoundTrip(id: string, nombre: string, notas: string, selected: seq<string>, today: string)
    requires ValidateRoute(nombre, notas, selected, today).Ok?
    ensures LoadForEdit(Stored(id, ValidateRoute(nombre, notas, selected, today).value)) == RouteForm(nombre, notas, selected)
  {
  }

  // ---------------------------------------------------------------------------------------
  // The table

  /** The stops a row shows: the names of the first three customers. */
  function PreviewSteps(clientes: seq<string>, customers: seq<Customer>): (r: seq<string>)
    ensures |r| == if |clientes| < 3 then |clientes| else 3
    ensures forall k :: 0 <= k < |r| ==> r[k] == ClienteName(customers, clientes[k])
  {
    var first := Take(clientes, 3);
    seq(|first|, k requires 0 <= k < |first| => ClienteName(customers, first[k]))
  }

  /** The `+n más` label after the stops. */
  function MoreLabel(clientes: seq<string>): Option<string> {
    if |clientes| > 3 then Some("+" + IntToString(|clientes| - 3) + " m\U{E1}s") else None
  }

  /** The label appears iff more than three customers are hidden from the preview, and counts the hidden ones. */
  lemma MoreLabelCounts(clientes: seq<string>)
    ensures MoreLabel(clientes).Some? <==> |clientes| > 3
    ensures |clientes| > 3 ==>
              MoreLabel(clientes).value == "+" + NatToString(|clientes| - |Take(clientes, 3)|) + " m\U{E1}s"
  {
  }

  /** The column the table is ordered by. */
  datatype SortField = ByNombre | ByFechaCreacion

  /** `a[sortField] || ''`, lowercased. */
  function SortValue(r: Route, field: SortField): string {
    ToLower(match field case ByNombre => r.nombre case ByFechaCreacion => r.fechaCreacion)
  }

  /** The comparator of `sortedRutas` as written: it never answers `0`. */
  function CompareAsWritten(a: Route, b: Route, field: SortField, ascending: bool): int {
    var av, bv := SortValue(a, field), SortValue(b, field);
    if ascending then (if LexLess(bv, av) then 1 else -1)
    else (if LexLess(av, bv) then 1 else -1)
  }

  /**
   * Two routes with the same value each claim to sort before the other, so the comparator
   * is not consistent and the order the sort gives to such routes is unspecified.
   */
  lemma AsWrittenInconsistent(a: Route, b: Route, field: SortField, ascending: bool)
    requires SortValue(a, field) == SortValue(b, field)
    ensures CompareAsWritten(a, b, field, ascending) == -1 && CompareAsWritten(b, a, field, ascending) == -1
  {
    LexLessIrreflexive(SortValue(a, field));
  }

  /** Two routes of the same name: the smallest input on which the comparator contradicts itself. */
  lemma AsWrittenSameName()
    ensures var a, b := Route("a", "Centro", None, None, ""), Route("b", "centro", None, None, "");
      CompareAsWritten(a, b, ByNombre, true) < 0 && CompareAsWritten(b, a, ByNombre, true) < 0
  {
    var a, b := Route("a", "Centro", None, None, ""), Route("b", "centro", None, None, "");
    assert SortValue(a, ByNombre) == SortValue(b, ByNombre);
    AsWrittenInconsistent(a, b, ByNombre, true);
  }

  /** The comparator with ties answered by `0`. */
  function Compare(a: Route, b: Route, field: SortField, ascending: bool): int {
    var av, bv := SortValue(a, field), SortValue(b, field);
    if av == bv then 0
    else if ascending then (if LexLess(bv, av) then 1 else -1)
    else (if LexLess(av, bv) then 1 else -1)
  }

  /** It differs from the written one only on ties, and it is antisymmetric. */
  lemma CompareAgreesOffTies(a: Route, b: Route, field: SortField, ascending: bool)
    ensures SortValue(a, field) != SortValue(b, field) ==>
              Compare(a, b, field, ascending) == CompareAsWritten(a, b, field, ascending)
    ensures Compare(a, b, field, ascending) == -Compare(b, a, field, ascending)
  {
    LexTrichotomy(SortValue(a, field), SortValue(b, field));
  }

  /** The order `Array.prototype.sort` reads from the corrected comparator. */
  function RouteLe(field: SortField, ascending: bool): (Route, Route) -> bool {
    (a: Route, b: Route) => Compare(a, b, field, ascending) <= 0
  }

  lemma RouteLeIsTotalPreorder(field: SortField, ascending: bool)
    ensures TotalPreorder(RouteLe(field, ascending))
  {
    var le := RouteLe(field, ascending);
    forall a, b
      ensures le(a, b) || le(b, a)
    {
      LexTrichotomy(SortValue(a, field), SortValue(b, field));
    }
    forall a, b, c | le(a, b) && le(b, c)
      ensures le(a, c)
    {
      var av, bv, cv := SortValue(a, field), SortValue(b, field), SortValue(c, field);
      LexTrichotomy(av, bv);
      LexTrichotomy(bv, cv);
      LexTrichotomy(av, cv);
      if ascending {
        if LexLess(av, bv) && LexLess(bv, cv) { LexLessTransitive(av, bv, cv); }
        if LexLess(cv, av) && LexLess(av, bv) { LexLessTransitive(cv, av, bv); }
        if LexLess(bv, cv) && LexLess(cv, av) { LexLessTransitive(bv, cv, av); }
      } else {
        if LexLess(bv, av) && LexLess(cv, bv) { LexLessTransitive(cv, bv, av); }
        if LexLess(av, cv) && LexLess(bv, av) { LexLessTransitive(bv, av, cv); }
        if LexLess(cv, bv) && LexLess(av, cv) { LexLessTransitive(av, cv, bv); }
      }
    }
  }

  /** `sortedRutas`, with the corrected comparator. */
  function SortedRutas(rutas: seq<Route>, field: SortField, ascending: bool): seq<Route> {
    SortBy(rutas, RouteLe(field, ascending))
  }

  /**
   * The table holds the same routes, ordered by the lowercased column value, ascending or
   * descending; routes with equal values keep their stored order.
   */
  lemma SortedRutasOrder(rutas: seq<Route>, field: SortField, ascending: bool)
    ensures multiset(SortedRutas(rutas, field, ascending)) == multiset(rutas)
    ensures var s := SortedRutas(rutas, field, ascending);
      forall i, j :: 0 <= i < j < |s| ==>
        if ascending then LexLe(SortValue(s[i], field), SortValue(s[j], field))
        else LexLe(SortValue(s[j], field), SortValue(s[i], field))
    ensures forall z :: ClassOf(SortedRutas(rutas, field, ascending), z, RouteLe(field, ascending))
                        == ClassOf(rutas, z, RouteLe(field, ascending))
  {
    var le := RouteLe(field, ascending);
    RouteLeIsTotalPreorder(field, ascending);
    SortPermutation(rutas, le);
    SortSorted(rutas, le);
    forall z
      ensures ClassOf(SortBy(rutas, le), z, le) == ClassOf(rutas, z, le)
    {
      SortStable(rutas, z, le);
    }
    var s := SortBy(rutas, le);
    forall i, j | 0 <= i < j < |s|
      ensures if ascending then LexLe(SortValue(s[i], field), SortValue(s[j], field))
              else LexLe(SortValue(s[j], field), SortValue(s[i], field))
    {
      assert le(s[i], s[j]);
      LexTrichotomy(SortValue(s[i], field), SortValue(s[j], field));
    }
  }
}
