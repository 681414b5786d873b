/**
 * The sales page: the item list of the sale form, submit validation, the local copies
 * of an edit and a delete, the month filter, the per-state counts of the month and the
 * per-client summary. Money amounts (prices and totals) are not modelled.
 */
module Ventas {
  import opened Wrappers
  import opened Text
  import opened Seqs
  import opened Sorting
  import opened Records
  import opened NotificationUtils

  // ---------------------------------------------------------------------------------------
  // The item list of the form

  /** The empty line the form starts with and adds: no product, one unit, no price. */
  const DefaultItem := Item("", Some(1), "")

  /** `addItem`. */
  function AddItem(items: seq<Item>): (r: seq<Item>)
    ensures |r| == |items| + 1 && r[..|items|] == items && r[|items|] == DefaultItem
  {
    items + [DefaultItem]
  }

  /** `items.filter((_, i) => i !== index)`. */
  function WithoutIndex(items: seq<Item>, index: int): (r: seq<Item>)
    ensures 0 <= index < |items| ==> |r| == |items| - 1
    ensures !(0 <= index < |items|) ==> r == items
  {
    if 0 <= index < |items| then items[..index] + items[index + 1..] else items
  }

  /** `removeItem`: drop the line at `index`; an emptied list gets a default line back. */
  function RemoveItem(items: seq<Item>, index: int): (r: seq<Item>)
  {
    var rest := WithoutIndex(items, index);
    if rest == [] then [DefaultItem] else rest
  }

  /** The list is never empty after a removal; every other line keeps its place. */
  lemma RemoveItemKeepsOthers(items: seq<Item>, index: int)
    ensures RemoveItem(items, index) != []
    ensures 0 <= index < |items| && |items| > 1 ==>
              |RemoveItem(items, index)| == |items| - 1
              && (forall i :: 0 <= i < index ==> RemoveItem(items, index)[i] == items[i])
              && (forall i :: index < i < |items| ==> RemoveItem(items, index)[i - 1] == items[i])
    ensures |items| <= 1 && 0 <= index < |items| ==> RemoveItem(items, index) == [DefaultItem]
  {
  }

  /** Adding a line and removing it again gives back the list, when it was not empty. */
  lemma AddThenRemove(items: seq<Item>)
    requires items != []
    ensures RemoveItem(AddItem(items), |items|) == items
  {
    assert AddItem(items)[..|items|] == items;
  }

  /** The field an item edit changes, with its new value. */
  datatype FieldChange = SetKombucha(id: string) | SetCantidad(cantidad: Option<int>) | SetPrecio(precio: string)

  /** The item with the field set, before the price suggestion. */
  function SetField(item: Item, change: FieldChange): Item {
    match change
    case SetKombucha(id) => item.(kombuchaId := id)
    case SetCantidad(q) => item.(cantidad := q)
    case SetPrecio(p) => item.(precio := p)
  }

  /** `kombuchas.find(k => k.id === id)`. */
  function FindKombucha(kombuchas: seq<Kombucha>, id: string): Option<Kombucha> {
    Find(kombuchas, (k: Kombucha) => k.id == id)
  }

  /** `handleItemChange`: set the field; choosing a product fills in its price when the line has none. */
  function ChangeItem(items: seq<Item>, index: int, change: FieldChange, kombuchas: seq<Kombucha>): seq<Item>
    requires 0 <= index < |items|
  {
    var updated := SetField(items[index], change);
    var suggested :=
      if change.SetKombucha? && change.id != "" then
        match FindKombucha(kombuchas, change.id)
        case Some(k) => if k.precio != "" && updated.precio == "" then updated.(precio := k.precio) else updated
        case None => updated
      else updated;
    items[index := suggested]
  }

  /**
   * Only the targeted line changes, and in it only the targeted field, except that the
   * price is filled in from the chosen product exactly when the line had no price and
   * the product has one.
   */
  lemma ChangeItemTargetsOneField(items: seq<Item>, index: int, change: FieldChange, kombuchas: seq<Kombucha>)
    requires 0 <= index < |items|
    ensures var r := ChangeItem(items, index, change, kombuchas);
      && |r| == |items|
      && (forall i :: 0 <= i < |items| && i != index ==> r[i] == items[i])
      && (change.SetKombucha? ==> r[index].kombuchaId == change.id && r[index].cantidad == items[index].cantidad)
      && (change.SetCantidad? ==> r[index] == items[index].(cantidad := change.cantidad))
      && (change.SetPrecio? ==> r[index] == items[index].(precio := change.precio))
      && (change.SetKombucha? ==>
            r[index].precio ==
              if items[index].precio == "" && change.id != ""
                 && FindKombucha(kombuchas, change.id).Some? && FindKombucha(kombuchas, change.id).value.precio != ""
              then FindKombucha(kombuchas, change.id).value.precio
              else items[index].precio)
  {
  }

  /** A price already on the line is never overwritten by the suggestion. */
  lemma EnteredPriceIsKept(items: seq<Item>, index: int, id: string, kombuchas: seq<Kombucha>)
    requires 0 <= index < |items| && items[index].precio != ""
    ensures ChangeItem(items, index, SetKombucha(id), kombuchas)[index].precio == items[index].precio
  {
  }

  // ---------------------------------------------------------------------------------------
  // Submitting

  /** A line that counts: it names a product and has a positive quantity. */
  predicate ValidItem(item: Item) {
    item.kombuchaId != "" && item.cantidad.Some? && item.cantidad.value > 0
  }

  const MissingFields := "Fecha y cliente son campos obligatorios"
  const MissingItems := "Debe agregar al menos un item con kombucha y cantidad"

  /** The sale data a submission stores (the amounts aside). */
  datatype SaleData = SaleData(fecha: string, cliente: string, items: seq<Item>, estado: string)

  /** The validation of `handleSubmit`: an error message, or the data to store. */
  function Validate(fecha: string, cliente: string, items: seq<Item>, estado: string): Result<SaleData, string> {
    if Trim(fecha) == [] || Trim(cliente) == [] then Err(MissingFields)
    else
      var valid := Filter(items, ValidItem);
      if valid == [] then Err(MissingItems)
      else Ok(SaleData(Trim(fecha), Trim(cliente), valid, estado))
  }

  /**
   * A blank date or client is reported first; then a form without a valid line; otherwise
   * the stored data has the trimmed date and client and exactly the valid lines, in order.
   */
  lemma ValidateCases(fecha: string, cliente: string, items: seq<Item>, estado: string)
    ensures var r := Validate(fecha, cliente, items, estado);
      && (IsBlank(fecha) || IsBlank(cliente) <==> r == Err(MissingFields))
      && ((!IsBlank(fecha) && !IsBlank(cliente) && (forall i :: i in items ==> !ValidItem(i)))
          <==> r == Err(MissingItems))
      && (r.Ok? ==> r.value.items != [] && r.value.fecha == Trim(fecha) && r.value.cliente == Trim(cliente)
                    && (forall i :: i in r.value.items <==> i in items && ValidItem(i))
                    && r.value.items == Filter(items, ValidItem))
  {
    TrimEmptyIffBlank(fecha);
    TrimEmptyIffBlank(cliente);
    var valid := Filter(items, ValidItem);
    if valid != [] {
      assert valid[0] in items && ValidItem(valid[0]);
    }
  }

  // ---------------------------------------------------------------------------------------
  // The local list after an edit or a delete

  /** The sale with the submitted data over it, its id kept. */
  function Overwrite(v: Sale, data: SaleData): Sale {
    v.(fecha := data.fecha, cliente := data.cliente, items := Some(data.items), estado := data.estado)
  }

  /** The local copy after an edit: the sale with that id gets the new data. */
  function EditSale(ventas: seq<Sale>, id: string, data: SaleData): (r: seq<Sale>)
    ensures |r| == |ventas|
    ensures forall i :: 0 <= i < |r| ==> r[i] == if ventas[i].id == id then Overwrite(ventas[i], data) else ventas[i]
  {
    if ventas == [] then []
    else [if ventas[0].id == id then Overwrite(ventas[0], data) else ventas[0]] + EditSale(ventas[1..], id, data)
  }

  /** Holds of the sales whose id is not `id`. */
  function NotId(id: string): Sale -> bool {
    (v: Sale) => v.id != id
  }

  /** The local copy after a delete. */
  function DeleteSale(ventas: seq<Sale>, id: string): (r: seq<Sale>)
    ensures forall v :: v in r <==> v in ventas && v.id != id
  {
    Filter(ventas, NotId(id))
  }

  /** An edit keeps every id in place and changes no sale with another id. */
  lemma EditKeepsIds(ventas: seq<Sale>, id: string, data: SaleData)
    ensures forall i :: 0 <= i < |ventas| ==> EditSale(ventas, id, data)[i].id == ventas[i].id
    ensures forall i :: 0 <= i < |ventas| && ventas[i].id != id ==> EditSale(ventas, id, data)[i] == ventas[i]
  {
  }

  /** Deleting an edited sale leaves what deleting it unedited leaves. */
  lemma {:induction false} DeleteAfterEdit(ventas: seq<Sale>, id: string, data: SaleData)
    ensures DeleteSale(EditSale(ventas, id, data), id) == DeleteSale(ventas, id)
  {
    if ventas != [] {
      DeleteAfterEdit(ventas[1..], id, data);
      var e := EditSale(ventas, id, data);
      assert e[1..] == EditSale(ventas[1..], id, data);
    }
  }

  // ---------------------------------------------------------------------------------------
  // The month filter and the month's counts

  /** `fecha.slice(0, 7)`. */
  function MonthOf(fecha: string): string {
    if |fecha| < 7 then fecha else fecha[..7]
  }

  /** Holds of the sales of the month `month`. */
  function InMonth(month: string): Sale -> bool {
    (v: Sale) => MonthOf(v.fecha) == month
  }

  /** `filteredVentas`: every sale when no month is chosen, else the sales of that month. */
  function FilteredVentas(ventas: seq<Sale>, month: string): (r: seq<Sale>)
    ensures month == "" ==> r == ventas
    ensures month != "" ==> forall v :: v in r <==> v in ventas && MonthOf(v.fecha) == month
  {
    if month == "" then ventas else Filter(ventas, InMonth(month))
  }

  /** For a `YYYY-MM` month, a sale is in it iff its date starts with it. */
  lemma MonthIsPrefix(fecha: string, month: string)
    requires |month| == 7
    ensures MonthOf(fecha) == month <==> StartsWith(fecha, month)
  {
  }

  /** The counts of `getMonthlyStats` (the revenue aside). */
  datatype MonthlyCounts = MonthlyCounts(totalSales: nat, completedSales: nat, pendingSales: nat,
                                         canceledSales: nat, paymentPendingSales: nat)

  function WithEstado(estado: string): Sale -> bool {
    (v: Sale) => v.estado == estado
  }

  function MonthlyStats(monthly: seq<Sale>): MonthlyCounts {
    MonthlyCounts(|monthly|,
      |Filter(monthly, WithEstado("completada"))|, |Filter(monthly, WithEstado("pendiente"))|,
      |Filter(monthly, WithEstado("cancelada"))|, |Filter(monthly, WithEstado("pagoPendiente"))|)
  }

  predicate CompletedOrPending(v: Sale) { v.estado == "completada" || v.estado == "pendiente" }
  predicate NotPaymentPending(v: Sale) { CompletedOrPending(v) || v.estado == "cancelada" }
  predicate KnownEstado(v: Sale) { NotPaymentPending(v) || v.estado == "pagoPendiente" }

  /** Each count is at most the number of sales, and so is their sum. */
  lemma MonthlyCountsBounded(monthly: seq<Sale>)
    ensures var m := MonthlyStats(monthly);
      && m.completedSales <= m.totalSales && m.pendingSales <= m.totalSales
      && m.canceledSales <= m.totalSales && m.paymentPendingSales <= m.totalSales
      && m.completedSales + m.pendingSales + m.canceledSales + m.paymentPendingSales <= m.totalSales
  {
    FilterDisjoint(monthly, WithEstado("completada"), WithEstado("pendiente"), CompletedOrPending);
    FilterDisjoint(monthly, CompletedOrPending, WithEstado("cancelada"), NotPaymentPending);
    FilterDisjoint(monthly, NotPaymentPending, WithEstado("pagoPendiente"), KnownEstado);
  }

  // ---------------------------------------------------------------------------------------
  // The client summary

  /** One row of the summary (the amount aside). `lastPurchase` is `""` when there is none. */
  datatype ClientEntry = ClientEntry(clienteId: string, clienteName: string, totalPurchases: int,
                                     kombuchaCounts: seq<(string, int)>, lastPurchase: string)

  /** `getKombuchaName`. */
  function KombuchaName(kombuchas: seq<Kombucha>, id: string): string {
    match FindKombucha(kombuchas, id)
    case Some(k) => k.nombre
    case None => "Kombucha no encontrada"
  }

  /** The sum of the counts. */
  function SumCounts(counts: seq<(string, int)>): int {
    if counts == [] then 0 else counts[0].1 + SumCounts(counts[1..])
  }

  /** `kombuchaCounts[name] += q`, the name added at the end when it is new. */
  function AddCount(counts: seq<(string, int)>, name: string, q: int): seq<(string, int)> {
    if counts == [] then [(name, q)]
    else if counts[0].0 == name then [(name, counts[0].1 + q)] + counts[1..]
    else [counts[0]] + AddCount(counts[1..], name, q)
  }

  /** Adding to a count adds to the sum of the counts. */
  lemma {:induction false} AddCountSum(counts: seq<(string, int)>, name: string, q: int)
    ensures SumCounts(AddCount(counts, name, q)) == SumCounts(counts) + q
  {
    if counts != [] && counts[0].0 != name {
      AddCountSum(counts[1..], name, q);
      assert ([counts[0]] + AddCount(counts[1..], name, q))[1..] == AddCount(counts[1..], name, q);
    } else if counts != [] {
      assert ([(name, counts[0].1 + q)] + counts[1..])[1..] == counts[1..];
    }
  }

  /** The count under `name`, 0 when the name is not listed (the first entry with the name). */
  function CountOf(counts: seq<(string, int)>, name: string): int {
    if counts == [] then 0 else if counts[0].0 == name then counts[0].1 else CountOf(counts[1..], name)
  }

  /** Adding to one name's count changes that count by the amount and no other. */
  lemma {:induction false} AddCountOf(counts: seq<(string, int)>, name: string, q: int, n: string)
    ensures CountOf(AddCount(counts, name, q), n) == CountOf(counts, n) + (if name == n then q else 0)
  {
    if counts != [] && counts[0].0 != name {
      AddCountOf(counts[1..], name, q, n);
      assert ([counts[0]] + AddCount(counts[1..], name, q))[1..] == AddCount(counts[1..], name, q);
    } else if counts != [] {
      assert ([(name, counts[0].1 + q)] + counts[1..])[1..] == counts[1..];
    }
  }

  /** The product name of an entry, the key of `kombuchaCounts`. */
  function CountName(entry: (string, int)): string {
    entry.0
  }

  /** Adding to a count keeps every name listed once. */
  lemma {:induction false} AddCountKeepsDistinct(counts: seq<(string, int)>, name: string, q: int)
    requires DistinctKeys(counts, CountName)
    ensures DistinctKeys(AddCount(counts, name, q), CountName)
    ensures forall e :: e in AddCount(counts, name, q) ==> e.0 == name || e.0 in Names(counts)
  {
    if counts != [] && counts[0].0 != name {
      AddCountKeepsDistinct(counts[1..], name, q);
      var rest := AddCount(counts[1..], name, q);
      var r := [counts[0]] + rest;
      assert Names(counts) == [counts[0].0] + Names(counts[1..]);
      forall k | 0 < k < |r|
        ensures r[k].0 != counts[0].0
      {
        assert r[k] == rest[k - 1] && rest[k - 1] in rest;
      }
    } else if counts != [] {
      var r := [(name, counts[0].1 + q)] + counts[1..];
      forall i, j | 0 <= i < j < |r|
        ensures r[i].0 != r[j].0
      {
        assert r[j] == counts[j];
        if i > 0 {
          assert r[i] == counts[i];
        }
      }
      forall e | e in r
        ensures e.0 == name || e.0 in Names(counts)
      {
        var k :| 0 <= k < |r| && r[k] == e;
        if k > 0 {
          assert Names(counts)[k] == counts[k].0;
        }
      }
    }
  }

  /** The names listed in a count list, in order. */
  function Names(counts: seq<(string, int)>): (r: seq<string>)
    ensures |r| == |counts| && forall k :: 0 <= k < |counts| ==> r[k] == counts[k].0
  {
    seq(|counts|, k requires 0 <= k < |counts| => counts[k].0)
  }

  /** The counts after a list of items: `kombuchaCounts[getKombuchaName(id)] += cantidad`, item after item. */
  function ItemCounts(counts: seq<(string, int)>, items: seq<Item>, kombuchas: seq<Kombucha>): seq<(string, int)> {
    if items == [] then counts
    else
      var last := items[|items| - 1];
      AddCount(ItemCounts(counts, items[..|items| - 1], kombuchas), KombuchaName(kombuchas, last.kombuchaId), Quantity(last))
  }

  /** The counts after one sale: a cancelled sale or one without items adds nothing. */
  function SaleCounts(counts: seq<(string, int)>, v: Sale, kombuchas: seq<Kombucha>): seq<(string, int)> {
    if v.estado == "cancelada" then counts
    else match v.items
      case Some(items) => ItemCounts(counts, items, kombuchas)
      case None => counts
  }

  /** The per-product counts of a client's sales, sale after sale. */
  function CountsOf(group: seq<Sale>, kombuchas: seq<Kombucha>): seq<(string, int)> {
    if group == [] then [] else SaleCounts(CountsOf(group[..|group| - 1], kombuchas), group[|group| - 1], kombuchas)
  }

  /** Holds of the items whose product has the name `name`. */
  function NamedAs(kombuchas: seq<Kombucha>, name: string): Item -> bool {
    (item: Item) => KombuchaName(kombuchas, item.kombuchaId) == name
  }

  /** The units of the items satisfying `p`. */
  function UnitsWhere(items: seq<Item>, p: Item -> bool): int {
    if items == [] then 0
    else
      var last := items[|items| - 1];
      UnitsWhere(items[..|items| - 1], p) + (if p(last) then Quantity(last) else 0)
  }

  /** The units of product `name` in a sale: those of its items naming it, none when cancelled. */
  function SaleUnits(v: Sale, kombuchas: seq<Kombucha>, name: string): int {
    if v.estado == "cancelada" then 0
    else match v.items
      case Some(items) => UnitsWhere(items, NamedAs(kombuchas, name))
      case None => 0
  }

  /** The units of product `name` over a client's sales. */
  function UnitsOf(group: seq<Sale>, kombuchas: seq<Kombucha>, name: string): int {
    if group == [] then 0 else UnitsOf(group[..|group| - 1], kombuchas, name) + SaleUnits(group[|group| - 1], kombuchas, name)
  }

  /** The last item adds its units to the total of the items `filter(p)` keeps iff it satisfies `p`. */
  lemma FilteredTotalLast(items: seq<Item>, p: Item -> bool)
    requires items != []
    ensures var last := items[|items| - 1];
      TotalKombuchas(Filter(items, p))
      == TotalKombuchas(Filter(items[..|items| - 1], p)) + (if p(last) then Quantity(last) else 0)
  {
    var init := items[..|items| - 1];
    var last := items[|items| - 1];
    assert items == init + [last];
    FilterAppend(init, [last], p);
    TotalKombuchasConcat(Filter(init, p), Filter([last], p));
    assert TotalKombuchas([last]) == TotalKombuchas([]) + Quantity(last);
  }

  /** The units of the items satisfying `p` are the total of the items `filter(p)` keeps. */
  lemma {:induction false} UnitsWhereIsFilteredTotal(items: seq<Item>, p: Item -> bool)
    ensures UnitsWhere(items, p) == TotalKombuchas(Filter(items, p))
    decreases |items|
  {
    if items != [] {
      UnitsWhereIsFilteredTotal(items[..|items| - 1], p);
      FilteredTotalLast(items, p);
    }
  }

  /** Item by item, each name's count grows by the units of the items naming that product. */
  lemma {:induction false} ItemCountsOf(counts: seq<(string, int)>, items: seq<Item>, kombuchas: seq<Kombucha>, n: string)
    ensures CountOf(ItemCounts(counts, items, kombuchas), n) == CountOf(counts, n) + UnitsWhere(items, NamedAs(kombuchas, n))
    decreases |items|
  {
    if items != [] {
      var p := items[..|items| - 1];
      var last := items[|items| - 1];
      ItemCountsOf(counts, p, kombuchas, n);
      AddCountOf(ItemCounts(counts, p, kombuchas), KombuchaName(kombuchas, last.kombuchaId), Quantity(last), n);
    }
  }

  /** Item by item, the sum of the counts grows by the units of the items. */
  lemma {:induction false} ItemCountsSum(counts: seq<(string, int)>, items: seq<Item>, kombuchas: seq<Kombucha>)
    ensures SumCounts(ItemCounts(counts, items, kombuchas)) == SumCounts(counts) + TotalKombuchas(items)
    decreases |items|
  {
    if items != [] {
      var p := items[..|items| - 1];
      var last := items[|items| - 1];
      ItemCountsSum(counts, p, kombuchas);
      AddCountSum(ItemCounts(counts, p, kombuchas), KombuchaName(kombuchas, last.kombuchaId), Quantity(last));
    }
  }

  /** Item by item, every product name stays listed once. */
  lemma {:induction false} ItemCountsDistinct(counts: seq<(string, int)>, items: seq<Item>, kombuchas: seq<Kombucha>)
    requires DistinctKeys(counts, CountName)
    ensures DistinctKeys(ItemCounts(counts, items, kombuchas), CountName)
    decreases |items|
  {
    if items != [] {
      var p := items[..|items| - 1];
      var last := items[|items| - 1];
      ItemCountsDistinct(counts, p, kombuchas);
      AddCountKeepsDistinct(ItemCounts(counts, p, kombuchas), KombuchaName(kombuchas, last.kombuchaId), Quantity(last));
    }
  }

  /**
   * The per-product counts of a client: every product name is listed at most once, the
   * count under a name is the units of the items naming that product over the sales not
   * cancelled, and the counts add up to the client's purchases.
   */
  lemma {:induction false} CountsOfMeaning(group: seq<Sale>, kombuchas: seq<Kombucha>, n: string)
    ensures DistinctKeys(CountsOf(group, kombuchas), CountName)
    ensures CountOf(CountsOf(group, kombuchas), n) == UnitsOf(group, kombuchas, n)
    ensures SumCounts(CountsOf(group, kombuchas)) == Purchases(group)
    decreases |group|
  {
    if group != [] {
      var p := group[..|group| - 1];
      var v := group[|group| - 1];
      CountsOfMeaning(p, kombuchas, n);
      if v.estado != "cancelada" && v.items.Some? {
        ItemCountsOf(CountsOf(p, kombuchas), v.items.value, kombuchas, n);
        ItemCountsSum(CountsOf(p, kombuchas), v.items.value, kombuchas);
        ItemCountsDistinct(CountsOf(p, kombuchas), v.items.value, kombuchas);
      }
    }
  }

  /** Cancelled sales add nothing to the per-product counts either. */
  lemma {:induction false} CancelledAddNoCounts(group: seq<Sale>, kombuchas: seq<Kombucha>)
    ensures CountsOf(group, kombuchas) == CountsOf(Filter(group, NotCancelled), kombuchas)
    decreases |group|
  {
    if group != [] {
      var p := group[..|group| - 1];
      var v := group[|group| - 1];
      CancelledAddNoCounts(p, kombuchas);
      assert group == p + [v];
      FilterAppend(p, [v], NotCancelled);
      var fp := Filter(p, NotCancelled);
      if NotCancelled(v) {
        assert Filter([v], NotCancelled) == [v];
        assert (fp + [v])[..|fp + [v]| - 1] == fp;
      } else {
        assert Filter([v], NotCancelled) == [];
        assert fp + [] == fp;
      }
    }
  }

  /** The kombuchas a sale adds to its client: none for a cancelled sale or one without items. */
  function Counted(v: Sale): int {
    if v.estado == "cancelada" then 0
    else match v.items
      case Some(items) => TotalKombuchas(items)
      case None => 0
  }

  /** The kombuchas of a client's sales. */
  function Purchases(group: seq<Sale>): int {
    if group == [] then 0 else Purchases(group[..|group| - 1]) + Counted(group[|group| - 1])
  }

  /** `!last || fecha > last`: the later of two dates, an empty one counting as none. */
  function Later(last: string, fecha: string): string {
    if last == "" || LexLess(last, fecha) then fecha else last
  }

  /** The last purchase date of a client's sales, `""` for none. */
  function LastPurchase(group: seq<Sale>): string {
    if group == [] then "" else Later(LastPurchase(group[..|group| - 1]), group[|group| - 1].fecha)
  }

  function NotCancelled(v: Sale): bool { v.estado != "cancelada" }

  lemma {:induction false} PurchasesAppend(a: seq<Sale>, b: seq<Sale>)
    ensures Purchases(a + b) == Purchases(a) + Purchases(b)
    decreases |b|
  {
    if b == [] {
      assert a + b == a;
    } else {
      assert (a + b)[..|a + b| - 1] == a + b[..|b| - 1];
      PurchasesAppend(a, b[..|b| - 1]);
    }
  }

  /** Cancelled sales add nothing: the purchases are those of the sales not cancelled. */
  lemma CancelledAddNothing(group: seq<Sale>)
    ensures Purchases(group) == Purchases(Filter(group, NotCancelled))
  {
    // The purchases are the sum of the per-product counts, which cancelled sales leave alone.
    CountsOfMeaning(group, [], "");
    CountsOfMeaning(Filter(group, NotCancelled), [], "");
    CancelledAddNoCounts(group, []);
  }

  /** The last purchase is the greatest date of the client's sales, as strings compare. */
  lemma {:induction false} LastPurchaseIsLatest(group: seq<Sale>)
    ensures forall v :: v in group ==> LexLe(v.fecha, LastPurchase(group))
    ensures LastPurchase(group) == "" || exists v :: v in group && v.fecha == LastPurchase(group)
  {
    if group != [] {
      var p := group[..|group| - 1];
      var v := group[|group| - 1];
      LastPurchaseIsLatest(p);
      var lp := LastPurchase(p);
      LexTrichotomy(lp, v.fecha);
      forall x | x in group
        ensures LexLe(x.fecha, LastPurchase(group))
      {
        if x in p {
          if LexLess(lp, v.fecha) && LexLess(x.fecha, lp) {
            LexLessTransitive(x.fecha, lp, v.fecha);
          }
          if lp == "" {
            assert x.fecha == "";
          }
        } else {
          assert x == v;
          if lp == "" && v.fecha != "" {
            assert LexLess(lp, v.fecha);
          }
        }
      }
    }
  }

  /** A summary row is the row of client `c` with sales `group`. */
  predicate EntryFor(e: ClientEntry, c: string, group: seq<Sale>, clientes: seq<Customer>, kombuchas: seq<Kombucha>) {
    && e.clienteId == c && e.clienteName == ClienteName(clientes, c)
    && e.totalPurchases == Purchases(group) && e.kombuchaCounts == CountsOf(group, kombuchas)
    && e.lastPurchase == LastPurchase(group)
  }

  /** `b.totalPurchases - a.totalPurchases <= 0`: `a` may come first. */
  predicate MorePurchases(a: ClientEntry, b: ClientEntry) {
    b.totalPurchases - a.totalPurchases <= 0
  }

  lemma MorePurchasesIsTotalPreorder()
    ensures TotalPreorder(MorePurchases)
  {
  }

  /** The key the summary rows are told apart by. */
  function ClientId(e: ClientEntry): string {
    e.clienteId
  }

  /** One sale processed: the row of its client after the sale. */
  method AddSale(e: ClientEntry, v: Sale, kombuchas: seq<Kombucha>) returns (r: ClientEntry)
    ensures r.clienteId == e.clienteId && r.clienteName == e.clienteName
    ensures r.totalPurchases == e.totalPurchases + Counted(v)
    ensures r.kombuchaCounts == SaleCounts(e.kombuchaCounts, v, kombuchas)
    ensures r.lastPurchase == Later(e.lastPurchase, v.fecha)
  {
    r := e;
    if v.estado != "cancelada" {
      match v.items {
        case Some(items) =>
          var j := 0;
          while j < |items|
            invariant 0 <= j <= |items|
            invariant r.clienteId == e.clienteId && r.clienteName == e.clienteName
            invariant r.lastPurchase == e.lastPurchase
            invariant r.totalPurchases == e.totalPurchases + TotalKombuchas(items[..j])
            invariant r.kombuchaCounts == ItemCounts(e.kombuchaCounts, items[..j], kombuchas)
          {
            assert items[..j + 1][..j] == items[..j];
            var name := KombuchaName(kombuchas, items[j].kombuchaId);
            var q := Quantity(items[j]);
            r := r.(kombuchaCounts := AddCount(r.kombuchaCounts, name, q), totalPurchases := r.totalPurchases + q);
            j := j + 1;
          }
          assert items[..|items|] == items;
        case None =>
      }
    }
    if r.lastPurchase == "" || LexLess(r.lastPurchase, v.fecha) {
      r := r.(lastPurchase := v.fecha);
    }
  }

  /** Processing one more sale of a client turns its row into the row of the longer sale list. */
  lemma EntryAfterSale(e0: ClientEntry, e: ClientEntry, c: string, group: seq<Sale>, v: Sale,
                       clientes: seq<Customer>, kombuchas: seq<Kombucha>)
    requires EntryFor(e0, c, group, clientes, kombuchas)
    requires e.clienteId == e0.clienteId && e.clienteName == e0.clienteName
    requires e.totalPurchases == e0.totalPurchases + Counted(v)
    requires e.kombuchaCounts == SaleCounts(e0.kombuchaCounts, v, kombuchas)
    requires e.lastPurchase == Later(e0.lastPurchase, v.fecha)
    ensures EntryFor(e, c, group + [v], clientes, kombuchas)
  {
    assert (group + [v])[..|group|] == group;
  }

  /** The rows of the other clients stay right when one more sale is processed. */
  lemma SummaryUpdate(summary: map<string, ClientEntry>, ventas: seq<Sale>, i: int, e: ClientEntry,
                      clientes: seq<Customer>, kombuchas: seq<Kombucha>)
    requires 0 <= i < |ventas|
    requires forall d :: d in summary ==> EntryFor(summary[d], d, SalesOf(ventas[..i], d), clientes, kombuchas)
    requires EntryFor(e, ventas[i].cliente, SalesOf(ventas[..i + 1], ventas[i].cliente), clientes, kombuchas)
    ensures var s' := summary[ventas[i].cliente := e];
      forall d :: d in s' ==> EntryFor(s'[d], d, SalesOf(ventas[..i + 1], d), clientes, kombuchas)
  {
    var c := ventas[i].cliente;
    var s' := summary[c := e];
    forall d | d in s'
      ensures EntryFor(s'[d], d, SalesOf(ventas[..i + 1], d), clientes, kombuchas)
    {
      if d != c {
        ClientsStep(ventas, i);
        assert SalesOf(ventas[..i + 1], d) == SalesOf(ventas[..i], d);
      }
    }
  }

  /** `summary` and `order` hold the row of every client of `sales`, clients in order of first sale. */
  ghost predicate SummaryOf(summary: map<string, ClientEntry>, order: seq<string>, sales: seq<Sale>,
                            clientes: seq<Customer>, kombuchas: seq<Kombucha>) {
    && order == Clients(sales)
    && (forall d :: d in summary <==> d in order)
    && (forall d :: d in summary ==> EntryFor(summary[d], d, SalesOf(sales, d), clientes, kombuchas))
  }

  /** One turn of the loop of `getClientSummary` keeps the rows right for the longer prefix. */
  lemma SummaryStep(summary: map<string, ClientEntry>, order: seq<string>, ventas: seq<Sale>, i: int,
                    e0: ClientEntry, e: ClientEntry, clientes: seq<Customer>, kombuchas: seq<Kombucha>)
    requires 0 <= i < |ventas|
    requires SummaryOf(summary, order, ventas[..i], clientes, kombuchas)
    requires var c := ventas[i].cliente;
      e0 == if c in summary then summary[c] else ClientEntry(c, ClienteName(clientes, c), 0, [], "")
    requires e.clienteId == e0.clienteId && e.clienteName == e0.clienteName
    requires e.totalPurchases == e0.totalPurchases + Counted(ventas[i])
    requires e.kombuchaCounts == SaleCounts(e0.kombuchaCounts, ventas[i], kombuchas)
    requires e.lastPurchase == Later(e0.lastPurchase, ventas[i].fecha)
    ensures var c := ventas[i].cliente;
      SummaryOf(summary[c := e], if c in summary then order else order + [c], ventas[..i + 1], clientes, kombuchas)
  {
    var c := ventas[i].cliente;
    var order' := if c in summary then order else order + [c];
    ClientsStep(ventas, i);
    assert order' == Clients(ventas[..i + 1]);
    forall d
      ensures d in summary[c := e] <==> d in order'
    {
    }
    var g := SalesOf(ventas[..i], c);
    if c !in summary {
      ClientsHaveSales(ventas[..i], c);
    }
    EntryAfterSale(e0, e, c, g, ventas[i], clientes, kombuchas);
    SummaryUpdate(summary, ventas, i, e, clientes, kombuchas);
  }

  /** The loop of `getClientSummary`: the row of every client, in order of first sale. */
  method CollectSummary(ventas: seq<Sale>, clientes: seq<Customer>, kombuchas: seq<Kombucha>)
    returns (summary: map<string, ClientEntry>, order: seq<string>)
    ensures SummaryOf(summary, order, ventas, clientes, kombuchas)
  {
    summary := map[];
    order := [];
    var i := 0;
    while i < |ventas|
      invariant 0 <= i <= |ventas|
      invariant SummaryOf(summary, order, ventas[..i], clientes, kombuchas)
    {
      var c := ventas[i].cliente;
      var e0 := if c in summary then summary[c] else ClientEntry(c, ClienteName(clientes, c), 0, [], "");
      var e := AddSale(e0, ventas[i], kombuchas);
      SummaryStep(summary, order, ventas, i, e0, e, clientes, kombuchas);
      if c !in summary {
        order := order + [c];
      }
      summary := summary[c := e];
      i := i + 1;
    }
    assert ventas[..i] == ventas;
  }

  /** The rows of the clients in `order`, in that order. */
  function RowsInOrder(summary: map<string, ClientEntry>, order: seq<string>): (r: seq<ClientEntry>)
    requires forall d :: d in order ==> d in summary
    ensures |r| == |order| && forall k :: 0 <= k < |order| ==> r[k] == summary[order[k]]
  {
    seq(|order|, k requires 0 <= k < |order| => summary[order[k]])
  }

  /** Before sorting: one correct row per client, in order of first sale. */
  lemma RowsInOrderCorrect(summary: map<string, ClientEntry>, ventas: seq<Sale>, clientes: seq<Customer>,
                           kombuchas: seq<Kombucha>, order: seq<string>)
    requires SummaryOf(summary, order, ventas, clientes, kombuchas)
    ensures var values := RowsInOrder(summary, order);
      && DistinctKeys(values, ClientId)
      && (forall e :: e in values ==>
            e.clienteId in Clients(ventas) && EntryFor(e, e.clienteId, SalesOf(ventas, e.clienteId), clientes, kombuchas))
      && (forall c :: c in Clients(ventas) ==> exists e :: e in values && e.clienteId == c)
  {
    var values := RowsInOrder(summary, order);
    forall c | c in order
      ensures exists e :: e in values && e.clienteId == c
    {
      var k :| 0 <= k < |order| && order[k] == c;
      assert values[k] in values;
    }
  }

  /** The client ids of a list of rows, in order. */
  function RowClients(rows: seq<ClientEntry>): (r: seq<string>)
    ensures |r| == |rows| && forall k :: 0 <= k < |rows| ==> r[k] == rows[k].clienteId
  {
    if rows == [] then [] else [rows[0].clienteId] + RowClients(rows[1..])
  }

  /** Holds of the rows with `t` purchases. */
  function WithTotal(t: int): ClientEntry -> bool {
    (e: ClientEntry) => e.totalPurchases == t
  }

  /** Holds of the clients of `ventas` with `t` purchases. */
  function BoughtTotal(ventas: seq<Sale>, t: int): string -> bool {
    (c: string) => Purchases(SalesOf(ventas, c)) == t
  }

  /** The rows a row with `t` purchases ties with are the rows with `t` purchases. */
  lemma {:induction false} TiesAreEqualTotals(rows: seq<ClientEntry>, t: int)
    ensures ClassOf(rows, ClientEntry("", "", t, [], ""), MorePurchases) == Filter(rows, WithTotal(t))
  {
    if rows != [] {
      TiesAreEqualTotals(rows[1..], t);
    }
  }

  /** The rows of a non-empty list of clients: the first client's row, then the others'. */
  lemma RowsInOrderCons(summary: map<string, ClientEntry>, order: seq<string>)
    requires order != [] && forall d :: d in order ==> d in summary
    ensures RowsInOrder(summary, order) == [summary[order[0]]] + RowsInOrder(summary, order[1..])
  {
  }

  /** Picking the rows with `t` purchases out of the rows in `order` keeps the order of their clients. */
  lemma {:induction false} RowsWithTotal(summary: map<string, ClientEntry>, order: seq<string>, ventas: seq<Sale>, t: int)
    requires forall d :: d in order ==>
               d in summary && summary[d].clienteId == d && summary[d].totalPurchases == Purchases(SalesOf(ventas, d))
    ensures RowClients(Filter(RowsInOrder(summary, order), WithTotal(t))) == Filter(order, BoughtTotal(ventas, t))
  {
    if order != [] {
      RowsWithTotal(summary, order[1..], ventas, t);
      var x := summary[order[0]];
      var others := RowsInOrder(summary, order[1..]);
      RowsInOrderCons(summary, order);
      assert ([x] + others)[1..] == others;
      var rest := Filter(others, WithTotal(t));
      if x.totalPurchases == t {
        assert ([x] + rest)[1..] == rest;
      } else {
        assert [] + rest == rest;
      }
    }
  }

  /** The sorted rows of a summary are its rows, one per client, with more purchases first. */
  lemma SortedRows(summary: map<string, ClientEntry>, ventas: seq<Sale>, clientes: seq<Customer>,
                   kombuchas: seq<Kombucha>, order: seq<string>)
    requires SummaryOf(summary, order, ventas, clientes, kombuchas)
    ensures var rows := SortBy(RowsInOrder(summary, order), MorePurchases);
      && |rows| == |Clients(ventas)|
      && (forall e :: e in rows ==>
            e.clienteId in Clients(ventas) && EntryFor(e, e.clienteId, SalesOf(ventas, e.clienteId), clientes, kombuchas))
      && (forall c :: c in Clients(ventas) ==> exists e :: e in rows && e.clienteId == c)
      && DistinctKeys(rows, ClientId)
      && SortedBy(rows, MorePurchases)
      && (forall t :: RowClients(Filter(rows, WithTotal(t))) == Filter(Clients(ventas), BoughtTotal(ventas, t)))
  {
    var values := RowsInOrder(summary, order);
    var rows := SortBy(values, MorePurchases);
    RowsInOrderCorrect(summary, ventas, clientes, kombuchas, order);
    MorePurchasesIsTotalPreorder();
    SortSorted(values, MorePurchases);
    SortMembers(values, MorePurchases);
    SortKeepsDistinctKeys(values, MorePurchases, ClientId);
    forall t
      ensures RowClients(Filter(rows, WithTotal(t))) == Filter(Clients(ventas), BoughtTotal(ventas, t))
    {
      var z := ClientEntry("", "", t, [], "");
      SortStable(values, z, MorePurchases);
      TiesAreEqualTotals(values, t);
      TiesAreEqualTotals(rows, t);
      RowsWithTotal(summary, order, ventas, t);
    }
  }

  /**
   * `getClientSummary`: one row per client of the sales, with the kombuchas of the sales
   * not cancelled, counted per product name, and the last purchase date; rows with more
   * purchases first, clients with equal purchases in order of first sale.
   */
  method GetClientSummary(ventas: seq<Sale>, clientes: seq<Customer>, kombuchas: seq<Kombucha>)
    returns (rows: seq<ClientEntry>)
    ensures |rows| == |Clients(ventas)|
    ensures forall e :: e in rows ==>
              e.clienteId in Clients(ventas) && EntryFor(e, e.clienteId, SalesOf(ventas, e.clienteId), clientes, kombuchas)
    ensures forall c :: c in Clients(ventas) ==> exists e :: e in rows && e.clienteId == c
    ensures DistinctKeys(rows, ClientId)
    ensures forall i, j :: 0 <= i < j < |rows| ==> rows[i].totalPurchases >= rows[j].totalPurchases
    ensures forall t :: RowClients(Filter(rows, WithTotal(t))) == Filter(Clients(ventas), BoughtTotal(ventas, t))
  {
    var summary, order := CollectSummary(ventas, clientes, kombuchas);
    SortedRows(summary, ventas, clientes, kombuchas, order);
    rows := SortBy(RowsInOrder(summary, order), MorePurchases);
  }
}
