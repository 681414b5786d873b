/**
 * The customer re-contact reminder engine. A customer who bought N kombuchas in their
 * latest sale is due for a follow-up N days after that sale; the engine derives one
 * reminder per customer, measures it against "today" and orders the list by urgency.
 * Days are day numbers (see `Civil`); "today" is a parameter rather than the clock.
 */
module NotificationUtils {
  import opened Wrappers
  import opened Text
  import opened Civil
  import opened DateKeys
  import opened Seqs
  import opened Sorting
  import opened Records

  // ---------------------------------------------------------------------------------------
  // One reminder

  /** The quantities of the items, added up from 0 as `reduce` does. */
  function TotalKombuchas(items: seq<Item>): int {
    if items == [] then 0
    else TotalKombuchas(items[..|items| - 1]) + Quantity(items[|items| - 1])
  }

  /** The total of a concatenation is the sum of the totals: every item counts, negative ones too. */
  lemma {:induction false} TotalKombuchasConcat(a: seq<Item>, b: seq<Item>)
    ensures TotalKombuchas(a + b) == TotalKombuchas(a) + TotalKombuchas(b)
    decreases |b|
  {
    if b == [] {
      assert a + b == a;
    } else {
      assert (a + b)[..|a + b| - 1] == a + b[..|b| - 1];
      assert (a + b)[|a + b| - 1] == b[|b| - 1];
      TotalKombuchasConcat(a, b[..|b| - 1]);
    }
  }

  /** An item whose quantity does not read as a number adds nothing. */
  lemma UnreadableQuantityAddsNothing(items: seq<Item>, k: string, p: string)
    ensures TotalKombuchas(items + [Item(k, None, p)]) == TotalKombuchas(items)
  {
    assert (items + [Item(k, None, p)])[..|items|] == items;
  }

  datatype Reminder = Reminder(
    customerId: string, lastSaleId: string, lastSaleDate: string,
    totalKombuchas: int, daysToWait: int, reminderDate: string,
    isDue: bool, daysOverdue: int, daysUntilDue: int, status: string)

  function Abs(x: int): (r: nat)
    ensures r == x || r == -x
  {
    if x < 0 then -x else x
  }

  /** The total of a sale that has an item list, 0 otherwise. */
  function SaleTotal(sale: Sale): int {
    match sale.items
    case Some(items) => TotalKombuchas(items)
    case None => 0
  }

  /** The sale date read as a day; 0 stands in when the text is not a date. */
  function SaleDay(sale: Sale): int {
    match ParseDate(sale.fecha)
    case Some(d) => d
    case None => 0
  }

  /**
   * The calculation runs to completion: it stops with no reminder before it reads the
   * date, or the date is a `YYYY-MM-DD` date. On any other text `toISOString` throws.
   */
  predicate ReminderDefined(sale: Sale) {
    sale.fecha == [] || sale.items.None? || SaleTotal(sale) == 0 || ParseDate(sale.fecha).Some?
  }

  /** `calculateCustomerReminder(lastSale)` evaluated on the day `today`. */
  function CalculateReminder(sale: Sale, today: int): (r: Option<Reminder>)
    requires ReminderDefined(sale)
    ensures r.None? <==> sale.fecha == [] || sale.items.None? || SaleTotal(sale) == 0
  {
    if sale.fecha == [] || sale.items.None? then None
    else
      var total := TotalKombuchas(sale.items.value);
      if total == 0 then None
      else
        var daysToWait := total;
        var reminderKey := DateKey(SaleDay(sale) + daysToWait);
        var isDue := LexLe(reminderKey, DateKey(today));
        var daysDiff := today - (SaleDay(sale) + daysToWait);
        Some(Reminder(sale.cliente, sale.id, sale.fecha, total, daysToWait, reminderKey, isDue,
                      if isDue then Abs(daysDiff) else 0,
                      if !isDue then Abs(daysDiff) else 0,
                      "pending"))
  }

  /**
   * What a reminder says, for dates whose keys have four-digit years: it falls due
   * `daysToWait == totalKombuchas` days after the sale; it is due exactly when that day is
   * not after today; a due reminder counts the days since, a pending one the days left.
   */
  lemma ReminderSchedule(sale: Sale, today: int)
    requires ReminderDefined(sale) && CalculateReminder(sale, today).Some?
    requires InKeyRange(SaleDay(sale) + SaleTotal(sale)) && InKeyRange(today)
    ensures var r := CalculateReminder(sale, today).value;
            var due := SaleDay(sale) + SaleTotal(sale);
            && r.totalKombuchas == r.daysToWait == SaleTotal(sale)
            && r.customerId == sale.cliente && r.lastSaleId == sale.id && r.status == "pending"
            && ParseDate(r.reminderDate) == Some(due)
            && ParseDate(sale.fecha) == Some(due - r.daysToWait)
            && (r.isDue <==> due <= today)
            && (r.isDue ==> r.daysOverdue == today - due && r.daysUntilDue == 0)
            && (!r.isDue ==> r.daysUntilDue == due - today && r.daysUntilDue >= 1 && r.daysOverdue == 0)
  {
    var r := CalculateReminder(sale, today).value;
    var due := SaleDay(sale) + SaleTotal(sale);
    assert r.reminderDate == DateKey(due);
    assert r.isDue == LexLe(DateKey(due), DateKey(today));
    ParseDateKey(due);
    KeyLeOrder(due, today);
  }

  // ---------------------------------------------------------------------------------------
  // Notifications

  datatype Notification = Notification(
    customerId: string, lastSaleId: string, lastSaleDate: string,
    totalKombuchas: int, daysToWait: int, reminderDate: string,
    isDue: bool, daysOverdue: int, daysUntilDue: int, status: string,
    customerName: string, customerPhone: string, customerAddress: string,
    notificationId: string, notes: string)

  /** The reminder with the customer's details and its identifier added. */
  function WithCustomer(r: Reminder, c: Customer, saleId: string): Notification {
    Notification(r.customerId, r.lastSaleId, r.lastSaleDate, r.totalKombuchas, r.daysToWait,
                 r.reminderDate, r.isDue, r.daysOverdue, r.daysUntilDue, r.status,
                 c.nombre, c.telefono, c.direccion,
                 r.customerId + "_" + saleId + "_" + r.reminderDate, "")
  }

  /** Every sale date reads as a day: the date comparator and the calculation need it. */
  predicate AllDatesRead(sales: seq<Sale>) {
    forall s :: s in sales ==> ParseDate(s.fecha).Some?
  }

  /** The customer ids of the sales, each once, in order of first appearance. */
  function Clients(sales: seq<Sale>): (r: seq<string>)
    ensures NoDup(r)
  {
    if sales == [] then []
    else
      var p := Clients(sales[..|sales| - 1]);
      var c := sales[|sales| - 1].cliente;
      if c in p then p else p + [c]
  }

  /** The sales of one customer, in input order. */
  function SalesOf(sales: seq<Sale>, c: string): (r: seq<Sale>)
    ensures forall s :: s in r ==> s in sales && s.cliente == c
  {
    if sales == [] then []
    else
      var last := sales[|sales| - 1];
      SalesOf(sales[..|sales| - 1], c) + (if last.cliente == c then [last] else [])
  }

  /** A customer id is listed exactly when the customer has a sale. */
  lemma {:induction false} ClientsHaveSales(sales: seq<Sale>, c: string)
    ensures c in Clients(sales) <==> SalesOf(sales, c) != []
  {
    if sales != [] {
      ClientsHaveSales(sales[..|sales| - 1], c);
    }
  }

  /** `a` sorts before `b` when its date is not earlier: the newest sale first. */
  predicate NewerOrSame(a: Sale, b: Sale) {
    SaleDay(a) >= SaleDay(b)
  }

  /** The sale the engine reads for a customer: the newest, the first of equally new ones. */
  function Latest(s: seq<Sale>): (r: Sale)
    requires s != []
    ensures r in s
  {
    if |s| == 1 then s[0]
    else
      var m := Latest(s[1..]);
      if SaleDay(s[0]) >= SaleDay(m) then s[0] else m
  }

  /** No sale is newer than `Latest`. */
  lemma {:induction false} LatestIsNewest(s: seq<Sale>)
    requires s != []
    ensures forall x :: x in s ==> SaleDay(x) <= SaleDay(Latest(s))
  {
    if |s| > 1 {
      LatestIsNewest(s[1..]);
      assert forall x :: x in s ==> x == s[0] || x in s[1..];
    }
  }

  /** `Latest` is the first of the newest sales: every sale before it is strictly older. */
  lemma {:induction false} LatestIsFirstNewest(s: seq<Sale>)
    requires s != []
    ensures exists i :: 0 <= i < |s| && s[i] == Latest(s)
                        && forall j :: 0 <= j < i ==> SaleDay(s[j]) < SaleDay(s[i])
  {
    if |s| == 1 {
      assert s[0] == Latest(s);
    } else {
      LatestIsFirstNewest(s[1..]);
      var m := Latest(s[1..]);
      var i :| 0 <= i < |s[1..]| && s[1..][i] == m
               && forall j :: 0 <= j < i ==> SaleDay(s[1..][j]) < SaleDay(s[1..][i]);
      if SaleDay(s[0]) >= SaleDay(m) {
        assert s[0] == Latest(s);
      } else {
        assert s[i + 1] == m == Latest(s);
        forall j | 0 <= j < i + 1
          ensures SaleDay(s[j]) < SaleDay(s[i + 1])
        {
          if j > 0 {
            assert s[j] == s[1..][j - 1];
          }
        }
      }
    }
  }

  /** Sorting a customer's sales newest first, as the engine does, puts `Latest` first. */
  lemma {:induction false} LatestIsSortHead(s: seq<Sale>)
    requires s != []
    ensures SortBy(s, NewerOrSame)[0] == Latest(s)
  {
    if |s| > 1 {
      LatestIsSortHead(s[1..]);
    }
  }

  /** The notification of customer `cid`, if the engine produces one. */
  function NotificationFor(sales: seq<Sale>, customers: seq<Customer>, today: int, cid: string): Option<Notification>
    requires AllDatesRead(sales)
  {
    var group := SalesOf(sales, cid);
    if group == [] then None
    else
      var last := Latest(group);
      match CalculateReminder(last, today)
      case None => None
      case Some(r) =>
        match FindCustomer(customers, cid)
        case None => None
        case Some(c) => Some(WithCustomer(r, c, last.id))
  }

  /** A notification that may be missing, as a list of zero or one. */
  function Emit(o: Option<Notification>): (r: seq<Notification>)
    ensures forall n :: n in r <==> o == Some(n)
  {
    match o
    case None => []
    case Some(n) => [n]
  }

  /** `NotificationFor` with the inputs fixed: customer id to notification. */
  function NotifierOf(sales: seq<Sale>, customers: seq<Customer>, today: int): string -> Option<Notification>
    requires AllDatesRead(sales)
  {
    cid => NotificationFor(sales, customers, today, cid)
  }

  /** Every notification `notify` produces belongs to the customer it was asked for. */
  ghost predicate KeyedBy(notify: string -> Option<Notification>) {
    forall cid :: notify(cid).Some? ==> notify(cid).value.customerId == cid
  }

  /** The notifications of the listed customers, in list order. */
  function Collect(cids: seq<string>, notify: string -> Option<Notification>): seq<Notification> {
    if cids == [] then []
    else Collect(cids[..|cids| - 1], notify) + Emit(notify(cids[|cids| - 1]))
  }

  /** The comparator of the urgency sort, as written. */
  function UrgencyCompare(a: Notification, b: Notification): int {
    if a.isDue && !b.isDue then -1
    else if !a.isDue && b.isDue then 1
    else if a.isDue && b.isDue then b.daysOverdue - a.daysOverdue
    else a.daysUntilDue - b.daysUntilDue
  }

  /** `a` may come before `b` in urgency order. */
  predicate Urgent(a: Notification, b: Notification) {
    UrgencyCompare(a, b) <= 0
  }

  /** The urgency comparator is consistent, so the sorted order is well defined. */
  lemma UrgentIsTotalPreorder()
    ensures TotalPreorder(Urgent)
  {
    forall a, b, c | Urgent(a, b) && Urgent(b, c)
      ensures Urgent(a, c)
    {
    }
  }

  /** What `generateCustomerNotifications(sales, customers)` returns on the day `today`. */
  function Generated(sales: seq<Sale>, customers: seq<Customer>, today: int): seq<Notification>
    requires AllDatesRead(sales)
  {
    SortBy(Collect(Clients(sales), NotifierOf(sales, customers, today)), Urgent)
  }

  lemma ClientsStep(sales: seq<Sale>, i: int)
    requires 0 <= i < |sales|
    ensures Clients(sales[..i + 1]) ==
      if sales[i].cliente in Clients(sales[..i]) then Clients(sales[..i]) else Clients(sales[..i]) + [sales[i].cliente]
    ensures forall c ::
      SalesOf(sales[..i + 1], c) == SalesOf(sales[..i], c) + (if sales[i].cliente == c then [sales[i]] else [])
  {
    assert sales[..i + 1][..i] == sales[..i];
  }

  lemma CollectStep(cids: seq<string>, j: int, notify: string -> Option<Notification>)
    requires 0 <= j < |cids|
    ensures Collect(cids[..j + 1], notify) == Collect(cids[..j], notify) + Emit(notify(cids[j]))
  {
    assert cids[..j + 1][..j] == cids[..j];
  }

  /** The grouping built from `prefix`: customers in order of first sale, each mapped to its sales. */
  ghost predicate GroupedAs(salesByCustomer: map<string, seq<Sale>>, customerIds: seq<string>, prefix: seq<Sale>) {
    && customerIds == Clients(prefix)
    && (forall c :: c in salesByCustomer <==> c in customerIds)
    && (forall c :: c in salesByCustomer ==> salesByCustomer[c] == SalesOf(prefix, c))
  }

  /** One step of the grouping loop keeps the map and the id list equal to those of the longer prefix. */
  lemma GroupStep(salesByCustomer: map<string, seq<Sale>>, customerIds: seq<string>, sales: seq<Sale>, i: int)
    requires 0 <= i < |sales|
    requires GroupedAs(salesByCustomer, customerIds, sales[..i])
    ensures var c := sales[i].cliente;
            var m := if c in salesByCustomer then salesByCustomer else salesByCustomer[c := []];
            var ids := if c in salesByCustomer then customerIds else customerIds + [c];
            GroupedAs(m[c := m[c] + [sales[i]]], ids, sales[..i + 1])
  {
    var c := sales[i].cliente;
    var m := if c in salesByCustomer then salesByCustomer else salesByCustomer[c := []];
    var ids := if c in salesByCustomer then customerIds else customerIds + [c];
    var m' := m[c := m[c] + [sales[i]]];
    ClientsStep(sales, i);
    if c !in salesByCustomer {
      ClientsHaveSales(sales[..i], c);
      assert m[c] == SalesOf(sales[..i], c);
    }
    assert ids == Clients(sales[..i + 1]);
    forall d | d in m'
      ensures m'[d] == SalesOf(sales[..i + 1], d)
    {
      if d != c {
        assert m'[d] == salesByCustomer[d];
      }
    }
    assert forall d :: d in m' <==> d in ids;
  }

  /** The first loop of `generateCustomerNotifications`: each customer's sales, customers in order of first sale. */
  method GroupSalesByCustomer(sales: seq<Sale>) returns (salesByCustomer: map<string, seq<Sale>>, customerIds: seq<string>)
    ensures customerIds == Clients(sales)
    ensures forall c :: c in salesByCustomer <==> c in customerIds
    ensures forall c :: c in salesByCustomer ==> salesByCustomer[c] == SalesOf(sales, c)
  {
    salesByCustomer := map[];
    customerIds := [];
    var i := 0;
    while i < |sales|
      invariant 0 <= i <= |sales|
      invariant GroupedAs(salesByCustomer, customerIds, sales[..i])
    {
      var sale := sales[i];
      GroupStep(salesByCustomer, customerIds, sales, i);
      if sale.cliente !in salesByCustomer {
        salesByCustomer := salesByCustomer[sale.cliente := []];
        customerIds := customerIds + [sale.cliente];
      }
      salesByCustomer := salesByCustomer[sale.cliente := salesByCustomer[sale.cliente] + [sale]];
      i := i + 1;
    }
    assert sales[..i] == sales;
  }

  /** `generateCustomerNotifications`: group the sales by customer, keep each customer's newest, sort by urgency. */
  method GenerateCustomerNotifications(sales: seq<Sale>, customers: seq<Customer>, today: int)
    returns (notifications: seq<Notification>)
    requires AllDatesRead(sales)
    ensures notifications == Generated(sales, customers, today)
  {
    var salesByCustomer, customerIds := GroupSalesByCustomer(sales);

    var found: seq<Notification> := [];
    var j := 0;
    while j < |customerIds|
      invariant 0 <= j <= |customerIds|
      invariant found == Collect(customerIds[..j], NotifierOf(sales, customers, today))
    {
      var customerId := customerIds[j];
      CollectStep(customerIds, j, NotifierOf(sales, customers, today));
      ClientsHaveSales(sales, customerId);
      var customerSales := SortBy(salesByCustomer[customerId], NewerOrSame);
      LatestIsSortHead(salesByCustomer[customerId]);
      var lastSale := customerSales[0];
      var reminder := CalculateReminder(lastSale, today);
      if reminder.Some? {
        var customer := FindCustomer(customers, customerId);
        if customer.Some? {
          found := found + [WithCustomer(reminder.value, customer.value, lastSale.id)];
        }
      }
      j := j + 1;
    }
    assert customerIds[..j] == customerIds;
    notifications := SortBy(found, Urgent);
  }

  // ---------------------------------------------------------------------------------------
  // What the generated list holds

  /**
   * A customer's notification is built from `Latest` of their sales and is identified by
   * customer id, sale id and reminder date.
   */
  lemma NotificationFromLatestSale(sales: seq<Sale>, customers: seq<Customer>, today: int, cid: string)
    requires AllDatesRead(sales) && NotificationFor(sales, customers, today, cid).Some?
    ensures SalesOf(sales, cid) != []
    ensures var n := NotificationFor(sales, customers, today, cid).value;
            var sale := Latest(SalesOf(sales, cid));
      && n.customerId == cid && n.status == "pending" && n.notes == ""
      && n.lastSaleId == sale.id && n.lastSaleDate == sale.fecha
      && n.notificationId == cid + "_" + sale.id + "_" + n.reminderDate
  {
    var sale := Latest(SalesOf(sales, cid));
    assert sale.cliente == cid;
  }

  /** The notification falls due as many days after that sale as the sale has kombuchas. */
  lemma NotificationSchedule(sales: seq<Sale>, customers: seq<Customer>, today: int, cid: string)
    requires AllDatesRead(sales) && NotificationFor(sales, customers, today, cid).Some?
    ensures SalesOf(sales, cid) != []
    ensures var n := NotificationFor(sales, customers, today, cid).value;
            var sale := Latest(SalesOf(sales, cid));
      && n.totalKombuchas == n.daysToWait == SaleTotal(sale) != 0
      && n.reminderDate == DateKey(SaleDay(sale) + n.daysToWait)
  {
    var sale, r, c := NotificationParts(sales, customers, today, cid);
    ReminderWait(sale, today, r);
    var n := WithCustomer(r, c, sale.id);
    assert n.totalKombuchas == r.totalKombuchas && n.daysToWait == r.daysToWait && n.reminderDate == r.reminderDate;
  }

  /** The parts a notification is made of: the customer's newest sale, its reminder and the customer record. */
  lemma NotificationParts(sales: seq<Sale>, customers: seq<Customer>, today: int, cid: string)
    returns (sale: Sale, r: Reminder, c: Customer)
    requires AllDatesRead(sales) && NotificationFor(sales, customers, today, cid).Some?
    ensures SalesOf(sales, cid) != [] && sale == Latest(SalesOf(sales, cid))
    ensures ReminderDefined(sale) && CalculateReminder(sale, today) == Some(r)
    ensures FindCustomer(customers, cid) == Some(c)
    ensures NotificationFor(sales, customers, today, cid) == Some(WithCustomer(r, c, sale.id))
  {
    sale := Latest(SalesOf(sales, cid));
    r := CalculateReminder(sale, today).value;
    c := FindCustomer(customers, cid).value;
  }

  /** The wait and the date key of a reminder, read off the calculation. */
  lemma ReminderWait(sale: Sale, today: int, r: Reminder)
    requires ReminderDefined(sale) && CalculateReminder(sale, today) == Some(r)
    ensures r.totalKombuchas == r.daysToWait == SaleTotal(sale) != 0
    ensures r.reminderDate == DateKey(SaleDay(sale) + SaleTotal(sale))
  {
  }

  /** The notification carries the contact details of the first customer record with that id. */
  lemma NotificationCustomer(sales: seq<Sale>, customers: seq<Customer>, today: int, cid: string)
    requires AllDatesRead(sales) && NotificationFor(sales, customers, today, cid).Some?
    ensures FindCustomer(customers, cid).Some?
    ensures var n := NotificationFor(sales, customers, today, cid).value;
            var customer := FindCustomer(customers, cid).value;
      && n.customerName == customer.nombre && n.customerPhone == customer.telefono
      && n.customerAddress == customer.direccion
  {
  }

  /** `Latest(SalesOf(sales, c))` is a newest sale of customer `c`, and no sale of `c` is newer. */
  lemma LatestOfCustomer(sales: seq<Sale>, c: string)
    requires SalesOf(sales, c) != []
    ensures var sale := Latest(SalesOf(sales, c));
      && sale in sales && sale.cliente == c
      && forall other :: other in sales && other.cliente == c ==> SaleDay(other) <= SaleDay(sale)
  {
    LatestIsNewest(SalesOf(sales, c));
    forall other | other in sales && other.cliente == c
      ensures other in SalesOf(sales, c)
    {
      SalesOfComplete(sales, c, other);
    }
  }

  /** Every sale of a customer is in that customer's group. */
  lemma {:induction false} SalesOfComplete(sales: seq<Sale>, c: string, sale: Sale)
    requires sale in sales && sale.cliente == c
    ensures sale in SalesOf(sales, c)
  {
    if sale != sales[|sales| - 1] {
      assert sale in sales[..|sales| - 1] by {
        var k :| 0 <= k < |sales| && sales[k] == sale;
        assert sales[..|sales| - 1][k] == sale;
      }
      SalesOfComplete(sales[..|sales| - 1], c, sale);
    }
  }

  lemma NotificationForCustomerId(sales: seq<Sale>, customers: seq<Customer>, today: int, cid: string)
    requires AllDatesRead(sales) && NotificationFor(sales, customers, today, cid).Some?
    ensures NotificationFor(sales, customers, today, cid).value.customerId == cid
  {
    var sale := Latest(SalesOf(sales, cid));
  }

  lemma NotifierKeyed(sales: seq<Sale>, customers: seq<Customer>, today: int)
    requires AllDatesRead(sales)
    ensures KeyedBy(NotifierOf(sales, customers, today))
  {
    forall cid | NotifierOf(sales, customers, today)(cid).Some?
      ensures NotifierOf(sales, customers, today)(cid).value.customerId == cid
    {
      NotificationForCustomerId(sales, customers, today, cid);
    }
  }

  lemma {:induction false} CollectMembers(cids: seq<string>, notify: string -> Option<Notification>, n: Notification)
    requires KeyedBy(notify)
    ensures n in Collect(cids, notify) <==> n.customerId in cids && notify(n.customerId) == Some(n)
  {
    if cids != [] {
      var pre, last := cids[..|cids| - 1], cids[|cids| - 1];
      CollectMembers(pre, notify, n);
      assert cids == pre + [last];
    }
  }

  /** Holds of the notifications of customer `cid`. */
  function ForCustomer(cid: string): Notification -> bool {
    (n: Notification) => n.customerId == cid
  }

  lemma {:induction false} CollectCount(cids: seq<string>, notify: string -> Option<Notification>, cid: string)
    requires KeyedBy(notify) && NoDup(cids)
    ensures |Filter(Collect(cids, notify), ForCustomer(cid))| <= 1
    ensures cid !in cids ==> |Filter(Collect(cids, notify), ForCustomer(cid))| == 0
  {
    if cids != [] {
      var pre, last := cids[..|cids| - 1], cids[|cids| - 1];
      assert NoDup(pre) by {
        forall i, j | 0 <= i < j < |pre|
          ensures pre[i] != pre[j]
        {
          assert pre[i] == cids[i] && pre[j] == cids[j];
        }
      }
      CollectCount(pre, notify, cid);
      var tail := Emit(notify(last));
      FilterAppend(Collect(pre, notify), tail, ForCustomer(cid));
      var tailCount := |Filter(tail, ForCustomer(cid))|;
      assert tailCount == if notify(last).Some? && last == cid then 1 else 0 by {
        if notify(last).Some? {
          assert tail == [notify(last).value] && notify(last).value.customerId == last;
        }
      }
      if last == cid {
        assert cid !in pre by {
          forall i | 0 <= i < |pre|
            ensures pre[i] != cid
          {
            assert pre[i] == cids[i];
          }
        }
      } else {
        assert cid in cids ==> cid in pre by {
          if cid in cids {
            var k :| 0 <= k < |cids| && cids[k] == cid;
            assert pre[k] == cid;
          }
        }
      }
    }
  }

  /**
   * The generated list holds exactly the notifications the customers' newest sales
   * produce: a notification is in it iff it is the one its customer gets.
   */
  lemma GeneratedMembers(sales: seq<Sale>, customers: seq<Customer>, today: int, n: Notification)
    requires AllDatesRead(sales)
    ensures n in Generated(sales, customers, today) <==>
            NotificationFor(sales, customers, today, n.customerId) == Some(n)
  {
    var cids := Clients(sales);
    var notify := NotifierOf(sales, customers, today);
    NotifierKeyed(sales, customers, today);
    SortMembers(Collect(cids, notify), Urgent);
    CollectMembers(cids, notify, n);
    if NotificationFor(sales, customers, today, n.customerId) == Some(n) {
      ClientsHaveSales(sales, n.customerId);
    }
  }

  /** No customer gets two notifications. */
  lemma GeneratedOnePerCustomer(sales: seq<Sale>, customers: seq<Customer>, today: int)
    requires AllDatesRead(sales)
    ensures var r := Generated(sales, customers, today);
            forall i, j :: 0 <= i < j < |r| ==> r[i].customerId != r[j].customerId
  {
    var notify := NotifierOf(sales, customers, today);
    NotifierKeyed(sales, customers, today);
    var col := Collect(Clients(sales), notify);
    var r := Generated(sales, customers, today);
    forall i, j | 0 <= i < j < |r|
      ensures r[i].customerId != r[j].customerId
    {
      var cid := r[i].customerId;
      CollectCount(Clients(sales), notify, cid);
      SortFilter(col, Urgent, ForCustomer(cid));
      if r[j].customerId == cid {
        FilterTwo(r, ForCustomer(cid), i, j);
      }
    }
  }

  /**
   * Urgency order: due reminders first, the most overdue first among them; then the
   * pending ones, the soonest first.
   */
  lemma GeneratedOrder(sales: seq<Sale>, customers: seq<Customer>, today: int)
    requires AllDatesRead(sales)
    ensures var r := Generated(sales, customers, today);
            forall i, j :: 0 <= i < j < |r| ==>
              && (r[j].isDue ==> r[i].isDue)
              && (r[i].isDue && r[j].isDue ==> r[i].daysOverdue >= r[j].daysOverdue)
              && (!r[i].isDue && !r[j].isDue ==> r[i].daysUntilDue <= r[j].daysUntilDue)
  {
    UrgentIsTotalPreorder();
    SortSorted(Collect(Clients(sales), NotifierOf(sales, customers, today)), Urgent);
  }

  /** Freshly generated notifications are all pending and carry no notes. */
  lemma GeneratedPendingWithoutNotes(sales: seq<Sale>, customers: seq<Customer>, today: int)
    requires AllDatesRead(sales)
    ensures forall n :: n in Generated(sales, customers, today) ==> n.status == "pending" && n.notes == ""
  {
    forall n | n in Generated(sales, customers, today)
      ensures n.status == "pending" && n.notes == ""
    {
      GeneratedMembers(sales, customers, today, n);
      NotificationFromLatestSale(sales, customers, today, n.customerId);
    }
  }

  // ---------------------------------------------------------------------------------------
  // Filtering and counting

  predicate IsPending(n: Notification) { n.status == "pending" }
  predicate IsContacted(n: Notification) { n.status == "contacted" }
  predicate IsDismissed(n: Notification) { n.status == "dismissed" }
  predicate IsDueNow(n: Notification) { n.isDue }
  predicate NotDueYet(n: Notification) { !n.isDue }
  predicate IsOverdue(n: Notification) { n.status == "pending" && n.isDue }
  predicate IsUpcoming(n: Notification) { n.status == "pending" && !n.isDue }

  /** Holds of the notifications with status `status`. */
  function WithStatus(status: string): Notification -> bool {
    (n: Notification) => n.status == status
  }

  /** `filterNotificationsByStatus`: the notifications with that status, in their order. */
  function FilterByStatus(notifications: seq<Notification>, status: string): (r: seq<Notification>)
    ensures |r| <= |notifications|
    ensures forall n :: n in r <==> n in notifications && n.status == status
  {
    Filter(notifications, WithStatus(status))
  }

  datatype NotificationStats = NotificationStats(
    total: nat, pending: nat, overdue: nat, upcoming: nat, contacted: nat, dismissed: nat)

  /** `getNotificationStats`. */
  function Stats(notifications: seq<Notification>): NotificationStats {
    var pending := Filter(notifications, IsPending);
    NotificationStats(
      |notifications|, |pending|,
      |Filter(pending, IsDueNow)|, |Filter(pending, NotDueYet)|,
      |Filter(notifications, IsContacted)|, |Filter(notifications, IsDismissed)|)
  }

  /** Overdue and upcoming split the pending notifications; overdue means pending and due. */
  lemma StatsPendingSplit(notifications: seq<Notification>)
    ensures Stats(notifications).overdue + Stats(notifications).upcoming == Stats(notifications).pending
    ensures Filter(Filter(notifications, IsPending), IsDueNow) == Filter(notifications, IsOverdue)
    ensures Filter(Filter(notifications, IsPending), NotDueYet) == Filter(notifications, IsUpcoming)
  {
    FilterSplit(Filter(notifications, IsPending), IsDueNow, NotDueYet);
    FilterFilter(notifications, IsPending, IsDueNow, IsOverdue);
    FilterFilter(notifications, IsPending, NotDueYet, IsUpcoming);
  }

  predicate PendingOrContacted(n: Notification) { IsPending(n) || IsContacted(n) }
  predicate KnownStatus(n: Notification) { PendingOrContacted(n) || IsDismissed(n) }

  /** With only the three known statuses, pending, contacted and dismissed add up to the total. */
  lemma StatsStatusSplit(notifications: seq<Notification>)
    requires forall n :: n in notifications ==> KnownStatus(n)
    ensures Stats(notifications).pending + Stats(notifications).contacted + Stats(notifications).dismissed
            == Stats(notifications).total
  {
    FilterDisjoint(notifications, IsPending, IsContacted, PendingOrContacted);
    FilterDisjoint(notifications, PendingOrContacted, IsDismissed, KnownStatus);
    FilterAll(notifications, KnownStatus);
  }

  // ---------------------------------------------------------------------------------------
  // Priority and message

  /** `getNotificationPriority`. */
  function Priority(n: Notification): (p: string)
    ensures p == "high" || p == "medium" || p == "low"
  {
    if !n.isDue then "low"
    else if n.daysOverdue >= 7 then "high"
    else if n.daysOverdue >= 3 then "medium"
    else "low"
  }

  /** Priority as a rank: low 0, medium 1, high 2. */
  function PriorityRank(p: string): nat {
    if p == "high" then 2 else if p == "medium" then 1 else 0
  }

  /** The priority is decided by the due flag and the days overdue alone. */
  lemma PriorityDependsOnDueAndOverdue(a: Notification, b: Notification)
    requires a.isDue == b.isDue && a.daysOverdue == b.daysOverdue
    ensures Priority(a) == Priority(b)
  {
  }

  /** Among due notifications, more days overdue never means a lower priority. */
  lemma PriorityMonotone(a: Notification, b: Notification)
    requires a.isDue && b.isDue && a.daysOverdue <= b.daysOverdue
    ensures PriorityRank(Priority(a)) <= PriorityRank(Priority(b))
  {
  }

  /** Along the generated list, priorities never rise. */
  lemma GeneratedPriorityOrder(sales: seq<Sale>, customers: seq<Customer>, today: int)
    requires AllDatesRead(sales)
    ensures var r := Generated(sales, customers, today);
            forall i, j :: 0 <= i < j < |r| ==> PriorityRank(Priority(r[i])) >= PriorityRank(Priority(r[j]))
  {
    var r := Generated(sales, customers, today);
    GeneratedOrder(sales, customers, today);
    forall i, j | 0 <= i < j < |r|
      ensures PriorityRank(Priority(r[i])) >= PriorityRank(Priority(r[j]))
    {
      if r[j].isDue {
        PriorityMonotone(r[j], r[i]);
      }
    }
  }

  /** The closing words of every message: `a <name> - compró <n> kombuchas`. */
  function MessageTail(n: Notification): string {
    "a " + n.customerName + " - compr\U{F3} " + IntToString(n.totalKombuchas) + " kombuchas"
  }

  /** The opening words of a message: how the reminder stands against today. */
  function MessageOpening(n: Notification): string {
    if n.isDue then
      if n.daysOverdue == 0 then "\U{A1}Hoy es el d\U{ED}a!"
      else if n.daysOverdue == 1 then "\U{A1}Ayer era el d\U{ED}a!"
      else "\U{A1}" + IntToString(n.daysOverdue) + " d\U{ED}as de retraso!"
    else if n.daysUntilDue == 1 then "Ma\U{F1}ana"
    else "En " + IntToString(n.daysUntilDue) + " d\U{ED}as"
  }

  /** The verb between the opening and the closing words, capitalised after an exclamation. */
  function MessageVerb(n: Notification): string {
    if n.isDue then " Contacta " else " contacta "
  }

  /** `formatNotificationMessage`: the five wordings, each an opening, `contacta` and the closing words. */
  function FormatMessage(n: Notification): string {
    MessageOpening(n) + MessageVerb(n) + MessageTail(n)
  }

  /** Every message names the customer and the number of kombuchas bought. */
  lemma MessageMentionsCustomer(n: Notification)
    ensures Contains(FormatMessage(n), n.customerName)
    ensures Contains(FormatMessage(n), IntToString(n.totalKombuchas) + " kombuchas")
  {
    var head := MessageOpening(n) + MessageVerb(n);
    var named := "a " + n.customerName;
    var between := " - compr\U{F3} ";
    var number := IntToString(n.totalKombuchas);
    assert Contains(named, n.customerName) by {
      assert named[2..2 + |n.customerName|] == n.customerName;
      assert OccursAt(named, n.customerName, 2);
    }
    ContainsAppend(named, between, n.customerName);
    ContainsAppend(named + between, number, n.customerName);
    ContainsAppend(named + between + number, " kombuchas", n.customerName);
    ContainsPrepend(head, MessageTail(n), n.customerName);
    ContainsLastTwo(named + between, number, " kombuchas");
    ContainsPrepend(head, MessageTail(n), number + " kombuchas");
  }

  /** The opening words of a due reminder say how many days it is overdue. */
  lemma DueMessageOpening(n: Notification)
    requires n.isDue
    ensures n.daysOverdue == 0 ==> StartsWith(FormatMessage(n), "\U{A1}Hoy es el d\U{ED}a!")
    ensures n.daysOverdue == 1 ==> StartsWith(FormatMessage(n), "\U{A1}Ayer era el d\U{ED}a!")
    ensures n.daysOverdue != 0 && n.daysOverdue != 1 ==>
              StartsWith(FormatMessage(n), "\U{A1}" + IntToString(n.daysOverdue) + " d\U{ED}as de retraso!")
  {
    StartsWithAppend3(MessageOpening(n), MessageVerb(n), MessageTail(n));
  }

  /** The opening words of a reminder not yet due say in how many days it falls due. */
  lemma UpcomingMessageOpening(n: Notification)
    requires !n.isDue
    ensures n.daysUntilDue == 1 ==> StartsWith(FormatMessage(n), "Ma\U{F1}ana contacta")
    ensures n.daysUntilDue != 1 ==> StartsWith(FormatMessage(n), "En " + IntToString(n.daysUntilDue) + " d\U{ED}as")
  {
    if n.daysUntilDue == 1 {
      assert "Ma\U{F1}ana" + " contacta " == "Ma\U{F1}ana contacta" + " ";
      StartsWithAppend3("Ma\U{F1}ana contacta", " ", MessageTail(n));
    } else {
      StartsWithAppend3(MessageOpening(n), MessageVerb(n), MessageTail(n));
    }
  }
}
