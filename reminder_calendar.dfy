/**
 * The reminder calendar: a six-week grid of days for the displayed month, the pending
 * reminders and the sales grouped by their date key, the colour of a reminder's dot,
 * and month navigation. Days are day numbers and months `(year, month)` pairs.
 */
module ReminderCalendar {
  import opened Wrappers
  import opened Text
  import opened Civil
  import opened DateKeys
  import opened Seqs
  import opened Records
  import opened NotificationUtils

  // ---------------------------------------------------------------------------------------
  // The grid

  /** The Sunday on or before the first of the month: the grid's first day. */
  function GridStart(ym: YearMonth): (n: int)
    requires ValidMonth(ym)
    ensures Weekday(n) == 0
    ensures FirstDay(ym) - 6 <= n <= FirstDay(ym)
  {
    SundayOnOrBefore(FirstDay(ym));
    FirstDay(ym) - Weekday(FirstDay(ym))
  }

  /**
   * The grid effect: days from `GridStart` on, while the month is not over or the grid
   * has fewer than 42 cells. The month always ends within 42 cells, so the grid is
   * exactly six weeks and covers the whole month.
   */
  method CalendarDays(ym: YearMonth) returns (days: seq<int>)
    requires ValidMonth(ym)
    ensures |days| == 42
    ensures Weekday(days[0]) == 0 && days[0] <= FirstDay(ym) < days[0] + 7
    ensures forall i :: 0 <= i < |days| ==> days[i] == days[0] + i
    ensures forall n :: FirstDay(ym) <= n <= LastDay(ym) ==> n in days
  {
    var start := GridStart(ym);
    var last := LastDay(ym);
    days := [];
    var current := start;
    while current <= last || |days| < 42
      invariant |days| <= 42
      invariant current == start + |days|
      invariant forall i :: 0 <= i < |days| ==> days[i] == start + i
      decreases 42 - |days|
    {
      days := days + [current];
      current := current + 1;
    }
    forall n | FirstDay(ym) <= n <= LastDay(ym)
      ensures n in days
    {
      assert days[n - start] == n;
    }
  }

  // ---------------------------------------------------------------------------------------
  // Grouping by date key

  /** Holds of the elements whose key is `k`. */
  function HasKey<T>(key: T -> Option<string>, k: string): T -> bool {
    x => key(x) == Some(k)
  }

  /**
   * `grouped` groups `xs` by `key`: a key has a group iff some element has that key, and
   * the group is exactly those elements in input order. Elements without a key are in no group.
   */
  ghost predicate IsGrouping<T(!new)>(grouped: map<string, seq<T>>, xs: seq<T>, key: T -> Option<string>) {
    forall k ::
      && (k in grouped <==> Filter(xs, HasKey(key, k)) != [])
      && (k in grouped ==> grouped[k] == Filter(xs, HasKey(key, k)))
  }

  /** `grouped` with `x` pushed onto the list of its key, if it has one. */
  function Push<T>(grouped: map<string, seq<T>>, x: T, key: T -> Option<string>): map<string, seq<T>> {
    match key(x)
    case None => grouped
    case Some(k) => grouped[k := (if k in grouped then grouped[k] else []) + [x]]
  }

  /** Pushing the next element onto a grouping of a prefix groups the longer prefix. */
  lemma PushGroups<T(!new)>(grouped: map<string, seq<T>>, xs: seq<T>, x: T, key: T -> Option<string>)
    requires IsGrouping(grouped, xs, key)
    ensures IsGrouping(Push(grouped, x, key), xs + [x], key)
  {
    var g := Push(grouped, x, key);
    forall k
      ensures k in g <==> Filter(xs + [x], HasKey(key, k)) != []
      ensures k in g ==> g[k] == Filter(xs + [x], HasKey(key, k))
    {
      FilterAppend(xs, [x], HasKey(key, k));
      assert Filter([x], HasKey(key, k)) == if key(x) == Some(k) then [x] else [];
    }
  }

  /** The `forEach` that pushes every keyed element onto the list of its key. */
  method GroupByKey<T(!new)>(xs: seq<T>, key: T -> Option<string>) returns (grouped: map<string, seq<T>>)
    ensures IsGrouping(grouped, xs, key)
  {
    grouped := map[];
    var i := 0;
    while i < |xs|
      invariant 0 <= i <= |xs|
      invariant IsGrouping(grouped, xs[..i], key)
    {
      assert xs[..i + 1] == xs[..i] + [xs[i]];
      PushGroups(grouped, xs[..i], xs[i], key);
      match key(xs[i]) {
        case None =>
        case Some(k) =>
          var group := if k in grouped then grouped[k] else [];
          grouped := grouped[k := group + [xs[i]]];
      }
      i := i + 1;
    }
    assert xs[..|xs|] == xs;
  }

  /** An element without a key is in no group. */
  lemma UnkeyedInNoGroup<T(!new)>(grouped: map<string, seq<T>>, xs: seq<T>, key: T -> Option<string>, x: T, k: string)
    requires IsGrouping(grouped, xs, key) && key(x).None? && k in grouped
    ensures x !in grouped[k]
  {
    assert grouped[k] == Filter(xs, HasKey(key, k));
  }

  /** The calendar key of a reminder: its reminder date, for pending reminders only. */
  function ReminderKey(n: Notification): Option<string> {
    if n.status == "pending" then Some(n.reminderDate) else None
  }

  /** The pending reminders of the date key `k`. */
  function PendingOn(k: string): Notification -> bool {
    (n: Notification) => n.status == "pending" && n.reminderDate == k
  }

  /** The reminder grouping effect. */
  method GroupReminders(notifications: seq<Notification>) returns (grouped: map<string, seq<Notification>>)
    ensures IsGrouping(grouped, notifications, ReminderKey)
    ensures forall k :: k in grouped ==> grouped[k] == Filter(notifications, PendingOn(k)) && grouped[k] != []
    ensures forall n :: n in notifications && n.status == "pending" ==> n.reminderDate in grouped && n in grouped[n.reminderDate]
  {
    grouped := GroupByKey(notifications, ReminderKey);
    forall k
      ensures Filter(notifications, HasKey(ReminderKey, k)) == Filter(notifications, PendingOn(k))
    {
      ReminderKeyIsPendingOn(notifications, k);
    }
    forall n | n in notifications && n.status == "pending"
      ensures n.reminderDate in grouped && n in grouped[n.reminderDate]
    {
      assert n in Filter(notifications, PendingOn(n.reminderDate));
    }
  }

  /** Keying reminders by `ReminderKey` picks the pending reminders of each date. */
  lemma ReminderKeyIsPendingOn(notifications: seq<Notification>, k: string)
    ensures Filter(notifications, HasKey(ReminderKey, k)) == Filter(notifications, PendingOn(k))
  {
    forall n: Notification
      ensures HasKey(ReminderKey, k)(n) == PendingOn(k)(n)
    {
      assert HasKey(ReminderKey, k)(n) == (ReminderKey(n) == Some(k));
    }
    FilterSame(notifications, HasKey(ReminderKey, k), PendingOn(k));
  }

  /** The calendar key of a sale: the whole text of `fecha` before its first `T`, unless that is empty. */
  function SaleKey(s: Sale): (k: Option<string>)
    ensures k.Some? ==> k.value != [] && StartsWith(s.fecha, k.value) && 'T' !in k.value
    ensures k.Some? ==> |k.value| == |s.fecha| || s.fecha[|k.value|] == 'T'
    ensures k.None? <==> s.fecha == [] || s.fecha[0] == 'T'
  {
    var d := BeforeFirst(s.fecha, 'T');
    if d == [] then None else Some(d)
  }

  /** The sale grouping effect. */
  method GroupSales(sales: seq<Sale>) returns (grouped: map<string, seq<Sale>>)
    ensures IsGrouping(grouped, sales, SaleKey)
    ensures forall s :: s in sales && s.fecha == [] ==> forall k :: k in grouped ==> s !in grouped[k]
  {
    grouped := GroupByKey(sales, SaleKey);
    forall s, k | s in sales && s.fecha == [] && k in grouped
      ensures s !in grouped[k]
    {
      UnkeyedInNoGroup(grouped, sales, SaleKey, s, k);
    }
  }

  /** The group of a date key, or none. */
  function GroupOf(grouped: map<string, seq<Notification>>, k: string): seq<Notification> {
    if k in grouped then grouped[k] else []
  }

  /** `handleDateClick`: the pending reminders of the clicked day, or none. */
  function RemindersForDate(grouped: map<string, seq<Notification>>, day: int): seq<Notification> {
    GroupOf(grouped, DateKey(day))
  }

  /** The group of a key is exactly that key's pending reminders, in their order. */
  lemma GroupOfIsPendingOn(grouped: map<string, seq<Notification>>, notifications: seq<Notification>, k: string)
    requires IsGrouping(grouped, notifications, ReminderKey)
    ensures GroupOf(grouped, k) == Filter(notifications, PendingOn(k))
  {
    ReminderKeyIsPendingOn(notifications, k);
  }

  /** A click on a day passes exactly that day's pending reminders, in their order. */
  lemma DateClickPassesDay(grouped: map<string, seq<Notification>>, notifications: seq<Notification>, day: int)
    requires IsGrouping(grouped, notifications, ReminderKey)
    ensures RemindersForDate(grouped, day) == Filter(notifications, PendingOn(DateKey(day)))
  {
    GroupOfIsPendingOn(grouped, notifications, DateKey(day));
  }

  // ---------------------------------------------------------------------------------------
  // Colours

  /** The `switch` of `getPriorityColor`. */
  function ColorOfPriority(p: string): string {
    if p == "high" then "#e74c3c"
    else if p == "medium" then "#f39c12"
    else if p == "low" then "#27ae60"
    else "#95a5a6"
  }

  /** `getPriorityColor`. */
  function PriorityColor(n: Notification): string {
    ColorOfPriority(Priority(n))
  }

  /** The dot is red from seven days overdue, orange from three, green otherwise; never grey. */
  lemma PriorityColorCases(n: Notification)
    ensures PriorityColor(n) == "#e74c3c" <==> n.isDue && n.daysOverdue >= 7
    ensures PriorityColor(n) == "#f39c12" <==> n.isDue && 3 <= n.daysOverdue < 7
    ensures PriorityColor(n) == "#27ae60" <==> !n.isDue || n.daysOverdue < 3
    ensures PriorityColor(n) != "#95a5a6"
  {
  }

  /** The states the calendar draws as a completed sale. */
  predicate SaleCompleted(s: Sale) {
    s.estado == "completada" || s.estado == "completed" || s.estado == "Completado"
  }

  /** The colour of a sale's dot. */
  function SaleColor(s: Sale): string {
    if SaleCompleted(s) then "#007bff" else "#6f42c1"
  }

  /** A sale is blue iff its state is one of the three spellings of completed. */
  lemma SaleColorCompleted(s: Sale)
    ensures SaleColor(s) == "#007bff" <==> s.estado in {"completada", "completed", "Completado"}
    ensures SaleColor(s) != "#007bff" ==> SaleColor(s) == "#6f42c1"
  {
  }

  // ---------------------------------------------------------------------------------------
  // The component

  class Calendar {
    var currentMonth: YearMonth
    var calendarDays: seq<int>
    var remindersByDate: map<string, seq<Notification>>
    var salesByDate: map<string, seq<Sale>>

    /** The grid always shows a real month. */
    predicate Valid()
      reads this
    {
      ValidMonth(currentMonth)
    }

    /** Opens on the month of `today`. */
    constructor(today: int)
      ensures Valid()
      ensures currentMonth == YearMonth(FromDay(today).year, FromDay(today).month)
      ensures calendarDays == [] && remindersByDate == map[] && salesByDate == map[]
    {
      var d := FromDay(today);
      currentMonth := YearMonth(d.year, d.month);
      calendarDays := [];
      remindersByDate := map[];
      salesByDate := map[];
    }

    /** The grid effect, run when the displayed month changes. */
    method RefreshDays()
      requires Valid()
      modifies this
      ensures Valid() && currentMonth == old(currentMonth)
      ensures |calendarDays| == 42 && Weekday(calendarDays[0]) == 0
      ensures forall i :: 0 <= i < 42 ==> calendarDays[i] == calendarDays[0] + i
      ensures forall n :: FirstDay(currentMonth) <= n <= LastDay(currentMonth) ==> n in calendarDays
      ensures remindersByDate == old(remindersByDate) && salesByDate == old(salesByDate)
    {
      calendarDays := CalendarDays(currentMonth);
    }

    /** The reminder grouping effect, run when the notifications change. */
    method RefreshReminders(notifications: seq<Notification>)
      modifies this
      ensures IsGrouping(remindersByDate, notifications, ReminderKey)
      ensures currentMonth == old(currentMonth) && calendarDays == old(calendarDays)
      ensures salesByDate == old(salesByDate)
    {
      remindersByDate := GroupReminders(notifications);
    }

    /** The sale grouping effect, run when the sales change. */
    method RefreshSales(sales: seq<Sale>)
      modifies this
      ensures IsGrouping(salesByDate, sales, SaleKey)
      ensures currentMonth == old(currentMonth) && calendarDays == old(calendarDays)
      ensures remindersByDate == old(remindersByDate)
    {
      salesByDate := GroupSales(sales);
    }

    /** `navigateMonth`: the displayed month moves by `direction` months. */
    method NavigateMonth(direction: int)
      modifies this
      ensures Valid()
      ensures currentMonth == ShiftMonth(old(currentMonth), direction)
      ensures MonthIndex(currentMonth) == MonthIndex(old(currentMonth)) + direction
      ensures calendarDays == old(calendarDays) && remindersByDate == old(remindersByDate)
      ensures salesByDate == old(salesByDate)
    {
      currentMonth := ShiftMonth(currentMonth, direction);
    }

    /** `handleDateClick` on the component's current grouping. */
    function DateClick(day: int): seq<Notification>
      reads this
    {
      RemindersForDate(remindersByDate, day)
    }
  }

  /** Going one month forward and one back shows the same month again. */
  lemma NavigateBackAndForth(ym: YearMonth)
    requires ValidMonth(ym)
    ensures ShiftMonth(ShiftMonth(ym, 1), -1) == ym
    ensures ShiftMonth(ShiftMonth(ym, -1), 1) == ym
  {
    ShiftMonthRoundTrip(ym, 1);
    ShiftMonthRoundTrip(ym, -1);
  }
}
