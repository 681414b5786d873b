/**
 * The notification bell in the navigation bar: it derives the reminders on its own,
 * without the stored statuses, shows a badge with the pending count and a dropdown
 * with the first five reminders.
 */
module NotificationBell {
  import opened Wrappers
  import opened Text
  import opened Seqs
  import opened Records
  import opened NotificationUtils

  /** The badge count: the `pending` figure of the stats of the generated list. */
  function PendingCount(sales: seq<Sale>, customers: seq<Customer>, today: int): nat
    requires AllDatesRead(sales)
  {
    Stats(Generated(sales, customers, today)).pending
  }

  /** The dropdown: the first five pending reminders. */
  function Recent(sales: seq<Sale>, customers: seq<Customer>, today: int): seq<Notification>
    requires AllDatesRead(sales)
  {
    Take(Filter(Generated(sales, customers, today), IsPending), 5)
  }

  /**
   * No stored status is consulted, so every reminder counts as pending: the count is the
   * number generated and the dropdown is the first five in urgency order.
   */
  lemma BellShowsEverything(sales: seq<Sale>, customers: seq<Customer>, today: int)
    requires AllDatesRead(sales)
    ensures PendingCount(sales, customers, today) == |Generated(sales, customers, today)|
    ensures Recent(sales, customers, today) == Take(Generated(sales, customers, today), 5)
    ensures |Recent(sales, customers, today)| <= 5
  {
    var all := Generated(sales, customers, today);
    GeneratedPendingWithoutNotes(sales, customers, today);
    FilterAll(all, IsPending);
  }

  /** The badge: absent for a count of zero, `99+` above 99, the number otherwise. */
  function BadgeText(count: int): Option<string> {
    if count > 0 then Some(if count > 99 then "99+" else IntToString(count)) else None
  }

  /** The badge appears iff there is something pending, and never takes more than three characters. */
  lemma BadgeCases(count: int)
    ensures BadgeText(count).Some? <==> count > 0
    ensures count > 99 ==> BadgeText(count) == Some("99+")
    ensures 0 < count <= 99 ==> BadgeText(count) == Some(NatToString(count)) && |BadgeText(count).value| <= 2
  {
    if 0 < count <= 99 {
      if count >= 10 {
        assert NatToString(count / 10) == [DigitChar(count / 10)];
      }
    }
  }

  /** The three dots `getPriorityIcon` draws: red, yellow and green. */
  datatype Icon = Red | Yellow | Green

  /** `getPriorityIcon`. */
  function PriorityIcon(n: Notification): Icon {
    if n.isDue && n.daysOverdue >= 7 then Red
    else if n.isDue then Yellow
    else Green
  }

  /**
   * The icon agrees with `Priority` on red/high and on every reminder not yet due, but
   * a reminder due less than three days ago is yellow while its priority is low.
   */
  lemma IconAgainstPriority(n: Notification)
    ensures PriorityIcon(n) == Red <==> Priority(n) == "high"
    ensures !n.isDue ==> PriorityIcon(n) == Green && Priority(n) == "low"
    ensures n.isDue && 3 <= n.daysOverdue < 7 ==> PriorityIcon(n) == Yellow && Priority(n) == "medium"
    ensures n.isDue && n.daysOverdue < 3 ==> PriorityIcon(n) == Yellow && Priority(n) == "low"
  {
  }

  /** The line under the customer's name in the dropdown. */
  function ItemMessage(n: Notification): string {
    if n.isDue then "\U{A1}" + IntToString(n.daysOverdue) + " d\U{ED}as de retraso!"
    else "En " + IntToString(n.daysUntilDue) + " d\U{ED}as"
  }

  /** The dropdown line is how the full message opens, except for the special wordings of 0 and 1 days. */
  lemma ItemMessageOpensFullMessage(n: Notification)
    ensures n.isDue && n.daysOverdue != 0 && n.daysOverdue != 1 ==> StartsWith(FormatMessage(n), ItemMessage(n))
    ensures !n.isDue && n.daysUntilDue != 1 ==> StartsWith(FormatMessage(n), ItemMessage(n))
  {
    if (n.isDue && n.daysOverdue != 0 && n.daysOverdue != 1) || (!n.isDue && n.daysUntilDue != 1) {
      assert ItemMessage(n) == MessageOpening(n);
      StartsWithAppend3(MessageOpening(n), MessageVerb(n), MessageTail(n));
    }
  }

  class Bell {
    var notificationCount: nat
    var recentNotifications: seq<Notification>
    var showDropdown: bool
    var loading: bool

    constructor()
      ensures notificationCount == 0 && recentNotifications == [] && !showDropdown && loading
    {
      notificationCount := 0;
      recentNotifications := [];
      showDropdown := false;
      loading := true;
    }

    /** `fetchNotifications`, run on mount and on every poll. */
    method FetchNotifications(sales: seq<Sale>, customers: seq<Customer>, today: int)
      requires AllDatesRead(sales)
      modifies this
      ensures notificationCount == PendingCount(sales, customers, today)
      ensures recentNotifications == Recent(sales, customers, today)
      ensures !loading && showDropdown == old(showDropdown)
    {
      loading := true;
      var all := GenerateCustomerNotifications(sales, customers, today);
      var stats := Stats(all);
      var pending := Take(Filter(all, IsPending), 5);
      notificationCount := stats.pending;
      recentNotifications := pending;
      loading := false;
    }

    /** `handleBellClick`: open or close the dropdown. */
    method HandleBellClick()
      modifies this
      ensures showDropdown == !old(showDropdown)
      ensures notificationCount == old(notificationCount) && recentNotifications == old(recentNotifications)
      ensures loading == old(loading)
    {
      showDropdown := !showDropdown;
    }

    /** `handleNotificationClick`: close the dropdown and hand the reminder on. */
    method HandleNotificationClick(n: Notification) returns (passed: Notification)
      modifies this
      ensures passed == n && !showDropdown
      ensures notificationCount == old(notificationCount) && recentNotifications == old(recentNotifications)
      ensures loading == old(loading)
    {
      showDropdown := false;
      passed := n;
    }
  }
}
