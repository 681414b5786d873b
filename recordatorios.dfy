/**
 * The reminders page. The stored statuses (records of the `notifications` collection)
 * are laid over the freshly derived reminder list by notification id; the contact,
 * dismiss and reactivate actions save a status and patch the shown list; the status
 * filters and the calendar's date selection narrow what is listed.
 */
module Recordatorios {
  import opened Wrappers
  import opened Seqs
  import opened Records
  import opened NotificationUtils

  /** A stored status record: the last status saved for a reminder, with its notes. */
  datatype StatusDoc = StatusDoc(notificationId: string, status: string, notes: string)

  /** The notification ids of the stored records, in reading order. */
  function Ids(docs: seq<StatusDoc>): (r: seq<string>)
    ensures |r| == |docs|
  {
    seq(|docs|, i requires 0 <= i < |docs| => docs[i].notificationId)
  }

  /** No two stored records share an id. */
  predicate DistinctIds(docs: seq<StatusDoc>) {
    forall i, j :: 0 <= i < j < |docs| ==> docs[i].notificationId != docs[j].notificationId
  }

  // ---------------------------------------------------------------------------------------
  // The status index and the merge

  /** `existingNotifications`: notification id to status, written record after record. */
  function StatusIndex(docs: seq<StatusDoc>): map<string, string> {
    if docs == [] then map[]
    else
      var d := docs[|docs| - 1];
      StatusIndex(docs[..|docs| - 1])[d.notificationId := d.status]
  }

  /** Filling the index with a loop over the records. */
  method BuildStatusIndex(docs: seq<StatusDoc>) returns (index: map<string, string>)
    ensures index == StatusIndex(docs)
  {
    index := map[];
    var i := 0;
    while i < |docs|
      invariant 0 <= i <= |docs|
      invariant index == StatusIndex(docs[..i])
    {
      assert docs[..i + 1][..i] == docs[..i];
      index := index[docs[i].notificationId := docs[i].status];
      i := i + 1;
    }
    assert docs[..|docs|] == docs;
  }

  /** An id has an entry in the index iff some record carries it. */
  lemma {:induction false} StatusIndexKeys(docs: seq<StatusDoc>, id: string)
    ensures id in StatusIndex(docs) <==> id in Ids(docs)
    decreases |docs|
  {
    if docs != [] {
      var p := docs[..|docs| - 1];
      StatusIndexKeys(p, id);
      assert Ids(docs) == Ids(p) + [docs[|docs| - 1].notificationId];
    }
  }

  /** When several records share an id, the last one read decides the status. */
  lemma {:induction false} StatusIndexLastWins(docs: seq<StatusDoc>, k: int)
    requires 0 <= k < |docs|
    requires forall j :: k < j < |docs| ==> docs[j].notificationId != docs[k].notificationId
    ensures docs[k].notificationId in StatusIndex(docs)
    ensures StatusIndex(docs)[docs[k].notificationId] == docs[k].status
    decreases |docs|
  {
    if k < |docs| - 1 {
      var p := docs[..|docs| - 1];
      assert p[k] == docs[k];
      StatusIndexLastWins(p, k);
    }
  }

  /** With distinct ids, every record's status is the one indexed under its id. */
  lemma IndexOfDistinct(docs: seq<StatusDoc>)
    requires DistinctIds(docs)
    ensures forall i :: 0 <= i < |docs| ==>
              docs[i].notificationId in StatusIndex(docs) && StatusIndex(docs)[docs[i].notificationId] == docs[i].status
  {
    forall i | 0 <= i < |docs|
      ensures docs[i].notificationId in StatusIndex(docs)
      ensures StatusIndex(docs)[docs[i].notificationId] == docs[i].status
    {
      StatusIndexLastWins(docs, i);
    }
  }

  /** The status a reminder shows: the stored one, or `pending` when none or an empty one is stored. */
  function StoredStatus(index: map<string, string>, id: string): (s: string)
    ensures s != ""
    ensures s == "pending" || (id in index && s == index[id])
    ensures id !in index ==> s == "pending"
  {
    if id in index && index[id] != "" then index[id] else "pending"
  }

  /** The merge: every derived reminder, with its status taken from the index. */
  function Merge(notifications: seq<Notification>, index: map<string, string>): (r: seq<Notification>)
    ensures |r| == |notifications|
    ensures forall i :: 0 <= i < |r| ==> r[i].(status := notifications[i].status) == notifications[i]
    ensures forall i :: 0 <= i < |r| ==> r[i].status == StoredStatus(index, notifications[i].notificationId)
  {
    seq(|notifications|, i requires 0 <= i < |notifications| =>
      notifications[i].(status := StoredStatus(index, notifications[i].notificationId)))
  }

  /** A reminder no stored record names shows `pending`. */
  lemma MergedStatusUnsaved(notifications: seq<Notification>, docs: seq<StatusDoc>, i: int)
    requires 0 <= i < |notifications| && notifications[i].notificationId !in Ids(docs)
    ensures Merge(notifications, StatusIndex(docs))[i].status == "pending"
  {
    StatusIndexKeys(docs, notifications[i].notificationId);
  }

  /**
   * A reminder shows the status of the last stored record with its id, unless that
   * status is empty; its notes stay the derived ones.
   */
  lemma MergedStatusSaved(notifications: seq<Notification>, docs: seq<StatusDoc>, i: int, k: int)
    requires 0 <= i < |notifications| && 0 <= k < |docs|
    requires docs[k].notificationId == notifications[i].notificationId && docs[k].status != ""
    requires forall j :: k < j < |docs| ==> docs[j].notificationId != docs[k].notificationId
    ensures Merge(notifications, StatusIndex(docs))[i].status == docs[k].status
    ensures Merge(notifications, StatusIndex(docs))[i].notes == notifications[i].notes
  {
    StatusIndexLastWins(docs, k);
  }

  // ---------------------------------------------------------------------------------------
  // Saving a status

  /** `docs.find(d => d.notificationId === id)`, as the position of that record. */
  function FirstWithId(docs: seq<StatusDoc>, id: string): (r: Option<nat>)
    ensures r.None? <==> id !in Ids(docs)
    ensures r.Some? ==> r.value < |docs| && docs[r.value].notificationId == id
                        && forall j :: 0 <= j < r.value ==> docs[j].notificationId != id
    decreases |docs|
  {
    if docs == [] then None
    else if docs[0].notificationId == id then
      assert Ids(docs)[0] == id;
      Some(0)
    else
      var r := FirstWithId(docs[1..], id);
      assert Ids(docs) == [docs[0].notificationId] + Ids(docs[1..]);
      match r
      case None => None
      case Some(k) => Some(k + 1)
  }

  /** The write of a save: overwrite the first record with the id, or add a new one. */
  function Upsert(docs: seq<StatusDoc>, d: StatusDoc): (r: seq<StatusDoc>)
    ensures d in r
  {
    match FirstWithId(docs, d.notificationId)
    case None => docs + [d]
    case Some(k) =>
      assert docs[k := d][k] == d;
      docs[k := d]
  }

  /** Where a save writes: position `pos` holds the saved record and every other position the old one; the records before it have another id. */
  lemma UpsertShape(docs: seq<StatusDoc>, d: StatusDoc) returns (pos: nat)
    ensures pos <= |docs| && (pos == |docs| <==> d.notificationId !in Ids(docs))
    ensures |Upsert(docs, d)| == if pos == |docs| then |docs| + 1 else |docs|
    ensures Upsert(docs, d)[pos] == d
    ensures forall i :: 0 <= i < |Upsert(docs, d)| && i != pos ==> i < |docs| && Upsert(docs, d)[i] == docs[i]
    ensures forall i :: 0 <= i < pos ==> docs[i].notificationId != d.notificationId
  {
    match FirstWithId(docs, d.notificationId)
    case None =>
      pos := |docs|;
      assert Upsert(docs, d) == docs + [d];
      forall i | 0 <= i < |docs|
        ensures docs[i].notificationId != d.notificationId
      {
        assert Ids(docs)[i] == docs[i].notificationId;
      }
    case Some(k) =>
      pos := k;
  }

  /** With distinct ids, no record but the one at the save's position has the saved id. */
  lemma UpsertShapeDistinct(docs: seq<StatusDoc>, d: StatusDoc) returns (pos: nat)
    requires DistinctIds(docs)
    ensures pos <= |docs| && (pos == |docs| <==> d.notificationId !in Ids(docs))
    ensures |Upsert(docs, d)| == if pos == |docs| then |docs| + 1 else |docs|
    ensures Upsert(docs, d)[pos] == d
    ensures forall i :: 0 <= i < |Upsert(docs, d)| && i != pos ==>
              i < |docs| && Upsert(docs, d)[i] == docs[i] && docs[i].notificationId != d.notificationId
  {
    pos := UpsertShape(docs, d);
    forall i | pos < i < |docs|
      ensures docs[i].notificationId != d.notificationId
    {
      assert docs[pos].notificationId == d.notificationId;
    }
  }

  /** A save updates the record the id already has, or adds exactly one, so ids stay distinct. */
  lemma UpsertKeepsDistinct(docs: seq<StatusDoc>, d: StatusDoc)
    requires DistinctIds(docs)
    ensures |Upsert(docs, d)| == if d.notificationId in Ids(docs) then |docs| else |docs| + 1
    ensures DistinctIds(Upsert(docs, d))
  {
    var r := Upsert(docs, d);
    var pos := UpsertShapeDistinct(docs, d);
    forall i, j | 0 <= i < j < |r|
      ensures r[i].notificationId != r[j].notificationId
    {
      if i != pos && j != pos {
        assert r[i] == docs[i] && r[j] == docs[j];
      }
    }
  }

  /** After a save an id has an entry in the index iff it had one before or is the saved id. */
  lemma UpsertIndexKey(docs: seq<StatusDoc>, d: StatusDoc, x: string)
    ensures x in StatusIndex(Upsert(docs, d)) <==> x in StatusIndex(docs) || x == d.notificationId
  {
    var r := Upsert(docs, d);
    var pos := UpsertShape(docs, d);
    StatusIndexKeys(r, x);
    StatusIndexKeys(docs, x);
    assert Ids(r)[pos] == d.notificationId;
    if x in Ids(docs) && x != d.notificationId {
      var i :| 0 <= i < |docs| && Ids(docs)[i] == x;
      assert Ids(r)[i] == x;
    }
    if x in Ids(r) && x != d.notificationId {
      var i :| 0 <= i < |r| && Ids(r)[i] == x;
      assert Ids(docs)[i] == x;
    }
  }

  /** After a save every other id keeps its status and the saved id has the saved one. */
  lemma UpsertIndexValue(docs: seq<StatusDoc>, d: StatusDoc, x: string)
    requires DistinctIds(docs) && x in StatusIndex(Upsert(docs, d))
    ensures x == d.notificationId ==> StatusIndex(Upsert(docs, d))[x] == d.status
    ensures x != d.notificationId ==> x in StatusIndex(docs) && StatusIndex(Upsert(docs, d))[x] == StatusIndex(docs)[x]
  {
    var r := Upsert(docs, d);
    var pos := UpsertShapeDistinct(docs, d);
    UpsertKeepsDistinct(docs, d);
    IndexOfDistinct(r);
    StatusIndexKeys(r, x);
    var i :| 0 <= i < |r| && Ids(r)[i] == x;
    if i != pos {
      assert r[i] == docs[i];
      IndexOfDistinct(docs);
    }
  }

  /** After a save the index is the old index with the saved status under the saved id. */
  lemma UpsertIndex(docs: seq<StatusDoc>, d: StatusDoc)
    requires DistinctIds(docs)
    ensures StatusIndex(Upsert(docs, d)) == StatusIndex(docs)[d.notificationId := d.status]
  {
    var a := StatusIndex(Upsert(docs, d));
    var b := StatusIndex(docs)[d.notificationId := d.status];
    forall x
      ensures x in a <==> x in b
    {
      UpsertIndexKey(docs, d, x);
    }
    forall x | x in a
      ensures a[x] == b[x]
    {
      UpsertIndexValue(docs, d, x);
    }
    assert a == b;
  }

  /** The local update after a save: status and notes set on the reminders with that id. */
  function Patch(notifications: seq<Notification>, id: string, status: string, notes: string): (r: seq<Notification>)
    ensures |r| == |notifications|
    ensures forall i :: 0 <= i < |r| && notifications[i].notificationId == id ==>
              r[i] == notifications[i].(status := status, notes := notes)
    ensures forall i :: 0 <= i < |r| && notifications[i].notificationId != id ==> r[i] == notifications[i]
  {
    seq(|notifications|, i requires 0 <= i < |notifications| =>
      if notifications[i].notificationId == id then notifications[i].(status := status, notes := notes)
      else notifications[i])
  }

  /**
   * After a save the patched list shows, for every reminder, the status a fresh load would
   * show; the two differ only in notes, which the load never restores.
   */
  lemma PatchAgreesWithReload(derived: seq<Notification>, docs: seq<StatusDoc>, id: string, status: string, notes: string)
    requires DistinctIds(docs) && status != ""
    ensures var patched := Patch(Merge(derived, StatusIndex(docs)), id, status, notes);
            var reloaded := Merge(derived, StatusIndex(Upsert(docs, StatusDoc(id, status, notes))));
            && |patched| == |reloaded|
            && forall i :: 0 <= i < |patched| ==> patched[i].(notes := derived[i].notes) == reloaded[i]
  {
    var saved := StatusDoc(id, status, notes);
    var before := StatusIndex(docs);
    var after := StatusIndex(Upsert(docs, saved));
    UpsertIndex(docs, saved);
    var patched := Patch(Merge(derived, before), id, status, notes);
    var reloaded := Merge(derived, after);
    forall i | 0 <= i < |patched|
      ensures patched[i].(notes := derived[i].notes) == reloaded[i]
    {
      var x := derived[i].notificationId;
      if x == id {
        assert StoredStatus(after, x) == status;
      } else {
        assert StoredStatus(after, x) == StoredStatus(before, x);
      }
    }
  }

  /**
   * Two saves of a fresh reminder that both read the store before either writes both add
   * a record, and the store then holds two records with one id. A later save overwrites
   * the first of them while a load reads the last, so the patched list shows the saved
   * status and a fresh load the older one.
   */
  lemma AsWrittenReloadDisagrees(derived: seq<Notification>, i: int)
    requires 0 <= i < |derived| && derived[i].notificationId == "n"
    ensures var dismissed := StatusDoc("n", "dismissed", "");
            var twice := Upsert([], dismissed) + [dismissed];
            var reactivated := StatusDoc("n", "pending", "");
            && !DistinctIds(twice)
            && Patch(Merge(derived, StatusIndex(twice)), "n", "pending", "")[i].status == "pending"
            && Merge(derived, StatusIndex(Upsert(twice, reactivated)))[i].status == "dismissed"
  {
    var dismissed := StatusDoc("n", "dismissed", "");
    var twice := [dismissed, dismissed];
    assert Upsert([], dismissed) + [dismissed] == twice;
    assert FirstWithId(twice, "n") == Some(0);
    var saved := [StatusDoc("n", "pending", ""), dismissed];
    assert Upsert(twice, StatusDoc("n", "pending", "")) == saved;
    assert saved[..1] == [StatusDoc("n", "pending", "")];
    assert saved[..1][..0] == [];
    assert StatusIndex(saved)["n"] == "dismissed";
  }

  /** The counts a save shows are those of the list before the patch: one dismissal already makes them stale. */
  lemma SavedStatsAreStale(n: Notification)
    requires n.status == "pending"
    ensures Stats([n]).pending == 1
    ensures Stats(Patch([n], n.notificationId, "dismissed", "")).pending == 0
  {
    var p := Patch([n], n.notificationId, "dismissed", "");
    assert p == [n.(status := "dismissed", notes := "")];
    assert Filter(p, IsPending) == [];
    assert Filter([n], IsPending) == [n];
  }

  // ---------------------------------------------------------------------------------------
  // Actions

  /** The buttons a reminder card offers. */
  datatype Action = Contact | Dismiss | Reactivate

  /** The actions offered for a status: none for an unknown one. */
  function Offered(status: string): seq<Action> {
    if status == "pending" then [Contact, Dismiss]
    else if status == "contacted" || status == "dismissed" then [Reactivate]
    else []
  }

  /** The status an action saves. */
  function Target(a: Action): string {
    match a
    case Contact => "contacted"
    case Dismiss => "dismissed"
    case Reactivate => "pending"
  }

  /** The notes an action saves: the typed notes when contacting, the empty default otherwise. */
  function ActionNotes(a: Action, contactNotes: string): (notes: string)
    ensures a != Contact ==> notes == ""
  {
    if a == Contact then contactNotes else ""
  }

  /** Some offered action moves a reminder from status `from` to `to`. */
  predicate Moves(from: string, to: string) {
    exists a :: a in Offered(from) && Target(a) == to
  }

  /**
   * The transitions: pending to contacted or dismissed, and back to pending from either;
   * nothing moves directly between contacted and dismissed.
   */
  lemma Transitions(from: string, to: string)
    ensures Moves(from, to) <==>
      (from == "pending" && (to == "contacted" || to == "dismissed"))
      || ((from == "contacted" || from == "dismissed") && to == "pending")
  {
    if from == "pending" && to == "contacted" {
      assert Contact in Offered(from);
    } else if from == "pending" && to == "dismissed" {
      assert Dismiss in Offered(from);
    } else if (from == "contacted" || from == "dismissed") && to == "pending" {
      assert Reactivate in Offered(from);
    }
  }

  // ---------------------------------------------------------------------------------------
  // Filters

  /** The filters the page names; any other value shows the list unfiltered. */
  predicate KnownFilter(filter: string) {
    filter == "pending" || filter == "overdue" || filter == "upcoming"
    || filter == "contacted" || filter == "dismissed"
  }

  /** Whether a reminder passes a filter. */
  predicate Passes(filter: string, n: Notification) {
    if filter == "pending" then IsPending(n)
    else if filter == "overdue" then IsOverdue(n)
    else if filter == "upcoming" then IsUpcoming(n)
    else if filter == "contacted" then IsContacted(n)
    else if filter == "dismissed" then IsDismissed(n)
    else true
  }

  /** The list a filter narrows: the reminders of the selected date when one is selected. */
  function BaseList(notifications: seq<Notification>, selectedDate: Option<int>, forDate: seq<Notification>): seq<Notification> {
    if selectedDate.Some? then forDate else notifications
  }

  /** `getFilteredNotifications`. */
  function FilteredView(notifications: seq<Notification>, selectedDate: Option<int>,
                        forDate: seq<Notification>, filter: string): (r: seq<Notification>)
    ensures |r| <= |BaseList(notifications, selectedDate, forDate)|
    ensures forall n :: n in r <==> n in BaseList(notifications, selectedDate, forDate) && Passes(filter, n)
    ensures !KnownFilter(filter) ==> r == BaseList(notifications, selectedDate, forDate)
  {
    var base := BaseList(notifications, selectedDate, forDate);
    if filter == "pending" then Filter(base, IsPending)
    else if filter == "overdue" then Filter(base, IsOverdue)
    else if filter == "upcoming" then Filter(base, IsUpcoming)
    else if filter == "contacted" then Filter(base, IsContacted)
    else if filter == "dismissed" then Filter(base, IsDismissed)
    else base
  }

  /** `overdue` and `upcoming` split `pending`: each is `pending` narrowed by due or not due. */
  lemma OverdueUpcomingSplitPending(notifications: seq<Notification>, selectedDate: Option<int>, forDate: seq<Notification>)
    ensures var pending := FilteredView(notifications, selectedDate, forDate, "pending");
      && FilteredView(notifications, selectedDate, forDate, "overdue") == Filter(pending, IsDueNow)
      && FilteredView(notifications, selectedDate, forDate, "upcoming") == Filter(pending, NotDueYet)
      && |FilteredView(notifications, selectedDate, forDate, "overdue")|
         + |FilteredView(notifications, selectedDate, forDate, "upcoming")| == |pending|
  {
    var base := BaseList(notifications, selectedDate, forDate);
    FilterFilter(base, IsPending, IsDueNow, IsOverdue);
    FilterFilter(base, IsPending, NotDueYet, IsUpcoming);
    FilterSplit(Filter(base, IsPending), IsDueNow, NotDueYet);
  }

  // ---------------------------------------------------------------------------------------
  // The page

  class Page {
    var notifications: seq<Notification>
    var stats: NotificationStats
    /** The `notifications` collection, in reading order. */
    var store: seq<StatusDoc>
    var filter: string
    var selectedDate: Option<int>
    var remindersForSelectedDate: seq<Notification>
    var selectedNotification: Option<Notification>
    var showContactModal: bool
    var contactNotes: string

    /**
     * The saved records have distinct ids. The upsert keeps them so as long as saves do
     * not overlap; `AsWrittenReloadDisagrees` shows what overlapping saves leave.
     */
    predicate StoreDistinct()
      reads this
    {
      DistinctIds(store)
    }

    constructor(store: seq<StatusDoc>)
      requires DistinctIds(store)
      ensures StoreDistinct()
      ensures this.store == store
      ensures notifications == [] && stats == Stats([]) && filter == "all"
      ensures selectedDate == None && remindersForSelectedDate == []
      ensures selectedNotification == None && !showContactModal && contactNotes == ""
    {
      this.store := store;
      notifications := [];
      stats := Stats([]);
      filter := "all";
      selectedDate := None;
      remindersForSelectedDate := [];
      selectedNotification := None;
      showContactModal := false;
      contactNotes := "";
    }

    /** `fetchNotifications`: derive the reminders, lay the stored statuses over them, count. */
    method FetchNotifications(sales: seq<Sale>, customers: seq<Customer>, today: int)
      requires AllDatesRead(sales)
      modifies this
      ensures notifications == Merge(Generated(sales, customers, today), StatusIndex(store))
      ensures stats == Stats(notifications)
      ensures store == old(store) && filter == old(filter) && selectedDate == old(selectedDate)
      ensures remindersForSelectedDate == old(remindersForSelectedDate)
      ensures selectedNotification == old(selectedNotification)
      ensures showContactModal == old(showContactModal) && contactNotes == old(contactNotes)
    {
      var index := BuildStatusIndex(store);
      var all := GenerateCustomerNotifications(sales, customers, today);
      notifications := Merge(all, index);
      stats := Stats(notifications);
    }

    /**
     * `saveNotificationStatus`. `writeOk` is whether the store accepted the read and the
     * write; when it did not, nothing changes. The counts are taken from the list as it
     * was before the patch.
     */
    method SaveNotificationStatus(id: string, status: string, notes: string, writeOk: bool)
      requires StoreDistinct()
      modifies this
      ensures StoreDistinct()
      ensures writeOk ==> store == Upsert(old(store), StatusDoc(id, status, notes))
      ensures writeOk ==> StatusIndex(store) == StatusIndex(old(store))[id := status]
      ensures writeOk ==> notifications == Patch(old(notifications), id, status, notes)
      ensures writeOk ==> stats == Stats(old(notifications))
      ensures !writeOk ==> store == old(store) && notifications == old(notifications) && stats == old(stats)
      ensures filter == old(filter) && selectedDate == old(selectedDate)
      ensures remindersForSelectedDate == old(remindersForSelectedDate)
      ensures selectedNotification == old(selectedNotification)
      ensures showContactModal == old(showContactModal) && contactNotes == old(contactNotes)
    {
      if writeOk {
        var saved := StatusDoc(id, status, notes);
        UpsertKeepsDistinct(store, saved);
        UpsertIndex(store, saved);
        store := Upsert(store, saved);
        var before := notifications;
        notifications := Patch(before, id, status, notes);
        stats := Stats(before);
      }
    }

    /** Opening the contact dialog for a reminder (from the list or the calendar). */
    method HandleContactCustomer(n: Notification)
      modifies this
      ensures selectedNotification == Some(n) && contactNotes == "" && showContactModal
      ensures notifications == old(notifications) && stats == old(stats) && store == old(store)
      ensures filter == old(filter) && selectedDate == old(selectedDate)
      ensures remindersForSelectedDate == old(remindersForSelectedDate)
    {
      selectedNotification := Some(n);
      contactNotes := "";
      showContactModal := true;
    }

    /** Typing in the dialog's notes field. */
    method SetContactNotes(notes: string)
      modifies this
      ensures contactNotes == notes
      ensures notifications == old(notifications) && stats == old(stats) && store == old(store)
      ensures filter == old(filter) && selectedDate == old(selectedDate)
      ensures remindersForSelectedDate == old(remindersForSelectedDate)
      ensures selectedNotification == old(selectedNotification) && showContactModal == old(showContactModal)
    {
      contactNotes := notes;
    }

    /** `handleContactSubmit`: save `contacted` with the typed notes, then close the dialog. */
    method HandleContactSubmit(writeOk: bool)
      requires StoreDistinct()
      modifies this
      ensures StoreDistinct()
      ensures old(selectedNotification).None? ==>
                notifications == old(notifications) && store == old(store) && stats == old(stats)
                && selectedNotification == None && showContactModal == old(showContactModal)
                && contactNotes == old(contactNotes)
      ensures old(selectedNotification).Some? && writeOk ==>
                var id := old(selectedNotification).value.notificationId;
                && store == Upsert(old(store), StatusDoc(id, "contacted", old(contactNotes)))
                && notifications == Patch(old(notifications), id, "contacted", old(contactNotes))
                && stats == Stats(old(notifications))
      ensures old(selectedNotification).Some? && !writeOk ==>
                store == old(store) && notifications == old(notifications) && stats == old(stats)
      ensures old(selectedNotification).Some? ==> selectedNotification == None && !showContactModal && contactNotes == ""
      ensures filter == old(filter) && selectedDate == old(selectedDate)
      ensures remindersForSelectedDate == old(remindersForSelectedDate)
    {
      if selectedNotification.Some? {
        // The source closes the dialog after the save; the save reads none of its fields,
        // and catches its own errors, so the final state is the same.
        var id := selectedNotification.value.notificationId;
        var notes := ActionNotes(Contact, contactNotes);
        showContactModal := false;
        selectedNotification := None;
        contactNotes := "";
        SaveNotificationStatus(id, Target(Contact), notes, writeOk);
      }
    }

    /** `handleDismiss`: save `dismissed` with empty notes. */
    method HandleDismiss(id: string, writeOk: bool)
      requires StoreDistinct()
      modifies this
      ensures StoreDistinct()
      ensures writeOk ==> store == Upsert(old(store), StatusDoc(id, "dismissed", ""))
      ensures writeOk ==> notifications == Patch(old(notifications), id, "dismissed", "")
      ensures writeOk ==> stats == Stats(old(notifications))
      ensures !writeOk ==> store == old(store) && notifications == old(notifications) && stats == old(stats)
      ensures filter == old(filter) && selectedDate == old(selectedDate)
      ensures remindersForSelectedDate == old(remindersForSelectedDate)
      ensures selectedNotification == old(selectedNotification)
      ensures showContactModal == old(showContactModal) && contactNotes == old(contactNotes)
    {
      SaveNotificationStatus(id, Target(Dismiss), ActionNotes(Dismiss, contactNotes), writeOk);
    }

    /** `handleReset`: save `pending` with empty notes. */
    method HandleReset(id: string, writeOk: bool)
      requires StoreDistinct()
      modifies this
      ensures StoreDistinct()
      ensures writeOk ==> store == Upsert(old(store), StatusDoc(id, "pending", ""))
      ensures writeOk ==> notifications == Patch(old(notifications), id, "pending", "")
      ensures writeOk ==> stats == Stats(old(notifications))
      ensures !writeOk ==> store == old(store) && notifications == old(notifications) && stats == old(stats)
      ensures filter == old(filter) && selectedDate == old(selectedDate)
      ensures remindersForSelectedDate == old(remindersForSelectedDate)
      ensures selectedNotification == old(selectedNotification)
      ensures showContactModal == old(showContactModal) && contactNotes == old(contactNotes)
    {
      SaveNotificationStatus(id, Target(Reactivate), ActionNotes(Reactivate, contactNotes), writeOk);
    }

    /** `handleDateClick`: select a date and its reminders, and reset the filter to `all`. */
    method HandleDateClick(date: int, reminders: seq<Notification>)
      modifies this
      ensures selectedDate == Some(date) && remindersForSelectedDate == reminders && filter == "all"
      ensures notifications == old(notifications) && stats == old(stats) && store == old(store)
      ensures selectedNotification == old(selectedNotification)
      ensures showContactModal == old(showContactModal) && contactNotes == old(contactNotes)
    {
      selectedDate := Some(date);
      remindersForSelectedDate := reminders;
      filter := "all";
    }

    /** Choosing a status filter. */
    method SetFilter(f: string)
      modifies this
      ensures filter == f
      ensures notifications == old(notifications) && stats == old(stats) && store == old(store)
      ensures selectedDate == old(selectedDate) && remindersForSelectedDate == old(remindersForSelectedDate)
      ensures selectedNotification == old(selectedNotification)
      ensures showContactModal == old(showContactModal) && contactNotes == old(contactNotes)
    {
      filter := f;
    }

    /** The reminders the page lists. */
    function FilteredNotifications(): seq<Notification>
      reads this
    {
      FilteredView(notifications, selectedDate, remindersForSelectedDate, filter)
    }
  }
}
