# KombuchaApp reminder engine, in Dafny

This project models the core of KombuchaApp, a small sales application for a kombucha
business. Its centre is the **customer re-contact reminder engine**:

- For every customer, the engine takes the newest sale. It waits as many days as that sale has
  kombuchas, then reminds the seller to contact the customer again.
- Due reminders come first, the most overdue first. The pending ones follow, the soonest
  first.
- The engine also counts reminders by status, rates their priority and writes the reminder
  message.

Around the engine the project models the code that uses it and the smaller pure parts of the
application:

- **Recordatorios** (the reminders page). The statuses saved in the `notifications`
  collection are laid over the freshly derived reminders by notification id. The contact,
  dismiss and reactivate actions upsert a status record and patch the shown list. The page
  also has status filters and a date selection.
- **ReminderCalendar**:
  - a 42-day grid that starts on a Sunday;
  - the pending reminders and the sales, grouped by date key;
  - the dot colours and month navigation.
- **NotificationBell**: the pending count, the five most urgent reminders, the badge, the
  icons and the short item text.
- **Ventas** (sales):
  - the item lines of the sale form, and submit validation;
  - local edits and deletes;
  - the month filter and the monthly counts;
  - the per-client summary.
- **Ruta** (routes): the customer-selection toggle, the search, submit validation, the edit
  round trip, the preview and the table comparator.
- **locationConfig**: the city/state restriction test and its lists.
- **AddressAutocomplete**: the post-processing of place predictions (flatten, dedup,
  restriction filter, prefix-first sort) and the state of the field.
- **redirectHandler**: the route list, the static-hosting redirect path cleaning and the
  fallback address.

## How it is modelled

- **Dates** are day numbers: day 0 is 1970-01-01.
  - `Civil` converts between day numbers and civil dates. `DateKeys` writes `YYYY-MM-DD` keys
    and reads them back.
  - The source compares keys as strings (`reminderDateStr <= todayStr`), and the model does
    too. `DateKeys.KeyLeOrder` proves that for four-digit years this is the order of the days.
  - "Today" is a parameter.
- **Sorts.** `Array.prototype.sort` is stable. It is modelled as `Sorting.SortBy`, a stable
  insertion sort on values, with lemmas that its result is sorted, a permutation of its input,
  and stable.
- **Loops.** Where the source fills a dictionary or an array step by step, the model is a
  `method` with a loop, proved against a function. These loops are:
  - the customer grouping and the notification loop of `generateCustomerNotifications`;
  - the overlay index of `fetchNotifications`;
  - the calendar grid and the two grouping effects;
  - the client-summary loop.
- **Components** whose state changes are classes: `Recordatorios.Page`,
  `ReminderCalendar.Calendar`, `NotificationBell.Bell`, `AddressAutocomplete.Autocomplete` and
  `RedirectHandler.Browser`. Each React state variable that the modelled logic reads or
  writes is a field; the others are listed under "Left out".
- **Store and services.** Firestore reads become sequence parameters. A write that may fail is
  a `writeOk` flag. The places service's answers are a parameter, one list per search request.
- **Quantities.** `cantidad` is an `Option<int>`: the value `parseInt` reads, or `None` where
  it reads `NaN`.

## Model

| member | source | states |
|---|---|---|
| NotificationUtils.TotalKombuchasConcat | src/utils/notificationUtils.js:14-16 | the unit total of two item lists is the sum of their totals; negative quantities count |
| NotificationUtils.UnreadableQuantityAddsNothing | src/utils/notificationUtils.js:14-16 | an item whose quantity does not parse adds 0 to the total |
| NotificationUtils.CalculateReminder | src/utils/notificationUtils.js:8-20 | no reminder exactly when the date is empty, the items are missing or the units sum to 0 |
| NotificationUtils.ReminderSchedule | src/utils/notificationUtils.js:22-52 | the reminder falls due `daysToWait == totalKombuchas` days after the sale; due iff that day is not after today; days overdue when due, days left (at least 1) otherwise; the sale date read back is the due day minus the wait |
| NotificationUtils.Abs | src/utils/notificationUtils.js:37-39 | `Math.abs`: the result is the argument or its negation |
| NotificationUtils.Clients | src/utils/notificationUtils.js:65-71 | the customer ids of the grouping have no repeats |
| NotificationUtils.SalesOf | src/utils/notificationUtils.js:65-71 | a customer's group holds only that customer's sales from the list |
| NotificationUtils.ClientsHaveSales | src/utils/notificationUtils.js:65-71 | a customer id is grouped iff it has at least one sale |
| NotificationUtils.GroupSalesByCustomer | src/utils/notificationUtils.js:64-71 | the `forEach` loop builds, for every customer id in order of first sale, exactly that customer's sales |
| NotificationUtils.Latest | src/utils/notificationUtils.js:75-79 | the newest sale is one of the customer's sales |
| NotificationUtils.LatestIsNewest | src/utils/notificationUtils.js:75-79 | no sale of the customer is newer than the chosen one |
| NotificationUtils.LatestIsFirstNewest | src/utils/notificationUtils.js:75-79 | ties go to the earliest sale in input order |
| NotificationUtils.LatestIsSortHead | src/utils/notificationUtils.js:75-79 | the chosen sale is the head of the stable sort newest-first |
| Records.FindCustomer | src/utils/notificationUtils.js:84 | none iff no customer has the id; otherwise the first customer record with that id |
| NotificationUtils.Emit | src/utils/notificationUtils.js:86-94 | a dropped customer adds nothing; a kept one adds exactly its notification |
| NotificationUtils.UrgentIsTotalPreorder | src/utils/notificationUtils.js:97-105 | the urgency comparator is total and transitive |
| NotificationUtils.GenerateCustomerNotifications | src/utils/notificationUtils.js:61-106 | the loops and the sort return exactly the generated list, the one the lemmas below describe |
| NotificationUtils.NotificationFromLatestSale | src/utils/notificationUtils.js:74-94 | a customer's notification comes from that customer's newest sale, is pending without notes, and has id `customerId_saleId_reminderDate` |
| NotificationUtils.NotificationSchedule | src/utils/notificationUtils.js:80-91 | the notification waits as many days as the newest sale has units (never 0) and its date key is the sale day plus the wait |
| NotificationUtils.NotificationCustomer | src/utils/notificationUtils.js:84-91 | the notification carries the name, phone and address of the first customer record with the id |
| NotificationUtils.LatestOfCustomer | src/utils/notificationUtils.js:74-82 | the newest sale belongs to the customer, and no other sale of the customer is newer |
| NotificationUtils.SalesOfComplete | src/utils/notificationUtils.js:65-71 | every sale of a customer is in that customer's group |
| NotificationUtils.NotificationForCustomerId | src/utils/notificationUtils.js:88-91 | a notification is keyed by the customer it was made for |
| NotificationUtils.NotifierKeyed | src/utils/notificationUtils.js:74-95 | every notification the per-customer step makes carries its customer's id |
| NotificationUtils.CollectMembers | src/utils/notificationUtils.js:73-95 | the collected list holds exactly the notifications of the listed customers |
| NotificationUtils.CollectCount | src/utils/notificationUtils.js:73-95 | with distinct ids each customer appears at most once, and an unlisted one never |
| NotificationUtils.GeneratedMembers | src/utils/notificationUtils.js:61-106 | a notification is generated iff it is the one its customer's newest sale gives |
| NotificationUtils.GeneratedOnePerCustomer | src/utils/notificationUtils.js:61-106 | no customer id appears twice in the generated list |
| NotificationUtils.GeneratedOrder | src/utils/notificationUtils.js:97-105 | due entries come before not-due ones; due ones by days overdue descending; not-due ones by days left ascending |
| NotificationUtils.GeneratedPendingWithoutNotes | src/utils/notificationUtils.js:88-91 | every generated notification is pending and has empty notes |
| NotificationUtils.GeneratedPriorityOrder | src/utils/notificationUtils.js:97-105 | in the generated order, priority never rises further down |
| NotificationUtils.FilterByStatus | src/utils/notificationUtils.js:114-116 | exactly the entries with that status, and no more entries than before |
| NotificationUtils.StatsPendingSplit | src/utils/notificationUtils.js:123-136 | overdue + upcoming == pending; overdue is pending narrowed to due, upcoming is pending narrowed to not due |
| NotificationUtils.StatsStatusSplit | src/utils/notificationUtils.js:123-136 | pending + contacted + dismissed == total when every status is one of the three |
| NotificationUtils.Priority | src/utils/notificationUtils.js:168-180 | the priority is high, medium or low |
| NotificationUtils.PriorityDependsOnDueAndOverdue | src/utils/notificationUtils.js:168-180 | the priority depends only on being due and on the days overdue |
| NotificationUtils.PriorityMonotone | src/utils/notificationUtils.js:168-180 | among due entries, more days overdue never lowers the priority |
| NotificationUtils.MessageMentionsCustomer | src/utils/notificationUtils.js:143-161 | every message names the customer and says "N kombuchas" |
| NotificationUtils.DueMessageOpening | src/utils/notificationUtils.js:145-152 | a due message opens "¡Hoy es el día!" at 0 days, "¡Ayer era el día!" at 1 day, "¡n días de retraso!" otherwise |
| NotificationUtils.UpcomingMessageOpening | src/utils/notificationUtils.js:153-160 | a not-due message opens "Mañana contacta" at 1 day and "En n días" otherwise |
| DateKeys.ParseDateKey | src/utils/notificationUtils.js:26-30 | for a day in the years 0 to 9999, reading back its `YYYY-MM-DD` key gives the day |
| DateKeys.KeyLeOrder | src/utils/notificationUtils.js:34 | for four-digit years the string order of keys is the order of the days |
| DateKeys.DateKeyInjective | src/components/ReminderCalendar/ReminderCalendar.jsx:92-94 | different days in the years 0 to 9999 have different keys |
| Sorting.SortSorted | src/utils/notificationUtils.js:97-105 | the sort's output is ordered by a total preorder |
| Sorting.SortPermutation | src/utils/notificationUtils.js:97-105 | the sort's output is a permutation of its input |
| Sorting.SortStable | src/utils/notificationUtils.js:75-79 | equivalent elements keep their input order |
| Recordatorios.Ids | src/pages/Recordatorios/Recordatorios.jsx:53-57 | one id per stored record |
| Recordatorios.BuildStatusIndex | src/pages/Recordatorios/Recordatorios.jsx:53-57 | the `forEach` loop builds the index record after record |
| Recordatorios.StatusIndexKeys | src/pages/Recordatorios/Recordatorios.jsx:53-57 | an id is indexed iff some stored record carries it |
| Recordatorios.StatusIndexLastWins | src/pages/Recordatorios/Recordatorios.jsx:54-57 | when records share an id, the last one read gives the status |
| Recordatorios.IndexOfDistinct | src/pages/Recordatorios/Recordatorios.jsx:53-57 | with distinct ids each record's status is the indexed one |
| Recordatorios.StoredStatus | src/pages/Recordatorios/Recordatorios.jsx:63-66 | the stored status, or "pending" when none or an empty one is stored; never empty |
| Recordatorios.Merge | src/pages/Recordatorios/Recordatorios.jsx:63-66 | every derived reminder is kept in place with all its fields except the status, which comes from the index |
| Recordatorios.MergedStatusUnsaved | src/pages/Recordatorios/Recordatorios.jsx:63-66 | a reminder that no record names shows "pending" |
| Recordatorios.MergedStatusSaved | src/pages/Recordatorios/Recordatorios.jsx:63-66 | a reminder shows the status of the last record with its id; its notes stay the derived ones |
| Recordatorios.FirstWithId | src/pages/Recordatorios/Recordatorios.jsx:94-97 | none iff no record has the id; otherwise a record with that id |
| Recordatorios.Upsert | src/pages/Recordatorios/Recordatorios.jsx:99-103 | the saved record is in the store afterwards |
| Recordatorios.UpsertShape | src/pages/Recordatorios/Recordatorios.jsx:94-103 | for any store: one position holds the saved record; it is new iff the id was absent; every other record is unchanged; the records before it have another id |
| Recordatorios.UpsertShapeDistinct | src/pages/Recordatorios/Recordatorios.jsx:94-103 | when the stored ids are distinct: besides, no record other than the saved one has the saved id |
| Recordatorios.UpsertKeepsDistinct | src/pages/Recordatorios/Recordatorios.jsx:94-103 | the store grows by one exactly when the id is new, and ids stay distinct |
| Recordatorios.UpsertIndexKey | src/pages/Recordatorios/Recordatorios.jsx:94-103 | for any store: after a save, an id is indexed iff it was before or is the saved one |
| Recordatorios.UpsertIndexValue | src/pages/Recordatorios/Recordatorios.jsx:94-103 | when the stored ids are distinct: after a save, the saved id has the saved status and every other id keeps its status |
| Recordatorios.UpsertIndex | src/pages/Recordatorios/Recordatorios.jsx:94-103 | when the stored ids are distinct: the index after a save is the old index updated at the saved id |
| Recordatorios.Patch | src/pages/Recordatorios/Recordatorios.jsx:106-110 | same length; reminders with the id get the status and notes; all others are unchanged |
| Recordatorios.PatchAgreesWithReload | src/pages/Recordatorios/Recordatorios.jsx:83-116 | when the stored ids are distinct: after a save, the patched list shows the statuses a fresh load would show; the two lists differ only in notes |
| Recordatorios.AsWrittenReloadDisagrees | src/pages/Recordatorios/Recordatorios.jsx:94-103 | two saves that both find no record leave two records with one id; a later save then patches the list to "pending" while a fresh load shows "dismissed" |
| Recordatorios.SavedStatsAreStale | src/pages/Recordatorios/Recordatorios.jsx:112 | the counts shown after a save are those of the unpatched list: one dismissal leaves "pending" at 1 |
| Recordatorios.ActionNotes | src/pages/Recordatorios/Recordatorios.jsx:124-139 | dismiss and reactivate save empty notes |
| Recordatorios.Transitions | src/pages/Recordatorios/Recordatorios.jsx:403-434 | the offered moves are pending→contacted, pending→dismissed, contacted→pending and dismissed→pending, and nothing else |
| Recordatorios.FilteredView | src/pages/Recordatorios/Recordatorios.jsx:163-187 | exactly the entries of the base list (the selected date's reminders when a date is selected) that pass the filter; an unknown filter leaves the list as it is |
| Recordatorios.OverdueUpcomingSplitPending | src/pages/Recordatorios/Recordatorios.jsx:173-179 | the "overdue" and "upcoming" views are the "pending" view narrowed to due and to not due |
| Recordatorios.Page.constructor | src/pages/Recordatorios/Recordatorios.jsx:15-24 | the initial state: no reminders, filter "all", no date, dialog closed; the store's ids are distinct |
| Recordatorios.Page.FetchNotifications | src/pages/Recordatorios/Recordatorios.jsx:31-77 | the shown list is the generated list with the stored statuses merged over it, and the counts are those of that list |
| Recordatorios.Page.SaveNotificationStatus | src/pages/Recordatorios/Recordatorios.jsx:83-116 | on success, the store is upserted, the index a load would build gains the saved status under the id, the list is patched and the counts are taken from the old list; on failure nothing changes; distinct ids stay distinct |
| Recordatorios.Page.HandleContactCustomer | src/pages/Recordatorios/Recordatorios.jsx:118-122 | selects the reminder, clears the notes and opens the dialog |
| Recordatorios.Page.SetContactNotes | src/pages/Recordatorios/Recordatorios.jsx:456-459 | the typed text becomes the dialog's notes |
| Recordatorios.Page.HandleContactSubmit | src/pages/Recordatorios/Recordatorios.jsx:124-131 | with a selected reminder, saves "contacted" with the typed notes (counts from the old list on success, unchanged on failure) and closes the dialog; without one, nothing changes |
| Recordatorios.Page.HandleDismiss | src/pages/Recordatorios/Recordatorios.jsx:133-135 | saves "dismissed" with empty notes, counts from the old list on success and unchanged on failure; the dialog, date selection and filter are untouched |
| Recordatorios.Page.HandleReset | src/pages/Recordatorios/Recordatorios.jsx:137-139 | saves "pending" with empty notes, counts from the old list on success and unchanged on failure; the dialog, date selection and filter are untouched |
| Recordatorios.Page.HandleDateClick | src/pages/Recordatorios/Recordatorios.jsx:141-145 | selects the date and its reminders, and resets the filter to "all" |
| Recordatorios.Page.SetFilter | src/pages/Recordatorios/Recordatorios.jsx:285-315 | a filter button sets the filter and changes nothing else |
| ReminderCalendar.GridStart | src/components/ReminderCalendar/ReminderCalendar.jsx:17-20 | the grid starts on the Sunday on or before the first of the month |
| ReminderCalendar.CalendarDays | src/components/ReminderCalendar/ReminderCalendar.jsx:13-31 | 42 consecutive days from that Sunday, holding every day of the month |
| ReminderCalendar.PushGroups | src/components/ReminderCalendar/ReminderCalendar.jsx:35-45 | pushing the next element onto a grouping of a prefix groups the longer prefix |
| ReminderCalendar.GroupByKey | src/components/ReminderCalendar/ReminderCalendar.jsx:35-62 | every key's group is the keyed elements of that key, in input order; there are no empty groups |
| ReminderCalendar.UnkeyedInNoGroup | src/components/ReminderCalendar/ReminderCalendar.jsx:37-41 | an element without a key is in no group |
| ReminderCalendar.GroupReminders | src/components/ReminderCalendar/ReminderCalendar.jsx:34-46 | each date's group is that date's pending reminders, in order; every pending reminder is in the group of its date |
| ReminderCalendar.ReminderKeyIsPendingOn | src/components/ReminderCalendar/ReminderCalendar.jsx:37-41 | keying by reminder date picks exactly the pending reminders of each date |
| ReminderCalendar.SaleKey | src/components/ReminderCalendar/ReminderCalendar.jsx:53-54 | the key is the whole text of the date before its first `T` (`split('T')[0]`); there is no key exactly when the date is empty or starts with `T` |
| ReminderCalendar.GroupSales | src/components/ReminderCalendar/ReminderCalendar.jsx:49-63 | sales are grouped by the date part before `T`; sales without a date are in no group |
| ReminderCalendar.GroupOfIsPendingOn | src/components/ReminderCalendar/ReminderCalendar.jsx:112-116 | the group looked up for a key is that key's pending reminders, or none |
| ReminderCalendar.DateClickPassesDay | src/components/ReminderCalendar/ReminderCalendar.jsx:112-116 | a click on a day passes exactly that day's pending reminders, in order |
| ReminderCalendar.PriorityColorCases | src/components/ReminderCalendar/ReminderCalendar.jsx:96-108 | red from 7 days overdue, orange from 3, green otherwise; never the default grey |
| ReminderCalendar.SaleColorCompleted | src/components/ReminderCalendar/ReminderCalendar.jsx:206 | a sale is blue iff its state is one of the three spellings of completed, purple otherwise |
| ReminderCalendar.Calendar.constructor | src/components/ReminderCalendar/ReminderCalendar.jsx:7-10 | opens on the month of today, with no days and no groups |
| ReminderCalendar.Calendar.RefreshDays | src/components/ReminderCalendar/ReminderCalendar.jsx:13-31 | the grid becomes the 42 days from the Sunday before the month, covering the month |
| ReminderCalendar.Calendar.RefreshReminders | src/components/ReminderCalendar/ReminderCalendar.jsx:34-46 | the reminder groups become the grouping of the new reminders |
| ReminderCalendar.Calendar.RefreshSales | src/components/ReminderCalendar/ReminderCalendar.jsx:49-63 | the sale groups become the grouping of the new sales |
| ReminderCalendar.Calendar.NavigateMonth | src/components/ReminderCalendar/ReminderCalendar.jsx:67-73 | the displayed month moves by exactly `direction` months |
| ReminderCalendar.NavigateBackAndForth | src/components/ReminderCalendar/ReminderCalendar.jsx:67-73 | one month forward and one back (or back and forward) shows the same month |
| NotificationBell.BellShowsEverything | src/components/NotificationBell/NotificationBell.jsx:18-43 | the count is the number generated (every one is pending) and the dropdown is the first five in urgency order |
| NotificationBell.BadgeCases | src/components/NotificationBell/NotificationBell.jsx:96-99 | the badge shows iff the count is positive; "99+" above 99, the number otherwise |
| NotificationBell.IconAgainstPriority | src/components/NotificationBell/NotificationBell.jsx:71-79 | red iff priority is high; a due entry less than 3 days overdue is yellow although its priority is low |
| NotificationBell.ItemMessageOpensFullMessage | src/components/NotificationBell/NotificationBell.jsx:128-131 | the item text is how the full message opens, except for the special 0- and 1-day wordings |
| NotificationBell.Bell.constructor | src/components/NotificationBell/NotificationBell.jsx:8-11 | count 0, no reminders, dropdown closed, loading |
| NotificationBell.Bell.FetchNotifications | src/components/NotificationBell/NotificationBell.jsx:13-49 | the count and the dropdown list become those of the generated list, and loading ends |
| NotificationBell.Bell.HandleBellClick | src/components/NotificationBell/NotificationBell.jsx:60-62 | the dropdown toggles |
| NotificationBell.Bell.HandleNotificationClick | src/components/NotificationBell/NotificationBell.jsx:64-69 | the dropdown closes and the reminder is handed on |
| Ventas.AddItem | src/pages/Ventas/Ventas.jsx:145-150 | exactly one default line is appended; the others are unchanged |
| Ventas.WithoutIndex | src/pages/Ventas/Ventas.jsx:155 | one line fewer for an index in range; otherwise the list is unchanged |
| Ventas.RemoveItemKeepsOthers | src/pages/Ventas/Ventas.jsx:153-158 | never empty afterwards; the other lines keep their order; removing the last line leaves one default line |
| Ventas.AddThenRemove | src/pages/Ventas/Ventas.jsx:145-158 | adding a line and removing it gives back a non-empty list |
| Ventas.ChangeItemTargetsOneField | src/pages/Ventas/Ventas.jsx:116-127 | only the targeted field of the targeted line changes; choosing a product fills an empty price with the product's price |
| Ventas.EnteredPriceIsKept | src/pages/Ventas/Ventas.jsx:121-124 | a price already entered is never overwritten |
| Ventas.ValidateCases | src/pages/Ventas/Ventas.jsx:183-198 | rejected iff the date or customer is blank or no line is valid; when accepted, only the valid lines are stored |
| Ventas.EditSale | src/pages/Ventas/Ventas.jsx:207 | the sale with the id gets the new data and all others are unchanged |
| Ventas.DeleteSale | src/pages/Ventas/Ventas.jsx:267 | exactly the sales with another id remain |
| Ventas.EditKeepsIds | src/pages/Ventas/Ventas.jsx:207 | an edit keeps every id in place and changes no other sale |
| Ventas.DeleteAfterEdit | src/pages/Ventas/Ventas.jsx:207-267 | deleting an edited sale leaves what deleting it unedited leaves |
| Ventas.FilteredVentas | src/pages/Ventas/Ventas.jsx:316-320 | every sale for no month; otherwise exactly the sales whose first seven characters are the month |
| Ventas.MonthIsPrefix | src/pages/Ventas/Ventas.jsx:318 | for a seven-character month, the test is "the date starts with it" |
| Ventas.MonthlyCountsBounded | src/pages/Ventas/Ventas.jsx:323-341 | each status count, and their sum, is at most the number of sales |
| Ventas.AddCountSum | src/pages/Ventas/Ventas.jsx:372-376 | adding to a product count adds the same amount to the sum of the counts |
| Ventas.AddCountOf | src/pages/Ventas/Ventas.jsx:372-376 | adding to one product's count changes that count by the amount and no other count |
| Ventas.AddCountKeepsDistinct | src/pages/Ventas/Ventas.jsx:372-376 | adding to a count keeps every product name listed once, and lists no name but the old ones and the added one |
| Ventas.ItemCountsOf | src/pages/Ventas/Ventas.jsx:367-377 | over a sale's items, each product's count grows by the units of the items naming that product |
| Ventas.ItemCountsSum | src/pages/Ventas/Ventas.jsx:367-377 | over a sale's items, the sum of the counts grows by the sale's units |
| Ventas.UnitsWhereIsFilteredTotal | src/pages/Ventas/Ventas.jsx:367-377 | the units of the items of one product are the total units of the items `filter` keeps for that product |
| Ventas.CountsOfMeaning | src/pages/Ventas/Ventas.jsx:349-377 | a client's per-product counts list each product name once; the count of a name is the units of the items naming it over the sales not cancelled; the counts add up to the client's purchases |
| Ventas.CancelledAddNoCounts | src/pages/Ventas/Ventas.jsx:364-365 | cancelled sales add nothing to the per-product counts |
| Ventas.PurchasesAppend | src/pages/Ventas/Ventas.jsx:364-377 | the purchases of two sale lists add up |
| Ventas.CancelledAddNothing | src/pages/Ventas/Ventas.jsx:364-365 | cancelled sales add nothing to the purchases |
| Ventas.LastPurchaseIsLatest | src/pages/Ventas/Ventas.jsx:393-396 | the last purchase is the greatest sale date in string order, or "" for none |
| Ventas.MorePurchasesIsTotalPreorder | src/pages/Ventas/Ventas.jsx:399 | "more purchases first" is a total preorder |
| Ventas.AddSale | src/pages/Ventas/Ventas.jsx:364-396 | one sale adds its counted units to the total, adds each item's units to its product name's count (nothing for a cancelled sale or one without items), and updates the last purchase |
| Ventas.EntryAfterSale | src/pages/Ventas/Ventas.jsx:349-397 | processing one more sale of a client gives the row of the longer sale list: name, total, per-product counts and last purchase |
| Ventas.SummaryUpdate | src/pages/Ventas/Ventas.jsx:349-397 | the rows of the other clients, per-product counts included, stay those of their sales |
| Ventas.SummaryStep | src/pages/Ventas/Ventas.jsx:349-397 | one turn of the loop keeps every row, per-product counts included, that of its client's sales in the longer prefix |
| Ventas.CollectSummary | src/pages/Ventas/Ventas.jsx:347-397 | the loop builds the row of every client (name, total, per-product counts, last purchase), clients in order of first sale |
| Ventas.RowsInOrder | src/pages/Ventas/Ventas.jsx:399 | one row per listed client, in that order |
| Ventas.RowsInOrderCorrect | src/pages/Ventas/Ventas.jsx:347-399 | before the sort: one row per client, per-product counts included, also for clients with only cancelled sales |
| Ventas.TiesAreEqualTotals | src/pages/Ventas/Ventas.jsx:399 | the rows the comparator ties with a row are exactly those with the same purchases |
| Ventas.RowsWithTotal | src/pages/Ventas/Ventas.jsx:399 | the clients with a given purchase total appear among the unsorted rows in order of first sale |
| Ventas.SortedRows | src/pages/Ventas/Ventas.jsx:399 | the sorted rows are the clients' rows, one per client, with more purchases first, and clients with equal purchases in order of first sale |
| Ventas.GetClientSummary | src/pages/Ventas/Ventas.jsx:345-400 | one row per client id with its name, purchases, per-product counts and last purchase; no client twice; sorted by purchases descending, equal purchases in order of first sale |
| Rutas.ToggleFlips | src/pages/Rutas/Ruta.jsx:88-96 | exactly the toggled id changes membership |
| Rutas.ToggleKeepsOthers | src/pages/Rutas/Ruta.jsx:88-96 | the other ids keep their order; a new id goes last |
| Rutas.ToggleNoDup | src/pages/Rutas/Ruta.jsx:88-96 | a selection without repeats stays without repeats |
| Rutas.ToggleTwice | src/pages/Rutas/Ruta.jsx:88-96 | toggling an absent id twice gives the selection back |
| Rutas.FilteredClientes | src/pages/Rutas/Ruta.jsx:99-102 | exactly the customers whose lowercased name or address contains the lowercased term |
| Rutas.SearchCases | src/pages/Rutas/Ruta.jsx:99-102 | an empty term shows every customer; the term's case does not matter |
| Rutas.ValidateRouteCases | src/pages/Rutas/Ruta.jsx:107-128 | a blank name is reported first, then an empty selection; otherwise the selection is stored in order |
| Rutas.EditRoundTrip | src/pages/Rutas/Ruta.jsx:124-157 | editing a saved route loads back its name, notes and selection |
| Rutas.PreviewSteps | src/pages/Rutas/Ruta.jsx:446-450 | the names of the first min(n, 3) customers, in order |
| Rutas.MoreLabelCounts | src/pages/Rutas/Ruta.jsx:451-453 | the "+k más" label shows iff there are more than 3 customers, and counts the hidden ones |
| Rutas.AsWrittenInconsistent | src/pages/Rutas/Ruta.jsx:217-231 | on equal sort values the comparator as written puts each route before the other |
| Rutas.AsWrittenSameName | src/pages/Rutas/Ruta.jsx:217-231 | "Centro" and "centro" are such a pair |
| Rutas.CompareAgreesOffTies | src/pages/Rutas/Ruta.jsx:217-231 | the corrected comparator agrees with the written one except on ties, and is antisymmetric |
| Rutas.RouteLeIsTotalPreorder | src/pages/Rutas/Ruta.jsx:217-231 | the corrected order is a total preorder |
| Rutas.SortedRutasOrder | src/pages/Rutas/Ruta.jsx:217-231 | the sorted table is a permutation, ordered by the lowercased field in the chosen direction, and stable |
| LocationConfig.GetRestrictedCities | src/config/locationConfig.js:5-32 | the four configured cities |
| LocationConfig.GetRestrictedStates | src/config/locationConfig.js:14-35 | the configured state |
| LocationConfig.NoRestrictionsAllowAll | src/config/locationConfig.js:42-44 | with no restrictions every address is allowed |
| LocationConfig.AllowedIff | src/config/locationConfig.js:38-58 | allowed iff each non-empty list has an entry whose lowercase the lowercased address contains |
| LocationConfig.ConfiguredMeansPuebla | src/config/locationConfig.js:5-58 | with the shipped lists, allowed iff the lowercased address contains "puebla" |
| LocationConfig.AllowedKeepsUnderAppend | src/config/locationConfig.js:47-58 | appending text to an allowed address keeps it allowed |
| AddressAutocomplete.Flatten | src/components/AddressAutocomplete/AddressAutocomplete.jsx:88 | exactly the predictions of some search |
| AddressAutocomplete.FirstIndex | src/components/AddressAutocomplete/AddressAutocomplete.jsx:90 | the first position with the place id, or none when no position has it |
| AddressAutocomplete.DedupMembers | src/components/AddressAutocomplete/AddressAutocomplete.jsx:89-91 | kept are exactly the first predictions of their places |
| AddressAutocomplete.DedupDistinct | src/components/AddressAutocomplete/AddressAutocomplete.jsx:89-91 | no place is kept twice |
| AddressAutocomplete.DedupCovers | src/components/AddressAutocomplete/AddressAutocomplete.jsx:89-91 | every place keeps one prediction, its first |
| AddressAutocomplete.DedupKeepsOrder | src/components/AddressAutocomplete/AddressAutocomplete.jsx:89-91 | order is kept: the kept predictions of a prefix come first |
| AddressAutocomplete.DedupOfDistinct | src/components/AddressAutocomplete/AddressAutocomplete.jsx:89-91 | a list without repeated places is left as it is |
| AddressAutocomplete.Restrict | src/components/AddressAutocomplete/AddressAutocomplete.jsx:94-117 | a subset: exactly the predictions that pass the city and state tests (every one when both lists are empty) |
| AddressAutocomplete.AllowedDescriptionPasses | src/components/AddressAutocomplete/AddressAutocomplete.jsx:96-117 | a prediction whose description the location test allows passes the filter |
| AddressAutocomplete.SuggestionLeIsTotalPreorder | src/components/AddressAutocomplete/AddressAutocomplete.jsx:120-132 | the prefix-first order is a total preorder |
| AddressAutocomplete.SortedSuggestionsOrder | src/components/AddressAutocomplete/AddressAutocomplete.jsx:120-132 | a permutation; prefix matches come first, then main text in order |
| AddressAutocomplete.SuggestionsFacts | src/components/AddressAutocomplete/AddressAutocomplete.jsx:86-132 | the suggestions come from the searches, pass the restrictions, repeat no place and are prefix-first |
| AddressAutocomplete.PassingPlacesAreSuggested | src/components/AddressAutocomplete/AddressAutocomplete.jsx:86-132 | a place whose predictions all pass is suggested |
| AddressAutocomplete.Autocomplete.constructor | src/components/AddressAutocomplete/AddressAutocomplete.jsx:13-16 | no suggestions, list hidden, the field shows the value or "" |
| AddressAutocomplete.Autocomplete.SyncValue | src/components/AddressAutocomplete/AddressAutocomplete.jsx:38-40 | the field takes the new value, or "" |
| AddressAutocomplete.Autocomplete.GetAddressSuggestions | src/components/AddressAutocomplete/AddressAutocomplete.jsx:42-137 | input under 2 characters or no service: suggestions cleared and hidden; otherwise the pipeline's result, shown iff non-empty |
| AddressAutocomplete.Autocomplete.HandleInputChange | src/components/AddressAutocomplete/AddressAutocomplete.jsx:140-143 | the field takes the text and hands it on as the address |
| AddressAutocomplete.Autocomplete.HandleSuggestionClick | src/components/AddressAutocomplete/AddressAutocomplete.jsx:158-161 | the field takes the description and the list closes and empties |
| AddressAutocomplete.Autocomplete.HandleInputBlur | src/components/AddressAutocomplete/AddressAutocomplete.jsx:187-192 | the list is hidden |
| AddressAutocomplete.Autocomplete.HandleInputFocus | src/components/AddressAutocomplete/AddressAutocomplete.jsx:194-198 | a remembered list shows again |
| AddressAutocomplete.Autocomplete.HandleKeyDown | src/components/AddressAutocomplete/AddressAutocomplete.jsx:200-205 | Enter with suggestions picks the first one as a click would; otherwise nothing changes |
| RedirectHandler.ValidRoutesShape | src/utils/redirectHandler.js:15-29 | every route is absolute and only "/" ends in "/" |
| RedirectHandler.FallbackIsNotRoute | src/utils/redirectHandler.js:15-34 | "" and the fallback address are not routes |
| RedirectHandler.Encode | src/utils/redirectHandler.js:5-6 | the folded path has no `&` |
| RedirectHandler.DecodeEncode | src/utils/redirectHandler.js:6 | turning `~and~` back into `&` undoes the folding of a path without `~` |
| RedirectHandler.CleanPathRoundTrip | src/utils/redirectHandler.js:5-6 | a folded path behind `?/`, followed by nothing or an `&`-query, is cleaned back to the path |
| RedirectHandler.RedirectUrlCases | src/utils/redirectHandler.js:4-9 | rewritten iff the query holds `?/`; the new address starts with the pathname and ends with the hash |
| RedirectHandler.Browser.constructor | src/utils/redirectHandler.js:2-12 | the location as given |
| RedirectHandler.Browser.HandleGitHubPagesRedirect | src/utils/redirectHandler.js:2-12 | with `?/` in the query the history entry becomes `pathname + cleanPath + hash`; otherwise nothing changes |
| RedirectHandler.Browser.RedirectToMain | src/utils/redirectHandler.js:32-34 | the browser goes to "/KombuchaApp/KombuchaApp/" |

## Left out

- Firestore I/O (`getDocs`, `addDoc`, `updateDoc`, `deleteDoc`): the collections are input
  sequences. A failed read or write is the `writeOk` flag of the save methods.
- The document order Firestore returns: it is the order of the input sequences.
- Concurrency and timing: `Promise.all`, the bell's five-minute poll, the autocomplete's
  300 ms debounce and 200 ms blur delay, and overlapping saves. Each handler runs alone, and
  the blur is modelled after its delay.
- Recordatorios.Page.constructor: the page starts from a store whose ids are distinct, and
  its saves keep them so. Overlapping saves can leave two records with one id; the page does
  not model them, and `AsWrittenReloadDisagrees` (under "Findings") shows what they lead to.
- React state the modelled logic does not use: the page's `loading`, `showCalendar`,
  `sales`, `customers`, `salesForSelectedDate`, `showSaleModal` and `selectedSale`
  (`src/pages/Recordatorios/Recordatorios.jsx:16-29`), and the autocomplete's
  `searchTimeout`.
- The Places API: the search requests, place details and coordinates. The services' answers
  are a parameter; `serviceReady` stands for whether the service loaded.
- The Google Maps loader is not part of this model.
- `src/utils/dateUtils.js` and time zones: "today" is a day number parameter, and keys are the
  civil date of a day number.
- NotificationUtils.CalculateReminder: the UTC `toISOString` shift is not modelled, because
  day numbers stand for the UTC day. The `Math.floor` millisecond difference is exact day
  arithmetic, so the daylight-saving off-by-one is not modelled.
- ReminderCalendar.Calendar.NavigateMonth: the displayed month is a (year, month) pair, so the
  day overflow of `setMonth` on the 29th to 31st is not modelled.
- Object.keys and Object.entries order: JavaScript lists integer-like keys first. The model
  keeps customers in order of first sale and a client's product counts in order of first
  purchase (`src/pages/Ventas/Ventas.jsx:370-376`, shown at :680). The two differ for
  integer-like customer ids and for integer-like product names.
- Money: `parseFloat`, `toFixed`, totals, revenue, `isPriceModified` and the price of an item.
  These are floating-point, and the item's price is kept as text.
- Ventas.AddSale: quantities are the integers `parseInt` reads, so the fractional part that
  `parseFloat` keeps in the client summary is not modelled.
- NotificationUtils.Generated: every sale date must read as a date (`AllDatesRead`). An
  invalid date makes the newest-first comparator `NaN`, and the JavaScript sort order is then
  implementation-defined. When the chosen sale's non-empty date is invalid, `toISOString`
  throws (`src/utils/notificationUtils.js:30`); `fetchNotifications` then catches the error
  and leaves the page as it was (`src/pages/Recordatorios/Recordatorios.jsx:72-74`). Neither
  path is modelled. The requirement also excludes some lists whose result is well-defined in
  the source: a customer whose sales all have an empty date (the comparator only ever gives
  `NaN`, which counts as equal, and the stable sort leaves the first sale at the head, whose
  empty date gives no reminder, `src/utils/notificationUtils.js:9-11`), and a customer with
  exactly two sales one of which has an empty date (a single comparison, counted as equal).
  For such a list the model promises nothing.
- `localeCompare` is taken as plain string order in the autocomplete sort.
- Lowercasing covers ASCII and Latin-1 letters only.
- Strings are sequences of Unicode code points, while JavaScript's `length`, `slice` and `<`
  count and compare UTF-16 code units. A character outside the Basic Multilingual Plane is one
  character here and two in the source: one such character passes the `input.length < 2`
  guard (`src/components/AddressAutocomplete/AddressAutocomplete.jsx:43`) in the source but
  not `MinInputLength` here, and `<` orders it above U+E000 to U+FFFF here but below them in
  the source.
- Ventas.ValidateCases: a line's quantity is tested as the integer `parseInt` reads, where the
  source compares the raw text with `> 0` (`src/pages/Ventas/Ventas.jsx:189`). The two differ
  only on a fraction below one such as "0.5", which the number field (`min="1"` with the
  default step of 1, `src/pages/Ventas/Ventas.jsx:933-937`) marks invalid, so the browser does
  not submit the form.
- The legacy single-item sale format (`venta.kombucha`) is not part of this model.
- The sales table's own sort and sort indicators are not part of this model.
- The client summary takes the list it is given: the page passes the month-filtered list.
- Sorts run in place in the source. They are modelled as a stable sort on values, so aliasing
  of the sorted array is not modelled.
- Ruta `handleDelete` and the Firestore writes of `handleSubmit` are store calls only: the
  stored route is `Rutas.Stored`.
- `replaceState` changes only the recorded current address.
- The not-found page that folds a path into `?/` is not part of this model; `Encode` is the
  folding it is assumed to do.
- The test at `notificationUtils.test.js:90-115` reads the wall clock. Its order claims are
  proved for every "today" by `GeneratedOrder`.
- Maps, geocoding, login, users, dashboard and the CRUD pages are not part of the core.

## Findings

| source | as written | input that shows it | evidently intended | confidence | as-written member | corrected member |
|---|---|---|---|---|---|---|
| src/pages/Recordatorios/Recordatorios.jsx:94-103 | a save updates the first record with the id, while a load keeps the status of the last one; two saves of a fresh reminder that overlap (a double click on "Descartar") both add a record | two "dismissed" records for reminder "n", then "Reactivar": the list shows "pending", a fresh load "dismissed" | one record per reminder, so that the save changes the record the load reads | medium: needs two overlapping saves; not executed | Recordatorios.AsWrittenReloadDisagrees | Recordatorios.PatchAgreesWithReload |
| src/pages/Rutas/Ruta.jsx:217-231 | the comparator never returns 0, so when two routes have equal sort values each is sorted before the other | two routes named "Centro" and "centro" (equal once lowercased) | 0 on ties, so that the order is consistent | low: a stable sort still produces some order; not executed | Rutas.AsWrittenSameName | Rutas.SortedRutasOrder |
