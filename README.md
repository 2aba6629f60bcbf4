# Retail shop front end: client-side business rules in Dafny

This project models the rules that the shop's React front end applies between its forms and its
HTTP calls, and proves properties of them. Persistence, authentication and payment bookkeeping
happen on the backend. What stays on the client is modelled here:

- **Recording a sale in store** (`RecordSale`, `PaymentSection`). The quick-sell hook turns the
  selected product, the full/due tab, the amount paid now and the customer fields into either a
  validation error or the ordered list of payment entries it posts. The payment section replaces
  one field at a time, shows the remaining due, shows or hides its parts, and sanitises the phone
  number.
- **Recent activity** (`RecentActivity`, `SaleDetailModal`). A paid/due filter and a date or
  amount sort over a local copy of the sales. An optimistic payment update that rewrites the
  selected record. The detail dialog's prefilled payment field, its check on Update, and its
  badge.
- **Owner lists** (`InventoryHistory`, `SalesHistory`, `Dues`, `Pager`). Type and text filters,
  `ceil`-based page counts and slice windows, the "Showing x to y" range, and purchase, expense
  and revenue sums. Also the list of staff names, page clamping, filter handlers that reset the
  page, the local status patch after a dues update, and the overdue test.
- **Shop catalog** (`Shop`). The request parameters, the mapping of backend records to cards
  (badge precedence, sub-category and image fall-backs), and the built-in catalog used when the
  backend returns nothing or fails.
- **Form state machines** (`OnlineInventory`, `StaffSaleForm`, `StickyNotes`). Category chips
  that clear the sub-category, mutually exclusive badges, the image MIME whitelist, submit checks,
  the product payload and the reset after a save. Notes are prepended and deleted.
- **Access** (`Auth`, `RouteGuard`, `Login`). The signed-in user kept under one browser-storage
  key, the route guard's decision, and the demo credential check.

Each source file keeps its own form. Pure expressions (`useMemo` bodies, `.map`/`.filter`
pipelines, the guard) are Dafny functions with lemmas. Components and hooks whose state fields are
changed by handlers are classes whose methods state the whole new state. The push-based building
of the sale's payment list is a method proved equal to its specification function.

JavaScript semantics that matter are written out in module `Js`:

- falsy fall-backs (`a || b || 0`);
- `trim`, ASCII `toLowerCase`, `includes` and `slice` with negative indices;
- decimal `parseInt` and `parseFloat` (prefix parsing; NaN is `None`);
- `Number.prototype.toString` for the amounts the dialog prefills.

Money is `int` where the source uses `parseInt` or backend integers. It is an exact `real` where
the source uses `parseFloat`. Timestamps are integers. The current time, network answers, parsed
JSON and uploaded-image answers are parameters.

`Seqs.Filter` models `Array.prototype.filter`. `Sorting.SortBy` is a stable insertion sort by a
key; the comparators of the activity list are proved to be key differences
(`RecentActivity.CompareIsKeyDifference`), so sorting by the key is sorting with the comparator.

## Model

| member | source | states |
|---|---|---|
| RecordSale.TotalAmount | src/hooks/useRecordSale.ts:63 | the total is 0 with no product selected and the product's price otherwise |
| RecordSale.DueRemaining | src/hooks/useRecordSale.ts:64-65 | the due is never negative, is at least total minus paying, and is either 0 or exactly total minus paying |
| RecordSale.PaidPlusDueIsTotal | src/hooks/useRecordSale.ts:63-65 | for 0 ≤ paying ≤ total, paying plus due is the total, and the due is 0 exactly when everything is paid |
| RecordSale.DueEntriesSum | src/hooks/useRecordSale.ts:113-132 | the down-payment and dues entries of a due-tab sale add up to paying plus due |
| RecordSale.PaymentPlan | src/hooks/useRecordSale.ts:81-133 | no product gives the "select a product" error; an accepted plan's amounts add up to the price; every DUES entry carries the customer's name and a phone whose JavaScript `length` (UTF-16 units) is 10 |
| RecordSale.PayingNow | src/hooks/useRecordSale.ts:64 | the amount paid now is the parsed number, and 0 when the text does not parse |
| RecordSale.PaymentPlanAsWritten | src/hooks/useRecordSale.ts:81-133 | the hook's own checks: no product gives the "select a product" error; an accepted plan adds up to the price when the amount paid now is not negative; every DUES entry carries the customer's name and a phone whose JavaScript `length` (UTF-16 units) is 10 |
| RecordSale.PlanFullTab | src/hooks/useRecordSale.ts:90-95 | on the full tab the payload is exactly one entry of the chosen mode for the whole price |
| RecordSale.PlanDueRejections | src/hooks/useRecordSale.ts:98-111 | on the due tab the plan (with the negative-amount check of Findings row 1 added) rejects, in this precedence, paying more than the price, a negative amount paid now, an empty customer field, and a phone whose `length` in UTF-16 units is not 10; it is accepted exactly when none of these holds |
| RecordSale.PlanDueShape | src/hooks/useRecordSale.ts:113-132 | a valid due-tab payload holds a mode entry only if paying > 0, before a DUES entry present only if the due is > 0 |
| RecordSale.AsWrittenSumsWhenInRange | src/hooks/useRecordSale.ts:90-132 | as written, the payload adds up to the price whenever 0 ≤ paying ≤ price, and agrees with the corrected plan there |
| RecordSale.NegativeDownPaymentOvercharges | src/hooks/useRecordSale.ts:97-132 | as written, a price of 1000 with -50 paid now yields a single DUES entry of 1050; the corrected plan rejects it |
| RecordSale.NegativeDownPaymentPasses | src/hooks/useRecordSale.ts:97-132 | as written, any negative amount paid now on an otherwise valid due-tab form (price not negative) gives one DUES entry of price minus that amount, more than the price; the corrected plan rejects it |
| RecordSale.PartialPaymentSplits | src/hooks/useRecordSale.ts:113-132 | a valid due-tab form paying part of the price now gets that part in the chosen mode, then the rest as a DUES entry carrying the customer |
| RecordSale.PartialCashScenario | src/hooks/useRecordSale.ts:113-132 | 400 of 1000 paid in cash gives a cash entry of 400 followed by a DUES entry of 600 for the customer |
| RecordSale.DueTabAccepted | src/hooks/useRecordSale.ts:97-132 | a due-tab form that passes every check gets the down-payment entry and the due entry, under either plan |
| RecordSale.EmojiPhoneLength | src/hooks/useRecordSale.ts:108 | nine digits and an emoji are ten characters but eleven UTF-16 units |
| RecordSale.EmojiPhoneRejected | src/hooks/useRecordSale.ts:108 | a ten-character phone ending in an emoji is rejected as not ten digits, because `length` counts UTF-16 units |
| RecordSale.BuildPaymentMethods | src/hooks/useRecordSale.ts:82-133 | the push-by-push construction of the payload returns exactly the corrected plan `PaymentPlan`, errors included, so a negative amount paid now is rejected (see Left out) |
| RecordSale.RecordSaleHook.constructor | src/hooks/useRecordSale.ts:19-35 | the hook starts with no query, results or product, the full tab, cash, "0" paid now and empty customer fields |
| RecordSale.RecordSaleHook.HandleProductSelect | src/hooks/useRecordSale.ts:68-74 | selecting a product clears query and results, sets "0" paid now and the full tab, and keeps the rest |
| RecordSale.RecordSaleHook.ClearSelection | src/hooks/useRecordSale.ts:76-79 | clearing drops the product and the query only |
| RecordSale.RecordSaleHook.ApplySearch | src/hooks/useRecordSale.ts:38-56 | a query whose `length` is under two UTF-16 units empties the results; otherwise a successful answer is replaced by its in-stock products and a failed one keeps the old results; searching ends |
| RecordSale.RecordSaleHook.ResetAfterSale | src/hooks/useRecordSale.ts:146-152 | after an accepted sale, product, amount, customer fields and tab return to their start and the mode is kept |
| RecordSale.RecordSaleHook.SubmitSale | src/hooks/useRecordSale.ts:81-160 | an invalid form (under the corrected plan, which also rejects a negative amount paid now) is rejected with its error and nothing changes; a valid one posts the product id, price and plan, resets only on an accepted post, and ends not submitting |
| PaymentSection.Update | src/components/dashboard/components/PaymentSection.tsx:70-72 | the updated field takes the new value and every other field keeps its value |
| PaymentSection.UpdateRestores | src/components/dashboard/components/PaymentSection.tsx:70-72 | writing a field's old value back undoes an update |
| PaymentSection.RemainingDue | src/components/dashboard/components/PaymentSection.tsx:75-76 | the remaining due is never negative and is 0 or total minus the amount typed |
| PaymentSection.UnparseableAmountCountsAsZero | src/components/dashboard/components/PaymentSection.tsx:75 | an amount that does not parse counts as 0, so the whole non-negative total stays due |
| PaymentSection.RemainingDueComplementsPartial | src/components/dashboard/components/PaymentSection.tsx:75-76 | for an amount within the total, amount plus remaining due is the total |
| PaymentSection.VisibilityCases | src/components/dashboard/components/PaymentSection.tsx:77-160 | PAID shows only the mode cards; DUE shows amount and customer fields, and the mode cards exactly when the amount is positive |
| PaymentSection.ShowsAmountInput | src/components/dashboard/components/PaymentSection.tsx:105 | the amount field is shown for DUE (cases in `VisibilityCases`) |
| PaymentSection.ShowsCustomerDetails | src/components/dashboard/components/PaymentSection.tsx:160 | the customer fields are shown for DUE (cases in `VisibilityCases`) |
| PaymentSection.ShowsModeSelector | src/components/dashboard/components/PaymentSection.tsx:77-132 | the mode cards are shown for PAID or for DUE with a positive amount (cases in `VisibilityCases`) |
| PaymentSection.IsPartialPayment | src/components/dashboard/components/PaymentSection.tsx:77 | a partial payment is a DUE sale with a positive amount typed; it decides the mode cards (cases in `VisibilityCases`, `ShowsModeSelector`) |
| PaymentSection.SwitchToDueKeepsAmount | src/components/dashboard/components/PaymentSection.tsx:95-132 | switching to DUE keeps the typed amount, so the mode cards show exactly when it is positive |
| PaymentSection.DigitsOnly | src/components/dashboard/components/PaymentSection.tsx:189 | removing non-digits leaves only digits and never lengthens the text |
| PaymentSection.SanitizePhone | src/components/dashboard/components/PaymentSection.tsx:189-190 | the sanitised phone is all digits, at most 10 long, and the first min(10, n) digits of the input |
| PaymentSection.SanitizePhoneIdempotent | src/components/dashboard/components/PaymentSection.tsx:189-190 | sanitising twice is sanitising once |
| PaymentSection.SanitizePhoneKeepsDigits | src/components/dashboard/components/PaymentSection.tsx:189-190 | up to ten digits pass through unchanged |
| RecentActivity.PaidAndDueDisjoint | src/hooks/useRecentActivity.ts:29-32 | no record is kept by both the paid and the due filter |
| RecentActivity.IsPaid | src/hooks/useRecentActivity.ts:30 | the paid filter's test: status 'paid', or no status and a positive price or amount (its properties are `PaidAndDueDisjoint` and `FiltersDoNotCoverAll`) |
| RecentActivity.IsDue | src/hooks/useRecentActivity.ts:32 | the due filter's test: status 'due' |
| RecentActivity.ApplyFilter | src/hooks/useRecentActivity.ts:26-33 | 'all' keeps the list unchanged; every record the other filters keep passes the filter's test, and the list never grows |
| RecentActivity.FiltersDoNotCoverAll | src/hooks/useRecentActivity.ts:29-32 | a record without status, price or amount is kept by neither filter |
| RecentActivity.FilterCounts | src/hooks/useRecentActivity.ts:26-33 | each filter keeps every copy of a record it accepts and none of the others |
| RecentActivity.CompareIsKeyDifference | src/hooks/useRecentActivity.ts:36-48 | each comparator is the difference of a key (negated date or amount for descending orders, missing date 0, amount `amount || price || 0`), so it is antisymmetric |
| RecentActivity.ProcessedContents | src/hooks/useRecentActivity.ts:25-51 | the processed list is ordered by the chosen key and is a permutation of the filtered records |
| RecentActivity.Processed | src/hooks/useRecentActivity.ts:25-51 | the processed list is ordered by the chosen key and holds exactly the filtered records, each as often |
| RecentActivity.ProcessedKeepsTies | src/hooks/useRecentActivity.ts:36-48 | records with equal keys keep their relative order |
| RecentActivity.NewestFirst | src/hooks/useRecentActivity.ts:37-46 | under "newest" dates never increase down the list |
| RecentActivity.HighestAmountFirst | src/hooks/useRecentActivity.ts:39-44 | under "high amount" amounts never increase down the list |
| RecentActivity.HighLowReversed | src/hooks/useRecentActivity.ts:39-44 | when the filtered records have pairwise different amounts, "high amount" lists them in exactly the reverse order of "low amount" |
| RecentActivity.PaidUpdate | src/hooks/useRecentActivity.ts:70-81 | the paid amount grows by the payment, the due is max(0, total − paid) with total `price || amount || 0`, status is 'paid' exactly when the due is 0 and 'due' otherwise, and other fields are kept |
| RecentActivity.PaymentSettles | src/hooks/useRecentActivity.ts:70-81 | a payment reaching the total makes the record paid and a smaller one leaves it due |
| RecentActivity.MatchesAgreesWhenIdPresent | src/hooks/useRecentActivity.ts:69 | the corrected identity test agrees with the written one whenever the selected record has an `id` |
| RecentActivity.SelectedMatchesItself | src/hooks/useRecentActivity.ts:69 | under the corrected test a record with any key matches itself |
| RecentActivity.MapPayment | src/hooks/useRecentActivity.ts:67-84 | the mapped list has the same length; matching records are paid and the others are kept |
| RecentActivity.ApplyPaymentRewritesOne | src/hooks/useRecentActivity.ts:67-86 | with one matching record, the update rewrites exactly that record and keeps every other |
| RecentActivity.ApplyPaymentAgreesWhenIdPresent | src/hooks/useRecentActivity.ts:67-84 | whenever the selected record has an `id`, the corrected update and the written one produce the same list |
| RecentActivity.MissingIdPaysEveryRecord | src/hooks/useRecentActivity.ts:67-84 | as written, when the selected record has no `id`, every record without an `id` in the list is paid, whatever its `_id` |
| RecentActivity.MissingIdTwoRecords | src/hooks/useRecentActivity.ts:67-84 | two records with only `_id`s "a1" and "b2": paying for "a1" as written also changes "b2"; the corrected update pays "a1" and leaves "b2" as it was |
| RecentActivity.ActivityState.constructor | src/hooks/useRecentActivity.ts:9-17 | the hook starts with no sales, filter 'all', sort 'newest', nothing selected and not updating |
| RecentActivity.ActivityState.SyncInitialSales | src/hooks/useRecentActivity.ts:20-22 | a present incoming list replaces the local copy; an absent one keeps it |
| RecentActivity.ActivityState.SetActiveFilter | src/hooks/useRecentActivity.ts:12 | sets the filter and nothing else |
| RecentActivity.ActivityState.SetSortOption | src/hooks/useRecentActivity.ts:13 | sets the sort option and nothing else |
| RecentActivity.ActivityState.SetSelectedSale | src/hooks/useRecentActivity.ts:16 | sets the selection and nothing else |
| RecentActivity.ActivityState.UpdatePayment | src/hooks/useRecentActivity.ts:54-89 | with nothing selected nothing changes; otherwise the local list becomes the corrected `ApplyPayment` of the selection, which is the written update whenever the selection has an `id` (see Left out), updating ends and the selection is cleared |
| SaleDetailModal.Prefill | src/components/dashboard/SaleDetailModal.tsx:22-28 | the field is empty without a sale or a non-zero due, and non-empty otherwise |
| SaleDetailModal.UpdateClick | src/components/dashboard/SaleDetailModal.tsx:30-37 | a payment is requested only with the parsed amount when it is a number > 0, and the alert is shown exactly otherwise |
| SaleDetailModal.PrefillThenUpdatePaysDue | src/components/dashboard/SaleDetailModal.tsx:22-37 | pressing Update on the prefilled field requests a payment of the whole (whole-rupee) due |
| SaleDetailModal.NoDueMeansNoPayment | src/components/dashboard/SaleDetailModal.tsx:22-37 | with no due the field starts empty and Update only alerts |
| SaleDetailModal.BadgeMatchesDueFilter | src/components/dashboard/SaleDetailModal.tsx:80-108 | the badge reads "Payment Due" exactly for status 'due' and "Fully Paid" otherwise; the payment input exists exactly for 'due' |
| SaleDetailModal.BadgeLabel | src/components/dashboard/SaleDetailModal.tsx:80-88 | the badge reads "Payment Due" or "Fully Paid", nothing else |
| SaleDetailModal.ShowsPaymentInput | src/components/dashboard/SaleDetailModal.tsx:108 | the payment input is shown for status 'due' (tied to the due filter by `BadgeMatchesDueFilter`) |
| SaleDetailModal.FiguresAfterPayment | src/components/dashboard/SaleDetailModal.tsx:91-104 | after a payment within the total, paid plus due is the total, and badge and input follow whether anything is due |
| SaleDetailModal.PaymentField.constructor | src/components/dashboard/SaleDetailModal.tsx:19 | the payment field starts empty |
| SaleDetailModal.PaymentField.OnSaleChanged | src/components/dashboard/SaleDetailModal.tsx:22-28 | a change of sale sets the field to the prefill text |
| SaleDetailModal.PaymentField.SetPaymentInput | src/components/dashboard/SaleDetailModal.tsx:119 | typing sets the field |
| SaleDetailModal.PaymentField.HandleUpdateClick | src/components/dashboard/SaleDetailModal.tsx:122-124 | while updating the button does nothing; otherwise it gives the click outcome of the field's text |
| InventoryHistory.ApplyType | src/pages/OwnerInventoryHistory.tsx:40-42 | a type filter other than "all" keeps only entries of that type |
| InventoryHistory.FilterInventory | src/pages/OwnerInventoryHistory.tsx:37-52 | every result has the filtered type, and for a non-blank query its lower-cased description contains the lower-cased query |
| InventoryHistory.BlankQuerySearchesNothing | src/pages/OwnerInventoryHistory.tsx:44 | a blank or whitespace-only query applies no text filter |
| InventoryHistory.FilterInventoryCounts | src/pages/OwnerInventoryHistory.tsx:37-52 | the filtered log keeps every copy of each entry that passes both filters and nothing else |
| InventoryHistory.TotalPages | src/pages/OwnerInventoryHistory.tsx:54 | the page count is ⌈n / 10⌉ |
| InventoryHistory.PageOf | src/pages/OwnerInventoryHistory.tsx:55-58 | a page holds at most 10 entries |
| InventoryHistory.PageWindow | src/pages/OwnerInventoryHistory.tsx:55-58 | page p is the contiguous slice [(p−1)·10, min(p·10, n)) of the filtered log |
| InventoryHistory.PageNonEmptyIff | src/pages/OwnerInventoryHistory.tsx:54-58 | a page is non-empty exactly when its number is at most the page count |
| InventoryHistory.FirstPagesArePrefix | src/pages/OwnerInventoryHistory.tsx:55-58 | the first k pages together are the first min(10k, n) entries |
| InventoryHistory.PagesCoverList | src/pages/OwnerInventoryHistory.tsx:54-58 | all pages together are the whole filtered log, in order |
| InventoryHistory.ShowingMatchesPage | src/pages/OwnerInventoryHistory.tsx:238 | "Showing x to y" runs from (p−1)·10+1 to min(p·10, n) and names exactly the entries of the page |
| InventoryHistory.PagerShownIff | src/pages/OwnerInventoryHistory.tsx:235 | the pager is shown exactly when more than 10 entries pass the filters |
| InventoryHistory.TotalsSplitSum | src/pages/OwnerInventoryHistory.tsx:60-65 | purchases plus expenses is the sum over the filtered log |
| InventoryHistory.TotalPurchases | src/pages/OwnerInventoryHistory.tsx:61-62 | the sum of the purchase amounts of the filtered log (split with expenses by `TotalsSplitSum`) |
| InventoryHistory.TotalExpenses | src/pages/OwnerInventoryHistory.tsx:64-65 | the sum of the expense amounts of the filtered log (split with purchases by `TotalsSplitSum`) |
| InventoryHistory.PurchasesOnlyHasNoExpenses | src/pages/OwnerInventoryHistory.tsx:40-65 | under the purchase filter the expense total is 0 and the purchase total is the sum |
| InventoryHistory.InitialLogFitsOnePage | src/pages/OwnerInventoryHistory.tsx:21-58 | the page's 10-entry log is one page, shown whole |
| InventoryHistory.InventoryHistoryPage.constructor | src/pages/OwnerInventoryHistory.tsx:33-35 | the page starts with no query, type "all" and page 1 |
| InventoryHistory.InventoryHistoryPage.SetSearchQuery | src/pages/OwnerInventoryHistory.tsx:151 | typing a query sets it and returns to page 1 |
| InventoryHistory.InventoryHistoryPage.SetTypeFilter | src/pages/OwnerInventoryHistory.tsx:155 | choosing a type sets it and returns to page 1 |
| InventoryHistory.InventoryHistoryPage.GoToPage | src/pages/OwnerInventoryHistory.tsx:246 | a page button sets the page and nothing else |
| SalesHistory.StaffNames | src/pages/OwnerSalesHistory.tsx:61 | the collected names are non-empty and are exactly the present staff names of the transactions |
| SalesHistory.Dedup | src/pages/OwnerSalesHistory.tsx:61-62 | the set's contents have no duplicates and the same members |
| SalesHistory.DedupFirstOccurrenceOrder | src/pages/OwnerSalesHistory.tsx:61-62 | names come in order of first occurrence |
| SalesHistory.UniqueStaffExact | src/pages/OwnerSalesHistory.tsx:60-63 | the staff list has no duplicates, holds exactly the non-empty staff names, and lists them in first-occurrence order |
| SalesHistory.UniqueStaff | src/pages/OwnerSalesHistory.tsx:59-63 | the staff list has no duplicates and holds exactly the non-empty staff names of the loaded transactions |
| SalesHistory.Displayed | src/pages/OwnerSalesHistory.tsx:66-69 | "all" shows every transaction; a name shows only transactions by that name |
| SalesHistory.DisplayedCounts | src/pages/OwnerSalesHistory.tsx:68 | a staff filter keeps every copy of that person's transactions, in order, and nothing else |
| SalesHistory.RevenueSplitsByStaff | src/pages/OwnerSalesHistory.tsx:66-71 | one person's revenue plus everyone else's is the revenue of all loaded transactions |
| SalesHistory.TotalRevenue | src/pages/OwnerSalesHistory.tsx:71 | the revenue of non-negative amounts is never negative (split by person in `RevenueSplitsByStaff`) |
| SalesHistory.SalesHistoryPage.constructor | src/pages/OwnerSalesHistory.tsx:22-28 | the page starts on "today", page 1, staff "all", with nothing loaded |
| SalesHistory.SalesHistoryPage.ApplyHistoryResponse | src/pages/OwnerSalesHistory.tsx:31-54 | a successful answer replaces transactions and pagination, a failed one keeps them, and loading ends |
| SalesHistory.SalesHistoryPage.SetDateFilter | src/pages/OwnerSalesHistory.tsx:125 | choosing a period sets it and returns to page 1 |
| SalesHistory.SalesHistoryPage.SetStaffFilter | src/pages/OwnerSalesHistory.tsx:138 | choosing a person changes neither the page nor the period |
| SalesHistory.SalesHistoryPage.Previous | src/pages/OwnerSalesHistory.tsx:229 | Previous goes to max(1, p−1), so the page never drops below 1 |
| SalesHistory.SalesHistoryPage.Next | src/pages/OwnerSalesHistory.tsx:238 | Next goes to p+1 |
| SalesHistory.SalesHistoryPage.Request | src/pages/OwnerSalesHistory.tsx:36-42 | the history request asks for the current page, 50 per page, the chosen period and type SALE |
| Pager.PreviousPage | src/pages/DuesManagement.tsx:394 | one page back, never below 1 |
| Pager.NextPage | src/pages/DuesManagement.tsx:404 | one page on, never past the page count |
| Pager.PageControlsStayInRange | src/pages/DuesManagement.tsx:394-405 | a page in [1, totalPages] stays there under Previous and Next |
| Dues.PatchStatus | src/pages/DuesManagement.tsx:128-130 | records with the given id take the new status; every other field of every record, and every other record, is unchanged |
| Dues.PatchStatusTouchesOnlyId | src/pages/DuesManagement.tsx:128-130 | a record with another id is left exactly as it was |
| Dues.PatchStatusIdempotent | src/pages/DuesManagement.tsx:128-130 | applying the same status patch twice is applying it once |
| Dues.OverdueStays | src/pages/DuesManagement.tsx:165-168 | a record without a due date is never overdue; one overdue now stays overdue later |
| Dues.IsOverdue | src/pages/DuesManagement.tsx:165-168 | a record is overdue when it has a due date earlier than now (properties in `OverdueStays`) |
| Dues.Endpoint | src/pages/DuesManagement.tsx:86 | the overdue switch picks "/dues/overdue", otherwise "/dues" |
| Dues.DuesPage.Query | src/pages/DuesManagement.tsx:86-96 | the fetch uses the page's endpoint, page, limit, status filter and search term; its endpoint follows the overdue switch (`Endpoint`, `ToggleOverdue`) |
| Dues.DuesPage.constructor | src/pages/DuesManagement.tsx:67-76 | the page starts loading, on page 1 of 1 with 10 per page, status "all", no search, nothing edited and overdue off |
| Dues.DuesPage.ApplyDuesResponse | src/pages/DuesManagement.tsx:83-108 | a successful answer replaces the records and the page count, a failed one keeps them, and loading ends |
| Dues.DuesPage.UpdateDuesStatus | src/pages/DuesManagement.tsx:121-137 | a successful update applies the local status patch, a failed one changes nothing |
| Dues.DuesPage.SetSearchTerm | src/pages/DuesManagement.tsx:254-257 | typing a search sets it and returns to page 1 |
| Dues.DuesPage.SetStatusFilter | src/pages/DuesManagement.tsx:265-267 | choosing a status sets it and returns to page 1 |
| Dues.DuesPage.ToggleOverdue | src/pages/DuesManagement.tsx:279-282 | the overdue button flips the switch, and with it the endpoint, and returns to page 1 |
| Dues.DuesPage.Previous | src/pages/DuesManagement.tsx:390-395 | Previous (shown with the pager, enabled off page 1) clamps to max(1, p−1) |
| Dues.DuesPage.Next | src/pages/DuesManagement.tsx:390-405 | Next (shown with the pager, enabled off the last page) clamps to min(totalPages, p+1) |
| Dues.DuesPage.ToggleEditing | src/pages/DuesManagement.tsx:372 | the edit button closes the record being edited, or opens another |
| Shop.BadgeFor | src/pages/Shop.tsx:304 | "New Arrival" exactly for new arrivals, "Best Seller" exactly for non-new best sellers, no badge otherwise |
| Shop.ImageFor | src/pages/Shop.tsx:303 | the first image's URL when present, the placeholder otherwise; never empty |
| Shop.ToProduct | src/pages/Shop.tsx:297-306 | id, name, category, price and description carry over; the sub-category falls back to the category; image and badge as above |
| Shop.ToProducts | src/pages/Shop.tsx:297-306 | every backend record is mapped, in order |
| Shop.RequestParams | src/pages/Shop.tsx:284-291 | limit 50 with the price range and sort; `category` only when not "All", `search` only when the query is non-empty |
| Shop.EmptyResultFallback | src/pages/Shop.tsx:310-314 | on an empty answer, built-in items of the category whose lower-cased name contains the lower-cased query |
| Shop.ErrorFallback | src/pages/Shop.tsx:319-322 | on a failed request, built-in items of the category |
| Shop.EmptyResultNarrowsError | src/pages/Shop.tsx:310-322 | the empty-answer fall-back is the error fall-back narrowed by name, order kept |
| Shop.EmptyQueryFallbacksAgree | src/pages/Shop.tsx:310-322 | with an empty query both fall-backs show the same items |
| Shop.AllCategoriesErrorShowsEverything | src/pages/Shop.tsx:319-322 | under "All" a failed request shows the whole built-in catalog |
| Shop.MenErrorFallback | src/pages/Shop.tsx:259-264 | under "Men" a failed request shows the sherwani and the shirt, in that order |
| Shop.ProductsAfterFetch | src/pages/Shop.tsx:297-323 | a successful non-empty answer is mapped; an empty or unsuccessful one uses the empty-answer fall-back; an error the error fall-back |
| Shop.ShopPage.constructor | src/pages/Shop.tsx:269-278 | the shop starts with the built-in catalog, loading, category "All", no query, prices 0-50000, sort "newest", no selection |
| Shop.ShopPage.ApplyFetch | src/pages/Shop.tsx:281-325 | after a fetch the products are those of the outcome and loading ends; the filters are kept |
| Shop.ShopPage.HandleProductClick | src/pages/Shop.tsx:332-335 | a click selects the product and opens the drawer |
| Shop.ShopPage.Request | src/pages/Shop.tsx:284-291 | the request carries the page's current filters, as `RequestParams` specifies |
| OnlineInventory.CheckSubmit | src/components/dashboard/OnlineInventoryForm.tsx:334-341 | submit passes exactly when name, price and sub-category are filled and an image file is held; missing fields are reported before a missing image |
| OnlineInventory.BuildPayload | src/components/dashboard/OnlineInventoryForm.tsx:379-389 | the payload carries the form's name, category, sub-category, description and flags, `parseInt` of the typed price, and exactly one image entry |
| OnlineInventory.PayloadPriceOfDigits | src/components/dashboard/OnlineInventoryForm.tsx:381 | a price typed as digits reaches the payload as that integer |
| OnlineInventory.AfterSave | src/components/dashboard/OnlineInventoryForm.tsx:396-403 | the reset clears text, sub-category and image, shows on the website, clears both badges, keeps the category, and leaves a form that does not pass the checks |
| OnlineInventory.OnlineInventoryForm.constructor | src/components/dashboard/OnlineInventoryForm.tsx:288-299 | the form starts on Men with empty fields, on the website, no badges and no image |
| OnlineInventory.OnlineInventoryForm.SelectCategory | src/components/dashboard/OnlineInventoryForm.tsx:505 | choosing a category clears the sub-category |
| OnlineInventory.OnlineInventoryForm.SelectSubCategory | src/components/dashboard/OnlineInventoryForm.tsx:518-521 | a chip of the selected category sets the sub-category |
| OnlineInventory.OnlineInventoryForm.SetNewArrival | src/components/dashboard/OnlineInventoryForm.tsx:560 | switching New Arrival on switches Best Seller off, so the two are never both on |
| OnlineInventory.OnlineInventoryForm.SetBestSeller | src/components/dashboard/OnlineInventoryForm.tsx:571 | switching Best Seller on switches New Arrival off, so the two are never both on |
| OnlineInventory.OnlineInventoryForm.HandleImageChange | src/components/dashboard/OnlineInventoryForm.tsx:302-319 | a file is accepted exactly when its type is image/jpeg, image/png, image/webp or image/jpg; otherwise nothing changes |
| OnlineInventory.OnlineInventoryForm.ClearImage | src/components/dashboard/OnlineInventoryForm.tsx:325-331 | clears the preview and the file only |
| OnlineInventory.OnlineInventoryForm.HandleSubmit | src/components/dashboard/OnlineInventoryForm.tsx:333-409 | a failing check changes nothing; otherwise the payload is posted after the upload, the form is reset only once saved, and submitting ends |
| OnlineInventory.EnabledSubmitPassesChecks | src/components/dashboard/OnlineInventoryForm.tsx:579 | an enabled submit button always gets past the submit checks |
| StaffSaleForm.RecordSaleForm.constructor | src/components/dashboard/RecordSaleForm.tsx:10-14 | the form starts on Men with no sub-category, price or photo |
| StaffSaleForm.RecordSaleForm.SelectCategory | src/components/dashboard/RecordSaleForm.tsx:138 | choosing a category clears the sub-category |
| StaffSaleForm.RecordSaleForm.SelectSubCategory | src/components/dashboard/RecordSaleForm.tsx:151-154 | a chip of the selected category sets a non-empty sub-category |
| StaffSaleForm.RecordSaleForm.HandleImageCapture | src/components/dashboard/RecordSaleForm.tsx:17-26 | a captured photo becomes the preview; no photo changes nothing |
| StaffSaleForm.RecordSaleForm.ClearImage | src/components/dashboard/RecordSaleForm.tsx:32-37 | the preview is cleared and nothing else changes |
| StaffSaleForm.RecordSaleForm.HandleSubmit | src/components/dashboard/RecordSaleForm.tsx:39-58 | an empty price or sub-category is rejected with the form untouched; otherwise price, sub-category and photo are cleared, the category kept, and submitting ends |
| StaffSaleForm.EnabledIffAccepted | src/components/dashboard/RecordSaleForm.tsx:167 | the button is enabled exactly when not submitting and price and sub-category are filled |
| StickyNotes.WithoutId | src/components/dashboard/StickyNotes.tsx:26-28 | no note with the id remains |
| StickyNotes.WithoutIdKeepsOthers | src/components/dashboard/StickyNotes.tsx:26-28 | every copy of a note with another id is kept |
| StickyNotes.WithoutAbsentId | src/components/dashboard/StickyNotes.tsx:26-28 | deleting an absent id changes nothing |
| StickyNotes.WithoutIdIdempotent | src/components/dashboard/StickyNotes.tsx:26-28 | deleting twice is deleting once |
| StickyNotes.StickyNotesBoard.constructor | src/components/dashboard/StickyNotes.tsx:11-13 | the board starts with the given notes, no draft, not adding |
| StickyNotes.StickyNotesBoard.SetDraft | src/components/dashboard/StickyNotes.tsx:58 | typing sets the draft |
| StickyNotes.StickyNotesBoard.ToggleAdding | src/components/dashboard/StickyNotes.tsx:42 | "+" flips adding mode |
| StickyNotes.StickyNotesBoard.AddNote | src/components/dashboard/StickyNotes.tsx:15-24 | a blank draft changes nothing; otherwise one note with the untrimmed draft and the time as id is prepended, the old notes follow, and draft and adding mode are cleared |
| StickyNotes.StickyNotesBoard.DeleteNote | src/components/dashboard/StickyNotes.tsx:26-28 | the notes become those without the id |
| StickyNotes.StickyNotesBoard.Cancel | src/components/dashboard/StickyNotes.tsx:72 | cancel closes adding mode and clears the draft; the notes stay |
| Auth.UseAuth | src/context/AuthContext.tsx:64-70 | outside a provider the hook fails with its message; inside it returns the provider's value |
| Auth.AuthProvider.constructor | src/context/AuthContext.tsx:20-21 | the provider starts with no user and loading |
| Auth.AuthProvider.Restore | src/context/AuthContext.tsx:24-35 | a stored value that parses becomes the user, one that does not is removed, no value changes nothing; loading ends in every case |
| Auth.AuthProvider.Login | src/context/AuthContext.tsx:38-41 | login sets the user and stores it under "afh_user" |
| Auth.AuthProvider.Logout | src/context/AuthContext.tsx:50-55 | logout clears the user and the stored value and sends the page to "/" |
| Auth.LoginSurvivesReload | src/context/AuthContext.tsx:24-41 | after a login, a reloaded provider restores the same user |
| Auth.LogoutSurvivesReload | src/context/AuthContext.tsx:24-53 | after a logout, a reloaded provider restores nobody |
| RouteGuard.Guard | src/layout/ProtectedRoute.tsx:8-31 | loading shows the loading view; no user goes to /login; an owner on a staff route goes to /owner and staff on an owner route to /staff |
| RouteGuard.OutletIffAllowed | src/layout/ProtectedRoute.tsx:12-30 | for owner and staff users the page renders exactly when not loading, signed in, and no role is required or the roles match |
| RouteGuard.UnknownRolePassesGuard | src/layout/ProtectedRoute.tsx:22-30 | a user whose role is neither owner nor staff falls through to the page |
| Login.RoleFromQuery | src/pages/Login.tsx:11 | the role is the query parameter, or "staff" when it is absent or empty |
| Login.CheckCredentials | src/pages/Login.tsx:29-45 | owner login succeeds to /owner exactly with password "admin"; any other role succeeds to /staff exactly with PIN "1234" |
| Login.CredentialsIgnoreOtherForm | src/pages/Login.tsx:29-45 | an owner attempt does not depend on the PIN, a staff attempt not on the password (and neither on e-mail or staff id) |
| Login.LoginPage.constructor | src/pages/Login.tsx:10-19 | the page takes its role from the query and starts with empty fields, not loading |
| Login.LoginPage.HandleLogin | src/pages/Login.tsx:22-48 | the handler's navigation is the credential decision and loading is over when it finishes |
| Domain.SubCategories | src/data/mockData.ts:97-101 | each category offers at least five sub-categories, none of them empty |
| Js.TrimEmptyIffBlank | src/components/dashboard/StickyNotes.tsx:16 | `trim()` gives the empty (falsy) string exactly when the text is blank |
| Js.Utf16Length | src/hooks/useRecordSale.ts:40 | `length` is at least the number of characters, 0 only for the empty string, and equal to it when every character lies in the Basic Multilingual Plane |
| Js.Utf16LengthAppend | src/hooks/useRecordSale.ts:108 | the `length` of a concatenation is the sum of the lengths |
| Js.AstralCharCountsTwice | src/hooks/useRecordSale.ts:108 | a character beyond the Basic Multilingual Plane adds two to `length` |
| Js.Trim | src/components/dashboard/StickyNotes.tsx:16 | `trim()` never lengthens the text, and the result neither starts nor ends with white space |
| Js.IncludesIffOccurs | src/pages/OwnerInventoryHistory.tsx:47 | `includes` holds exactly when the needle occurs at some position |
| Js.Includes | src/pages/OwnerInventoryHistory.tsx:47 | `includes`, whose meaning is fixed by `IncludesIffOccurs` |
| Js.ToLower | src/pages/OwnerInventoryHistory.tsx:45-47 | `toLowerCase` keeps the length and lower-cases each character in place |
| Js.SliceInRange | src/pages/OwnerInventoryHistory.tsx:55-58 | `slice` with non-negative bounds clamps both bounds to the length |
| Js.Slice | src/pages/OwnerInventoryHistory.tsx:55-58 | `slice` never gives more elements than the list has |
| Js.ParseIntRoundTrip | src/components/dashboard/OnlineInventoryForm.tsx:381 | `parseInt` of an integer's decimal text gives back that integer |
| Js.ParseInt | src/components/dashboard/OnlineInventoryForm.tsx:381 | a number parsed from text with no leading minus is never negative |
| Js.ParseFloatRoundTrip | src/hooks/useRecordSale.ts:64 | `parseFloat` of an integer's decimal text gives back that number |
| Js.ParseFloat | src/hooks/useRecordSale.ts:64 | decimal `parseFloat`, whose round trip is `ParseFloatRoundTrip` |
| Js.WholeNumberToString | src/components/dashboard/SaleDetailModal.tsx:24 | `toString` of a whole number is its integer decimal text |
| Js.ParseWholeNumber | src/components/dashboard/SaleDetailModal.tsx:24 | `parseFloat` undoes `toString` on whole numbers |
| Js.NumberToString | src/components/dashboard/SaleDetailModal.tsx:24 | `toString` is never empty and starts with a minus exactly for a negative number |
| Seqs.FilterCount | src/hooks/useRecentActivity.ts:29-33 | `filter` keeps every occurrence of an accepted element and none of a rejected one |
| Seqs.FilterAppend | src/hooks/useRecentActivity.ts:29-33 | `filter` distributes over concatenation, so kept elements keep their order |
| Seqs.FilterFilter | src/pages/Shop.tsx:310-322 | two filters in a row are one filter by the conjunction |
| Seqs.Filter | src/hooks/useRecentActivity.ts:29-33 | `filter` never lengthens the list and every kept element satisfies the test |
| Sorting.SortBy | src/hooks/useRecentActivity.ts:36-48 | sorting by a key gives an ordered permutation of the input |
| Sorting.SortByStable | src/hooks/useRecentActivity.ts:36-48 | elements with equal keys keep their relative order, as `Array.prototype.sort` guarantees |
| Sorting.Reverse | src/hooks/useRecentActivity.ts:39-44 | the reversed list has the same length and holds position `n-1-i` at position `i` |
| Sorting.ReversePermutes | src/hooks/useRecentActivity.ts:39-44 | reversing keeps the same elements, each as often |
| Sorting.ReverseSortedBy | src/hooks/useRecentActivity.ts:39-44 | a list ordered by a key, reversed, is ordered by the negated key |
| Sorting.SortedPermutationUnique | src/hooks/useRecentActivity.ts:36-48 | two lists ordered by the same key with the same elements are equal when the key tells the elements apart |

## Left out

- Network calls are outcome parameters: `api` requests, the Cloudinary upload and the product post. So are their toasts and the 401 interceptor.
- Timers, debounces and simulated delays are left out; a handler runs as one step once its awaited call settles.
- `new Date()`, `Date.now()`, date parsing and ISO formatting are left out. The due date of a sale is passed through as text, not converted to ISO. `createdAt` and due dates are integers in milliseconds. An invalid date (NaN) is not modelled.
- Rendering, animations, `toLocaleString` and `toFixed` are display only and left out.
- FileReader is left out. In the online form the reader's data URL is a parameter stored with the file in one step; the race where a reader finishes after Clear is not modelled. `window.location` and router navigation are returned values.
- The dues statistics (`fetchStats`, the collection percentage) are server values shown as they come, and are left out.
- `Js.ParseFloat` models decimal `parseFloat` without exponents, "Infinity" or hexadecimal prefixes.
- `Js.NumberToString` writes at most 20 fraction digits and no exponent form.
- SaleDetailModal.PrefillThenUpdatePaysDue: the prefill/parse round trip is proved for whole-rupee dues only.
- `Js.ToLower` lower-cases ASCII letters only; full Unicode case mapping is out of scope.
- `Js.IsSpace` covers the ASCII and Latin-1 white space; other Unicode space characters are not modelled.
- Auth.AuthProvider.Restore: `JSON.parse` and `JSON.stringify` are parameters. A stored "null", which parses to no user, is treated like any other parse result.
- SalesHistory.StaffNames: a staff member literally named "all" cannot be told apart from the "all" filter. The model follows the code.
- RecordSale.PaymentPlan checks only that the phone's `length` is 10, as the hook does, not that it is ten digits: a phone of ten letters is accepted. The payment form strips non-digits (`PaymentSection.SanitizePhone`), but the hook's own phone setter takes any text. The model follows the code, not the rule that a DUES phone is exactly ten digits.
- RecentActivity.FiltersDoNotCoverAll: the paid and due filters together do not cover every record. The model follows the code, not the expectation that they would.
- RecordSale.PaymentPlan rejects a negative amount paid now, which the code as written accepts; see Findings.
- RecordSale.BuildPaymentMethods follows the corrected plan: it rejects a negative amount paid now, which the hook as written accepts and turns into a DUES entry larger than the price (Findings row 1; `PaymentPlanAsWritten` models the written checks).
- RecordSale.RecordSaleHook.SubmitSale builds its payload with `BuildPaymentMethods`, so it too rejects a negative amount paid now that the hook as written would post.
- RecentActivity.ActivityState.UpdatePayment applies the corrected identity test (`ApplyPayment`): when the selected record has no `id`, the hook as written also pays every other record without an `id` (Findings row 2, `MissingIdPaysEveryRecord`); whenever the selection has an `id` the two agree (`MatchesAgreesWhenIdPresent`).
- The online form's payload price is `Js.ParseInt` of the typed text, so any `parseInt` NaN shows as `None`.
- The commented-out earlier versions of components and the pure rendering components are not part of this model.

## Findings

| source | as written | input that shows it | evidently intended | confidence | as-written member | corrected member |
|---|---|---|---|---|---|---|
| src/hooks/useRecordSale.ts:97-132 | on the due tab only `payingNow > totalAmount` is rejected, so a negative amount paid now passes and the DUES entry is `total - payingNow` | price 1000, amount paid now "-50": the payload is one DUES entry of 1050 | the payload of an accepted sale adds up to the price | not executed | RecordSale.NegativeDownPaymentOvercharges | RecordSale.PaymentPlan |
| src/hooks/useRecentActivity.ts:69 | a record matches when `sale.id === selectedSale.id`; when the selected record has no `id` both sides are undefined | two due records with only `_id`s "a1" and "b2"; paying for "a1" also pays "b2" | exactly the selected record is updated | not executed | RecentActivity.MissingIdTwoRecords | RecentActivity.ApplyPaymentRewritesOne |
