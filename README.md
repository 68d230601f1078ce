# LaLa delivery manager — a verified model

LaLa is a small web application for a store that sells through Shopify and
delivers through its own couriers. Orders come in from Shopify (by a manual
consult or an automatic sync), are routed by the customer's address to one
of four zones, and each zone has a fixed courier and delivery fee. The office
(Superadmin and Logística) packs, prints, cancels and returns orders; a
courier (Domiciliario) takes packed orders on the road and confirms the
delivery with the way the customer paid. Every delivery updates the courier's
balance record: the cash collected from cash orders and the delivery fees
the store owes the courier. A sweep raises notifications for stale orders,
couriers holding cash and the fortnightly payday.

This project models that core in Dafny:

- the ledger and order state machine of the data service (`Ledger`, on
  values, and `OrderStore.Store`, the same operations as a class whose
  state the methods update, including the bulk status change);
- the constants that tie zones to couriers and fees (`Constants`);
- the Shopify side: the zone inference and order conversion
  (`ShopifyTransform`), the `Link` header reader (`LinkHeader`), the
  serverless orders endpoint (`ShopifyApi`) and the Cloudflare worker
  (`Worker`);
- the application shell: notifications (`Notifications`), what each user
  may see (`Scoping`, `Sidebar`) and the selection of orders (`Selection`);
- the screens' decisions: the courier's screen (`CourierView`), the bulk bar
  (`BulkActions`), the order card and detail window (`OrderCard`,
  `OrderDetail`, `ViewActions`), the order list (`OrderList`), the
  dashboard (`Dashboard`), the CSV export (`ExportCsv`), user creation and
  editing (`UserManagement`, `EditUser`), the password change
  (`ChangePassword`), the first-run setup (`FirstTimeSetup`), the manual
  Shopify consult (`ManualProcessor`) and the integrations page
  (`Integrations`).

Shared pieces are `Types` (the entities and their texts), `Wrappers`
(`Option`, `Result`), `Seqs` (filter, sort, sum) and `Text` (lower-casing,
trimming, search, number printing). Calls to Firebase, Shopify and the
browser are parameters: the model is given what each call returned.

## Model

| member | source | states |
|---|---|---|
| Constants.DeliveryCost | constants.ts:17-22 | every zone has a positive delivery fee |
| Constants.ZoneCourier | constants.ts:24-29 | every zone is mapped to a courier |
| Constants.ZonesListEachOnce | constants.ts:10-15 | the zone list holds each zone exactly once |
| Constants.CouriersListEachOnce | constants.ts:4-8 | the courier list holds each courier exactly once |
| Constants.ZoneCourierOntoNotInjective | constants.ts:24-29 | every courier serves some zone, and one courier serves two, so the map is onto but not one-to-one |
| Ledger.ReverseUndoesSettle | services/firebaseService.ts:216-258 | reversing a settlement restores the balance record exactly, for every payment method; a missing record comes back as zero |
| Ledger.SettleDeltas | services/firebaseService.ts:216-239 | settling adds the delivery fee to the fees owed and the order's value to the cash only for cash orders |
| Ledger.StatusDecisionAccepts | services/firebaseService.ts:266-277 | the status rule accepts a change exactly when the order is Pending, Packed or InTransit and the target differs, or it goes from Delivered to Returned; it settles exactly on entering Delivered from an open status and reverses exactly on Delivered to Returned |
| Ledger.StatusWritten | services/firebaseService.ts:266-277 | an accepted change writes the requested status and an ignored one leaves the snapshot unchanged; so the order ends in the target exactly when it was already there or the change is accepted, and the snapshot changes exactly when the change is accepted |
| Ledger.MissingOrderFails | services/firebaseService.ts:262-313 | a missing order is an error in `updateOrderStatus` and `deliverOrder`, and the only error they raise |
| Ledger.AbsorbingStatuses | services/firebaseService.ts:266-277 | Cancelled and Returned ignore every request, Delivered ignores everything but Returned, and the current status changes nothing |
| Ledger.UpdateOrderStatusFrame | services/firebaseService.ts:277-285 | only the status of the one order is written, the status written is the target, an ignored request changes nothing, and only the order's courier's balance may change |
| Ledger.UpdateOrderStatusLedger | services/firebaseService.ts:277-285 | balances move only on entering Delivered (settle with the stored payment method) or going from Delivered to Returned (reverse) |
| Ledger.DeliverOrderEffect | services/firebaseService.ts:289-313 | delivering always records Delivered, the paid status, the chosen method and the receipt when given, and settles with the chosen method only when the order was not Delivered before; only that order and that courier's balance change |
| Ledger.DeliverTwiceSettlesOnce | services/firebaseService.ts:298-311 | confirming a delivery twice leaves the balances as the first confirmation left them |
| Ledger.UpdateDeliveredTwice | services/firebaseService.ts:266-285 | a second request for Delivered is ignored |
| Ledger.DeliverThenReturnRestores | services/firebaseService.ts:241-313 | delivering an open order and returning it gives the courier back the balance it had (zero without a record) |
| Ledger.SetDeliveredThenReturnRestores | services/firebaseService.ts:241-287 | the same round trip through status changes alone |
| Ledger.ZeroingActions | services/firebaseService.ts:332-340 | settling the cash zeroes the cash and keeps the fees; paying the fees zeroes the fees and keeps the cash; a missing record is an error; no order and no other courier's balance changes |
| Ledger.TransitionsKeepZoneConsistency | services/firebaseService.ts:262-313 | every transition keeps each stored order's courier and fee equal to those of its zone |
| Ledger.StatusUpdateKeepsZones | services/firebaseService.ts:262-287 | a status change keeps every order zone-consistent |
| Ledger.DeliveryKeepsZones | services/firebaseService.ts:289-313 | a delivery keeps every order zone-consistent |
| Ledger.CashDeliveryExample | services/firebaseService.ts:216-258 | a 50000 cash order in a 9000 zone takes the courier from {0, 0} to {50000, 9000} and back |
| Ledger.TransferDeliveryExample | services/firebaseService.ts:216-239 | a transfer order only adds its fee to the record |
| OrderStore.Store.constructor | services/firebaseService.ts:262-340 | the store holds the given orders and balances |
| OrderStore.Store.PerformSettlement | services/firebaseService.ts:216-239 | the courier's record becomes the settled record, nothing else changes |
| OrderStore.Store.ReverseSettlement | services/firebaseService.ts:241-258 | the record becomes the reversed one; without a record nothing is written |
| OrderStore.Store.UpdateOrderStatus | services/firebaseService.ts:262-287 | the new state is the ledger's `UpdateOrderStatus` of the old one; a missing order leaves the state and returns the error |
| OrderStore.Store.DeliverOrder | services/firebaseService.ts:289-313 | the new state is the ledger's `DeliverOrder` of the old one; a missing order leaves the state and returns the error |
| OrderStore.Store.SettleCourierCash | services/firebaseService.ts:332-335 | an existing record gets zero cash; a missing one is an error and nothing changes |
| OrderStore.Store.PayCourierFees | services/firebaseService.ts:337-340 | an existing record gets zero fees; a missing one is an error and nothing changes |
| OrderStore.Store.BulkStep | App.tsx:328-346 | one transaction of the bulk change moves the state one id further and reports whether the id existed |
| OrderStore.Store.BulkUpdateStatus | App.tsx:328-346 | every selected id is attempted in turn, the final state is the updates applied in order, no order is added or removed, and the action succeeds exactly when every id existed |
| OrderStore.BulkAdvance | App.tsx:328-346 | each step of the bulk loop extends the applied prefix by one id and keeps the set of orders |
| Types.IdsOf | components/CourierView.tsx:115 | the ids of a list of orders, one per order, in order |
| ShopifyTransform.ZoneIsFirstMatchingRule | services/firebaseService.ts:356-367 | the zone is that of the first matching rule of the table, the metropolitan area when none matches |
| ShopifyTransform.ZoneIgnoresCase | services/firebaseService.ts:356-367 | lower-casing the address and city beforehand does not change the zone |
| ShopifyTransform.FirstMatch | services/firebaseService.ts:361-364 | the index returned is the first rule that matches, or the length when none does |
| ShopifyTransform.CustomerName | services/firebaseService.ts:395-401 | the name is never empty, and is the fixed placeholder when there is no customer, no shipping or billing name and no e-mail |
| ShopifyTransform.CustomerPhone | services/firebaseService.ts:403-408 | the phone is never empty, and is the order's own phone when it has one |
| ShopifyTransform.TruthyParts | services/firebaseService.ts:411-417 | only non-empty parts are kept, and every present non-empty part is |
| ShopifyTransform.ConvertLineItem | services/firebaseService.ts:388-393 | a converted item always has a name and a non-zero quantity |
| ShopifyTransform.ConvertLineItems | services/firebaseService.ts:388-393 | one converted item per Shopify line item, in order, none when the list is missing |
| ShopifyTransform.TransformContract | services/firebaseService.ts:369-439 | an order is skipped exactly when it has no address source; otherwise it is a pending order with the prefixed id, the courier and fee of its zone, paid by Wompi exactly when Shopify says paid |
| ShopifyTransform.ImportedIdInjective | services/firebaseService.ts:421 | different Shopify ids give different order ids |
| ShopifyTransform.IntToStringInjective | services/firebaseService.ts:421 | different integers print differently |
| LinkHeader.LastPartWins | api/shopify/orders.ts:10-33 | a relation is present exactly when some part gives it, with the page token of the last such part |
| LinkHeader.PartEntry | api/shopify/orders.ts:17-30 | a part yields an entry only with at least two `;` sections, and then with a non-empty page token |
| LinkHeader.PageLinksOf | api/shopify/orders.ts:32 | only `next` and `previous` are returned, the latter as `prev` |
| LinkHeader.LinksFor | api/shopify/orders.ts:10-13 | a missing or empty header gives no links |
| LinkHeader.ParseLinkHeader | api/shopify/orders.ts:10-33 | the loop over the parts computes the links of the header |
| LinkHeader.TrimOnlyMattersForPaddedRel | backend/index.ts:21-44 | the worker's copy, which does not trim the relation, agrees with the endpoint's on every part whose relation has no padding |
| LinkHeader.PaddedNextOnlyWhenTrimmed | backend/index.ts:37-39 | a padded `rel="next "` is a next link for the endpoint and not for the worker |
| ShopifyApi.HandleApiError | api/shopify/orders.ts:35-55 | 403 is the missing customer scope whatever the content type; else non-JSON is a bad domain (502); else 401, 429 and other statuses get their codes and keep their status |
| ShopifyApi.RateLimitCodeOnlyFor429 | api/shopify/orders.ts:50-52 | the rate-limit code is given exactly for a JSON 429 reply |
| ShopifyApi.Gate | api/shopify/orders.ts:72-86 | OPTIONS gets an empty 200, other non-GET methods a 405, and a GET passes exactly when both variables are set, else 500 MISSING_ENV |
| ShopifyApi.OrdersParams | api/shopify/orders.ts:88-103 | the query holds status, limit (50 by default), order and fields, plus the page token exactly when one was given |
| ShopifyApi.TruthyCustomerIds | api/shopify/orders.ts:121 | the ids kept are exactly the non-zero customer ids of the orders |
| ShopifyApi.CustomerIds | api/shopify/orders.ts:121 | each non-zero customer id of the orders is asked for exactly once |
| ShopifyApi.CustomersById | api/shopify/orders.ts:135 | an id is a key exactly when some record has it, and its entry is the last record with that id |
| ShopifyApi.Overlay | api/shopify/orders.ts:143 | for each of the five fields, the full record's value wins when it has one, and the order's value is kept otherwise |
| ShopifyApi.EnrichOrder | api/shopify/orders.ts:138-146 | only the customer of an order changes, only when its id was found, and then it becomes the overlay of the found record on it |
| ShopifyApi.EnrichTwice | api/shopify/orders.ts:138-146 | enriching twice with the same records is enriching once |
| ShopifyApi.EnrichAll | api/shopify/orders.ts:138-146 | the list keeps its length and each order is enriched in place |
| ShopifyApi.EnrichInPlace | api/shopify/orders.ts:138-146 | the array afterwards holds the enriched orders |
| ShopifyApi.Enrichment | api/shopify/orders.ts:119-148 | nothing changes unless customers are asked for; the step fails exactly when customer ids were asked for and the request got no answer (network error) or a non-2xx one (its error reply); otherwise every order is enriched from the returned records |
| ShopifyApi.OrdersOnlyOnSuccess | api/shopify/orders.ts:66-156 | orders are returned only for a configured GET whose orders request succeeded, as fetched apart from customers, with the links of the `Link` header |
| ShopifyApi.CustomersFailureDropsOrders | api/shopify/orders.ts:128-131 | as written a failed customers request replaces the fetched orders by an error |
| ShopifyApi.CorrectedKeepsFetchedOrders | api/shopify/orders.ts:119-150 | with the fallback a successful orders request always reaches the caller, and the reply equals the written one whenever enrichment succeeds |
| Worker.RouteOf | backend/index.ts:64-81 | the route chosen is the first ending tested that matches, current routes before the older ones, else not found |
| Worker.RoutesAreDistinct | backend/index.ts:64-81 | each of the four paths reaches its own handler, and the sample path `/api/shopify/customers` is not found (the general rule for unmatched paths is `Worker.RouteOf`) |
| Worker.CurrentRoutes | backend/index.ts:65-71 | the current paths reach their handlers |
| Worker.LegacyRoutes | backend/index.ts:73-79 | the older paths reach the same handlers |
| Worker.OtherRouteNotFound | backend/index.ts:81 | the sample path `/api/shopify/customers`, which ends in none of the four suffixes, is not found |
| Worker.HandleShopifyApiError | backend/index.ts:92-115 | non-JSON is a bad domain (502); 401 and 403 become 401 UNAUTHORIZED, 429 RATE_LIMITED, others SHOPIFY_API_ERROR with their status |
| Worker.ClassifiersDisagreeOnPlain403 | backend/index.ts:97-102 | a non-JSON 403 is a missing scope for the endpoint and a bad domain for the worker |
| Worker.HandlerGate | backend/index.ts:119-126 | only POST passes, and only with both credentials; else 405 or 400 |
| Worker.FetchParams | backend/index.ts:163-175 | the query holds status, limit (50 by default), order and fields, then the page token and the update bound exactly when given |
| Worker.TestConnectionReply | backend/index.ts:119-145 | the shop name is returned exactly when the gate passes and Shopify answered; other failures come from Shopify's refusal |
| Worker.FetchOrdersReply | backend/index.ts:148-200 | orders are returned exactly when the gate passes and Shopify answered, with status 200 and the worker's reading of the `Link` header |
| Worker.WorkerFetch | backend/index.ts:49-89 | OPTIONS exactly gets the preflight reply; an unknown path gets 404; a POST to a known route whose body cannot be read gets 500 "Internal Server Error" with the error's message as `details`; a POST with a readable body gets the route handler's reply |
| Worker.OnlyPostReachesShopify | backend/index.ts:49-89 | any method other than POST and OPTIONS is refused with 404 or 405 before Shopify is called |
| Notifications.GeneratedId | App.tsx:162-170 | every generated id starts with `notif-` |
| Notifications.AddPrepends | App.tsx:162-178 | a new entry goes first, unread, with its task open and kind `info` by default, and the id counter advances; as written its id is always a generated `notif-` id, corrected a caller's id is kept; only High entries are toasted |
| Notifications.FindRelated | App.tsx:188-207 | an entry found is about the entity, and none is found exactly when no entry is about it |
| Notifications.RemoveId | App.tsx:196 | exactly the entries with other ids are kept |
| Notifications.StaleActionRules | App.tsx:188-201 | in both programs only pending orders get alerts, at a level their age has passed, and a new alert gets the highest level passed; corrected, an existing one is escalated only from the level just below and a 72-hour one is kept |
| Notifications.StaleAlertRepeatsAsWritten | App.tsx:188-200 | as written a customer whose name contains "48" has the 72-hour alert removed and raised again on every sweep; corrected it is kept |
| Notifications.SweepOrdersAddsOnlyStaleAlerts | App.tsx:188-201 | as written and corrected, every entry after the order sweep was there before or is an alert about a pending order at least 24 hours old |
| Notifications.StaleStepMembers | App.tsx:188-201 | as written and corrected, one order's turn grows the list by at most one entry, an alert about that order when it is pending and 24 hours old; a raised alert goes first and the order's earlier alert is removed from the rest; with no alert raised nothing changes |
| Notifications.SweepOrdersNoPending | App.tsx:188-201 | as written and corrected, with no pending order the sweep changes nothing |
| Notifications.SweepDebtsAddsOnlyDebts | App.tsx:203-210 | as written and corrected, the debt sweep only prepends Low alerts about couriers holding cash with no debt alert listed |
| Notifications.SweepDebtsVariantsAgree | App.tsx:203-210 | debt alerts carry no id of their own, so the debt sweep as written equals the corrected one |
| Notifications.ReminderRepeatsAsWritten | App.tsx:162-170 | as written the stored reminder never has the id the check looks for, so each payday sweep adds another |
| Notifications.GeneratedIdIsNoReminder | App.tsx:162-170 | a generated id never equals a reminder id |
| Notifications.ReminderOnce | App.tsx:212-216 | with the caller's id kept, the sweep after one that added the reminder adds nothing |
| Notifications.MarkTaskCompleted | App.tsx:282-288 | exactly the entries about the entity get their task done; nothing else changes |
| Notifications.ClearAll | App.tsx:535-537 | exactly the unread entries and the High ones with an open task are kept, in order |
| Notifications.ClearAllIdempotent | App.tsx:535-537 | clearing twice is clearing once |
| Notifications.CompletedTaskCleared | App.tsx:282-288 | once an entity's task is done and its entries read, clearing removes them all |
| Notifications.NotificationCenter.constructor | App.tsx:70-71 | the center starts with no entries, no toasts and a fresh id counter |
| Notifications.NotificationCenter.AddNotification | App.tsx:162-178 | as written: the new entry is prepended unread under a generated `notif-` id, whatever id the caller passed, the rest is unchanged and a High entry is toasted |
| Notifications.NotificationCenter.CheckNotifications | App.tsx:182-217 | the state becomes the as-written sweep of the old one: orders, then debts, then the reminder, each consulting the list as it was at the start |
| Notifications.NotificationCenter.CheckOrders | App.tsx:188-201 | the loop over the orders computes the as-written order sweep, which reads an existing alert's level from the digits in its message |
| Notifications.NotificationCenter.CheckDebts | App.tsx:203-210 | the loop over the balances computes the as-written debt sweep |
| Notifications.NotificationCenter.TaskCompleted | App.tsx:282-288 | the loop marks the entity's entries done, as `MarkTaskCompleted` |
| Notifications.NotificationCenter.ClearAllNotifications | App.tsx:535-537 | the list becomes its cleared version |
| Scoping.AllowedCouriers | App.tsx:600-617 | the courier of each of the user's zones is allowed |
| Scoping.OrdersForUserScope | App.tsx:592-598 | nobody sees nothing, a Superadmin everything, anyone else exactly the orders of their zones in order |
| Scoping.BalancesForUser | App.tsx:600-617 | only stored records are shown, each with its stored value |
| Scoping.BalancesForUserScope | App.tsx:600-617 | a non-Superadmin sees a courier's record exactly when a zone of theirs maps to it |
| Scoping.FindOrder | App.tsx:539-564 | an order found has the id, and none is found exactly when no order has it |
| Scoping.NotificationsForUser | App.tsx:539-564 | only stored notifications are shown |
| Scoping.NotificationsFollowScope | App.tsx:539-564 | an order alert is shown exactly when its order is the user's, a debt alert exactly when the courier's record is, other entries always |
| Scoping.TabContents | App.tsx:632-644 | each tab is newest first and holds exactly the orders of its statuses |
| Scoping.TabsPartition | App.tsx:632-644 | the three tabs together hold every order exactly once |
| Scoping.OneTabEach | App.tsx:632-644 | an order belongs to exactly one tab |
| Selection.ToggleSelect | App.tsx:425-435 | ticking adds an unselected order and removes a selected one |
| Selection.ToggleTwice | App.tsx:425-435 | ticking twice gives back the selection |
| Selection.SelectAllClick | components/OrderList.tsx:130-140 | when every actionable order is selected the selection is cleared; otherwise it becomes exactly the actionable orders |
| Selection.SelectAllTwice | components/OrderList.tsx:130-140 | with something actionable, the second click undoes the first |
| Selection.SelectedOrders | components/OrderList.tsx:142-145 | the orders handed over are exactly the selected orders of the list |
| Selection.SelectionState.SelectOrder | App.tsx:425-435 | the selection becomes its toggled version |
| Selection.SelectionState.SelectAll | App.tsx:437-439 | the selection becomes exactly the given ids |
| Selection.SelectionState.ClearSelection | App.tsx:441-443 | the selection becomes empty |
| Sidebar.ViewPermissions | components/Sidebar.tsx:45-51 | the Superadmin sees every screen, Logística exactly orders, metrics and settlements, a courier none |
| Sidebar.RedirectForRole | App.tsx:135-139 | Logística never stays on users or integrations, and a screen the role may see is kept |
| CourierView.BucketsByStatus | components/CourierView.tsx:81-83 | each bucket holds exactly the orders of its status, so no order is in two |
| CourierView.ShownBalance | components/CourierView.tsx:38-39 | a missing record shows zero cash and zero fees |
| CourierView.PaidFlags | components/CourierView.tsx:91-99 | one flag per order |
| CourierView.PaidPlusUnpaid | components/CourierView.tsx:85-112 | paid and unpaid fees add up to all fees |
| CourierView.PaidWithinBudget | components/CourierView.tsx:88-99 | the fees counted paid never exceed what has been paid |
| CourierView.NothingOwedAllPaid | components/CourierView.tsx:88-99 | with nothing owed every delivery is paid |
| CourierView.AllOwedNonePaid | components/CourierView.tsx:88-99 | with at least everything owed no delivery is paid |
| CourierView.GreedySkipsThenPays | components/CourierView.tsx:91-99 | the walk may skip an order that does not fit and pay a later cheaper one |
| CourierView.HistoryItemsWithTotals | components/CourierView.tsx:85-112 | the lines are newest first, flagged by the greedy walk, each unpaid line carrying the unpaid fees up to it |
| CourierView.FlagAndTotal | components/CourierView.tsx:91-110 | the two walks give the reversed flagged lines with their running totals |
| CourierView.FlagPaid | components/CourierView.tsx:91-99 | the loop flags each order as the greedy walk does |
| CourierView.RunningTotals | components/CourierView.tsx:103-110 | each unpaid line carries the unpaid fees up to it, each paid line none |
| CourierView.UnpaidTotal | components/CourierView.tsx:103-110 | in lines totalled as the history leaves them, the last unpaid line's running total is the sum of the fees of all unpaid lines |
| CourierView.PaydayMatchesReminder | components/CourierView.tsx:45-50 | the courier's payday is the day the Superadmin is reminded to pay |
| BulkActions.BulkOffers | components/BulkActionsBar.tsx:22-70 | an empty selection gets no bar; the bar offers Pack exactly when the central view has only pending orders selected, Print guides exactly when it has only packed orders, Cancel exactly when none is delivered, returned or cancelled, and Accept exactly when the courier view has only packed orders |
| BulkActions.BulkOfferShape | components/BulkActionsBar.tsx:22-70 | the courier's bar only takes orders on the road; the office's only packs, prints or cancels |
| BulkActions.BulkTargetsAccepted | components/BulkActionsBar.tsx:43-70 | every status a bulk button sets is accepted for every selected order, and the service's update succeeds and stores that status |
| OrderCard.CheckboxRule | components/OrderCard.tsx:153-163 | terminal orders cannot be selected; in the office every other can; on the courier's screen exactly packed and on-the-way ones |
| OrderCard.CardOffers | components/OrderCard.tsx:81-262 | what each card offers by screen, status and payment state |
| OrderCard.CardActionsAccepted | components/OrderCard.tsx:81-262 | no card offers a change the service ignores |
| OrderCard.CourierDeliveryCompletes | components/OrderCard.tsx:64-151 | each delivery step on an order on the way leaves it delivered and paid |
| ViewActions.EffectOf | components/OrderCard.tsx:64-79 | confirming a transfer without a receipt does nothing, and only the two payment buttons deliver |
| OrderDetail.DetailTable | components/OrderDetailView.tsx:77-133 | the office packs pending orders, cancels other open ones and returns delivered ones; the courier's buttons by status |
| OrderDetail.DetailActionsAccepted | components/OrderDetailView.tsx:77-133 | nothing in the window asks for a change the service ignores |
| OrderDetail.DetailWithinCardInOffice | components/OrderDetailView.tsx:78-100 | in the office the window offers a subset of the card's buttons |
| OrderDetail.PaidOrderChargedAsCash | components/OrderDetailView.tsx:107-128 | as written a paid order confirmed as cash is re-labelled cash and its value charged to the courier |
| OrderDetail.CorrectedPaidDeliveryLeavesCash | components/OrderDetailView.tsx:103-131 | with the correction, confirming a paid order never adds cash, and the buttons match the card's |
| OrderList.FilteredContents | components/OrderList.tsx:60-87 | the list shows exactly the orders passing every filter, in order, with the day window half-open |
| OrderList.FilteredSame | components/OrderList.tsx:60-87 | settings passing the same orders list the same |
| OrderList.ClearedFiltersShowAll | components/OrderList.tsx:119-128 | after clearing, every order dated from the epoch on is listed in order |
| OrderList.SameTermSameMatch | components/OrderList.tsx:60-70 | queries with the same term pass the same orders |
| OrderList.SearchIgnoresQueryCase | components/OrderList.tsx:60-70 | the letter case of the query does not matter |
| OrderList.BlankQueryIgnored | components/OrderList.tsx:60-70 | a query of spaces filters nothing |
| OrderList.TotalPages | components/OrderList.tsx:89-99 | the page count is the ceiling of a tenth of the orders |
| OrderList.PageOf | components/OrderList.tsx:89-99 | the completed tab shows at most ten orders; the other tabs show the whole filtered list |
| OrderList.PagesCoverList | components/OrderList.tsx:89-99 | the pages end to end are the whole list |
| OrderList.PaginationWhenMoreThanAPage | components/OrderList.tsx:158-159 | the page buttons appear exactly on the completed tab with more than one page |
| OrderList.SelectAllPicksFilteredPending | components/OrderList.tsx:101-106 | select-all picks exactly the pending orders passing the filters |
| OrderList.ActiveKindsCount | components/OrderList.tsx:108-117 | one kind per filter in use, each once |
| OrderList.ActiveFilterCount | components/OrderList.tsx:108-117 | the six increments of the counter give the number of filter kinds in use, at most six, and zero exactly when no filter is in use |
| OrderList.StatusFilterCountsOnlyWhenShown | components/OrderList.tsx:108-117 | the status filter counts only on the active tab |
| OrderList.PrintSingle | components/OrderList.tsx:151-156 | printing one order prints that order alone, or nothing when it is gone |
| Dashboard.StatsWindowInclusive | components/Dashboard.tsx:80-90 | the dashboard window is closed: the first and last millisecond count |
| Dashboard.CountStatuses | components/Dashboard.tsx:98-115 | each counter holds the number of orders of its status, the groups those of their tabs |
| Dashboard.StatusGroups | components/Dashboard.tsx:98-115 | the groups add up from the per-status counts |
| Dashboard.GroupsCoverAll | components/Dashboard.tsx:98-115 | pending, completed and cancelled add up to all orders |
| Dashboard.Bars | components/Dashboard.tsx:117-125 | one bar per key, in order, holding that key's sales |
| Dashboard.SalesChartContents | components/Dashboard.tsx:117-125 | a chart is sorted downward, only positive, and shows a key exactly when it sold |
| Dashboard.BarsAddUp | components/Dashboard.tsx:93-125 | the bars add up to the total sales |
| Dashboard.ChartsAddUpToSales | components/Dashboard.tsx:93-125 | with no negative value each chart adds up to the headline sales |
| ExportCsv.ExportOrders | components/ExportCsvModal.tsx:21-35 | nothing while the window is closed; otherwise an order is exported exactly when it falls in the closed day window |
| ExportCsv.DoubleQuotes | components/ExportCsvModal.tsx:43-47 | the doubled text is never shorter than its input (its read-back is `ExportCsv.EscapeReadsBack`) |
| ExportCsv.OrderValues | components/ExportCsvModal.tsx:55-69 | thirteen values per order, in the header's order |
| ExportCsv.HandleExport | components/ExportCsvModal.tsx:37-41 | no matching order gives the notice; otherwise the file is the BOM and the text |
| ExportCsv.EscapeReadsBack | components/ExportCsvModal.tsx:43-47 | every escaped value reads back as itself, a missing one as empty |
| ExportCsv.CsvReadsBack | components/ExportCsvModal.tsx:71-73 | a text of lines that each read back reads back line by line |
| ExportCsv.ExportReadsBack | components/ExportCsvModal.tsx:49-73 | the file reads back as the headers and one line of thirteen values per order |
| ManualProcessor.ExistingShopifyIds | components/ShopifyManualProcessor.tsx:34 | exactly the `shopify-` ids of orders in the system |
| ManualProcessor.NewOrders | components/ShopifyManualProcessor.tsx:69 | exactly the fetched orders not imported yet |
| ManualProcessor.PrefixCheckHarmless | components/ShopifyManualProcessor.tsx:34 | keeping only prefixed ids loses nothing |
| ManualProcessor.ImportableMembers | components/ShopifyManualProcessor.tsx:70-78 | an order is importable exactly when it converts one of the fetched orders |
| ManualProcessor.SplitAccountsForAll | components/ShopifyManualProcessor.tsx:70-78 | each order is either imported or skipped |
| ManualProcessor.NothingImportedTwice | components/ShopifyManualProcessor.tsx:69-80 | nothing imported duplicates an order already there |
| ManualProcessor.ConvertPage | components/ShopifyManualProcessor.tsx:69-78 | the new orders split into conversions and skipped ones |
| ManualProcessor.SplitImportable | components/ShopifyManualProcessor.tsx:70-78 | the loop computes the split |
| ManualProcessor.DisplayName | components/ShopifyManualProcessor.tsx:19-26 | the name shown is never empty |
| ManualProcessor.DisplayNameMatchesImport | components/ShopifyManualProcessor.tsx:19-26 | the screen shows the name the import gives |
| ManualProcessor.ManualProcessorState.BeginConsult | components/ShopifyManualProcessor.tsx:36-42 | a consult without a token starts afresh; one following a link keeps what is shown |
| ManualProcessor.ManualProcessorState.ReceivePage | components/ShopifyManualProcessor.tsx:69-97 | the page is shown and its new convertible orders handed over; when the import callback resolves, exactly those orders are added to the newly imported set and the skip notice shows exactly when some new order could not be converted; when it rejects, the list is cleared and nothing is marked |
| ManualProcessor.ManualProcessorState.ConsultFailed | components/ShopifyManualProcessor.tsx:99-102 | a failed consult clears the list |
| Integrations.AnswerOf | components/IntegrationsPage.tsx:33-36 | orders are received exactly for an orders reply; a refusal carries the reply's status and body |
| Integrations.ConnectionErrorText | components/IntegrationsPage.tsx:48-55 | the message wins, then code with hint, then missing variables, then the code or HTTP status |
| Integrations.TestConnection | components/IntegrationsPage.tsx:29-63 | connected exactly when orders were received, the toast exactly then and when not silent; a failure shows the error text |
| Integrations.ConnectedIffOrders | components/IntegrationsPage.tsx:36 | the test reports a connection exactly when the endpoint sent orders |
| Integrations.ApiErrorsExplained | components/IntegrationsPage.tsx:48-55 | each error the endpoint makes of a Shopify failure is shown with its message, the missing-scope one with its hint |
| Integrations.MissingEnvExplained | components/IntegrationsPage.tsx:48-55 | an unconfigured server is shown with code and hint |
| Integrations.SyncThrowText | components/IntegrationsPage.tsx:84 | the error text is the message, else the code, else the fallback |
| Integrations.SyncToast | components/IntegrationsPage.tsx:102-114 | an error is toasted exactly when its message lacks RATE_LIMITED |
| Integrations.SyncRun | components/IntegrationsPage.tsx:78-114 | the import receives exactly the conversions of the new fetched orders whenever there are any; a completed sync toasts nothing |
| Integrations.SyncImportsOnlyNew | components/IntegrationsPage.tsx:87-99 | a sync imports only conversions of fetched orders whose id is not in the system |
| Integrations.SecondSyncImportsNothing | components/IntegrationsPage.tsx:87-99 | after importing a page, syncing it again imports nothing |
| Integrations.RateLimitToastedAsWritten | components/IntegrationsPage.tsx:84-105 | as written the endpoint's rate-limit reply is toasted |
| Integrations.SyncRunCorrected | components/IntegrationsPage.tsx:78-114 | with the code check the sync is as written except for rate-limit replies |
| Integrations.CorrectedSilencesOnlyRateLimits | components/IntegrationsPage.tsx:102-114 | of the endpoint's errors exactly the rate-limit one stays quiet |
| Integrations.AutoSync.Begin | components/IntegrationsPage.tsx:70-76 | a sync in flight refuses another; otherwise the flag is raised |
| Integrations.AutoSync.Run | components/IntegrationsPage.tsx:78-118 | the run's import and toast are those of the sync, and the flag is lowered |
| UserManagement.ToggleZone | components/UserManagement.tsx:30-40 | ticking flips that zone, keeps the others and adds no duplicate |
| UserManagement.ToggleZoneTwice | components/UserManagement.tsx:30-40 | ticking twice gives back the same zones |
| UserManagement.SubmitOutcome | components/UserManagement.tsx:42-84 | the first failing check is reported (blank fields, a Logística without zones, a Domiciliario without courier); success keeps role and password |
| UserManagement.SubmittedUserWellFormed | components/UserManagement.tsx:44-69 | what is sent has non-blank fields, a lower-case username and the zones or courier its role needs |
| UserManagement.SuperadminCarriesNoAssignment | components/UserManagement.tsx:57-69 | a Superadmin is sent with neither zones nor courier |
| UserManagement.SubmitIgnoresPadding | components/UserManagement.tsx:44-69 | padding and username case make no difference to what is sent |
| UserManagement.NewUserFormState.ZoneChange | components/UserManagement.tsx:30-40 | the ticked zones become their toggled version |
| UserManagement.NewUserFormState.Reset | components/UserManagement.tsx:73-80 | the form becomes empty |
| UserManagement.NewUserFormState.Submit | components/UserManagement.tsx:42-84 | the outcome is that of the checks, and the form is cleared only after a created account |
| EditUser.OpenEditor | components/EditUserModal.tsx:17-30 | the form holds the user's name, username, role, zones (none when missing) and courier |
| EditUser.SaveUpdate | components/EditUserModal.tsx:41-56 | the update carries zones exactly for Logística and the courier choice, possibly empty, exactly for a Domiciliario |
| EditUser.SaveKeepsOneAssignment | components/EditUserModal.tsx:41-56 | the update never carries both zones and a courier, and a Superadmin's update carries neither |
| EditUser.CourierlessDomiciliarySaved | components/EditUserModal.tsx:47-49 | as written the update for a Domiciliario without a courier carries an empty courier, where the creation form refuses such a user |
| EditUser.SaveChecked | components/EditUserModal.tsx:41-56 | with the check a courierless Domiciliario is refused and nothing else changes |
| EditUser.CheckedSaveHasCourier | components/EditUserModal.tsx:41-56 | with the check every saved Domiciliario has a courier |
| EditUser.UsernameTyped | components/EditUserModal.tsx:73 | the username field only holds lower-case text |
| EditUser.EditUserState.ZoneChange | components/EditUserModal.tsx:32-39 | the ticked zones become their toggled version |
| EditUser.EditUserState.UsernameInput | components/EditUserModal.tsx:73 | the field becomes the typed text lower-cased |
| EditUser.EditUserState.Save | components/EditUserModal.tsx:41-56 | the update handed over is the written save of the form |
| ChangePassword.CheckPasswords | components/ChangePasswordModal.tsx:24-36 | the length check wins over the mismatch; the change is requested only when both pass |
| ChangePassword.ShownError | components/ChangePasswordModal.tsx:20-47 | the text shown is the failed check's text; after a passed check, the thrown `Error`'s own message, the fallback text for anything else thrown, and nothing when the change succeeded |
| ChangePassword.ShortPasswordNeverSent | components/ChangePasswordModal.tsx:24-32 | a short password is refused even when confirmed |
| FirstTimeSetup.AdminRequest | components/FirstTimeSetup.tsx:21-36 | a short password is refused; otherwise a Superadmin with the given name, e-mail and password and a lower-case username |
| FirstTimeSetup.AfterSubmit | components/FirstTimeSetup.tsx:21-47 | the account is reported created only when the request was made and succeeded |

## Left out

- Firestore, Firebase Auth and Storage plumbing: `addOrder`, `addMultipleOrders`, `uploadReceipt`, `submitCourierDeposit` and the snapshot listeners are not modelled; the orders and balances are given as maps and a receipt as its URL.
- Rendering, toasts and browser notifications: only the decisions behind them (which buttons, which toast) are modelled.
- Timers and concurrency: the auto-sync interval (components/IntegrationsPage.tsx:121-124) and the transaction retries are not modelled; the bulk change, which the source sends with `Promise.all`, is modelled as its transactions applied one after the other.
- Floating point: money is integer pesos; `parseFloat`, `Math.round` and the dashboard's average ticket are not modelled.
- Dates and locale: instants are integer milliseconds, day, month and year are inputs, and the export's date text is a parameter.
- URL and regular-expression parsing in the `Link` header reader: each part's bracketed URL, page token and `rel` value are given as a parsed `LinkSyntax`.
- Fetch and JSON failures beyond those modelled (no answer, an answer without body, a failed status); the worker's `requestId` is not modelled, and the message of an unreadable body's error is a parameter.
- `null` and absent fields are not told apart; strings are sequences of code points, not UTF-16 units.
- Text.Lower: lower-cases ASCII and the Latin-1 capitals only; `Text.Trim` removes ASCII white space, the no-break space and the byte-order mark only.
- ManualProcessor.ManualProcessorState.ConsultFailed: the error text shown comes from the failed fetch and is not modelled.
- ShopifyApi.OrdersParams: a `limit` sent as an array is modelled by its first element, already chosen.
- Sidebar.RedirectForRole: states the redirect for Logística only; the effect that runs it on every change of role or screen is not modelled.
- UserManagement.ToggleZoneTwice: gives back the same list only when the zone was not ticked before; otherwise the same set in a different order.
- CourierView.RunningTotals: works on the reversed lines as a sequence; the in-place `reverse()` is the separate `Seqs.ReverseInPlace`.
- Constants.DeliveryCost: states that every fee is positive; the exact fees are in the table itself.
- Firestore's rule that a transaction does all its reads before any write: `updateOrderStatus` and `deliverOrder` write the order (services/firebaseService.ts:277, 307) and then read the balance (services/firebaseService.ts:218, 243). The model treats each transaction as one atomic step in which that read succeeds; whether the SDK refuses it is not modelled.
- The URL constructor in the `Link` header reader (api/shopify/orders.ts:23, backend/index.ts:34) throws on a malformed URL; the model takes each part's URL as already parsed and does not model that exception.
- Seqs.SortDesc: JavaScript's sort is stable, but the model states only that the result is ordered by key and holds the same elements; the order of entries with equal keys (ties in the dashboard's rankings) is not stated.
- The `details` body of the endpoint's SHOPIFY_API_ERROR reply (api/shopify/orders.ts:53-54), the JSON that Shopify returned, is not modelled; the reply's status, code and message are.
- EditUser.SaveUpdate: a cleared zones or courier field is sent as `undefined` (components/EditUserModal.tsx:46, 49, 51-52) through `updateDoc` (services/firebaseService.ts:184), never as `deleteField()`. What Firestore then stores is not modelled: with the default settings it refuses a write holding `undefined`, and with `ignoreUndefinedProperties` it skips the field, so either way the stored user can keep its old assignment. The model states only what the update carries.
- ManualProcessor.ManualProcessorState.ReceivePage: `importOk` is whether the import callback resolved. The application passes its own `handleImportMultipleOrders`, which catches a failed save and resolves (App.tsx:398-407). So in the running application `importOk` always holds, and orders whose save failed are still marked as newly imported; that callback is not modelled.
- Integrations.SyncRun: `importFailure` is what the import callback rejects with. For the same reason it is always `None` with the application's callback, and a failed save leaves the sync completed with no toast from this page.

## Findings

| source | as written | input that shows it | evidently intended | confidence | as-written member | corrected member |
|---|---|---|---|---|---|---|
| App.tsx:162-170, 212-216 | `addNotification` always overwrites the id the caller passes, so the payday reminder is never stored under the id the check looks for | any Superadmin sweep on day 15 or 30 after one that added the reminder | the reminder is added once per payday | not executed | Notifications.ReminderRepeatsAsWritten | Notifications.ReminderOnce |
| App.tsx:188-200 | the level of an existing stale alert is read from "48" or "24" anywhere in its message, which contains the customer's name | a pending order 72 hours old whose customer is "Local 48" | the alert is escalated once, from the level just below | not executed | Notifications.StaleAlertRepeatsAsWritten | Notifications.StaleActionRules |
| components/OrderDetailView.tsx:107-128 | an order already paid online is offered "paid in cash" in the detail window, which re-labels it cash and charges its value to the courier | a paid Wompi order on the way, confirmed from the detail window as cash | a paid order is confirmed by a plain status change, as on the card | not executed | OrderDetail.PaidOrderChargedAsCash | OrderDetail.CorrectedPaidDeliveryLeavesCash |
| components/EditUserModal.tsx:47-49 | the update handed to the save call for a Domiciliario carries whatever the courier selector holds, the empty choice included (what Firestore then stores is not modelled, see "## Left out") | switching a Logística user to Domiciliario and saving without choosing a courier | such a save is refused, as the creation form does | not executed | EditUser.CourierlessDomiciliarySaved | EditUser.SaveChecked |
| api/shopify/orders.ts:128-131 | a failed customers request returns the error instead of the orders, although the comment and log say the orders are returned as they are | orders fetched with `includeCustomers=true` and a customers reply of 500 | the orders are returned without enrichment | not executed | ShopifyApi.CustomersFailureDropsOrders | ShopifyApi.CorrectedKeepsFetchedOrders |
| components/IntegrationsPage.tsx:84, 105 | the sync throws the reply's message when there is one and then looks for `RATE_LIMITED` in it; the rate-limit reply's message is Spanish text | the endpoint's 429 reply during an automatic sync | the rate-limit reply stays quiet | not executed | Integrations.RateLimitToastedAsWritten | Integrations.CorrectedSilencesOnlyRateLimits |

