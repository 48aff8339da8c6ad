# Inventory Compass control panel — a Dafny model of its inventory and redistribution logic

Inventory Compass is a React dashboard for stores and food-redistribution branches. This project models the parts of it that compute something:

- **Inventory summary card.** An item's stock is classified against two limits as over-supplied, under-supplied or apt. The classification gives:
  - a redistribution badge;
  - a redistributable quantity;
  - the revenue, cost and net profit of redistributing that quantity;
  - an advisory ("smart prompt").
- **Inventory table.** Rows are graded High / Surplus / Normal. A search and a grade filter narrow them, and the result is paged five at a time with Previous/Next controls and a "Showing x to y of n" footer.
- **Redistribution schedule.** Rows are narrowed by:
  - a search over item and branches;
  - a status filter;
  - an item filter, fed by the de-duplicated item names;
  - a tab.

  Each scheduled row can be cancelled or rescheduled through a dialog that remembers the row's id.
- **Alerts panel.** Mark one alert read, mark all read, delete by id, and count the unread alerts.
- **Transaction history.** A case-insensitive search over four fields, plus a status filter.
- **Create-redistribution form.** Six required inputs, a destination list without the sending branch, and a submit that either refuses or schedules.
- **Create-branch form.** Eleven text fields edited one at a time. A submit needs three of them and clears all of them.
- **Redistribution order panel.**
  - An item and a destination are chosen by the text of their ids.
  - The quantity comes from a slider or from typed text (`parseInt(text) || 0`), bounded by the item's stock.
  - An asynchronous submit runs through a processing state.
- **Report export.** Three export options, and a progress bar advanced by a timer in steps of 20 until the report is ready.

Pure computations are Dafny functions. Each component whose handlers change its state is a `class` whose fields are that state. The inventory summary card and the transaction table are functions only: the card's one piece of state is its expand/collapse toggle, and the table's is its two filter inputs, which the filtering functions take as parameters. Its handlers are methods whose postconditions give the new state as a function of the old one, and the lemmas are stated about those functions. Shared pieces live in three helper modules:

- `Seqs`: `filter`, `map`, `find`, and the insertion-ordered `Array.from(new Set(...))`.
- `Text`: ASCII `toLowerCase`/`includes`, integer `toString`, and `parseInt(...) || 0`.
- `Wrappers`: `Option`.

JavaScript details are written out:

- truthiness of `0` and `null` ids;
- `Array.prototype.slice` with relative and clamped indices;
- `Math.ceil(n / 5)`;
- `x > t * 0.5` as `2 * x > t` on integers, with the agreement proved over the reals;
- `a?.b || 100`.

The supply limits are not required to satisfy `underSupplyLimit < overSupplyLimit`, because the card never checks it. The first matching test decides the classification, exactly as in `getSupplyStatus`.

## Model

| member | source | states |
|---|---|---|
| InventorySummaryCard.GetSupplyStatus | src/components/inventory/InventorySummaryCard.tsx:33-41 | Over-supplied when the quantity exceeds the upper limit, else under-supplied when below the lower limit, else apt; the full classification is in ComputeSupplyAnalysis's contract |
| InventorySummaryCard.GetRedistributionStatus | src/components/inventory/InventorySummaryCard.tsx:46-54 | The "In Redistribution" badge for a stored in-redistribution item, else "Eligible" when not apt, else none; both directions are in ComputeSupplyAnalysis and RedistributeNowCondition |
| InventorySummaryCard.CalculateFinancialImpact | src/components/inventory/InventorySummaryCard.tsx:59-78 | The redistributable quantity by supply status, revenue and cost at mrp and acquired price, and the profit and break-even flags; their relations are in ComputeSupplyAnalysis and OverSupplyProfitFollowsMargin |
| InventorySummaryCard.GetSmartPrompt | src/components/inventory/InventorySummaryCard.tsx:100-114 | The profit or loss template for over-supply, the shortage template for under-supply, none when apt; the template choice is in ComputeSupplyAnalysis and BreakEvenOverSupplyGetsLossPrompt |
| InventorySummaryCard.ComputeSupplyAnalysis | src/components/inventory/InventorySummaryCard.tsx:33-114 | The card's whole analysis agrees with itself: over iff qty > over, under iff not over and qty < under, apt otherwise; the redistributable quantity is the excess (positive) when over, the market demand when under, 0 when apt; net profit = revenue − cost = qty × (mrp − acquired price); profit iff net > 0, break-even iff net = 0, never both; badge "In Redistribution" iff stored so, "Eligible" iff not stored so and not apt, none otherwise; a prompt exists iff not apt, the profit template iff over and profitable, the loss template iff over and not profitable, with the excess equal to the redistributable quantity, the profit amount equal to the (positive) net profit and the loss amount equal to its absolute value; the shortage prompt only when under, with a positive shortage |
| InventorySummaryCard.OverSupplyProfitFollowsMargin | src/components/inventory/InventorySummaryCard.tsx:59-78 | For an over-supplied item the result is profit iff mrp > acquired price and break-even iff they are equal |
| InventorySummaryCard.FinancialVerdict | src/components/inventory/InventorySummaryCard.tsx:235-236 | The panel's badge: "Break-even" iff the break-even flag, tested before profit; "Profit" with the net profit iff profitable and not break-even; otherwise "Loss" with the absolute net profit |
| InventorySummaryCard.FinancialVerdictFollowsNetProfit | src/components/inventory/InventorySummaryCard.tsx:59-78 | For an item's own impact the badge follows the sign of the net profit: break-even at 0, the profit amount when positive, the negated amount when negative |
| InventorySummaryCard.StoredEligibleAndNoneAgree | src/components/inventory/InventorySummaryCard.tsx:46-54 | The stored statuses `eligible` and `none` produce identical cards; only `in-redistribution` is consulted |
| InventorySummaryCard.AptSupplyIsQuiet | src/components/inventory/InventorySummaryCard.tsx:226-250 | Expanded, the card of an apt item shows no financial panel, no prompt and no "Redistribute Now", and its verdict is break-even |
| InventorySummaryCard.OverSupplyShowsPanel | src/components/inventory/InventorySummaryCard.tsx:226 | Expanded, the card of an over-supplied item always shows the financial panel |
| InventorySummaryCard.RedistributeNowCondition | src/components/inventory/InventorySummaryCard.tsx:250 | Expanded, the card shows "Redistribute Now" iff the item is not in redistribution and not at apt supply |
| InventorySummaryCard.BreakEvenOverSupplyGetsLossPrompt | src/components/inventory/InventorySummaryCard.tsx:100-108 | An over-supplied item with mrp = acquired price is "Break-even" in the panel but gets the loss prompt with a loss of 0 |
| InventorySummaryCard.OverSupplyExample | src/components/inventory/InventorySummaryCard.tsx:59-78 | Quantity 95 against limits 70/30 at prices 40/22: qty 25, revenue 1000, cost 550, profit 450, eligible badge, profit prompt |
| InventoryTable.GetSurplusStatus | src/components/inventory/InventoryTable.tsx:70-75 | The three surplus grades; HighGrade proves them equal to the source's fractional test |
| InventoryTable.FilteredData | src/components/inventory/InventoryTable.tsx:77-88 | The rows kept by the name search and the grade filter; membership and order are FilteredDataMembers |
| InventoryTable.PaginatedData | src/components/inventory/InventoryTable.tsx:91-92 | `slice(startIndex, startIndex + 5)` with JavaScript's index rules; PageIsContiguousSlice, PagesUpToIsPrefix and PagesCoverList state what the pages contain |
| InventoryTable.TotalPages | src/components/inventory/InventoryTable.tsx:90 | The page count is the least number of five-item pages that hold the list |
| InventoryTable.SliceIndex | src/components/inventory/InventoryTable.tsx:92 | A slice index, after resolving negatives and clamping, lies within the list |
| InventoryTable.HighGrade | src/components/inventory/InventoryTable.tsx:70-75 | The integer grading agrees with the source's test on numbers: High iff `surplus > threshold * 0.5` (compared as reals), else Medium iff `surplus > 0`, else Normal |
| InventoryTable.GradesByQuantity | src/components/inventory/InventoryTable.tsx:70-75 | For a non-negative threshold: Normal iff quantity ≤ threshold, Medium iff above it by at most half of it; the Redistribute button is enabled iff quantity > threshold |
| InventoryTable.NegativeThresholdHighBelowThreshold | src/components/inventory/InventoryTable.tsx:70-75 | With a negative threshold a quantity below it can still be graded High |
| InventoryTable.FilteredDataMembers | src/components/inventory/InventoryTable.tsx:77-88 | A row is listed iff it matches the search and the grade filter; the listing is an order-preserving subsequence |
| InventoryTable.SurplusAndNormalPartitionAll | src/components/inventory/InventoryTable.tsx:77-88 | The "surplus" and "normal" views are disjoint and their lengths add up to the unfiltered view's |
| InventoryTable.UnfilteredShowsAll | src/components/inventory/InventoryTable.tsx:77-88 | Empty search with filter "all" lists every row in order |
| InventoryTable.PageIsContiguousSlice | src/components/inventory/InventoryTable.tsx:90-92 | A page is the run of at most five rows from its start index, non-empty iff the page number is at most the page count |
| InventoryTable.PagesUpToIsPrefix | src/components/inventory/InventoryTable.tsx:91-92 | Pages 1..k read in turn are the first 5k rows: nothing skipped or repeated |
| InventoryTable.PagesCoverList | src/components/inventory/InventoryTable.tsx:90-92 | All pages together are exactly the filtered list |
| InventoryTable.PageControls | src/components/inventory/InventoryTable.tsx:181-200 | Previous never goes below 1, Next never past the last page, and each undoes the other inside the range |
| InventoryTable.FooterCountsPage | src/components/inventory/InventoryTable.tsx:210 | The footer range is well-formed iff the current page exists, and then counts the rows shown |
| InventoryTable.InventoryTableState.constructor | src/components/inventory/InventoryTable.tsx:65-67 | Starts with an empty search, filter "all", page 1 |
| InventoryTable.InventoryTableState.SetSearchTerm | src/components/inventory/InventoryTable.tsx:65 | Sets the search only; the current page is kept |
| InventoryTable.InventoryTableState.SetStatusFilter | src/components/inventory/InventoryTable.tsx:66 | Sets the grade filter only; the current page is kept |
| InventoryTable.InventoryTableState.Previous | src/components/inventory/InventoryTable.tsx:175-181 | Only with the bar shown (more than one page): moves to max(1, page − 1), strictly down unless already on page 1; the page stays at least 1 |
| InventoryTable.InventoryTableState.Next | src/components/inventory/InventoryTable.tsx:175-200 | Only with the bar shown (more than one page): moves to min(page count, page + 1), never past the last page; the page stays at least 1 |
| InventoryTable.InventoryTableState.GoToPage | src/components/inventory/InventoryTable.tsx:175-189 | Only with the bar shown, and for a link number in 1..page count: sets that page, which then shows at least one row |
| RedistributionTable.FilteredRedistributions | src/components/redistribution/RedistributionTable.tsx:115-128 | The rows passing the search, status, item and tab tests; membership and order are FilteredMembers |
| RedistributionTable.CancelById | src/components/redistribution/RedistributionTable.tsx:132-138 | The rows with the id get status Cancelled; CancelByIdEffect and CancelIdempotent state the effect |
| RedistributionTable.RescheduleById | src/components/redistribution/RedistributionTable.tsx:149-155 | The rows with the id get the new date and time; RescheduleByIdEffect states the effect |
| RedistributionTable.UniqueItems | src/components/redistribution/RedistributionTable.tsx:167 | The distinct item names in first-occurrence order; UniqueItemsAreDistinct states all four properties |
| RedistributionTable.RowActions | src/components/redistribution/RedistributionTable.tsx:258-275 | Cancel, Reschedule and Edit Route for a Scheduled row, none otherwise; ActionsOnlyWhenScheduled and CancelledRowsOfferNothing state it |
| RedistributionTable.FilteredMembers | src/components/redistribution/RedistributionTable.tsx:115-128 | A row is listed iff it passes search, status, item and tab tests; order is kept |
| RedistributionTable.TabMapping | src/components/redistribution/RedistributionTable.tsx:122-125 | Each tab shows exactly one status; an in-transit row shows only under "all" |
| RedistributionTable.DefaultFiltersShowAll | src/components/redistribution/RedistributionTable.tsx:115-128 | Empty search with every filter at "all" lists the whole schedule |
| RedistributionTable.CancelByIdEffect | src/components/redistribution/RedistributionTable.tsx:132-138 | Cancelling sets status Cancelled on the rows with that id only; length, order and all else unchanged |
| RedistributionTable.CancelIdempotent | src/components/redistribution/RedistributionTable.tsx:132-138 | Cancelling twice equals cancelling once |
| RedistributionTable.CancelledRowsOfferNothing | src/components/redistribution/RedistributionTable.tsx:258-275 | After a cancel the row's action menu is empty |
| RedistributionTable.RescheduleByIdEffect | src/components/redistribution/RedistributionTable.tsx:149-155 | Rescheduling changes date and time of the rows with that id only |
| RedistributionTable.ZeroIdIsNeverApplied | src/components/redistribution/RedistributionTable.tsx:130-165 | A pending id that is `null` or `0` changes nothing, for cancel and reschedule |
| RedistributionTable.ActionsOnlyWhenScheduled | src/components/redistribution/RedistributionTable.tsx:258-275 | A row offers actions (and Cancel) iff it is Scheduled |
| RedistributionTable.UniqueItemsAreDistinct | src/components/redistribution/RedistributionTable.tsx:167 | The item-filter names are distinct, cover every row's name, contain nothing else, and follow first-occurrence order |
| RedistributionTable.RedistributionTableState.constructor | src/components/redistribution/RedistributionTable.tsx:95-110 | Starts with the given schedule, empty search, filters at "all", dialogs closed, empty reschedule form, and lists everything |
| RedistributionTable.RedistributionTableState.SetSearchTerm | src/components/redistribution/RedistributionTable.tsx:97 | Sets the search only |
| RedistributionTable.RedistributionTableState.SetStatusFilter | src/components/redistribution/RedistributionTable.tsx:98 | Sets the status filter only |
| RedistributionTable.RedistributionTableState.SetItemFilter | src/components/redistribution/RedistributionTable.tsx:99 | Sets the item filter only |
| RedistributionTable.RedistributionTableState.SetSelectedTab | src/components/redistribution/RedistributionTable.tsx:100 | Sets the tab only |
| RedistributionTable.RedistributionTableState.OpenCancel | src/components/redistribution/RedistributionTable.tsx:260 | Opens the cancel dialog for that id; nothing else changes |
| RedistributionTable.RedistributionTableState.OpenReschedule | src/components/redistribution/RedistributionTable.tsx:263 | Opens the reschedule dialog for that id; nothing else changes |
| RedistributionTable.RedistributionTableState.OpenEditRoute | src/components/redistribution/RedistributionTable.tsx:266 | Opens the edit-route dialog for that id; nothing else changes |
| RedistributionTable.RedistributionTableState.CancelDialogChange | src/components/redistribution/RedistributionTable.tsx:288 | Sets the dialog's visibility and drops its pending id |
| RedistributionTable.RedistributionTableState.RescheduleDialogChange | src/components/redistribution/RedistributionTable.tsx:308 | Sets visibility, drops the pending id, keeps the typed form |
| RedistributionTable.RedistributionTableState.EditRouteDialogChange | src/components/redistribution/RedistributionTable.tsx:366 | Sets visibility and drops the pending id |
| RedistributionTable.RedistributionTableState.SetRescheduleDate | src/components/redistribution/RedistributionTable.tsx:108 | Sets the picked day only |
| RedistributionTable.RedistributionTableState.SetRescheduleTime | src/components/redistribution/RedistributionTable.tsx:109 | Sets the time only |
| RedistributionTable.RedistributionTableState.SetRescheduleNotes | src/components/redistribution/RedistributionTable.tsx:110 | Sets the notes only |
| RedistributionTable.RedistributionTableState.HandleCancelRedistribution | src/components/redistribution/RedistributionTable.tsx:130-145 | With a truthy pending id cancels those rows and closes the dialog (toast); otherwise nothing changes |
| RedistributionTable.RedistributionTableState.HandleReschedule | src/components/redistribution/RedistributionTable.tsx:147-165 | With a truthy id, a day and a time, reschedules those rows, closes the dialog and clears its form; otherwise nothing changes. The toast fires only when the dialog's confirm button was enabled, which needs a day and a time |
| RedistributionTable.RedistributionTableState.SaveRouteChanges | src/components/redistribution/RedistributionTable.tsx:418-424 | Closes the edit-route dialog; the schedule is unchanged |
| AlertsPanel.MarkAsRead | src/components/alerts/AlertsPanel.tsx:89-92 | The alerts with the id become read; MarkAsReadEffect, MarkAsReadIdempotent and MarkAsReadLowersUnread state the effect |
| AlertsPanel.MarkAllAsRead | src/components/alerts/AlertsPanel.tsx:99-101 | Every alert becomes read; MarkAllAsReadEffect states the effect |
| AlertsPanel.DeleteAlert | src/components/alerts/AlertsPanel.tsx:107-109 | The alerts without the id, in order; DeleteAlertEffect and DeleteAbsentIsNoOp state the effect |
| AlertsPanel.UnreadCount | src/components/alerts/AlertsPanel.tsx:115 | The number of unread alerts; UnreadCountBounded bounds it and MarkAsReadLowersUnread tracks it |
| AlertsPanel.MarkAsReadEffect | src/components/alerts/AlertsPanel.tsx:89-92 | Only alerts with the id become read; length, order and other fields unchanged |
| AlertsPanel.MarkAsReadIdempotent | src/components/alerts/AlertsPanel.tsx:89-92 | Marking read twice equals once |
| AlertsPanel.MarkAsReadLowersUnread | src/components/alerts/AlertsPanel.tsx:89-115 | The unread count never rises, and strictly falls when an unread alert has the id |
| AlertsPanel.MarkAllAsReadEffect | src/components/alerts/AlertsPanel.tsx:99-101 | Every alert becomes read with other fields kept; the unread count is 0 and "Mark all" disappears |
| AlertsPanel.DeleteAlertEffect | src/components/alerts/AlertsPanel.tsx:107-109 | Exactly the alerts with the id are removed, the rest keep their order, and the length drops by their number |
| AlertsPanel.DeleteAbsentIsNoOp | src/components/alerts/AlertsPanel.tsx:107-109 | Deleting an id no alert has changes nothing |
| AlertsPanel.UnreadCountBounded | src/components/alerts/AlertsPanel.tsx:115-193 | The unread count is at most the list length, 0 iff all are read, and "Mark all" never shows beside the empty state |
| AlertsPanel.AlertsPanelState.constructor | src/components/alerts/AlertsPanel.tsx:86 | The panel starts with the given alert list |
| AlertsPanel.AlertsPanelState.MarkOneAsRead | src/components/alerts/AlertsPanel.tsx:89-92 | The list becomes its mark-read image; unread count does not rise |
| AlertsPanel.AlertsPanelState.MarkEveryAsRead | src/components/alerts/AlertsPanel.tsx:99-101 | The list becomes all read; unread count 0 |
| AlertsPanel.AlertsPanelState.Delete | src/components/alerts/AlertsPanel.tsx:107-109 | The list loses the alerts with the id |
| TransactionTable.FilteredTransactions | src/components/transactions/TransactionTable.tsx:120-129 | The records kept by the case-insensitive search and the status filter; FilteredMembers and NoResultsIffNoneMatch state which |
| TransactionTable.FilteredMembers | src/components/transactions/TransactionTable.tsx:120-129 | A record is listed iff the search occurs (ignoring case) in item, from, to or id and the status filter matches; order kept |
| TransactionTable.DefaultFiltersShowAll | src/components/transactions/TransactionTable.tsx:120-129 | Empty search with "all" lists every record |
| TransactionTable.NoResultsIffNoneMatch | src/components/transactions/TransactionTable.tsx:236 | "No transactions found" shows iff no record passes |
| TransactionTable.UppercaseFilterMatchesNothing | src/components/transactions/TransactionTable.tsx:126 | Only the record's status is lowercased; a filter value containing an uppercase letter (other than "all") matches nothing |
| TransactionTable.StatusFilterOptions | src/components/transactions/TransactionTable.tsx:126 | The offered values "confirmed", "pending", "failed" select the statuses written "Confirmed", "Pending", "Failed" |
| CreateRedistributionForm.IsFormValid | src/components/redistribution/CreateRedistributionForm.tsx:50 | All six inputs are truthy; EveryInputIsRequired and SameBranchCanBeValid state what it does and does not require |
| CreateRedistributionForm.DestinationOptions | src/components/redistribution/CreateRedistributionForm.tsx:132 | The branch list without the sender; DestinationOptionsMembers and DestinationOptionsUnknownSender state its contents |
| CreateRedistributionForm.Submit | src/components/redistribution/CreateRedistributionForm.tsx:52-72 | Refuses with the missing-fields toast iff the form is invalid; otherwise schedules exactly the chosen item, branches, date and time |
| CreateRedistributionForm.InitialDraftIsInvalid | src/components/redistribution/CreateRedistributionForm.tsx:40-50 | The initial state is invalid and its submit only toasts |
| CreateRedistributionForm.SameBranchCanBeValid | src/components/redistribution/CreateRedistributionForm.tsx:50 | Validity does not require from ≠ to |
| CreateRedistributionForm.EveryInputIsRequired | src/components/redistribution/CreateRedistributionForm.tsx:50 | Clearing any one of the six inputs makes the form invalid |
| CreateRedistributionForm.DestinationOptionsMembers | src/components/redistribution/CreateRedistributionForm.tsx:132 | Destinations are the branches other than the sender, in branch order; the sender is never offered |
| CreateRedistributionForm.DestinationOptionsUnknownSender | src/components/redistribution/CreateRedistributionForm.tsx:132 | A sender outside the branch list removes nothing |
| CreateRedistributionForm.CreateRedistributionFormState.constructor | src/components/redistribution/CreateRedistributionForm.tsx:40-45 | Starts from "Main Branch" with everything else empty |
| CreateRedistributionForm.CreateRedistributionFormState.SetSelectedItem | src/components/redistribution/CreateRedistributionForm.tsx:98 | Changes the item only |
| CreateRedistributionForm.CreateRedistributionFormState.SetFromBranch | src/components/redistribution/CreateRedistributionForm.tsx:113 | Changes the sender only (a chosen destination is kept) |
| CreateRedistributionForm.CreateRedistributionFormState.SetToBranch | src/components/redistribution/CreateRedistributionForm.tsx:127 | Changes the destination only |
| CreateRedistributionForm.CreateRedistributionFormState.SetSelectedDate | src/components/redistribution/CreateRedistributionForm.tsx:170 | Changes the date only |
| CreateRedistributionForm.CreateRedistributionFormState.SetSelectedTime | src/components/redistribution/CreateRedistributionForm.tsx:181 | Changes the time only |
| CreateRedistributionForm.CreateRedistributionFormState.SetQuantity | src/components/redistribution/CreateRedistributionForm.tsx:146 | Changes the quantity only |
| CreateRedistributionForm.CreateRedistributionFormState.HandleSubmit | src/components/redistribution/CreateRedistributionForm.tsx:52-72 | The outcome is the submit of the current inputs, and it is the refusal exactly when the submit button is disabled |
| CreateBranchForm.Set | src/components/distribution/CreateBranchForm.tsx:29-34 | The named field takes the value; the other ten keep theirs |
| CreateBranchForm.SetToCurrentIsNoOp | src/components/distribution/CreateBranchForm.tsx:29-34 | Writing a field's own value back changes nothing |
| CreateBranchForm.HasRequired | src/components/distribution/CreateBranchForm.tsx:40 | Branch name, branch type and address are non-empty; HasRequiredMeansNoRequiredFieldEmpty and ValidityDependsOnlyOnRequired state it field by field |
| CreateBranchForm.ValidityDependsOnlyOnRequired | src/components/distribution/CreateBranchForm.tsx:40 | Records agreeing on branch name, type and address are accepted alike |
| CreateBranchForm.OptionalFieldsDoNotMatter | src/components/distribution/CreateBranchForm.tsx:40 | Editing an optional field never changes `handleSubmit`'s verdict |
| CreateBranchForm.HasRequiredMeansNoRequiredFieldEmpty | src/components/distribution/CreateBranchForm.tsx:40 | Accepted iff no required field is empty |
| CreateBranchForm.EmptyIsRejected | src/components/distribution/CreateBranchForm.tsx:13-47 | The all-empty record, and one with only a name, are rejected |
| CreateBranchForm.CreateBranchFormState.constructor | src/components/distribution/CreateBranchForm.tsx:13-25 | Starts with all eleven fields empty |
| CreateBranchForm.CreateBranchFormState.HandleInputChange | src/components/distribution/CreateBranchForm.tsx:29-34 | Changes exactly the named field |
| CreateBranchForm.CreateBranchFormState.HandleSubmit | src/components/distribution/CreateBranchForm.tsx:36-68 | Accepted iff the three required fields are filled; accepted clears all fields, refused keeps them |
| RedistributionForm.MaxQuantity | src/components/redistribution/RedistributionForm.tsx:57 | The slider bound is the item's stock, or 100 when there is no item or its stock is 0 |
| RedistributionForm.SelectedItemData | src/components/redistribution/RedistributionForm.tsx:54 | The first item whose id text equals the selection; SelectById, UnknownSelection and NoItemHasEmptyIdText state what it finds |
| RedistributionForm.SelectById | src/components/redistribution/RedistributionForm.tsx:54-57 | With distinct ids, selecting an item's id text finds that item, and the bound follows its stock |
| RedistributionForm.UnknownSelection | src/components/redistribution/RedistributionForm.tsx:54-57 | A selection matching no id finds nothing and the bound is 100 |
| RedistributionForm.QuantityInput | src/components/redistribution/RedistributionForm.tsx:149 | Text without digits becomes 0 and blocks the submit; the shown number typed back reads as itself |
| RedistributionForm.NoItemHasEmptyIdText | src/components/redistribution/RedistributionForm.tsx:54 | The cleared selection finds no item |
| RedistributionForm.RedistributionFormState.constructor | src/components/redistribution/RedistributionForm.tsx:49-52 | Starts with no item, no destination, quantity 50, not processing |
| RedistributionForm.RedistributionFormState.SetSelectedItem | src/components/redistribution/RedistributionForm.tsx:93 | Changes the item only |
| RedistributionForm.RedistributionFormState.SetSelectedDestination | src/components/redistribution/RedistributionForm.tsx:110 | Changes the destination only |
| RedistributionForm.RedistributionFormState.SetQuantityFromSlider | src/components/redistribution/RedistributionForm.tsx:140 | Sets the quantity to the slider value |
| RedistributionForm.RedistributionFormState.SetQuantityFromInput | src/components/redistribution/RedistributionForm.tsx:149 | Sets the quantity to `parseInt(text) \|\| 0` |
| RedistributionForm.RedistributionFormState.BeginSubmit | src/components/redistribution/RedistributionForm.tsx:62-65 | Starts processing iff an item and destination are chosen and the quantity is non-zero; otherwise nothing changes |
| RedistributionForm.RedistributionFormState.CompleteSubmit | src/components/redistribution/RedistributionForm.tsx:70-75 | Ends processing and clears to no item, no destination, quantity 50, leaving the confirm button disabled and the quantity slider and the summary hidden |
| ReportsExports.SelectedCount | src/components/settings/ReportsExports.tsx:31 | The count of ticked options is at most 3 and 0 iff none is ticked |
| ReportsExports.Step | src/components/settings/ReportsExports.tsx:47-57 | One firing of the interval updater; StepKeepsValid and ProgressSchedule state its effect |
| ReportsExports.AfterTicks | src/components/settings/ReportsExports.tsx:46-59 | The state after a number of firings; ProgressSchedule, ReadyOnSixthTick and AfterTicksValid state it |
| ReportsExports.StepKeepsValid | src/components/settings/ReportsExports.tsx:47-57 | A timer step keeps progress a multiple of 20 in 0..100, the timer running iff generating, and never lowers progress |
| ReportsExports.ProgressSchedule | src/components/settings/ReportsExports.tsx:42-59 | From the start, the k-th step shows 20k while k ≤ 5, and from the sixth step generation is over at 100 |
| ReportsExports.ReadyOnSixthTick | src/components/settings/ReportsExports.tsx:47-57 | The ready toast fires on the sixth step only; progress never passes 100; generating lasts through the fifth step |
| ReportsExports.AfterTicksValid | src/components/settings/ReportsExports.tsx:46-59 | Any run of steps from a valid state stays valid and never lowers progress |
| ReportsExports.ReportsExportsState.constructor | src/components/settings/ReportsExports.tsx:22-28 | Starts with no option ticked and no export running |
| ReportsExports.ReportsExportsState.HandleExport | src/components/settings/ReportsExports.tsx:30-44 | With no option, the error toast and no change; otherwise generating starts from 0 |
| ReportsExports.ReportsExportsState.Tick | src/components/settings/ReportsExports.tsx:46-59 | Applies one timer step; reports ready exactly on the step that stops the timer |
| ReportsExports.ReportsExportsState.SetInventoryLog | src/components/settings/ReportsExports.tsx:136-137 | Changes that option only |
| ReportsExports.ReportsExportsState.SetRedistributionHistory | src/components/settings/ReportsExports.tsx:146-147 | Changes that option only |
| ReportsExports.ReportsExportsState.SetFinancialReport | src/components/settings/ReportsExports.tsx:156-157 | Changes that option only |
| Seqs.Filter | src/components/transactions/TransactionTable.tsx:120 | `filter` keeps only passing elements, keeps every passing element, and never grows |
| Seqs.Dedup | src/components/redistribution/RedistributionTable.tsx:167 | `Array.from(new Set(xs))` has each value of xs exactly once and nothing else |
| Seqs.FindFirst | src/components/redistribution/RedistributionForm.tsx:54 | `find` returns nothing iff no element passes, and otherwise a passing element of the sequence |
| Seqs.FindFirstAt | src/components/redistribution/RedistributionForm.tsx:54 | `find` returns the element at the first passing position |
| Text.Lower | src/components/transactions/TransactionTable.tsx:121-126 | ASCII `toLowerCase`: the same length, each capital A–Z becomes the small letter at the same alphabet position, every other character kept as it is, so no capital is left |
| Text.LowerIdempotent | src/components/transactions/TransactionTable.tsx:121-126 | Lowercasing twice is lowercasing once |
| Text.Contains | src/components/transactions/TransactionTable.tsx:121-124 | `includes`; ContainsAt proves it equivalent to an occurrence at some offset |
| Text.ContainsAt | src/components/transactions/TransactionTable.tsx:121-124 | `includes` holds iff the term sits at some offset |
| Text.ParseIntOrZero | src/components/redistribution/RedistributionForm.tsx:149 | `parseInt(text) \|\| 0` in base ten; ParseIntOfIntToString and ParseIntWithoutDigits state how it reads |
| Text.ParseIntOfIntToString | src/components/redistribution/RedistributionForm.tsx:149 | `parseInt(String(n)) \|\| 0` is n |
| Text.IntToStringInjective | src/components/redistribution/RedistributionForm.tsx:54 | Distinct ids have distinct `toString` texts |
| Text.ParseIntWithoutDigits | src/components/redistribution/RedistributionForm.tsx:149 | Text with no digit reads as 0 |

## Left out

- Toasts, router navigation, clipboard writes and console logging have no state the model keeps. Where a toast or navigation depends on a condition, the model records whether it happens, as a returned outcome or flag, and nothing of its text. AlertsPanel's three toasts (AlertsPanel.tsx:92, :100, :108) fire unconditionally with their handlers, so nothing about them is recorded.
- Rendering follows the code's branch conditions, which are modelled as predicates. Markup, CSS classes, colour and icon mappings (`getStatusColor`, `getStatusVariant`, `getPriorityColor`, `getAlertIcon`, `getDepletionIndicator`) are not modelled.
- Floating-point display is not modelled:
  - `toFixed`;
  - the supply-level progress percentage (`Math.min(q / over * 100, 100)`);
  - RedistributionForm's `estimatedCost` (`parseFloat` of the savings text) and its gas fee.
  Quantities and prices are integers, as in all the data.
- Dates and the clock are not modelled:
  - `date-fns` `format`;
  - `toISOString().split('T')[0]` and `toLocaleDateString()`. The reschedule day is held as its already formatted text.
  - the calendars' "no past dates" guard, which reads the current time;
  - ReportsExports' `dateRange`, which no computation reads.
- Timers are not modelled as such. `setInterval` is one `Tick` call per firing, and RedistributionForm's two-second `await` is the split between `BeginSubmit` and `CompleteSubmit`.
- InventorySummaryCard.FinancialPanelShown: the card's expand/collapse toggle (`isExpanded`, closed at first) is not modelled. The financial panel, the smart prompt and "Redistribute Now" all sit inside the collapsible content, so `FinancialPanelShown`, `RedistributeNowShown` and the lemmas about them give the conditions inside the expanded card.
- CreateBranchForm.CreateBranchFormState.HandleSubmit: models `handleSubmit` alone. The browser's own form validation runs first and is not modelled: the `required` branch-name and address inputs and the `type="email"` input can stop a submit before `handleSubmit` runs, so in the page an empty name or address, or a malformed e-mail, blocks the submit without the "Missing Required Fields" toast.
- ReportsExports.ReportsExportsState.HandleExport: requires that no export is running. The only caller is the generate button, which is disabled while generating. A second interval started during generation is not modelled.
- InventoryTable.InventoryTableState.Previous: Previous, Next and GoToPage require that the pagination bar is shown, because it is rendered only when there is more than one page (InventoryTable.tsx:175). GoToPage also requires a link number between 1 and the page count (InventoryTable.tsx:186). A search or filter change keeps the current page, so the page can still lie past the new last page; the model keeps that, and asks only that the page stays at least 1.
- Text.Lower: lowercases ASCII letters only. JavaScript's full Unicode `toLowerCase` is not modelled.
- Text.ParseIntOrZero: reads base ten only. The `0x` hexadecimal prefix is not read, and the Unicode space separators beyond those listed are not skipped. Very long digit strings read exactly, whereas JavaScript rounds them to a float.
- RedistributionForm.RedistributionFormState: the quantity is the single number in the slider's one-element array.
- CreateBranchForm.CreateBranchFormState.HandleInputChange: the field name is one of the eleven inputs. A key outside them, which would add a new property, is not modelled.
- Display-only fields are dropped: item units, depletion rate, last-updated text, and the destinations' distance, demand and ETA beyond being carried along.
- The dashboard widgets, the page shells, the navigation bars and the settings forms other than report export are static layout and are not part of this model.
- The redistribution history view is not part of this model.
