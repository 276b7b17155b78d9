# Coconut-flower distribution: the bookkeeping engine

The model covers the ledger and inventory engine of a small flower-distribution
app. Shops take deliveries of flowers. Each delivery is one transaction row:
flowers sold, rate, cash received, replaced flowers, date, and a stored
`outstandingBalance`. Stock is kept in two counters: the godown (bulk store) and
the stock in hand (`availableStock`). The app exists in two versions, and each
is modelled as its own `Store` class:

- `app/page.tsx`, the database-backed version: module `AppStore`.
- `page.tsx`, the older browser-storage version: module `LegacyStore`.

Code the two versions share word for word lives in module `Ledger`:

- the entities;
- shop validation and edit;
- the sale row and the date-ordered ledger after a sale;
- the balance queries;
- the period summary;
- the delivery window.

Module `Seqs` has the generic `filter`/`map`/`reduce` and the stable sort
(`Array.prototype.sort` is stable), together with their lemmas. Module
`Wrappers` holds `Option`.

Modelling conventions:

- Dates are integer timestamps. Money is exact (`real`). Counts are `nat`. The
  two stock counters are `int`, because the source never stops the godown from
  going negative.
- Anything that reads the clock or the calendar takes its value as a parameter:
  - "now";
  - the start of a period or a trend window;
  - the calendar day of a timestamp (`dayOf`);
  - a fresh id (`Date.now()` in the source). For a new shop or stock movement, a precondition requires that the id is unused; a sale row takes the id as given.
- The store actions are methods that reassign the class's `seq` and counter
  fields. Each state-changing method states the whole new state.

The main facts proved:

- the running-balance invariant under each version's `updateTransaction`;
- the tie behaviour by which the two versions differ;
- the backdated-sale behaviour of `recordSale` as written;
- stock conservation on a transfer;
- "a refused sale changes nothing";
- what each query returns.

## Model

| member | source | states |
|---|---|---|
| Ledger.TrimStart | app/page.tsx:157 | the result is a suffix of the input, everything cut off is white space, and it does not start with white space |
| Ledger.TrimEnd | app/page.tsx:157 | the result is a prefix of the input, everything cut off is white space, and it does not end with white space |
| Ledger.TrimCutsEdges | app/page.tsx:157 | `trim()` cuts white space off both ends and nothing else: the result is a slice of the field with only white space around it, is empty exactly when the field is all white space, and has no white space at either end |
| Ledger.DraftCompleteIffVisible | page.tsx:109 | the addShop guard holds exactly when name, owner, phone and address each have a visible character |
| Ledger.ReplaceShop | app/page.tsx:168-173 | same length; every shop with the edited id becomes the edited shop and every other shop is kept |
| Ledger.ShopFromDraft | app/page.tsx:158-161 | the new shop carries the fresh id, and its other fields are exactly the draft's |
| Ledger.FindShop | page.tsx:851 | `find` returns nothing exactly when no shop has the id; otherwise it returns the first shop with that id |
| Ledger.FindAfterReplace | page.tsx:120-125 | after updateShop, a lookup of the edited id finds the edited shop (if the id was present), and a lookup of any other id is unchanged |
| Ledger.ShopTransactions | app/page.tsx:251-255 | the shop's rows, in date order, as a permutation of the filtered rows: a row is present exactly when it is one of the shop's rows |
| Ledger.ShopBalance | app/page.tsx:234-239 | 0 for a shop without rows; otherwise the stored balance of the shop's latest row (the last one listed among rows sharing the latest date) |
| Ledger.HistoryIsStable | app/page.tsx:236-237 | in the date-sorted history, the rows sharing any one date keep their list order (the sort is stable) |
| Ledger.LastSaleRate | app/page.tsx:257-263 | nothing exactly when the shop has no rows; otherwise the rate of its latest row |
| Ledger.ShopsWithOutstanding | app/page.tsx:245-249 | exactly the shops with a balance above 0, as a permutation of the filtered list, in non-increasing balance order |
| Ledger.RunningBalanceIsNet | page.tsx:320-328 | when the shop's rows store running balances, its balance is the sum of `sold * rate - cash` over all its rows |
| Ledger.AppendFreshShop | app/page.tsx:158-162 | appending a shop under an unused id keeps the shop ids distinct |
| Ledger.OutstandingOfListedShops | app/page.tsx:241-243 | when ids are distinct and each balance is net, the total outstanding is the net billing of the rows of listed shops |
| Ledger.TotalOutstandingIsNet | app/page.tsx:241-243 | when every row belongs to a listed shop as well, the total outstanding is everything billed less all cash received |
| Ledger.TotalOutstanding | app/page.tsx:241-243 | 0 with no shops; not negative when no shop is in credit |
| Ledger.NewShopKeepsTotal | app/page.tsx:241-243 | a shop added under an id no row carries leaves the total outstanding as it was |
| Ledger.SaleRow | app/page.tsx:187-199 | the new row carries exactly the entered id, shop, flowers sold, rate, cash, date and replaced flowers, and stores getShopBalance plus `sold * rate - cash` |
| Ledger.SaleLedger | app/page.tsx:201-203 | the list gains exactly one row and is in date order |
| Ledger.SaleLedgerPermutes | app/page.tsx:201-203 | as a multiset the new list is the old list plus the sale row; a row is in it exactly when it was in the old list or is the sale row |
| Ledger.SaleLedgerSplit | app/page.tsx:201-203 | on a date-ordered list, the new row goes after every row dated on or before it and before every later row, and nothing else moves |
| Ledger.ShopTransactionsAfterSale | app/page.tsx:187-203 | the sale's shop gets the new row inserted into its history by date; every other shop's history is unchanged |
| Ledger.SalePreservesRunningBalance | app/page.tsx:187-203 | a sale dated no earlier than any row of its shop keeps every shop's running balances |
| Ledger.HistoryOfOneShop | app/page.tsx:251-255 | a date-ordered list of one shop's rows is that shop's history |
| Ledger.BackdatedSaleKeepsLaterBalances | app/page.tsx:187-203 | a day-1 sale before balanced day-2 and day-3 rows stores 1000, goes first, and leaves the later balances as they were, so the running balance breaks |
| Ledger.BackdatedRowGoesFirst | page.tsx:152-153 | a row dated before two date-ordered rows is sorted in front of both |
| Ledger.BackdatedLedgerUnbalanced | page.tsx:139-154 | if a first-dated row is not counted in its successor's stored balance, the shop's running balance fails |
| Ledger.PeriodRows | app/page.tsx:293-295 | a row is counted exactly when it is dated at or after the period start and belongs to the requested shop (any shop when none is given); the list order is kept |
| Ledger.Summarize | app/page.tsx:297-309 | the total sold, total amount and total received are the sums over the rows; balance = amount - received = net billing; when the total sold is positive, average price * (sold + replaced) = amount; otherwise the average price is 0 |
| Ledger.ReplacedFlowersDiluteAveragePrice | page.tsx:247-259 | 10 flowers at 40 with 2 replaced: amount 400, average price 400/12, balance 400 |
| Ledger.PeriodSummary | page.tsx:228-261 | the total sold and the balance are the sums, over the whole list, of each row's flowers sold and `sold * rate - cash` when it is in the period and of the shop, and 0 otherwise |
| Ledger.TrendWindow | app/page.tsx:445-446 | the trend window holds exactly the shop's rows dated within [start, end], in date order |
| AppStore.EditedOrder | app/page.tsx:383-391 | date-ordered, and a multiset of the rows without the edited id plus the edited row |
| AppStore.EditedOrderLength | app/page.tsx:383-387 | the length is the old length, less the rows carrying the edited id, plus one |
| AppStore.GroupedSnoc | app/page.tsx:417 | one push step of groupBy keeps "each shop's group holds its rows in list order, and only shops present have groups" |
| AppStore.GroupByShop | app/page.tsx:415-420 | the map has an entry exactly for each shop present, holding that shop's rows in list order |
| AppStore.RecalculateAll | app/page.tsx:396-408 | given the list's own groups, every row keeps its delivery, stores the sum over its shop's rows dated on or before its date, and date order is kept |
| AppStore.RecalculationBalanced | app/page.tsx:396-408 | rows each recalculated from their shop's group carry the same deliveries, satisfy the app's balance rule, and keep date order |
| AppStore.RecalculateBalances | app/page.tsx:394-411 | the returned list has the input's deliveries, satisfies the app's balance rule, and is date-ordered when the input was |
| AppStore.UpToDatePrefix | app/page.tsx:398 | in a date-ordered history, the rows dated on or before a row strictly earlier than every later row are the prefix ending at it |
| AppStore.AppRowIsRunning | app/page.tsx:396-408 | under the app's rule, a row dated strictly before every later row of its shop stores the running balance |
| AppStore.AppBalancedIsRunning | app/page.tsx:396-408 | when a shop has at most one row per date, the app's rule is the strict running balance |
| AppStore.TiedRowsBreakRunningBalance | app/page.tsx:396-408 | two rows of a shop on the same date both store the pair's combined balance, so the earlier row does not store its running balance |
| AppStore.CumulativePoints | app/page.tsx:448-457 | one point per row: its date, flowers sold, the running total of flowers sold and its amount; the totals never decrease, and the last one is the window's total |
| AppStore.DeliveryTrends | app/page.tsx:422-458 | the points follow the shop's window rows in order; dates and cumulative quantities never decrease, and the last cumulative is the window's total of flowers sold |
| AppStore.FilteredTransactions | app/page.tsx:531-561 | an explicit range wins and keeps exactly the rows within it; "all" returns the input unchanged; a trailing period keeps exactly the rows between its start and now; never longer than the input, and the list order is kept |
| AppStore.FilteredAndSorted | app/page.tsx:563-581 | exactly the rows on the day, within the bounds and of the shop, as a permutation of the filtered rows in date order |
| AppStore.SummarizeTransactions | app/page.tsx:583-595 | the total flowers, total amount and total received are the sums over the rows; amount - received = net billing; average rate * count = sum of rates (0 for no rows); the outstanding figure is the last row's balance (0 for no rows) |
| AppStore.HistorySummaryOutstanding | app/page.tsx:583-595 | over a shop's history, the summary's outstanding is the shop's balance, and under the running balance it is amount - received |
| AppStore.MovementsInRange | app/page.tsx:1089-1095 | exactly the movements within the picked dates, as a permutation of the filtered list in date order |
| AppStore.AddedByKind | app/page.tsx:1152-1157 | the total of one kind plus the total of the other kinds is the total quantity of the listed movements |
| AppStore.AddedByKindPartition | app/page.tsx:1152-1157 | the godown total and the stock-in-hand total add up to the total quantity of the listed movements |
| AppStore.TodaySales | app/page.tsx:657-659 | the sum over all rows of the flowers sold if the row is dated today and 0 otherwise; never more than the flowers sold altogether |
| AppStore.BumpFlowersSold | app/page.tsx:313-318 | the box grows by exactly the button's value; a box not holding a number counts as 0 |
| AppStore.AfterPressesIsSum | app/page.tsx:313-318 | pressing buttons in turn leaves the box at what it held (0 if not a number) plus the sum of their values |
| AppStore.Store.constructor | app/page.tsx:58-62 | the empty store: no shops, rows or movements, and both counters at 0 |
| AppStore.Store.AddShop | app/page.tsx:156-166 | a complete draft is appended under the fresh id; an incomplete one changes nothing; ids stay distinct; nothing else changes |
| AppStore.Store.UpdateShop | app/page.tsx:168-173 | with a shop under edit, the shops become ReplaceShop of the old list; otherwise nothing changes; no other field changes |
| AppStore.Store.RecordSale | app/page.tsx:175-207 | refused exactly when sold > stock in hand, and then nothing changes; otherwise the list is the date-ordered old list plus the sale row, one longer, and the stock in hand is `stock - sold + replaced`; the godown is unchanged |
| AppStore.Store.AddFlowersFromFarm | app/page.tsx:209-232 | the movement joins the log, which grows by one and stays date-ordered; a transfer moves the quantity from godown to hand, conserving the sum; a godown delivery adds it to the godown only |
| AppStore.Store.UpdateTransaction | app/page.tsx:378-413 | with a row under edit, the list holds the deliveries of EditedOrder, date-ordered and balanced by the app's rule; otherwise nothing changes; no other field changes |
| LegacyStore.ReplaceRow | page.tsx:312-317 | same length and ids; every row with the edited id becomes the edited row and every other row is kept |
| LegacyStore.ShopView | page.tsx:320-322 | distinct positions, exactly those of the shop's rows |
| LegacyStore.ShopIndicesAreRows | page.tsx:320-321 | reading the positions of the shop's rows, in order, gives the filtered rows |
| LegacyStore.ViewIsHistory | page.tsx:320-322 | reading the view's positions gives the shop's date-ordered history |
| LegacyStore.ViewSameBookings | page.tsx:320-322 | lists equal apart from balances have equal views |
| LegacyStore.ChainAlongPositions | page.tsx:324-328 | rows at positions storing the running sums along those positions form a running chain |
| LegacyStore.ViewChainBalanced | page.tsx:324-328 | balances the loop writes along the view make the shop's history store running balances |
| LegacyStore.Rebalance | page.tsx:318-328 | only balances change, no row of another shop changes, and the shop's date-ordered rows store strict running sums |
| LegacyStore.WriteStep | page.tsx:325-327 | one turn of the `forEach` extends the running sum and keeps the visited rows' balances |
| LegacyStore.SetBalance | page.tsx:327 | only the balance of the one row object changes |
| LegacyStore.WriteRunningSums | page.tsx:323-328 | only balances change, rows outside the view are untouched, and each visited row stores the sum of the deltas up to and including it |
| LegacyStore.NextSortConfig | page.tsx:389-395 | the key is the requested one; descending exactly when the same key is currently ascending |
| LegacyStore.RequestSortToggles | page.tsx:389-395 | pressing a column that has just become ascending turns it descending, and pressing a descending column turns it ascending |
| LegacyStore.SortedTransactions | page.tsx:373-387 | with no column chosen, the list itself; otherwise a permutation ordered by the column, ascending or descending as chosen |
| LegacyStore.HistoryRows | page.tsx:849-862 | every kept row comes from the list and satisfies every filled rate and balance bound and the shop-name box; every row passing them is kept; the list order is kept |
| LegacyStore.RowsOnDay | page.tsx:765-767 | exactly the rows on the picked day, in the table's order |
| LegacyStore.DeliveryTrends | page.tsx:335-364 | point k is the date and flowers sold of the k-th row of the shop's window, so the points are dated within it, taken from rows of the shop, in non-decreasing date order |
| LegacyStore.Store.constructor | page.tsx:47-51 | the empty store of a first visit, with no column sort |
| LegacyStore.Store.AddShop | page.tsx:108-118 | a complete draft is appended under the fresh id; an incomplete one changes nothing; ids stay distinct; nothing else changes |
| LegacyStore.Store.UpdateShop | page.tsx:120-125 | with a shop under edit, the shops become ReplaceShop of the old list; otherwise nothing changes; no other field changes |
| LegacyStore.Store.RecordSale | page.tsx:127-159 | refused exactly when sold > stock in hand, and then nothing changes; otherwise the list is the date-ordered old list plus the sale row, and the stock in hand is `stock - sold + replaced`; the godown is unchanged |
| LegacyStore.Store.AddFlowersFromFarm | page.tsx:161-182 | the movement joins the farm log, which grows by one and stays date-ordered; a transfer conserves the sum of the counters; a godown delivery adds to the godown only |
| LegacyStore.Store.RequestSort | page.tsx:389-395 | the sort configuration becomes NextSortConfig of the old one; nothing else changes |
| LegacyStore.Store.UpdateTransaction | page.tsx:310-333 | with a row under edit, the list equals ReplaceRow apart from balances; other shops' rows are exactly ReplaceRow's; the shop's rows store running balances and its balance is its net billing; length and ids are kept |

## Left out

- Persistence and polling: the database load/save, the table creation, the five-second poll of `app/page.tsx`, and the browser storage of `page.tsx`. These are I/O and timers.
- Receipts, the XLSX export, print windows, all rendering and dialogs, geolocation and map links. These are output-only.
- Calendar and locale arithmetic:
  - `setDate`/`setMonth` windows become parameters (`periodStart`, `start`, `end`, `now`).
  - `toDateString` day matching is an uninterpreted `dayOf`.
  - Display formatting (`toLocaleDateString`, `toFixed`) is left out.
  - Trend points carry the row's timestamp rather than its formatted date.
- LegacyStore.HistoryRows: the shop-name search (`toLowerCase().includes`) is an arbitrary `nameMatches` relation. The model does not capture the case folding.
- `parseInt`/`parseFloat` and NaN: inputs arrive already parsed as non-negative numbers, and money is exact rather than floating point.
- The empty-form guards `flowersSold && rate && cashReceived` and `if (flowersFromFarm)` compare unparsed strings, and are not modelled. Each action is modelled as if its form was filled in.
- `Date.now()` ids become a `nat` parameter. For shops and stock movements, a precondition requires that it is not already in use. String ids are modelled as numbers. For the sort on the shop column this is the same order, because ids are same-length digit strings.
- LegacyStore.SortedTransactions: the dates the source compares are ISO strings, which are ordered as the timestamps here. The comparator is modelled by the stable sort on the column's value.
- The stale-closure issue of the movement-type buttons: the movement type is passed explicitly.
- The date-picker component: components/ui/date-picker.tsx is not part of this model.
- The app's copy of `sortedTransactions`/`requestSort` (app/page.tsx:460-481) is never used by that page. It is the same code as in `page.tsx`, and is modelled once, in LegacyStore.
- The app's `farmMovements` list is loaded and saved but no action changes it, so the app store does not hold it.
- LegacyStore.Store.UpdateTransaction: in the source, the rows are shared objects, so two rows carrying the same object would both change. The model writes each balance at its own position in the list.
- LegacyStore.Rebalance: the same aliasing point applies.
