/** The database-backed store of app/page.tsx: shops, the date-ordered
    transaction list with stored balances, the stock-movement log and the two
    stock counters, with one method per action, plus the app's own
    recalculation, trend, filter and summary code. */
module AppStore {
  import opened Wrappers
  import opened Seqs
  import opened Ledger

  /** One entry of the stock log: a delivery into the godown, or a transfer
      from the godown into the stock in hand. */
  datatype StockMovement = StockMovement(id: Id, kind: MovementType, quantity: int, date: int)

  datatype SaleOutcome = Recorded | NotEnoughStock

  function MoveDate(m: StockMovement): real { m.date as real }

  function MovementIds(ms: seq<StockMovement>): set<Id> { set m | m in ms :: m.id }

  // ------------------------------------------------------------------
  // updateTransaction and groupBy
  // ------------------------------------------------------------------

  function HasId(id: Id): Transaction -> bool { (t: Transaction) => t.id == id }

  function NotId(id: Id): Transaction -> bool { (t: Transaction) => t.id != id }

  /** The list updateTransaction recalculates: the edited row's id removed,
      the edited row appended, all sorted by date. */
  function EditedOrder(txs: seq<Transaction>, edited: Transaction): (r: seq<Transaction>)
    ensures Sorted(r, TxDate)
    ensures multiset(r) == multiset(Filter(txs, NotId(edited.id))) + multiset{edited}
    ensures forall t :: t in r <==> (t in txs && t.id != edited.id) || t == edited
  {
    SortBy(Filter(txs, NotId(edited.id)) + [edited], TxDate)
  }

  /** Every row carrying the edited id is replaced by the one edited row, so
      the list keeps its length exactly when that id was there once. */
  lemma EditedOrderLength(txs: seq<Transaction>, edited: Transaction)
    ensures |EditedOrder(txs, edited)| == |txs| - |Filter(txs, HasId(edited.id))| + 1
  {
    FilterCount(txs, HasId(edited.id), NotId(edited.id));
  }

  function UpToDate(date: int): Transaction -> bool { (t: Transaction) => t.date <= date }

  function ShopUpTo(shopId: Id, date: int): Transaction -> bool {
    (t: Transaction) => t.shopId == shopId && t.date <= date
  }

  /** The balance rule app/page.tsx recalculates with: every row stores the
      sum of `flowersSold * rate - cashReceived` over its shop's rows dated on
      or before it, rows sharing its date included. */
  predicate AppBalanced(txs: seq<Transaction>) {
    forall i {:trigger txs[i].outstandingBalance} :: 0 <= i < |txs| ==>
      txs[i].outstandingBalance == NetDelta(Filter(txs, ShopUpTo(txs[i].shopId, txs[i].date)))
  }

  /** `groups` is `s` grouped by shop id: one entry per shop present in `s`,
      holding that shop's rows in the order of `s`. */
  ghost predicate Grouped(s: seq<Transaction>, groups: map<Id, seq<Transaction>>) {
    && (forall id :: id in groups <==> exists t :: t in s && t.shopId == id)
    && (forall id :: id in groups ==> groups[id] == ShopRows(s, id))
  }

  lemma GroupedSnoc(s: seq<Transaction>, groups: map<Id, seq<Transaction>>, t: Transaction)
    requires Grouped(s, groups)
    ensures Grouped(s + [t], groups[t.shopId := (if t.shopId in groups then groups[t.shopId] else []) + [t]])
  {
    var s' := s + [t];
    var g' := groups[t.shopId := (if t.shopId in groups then groups[t.shopId] else []) + [t]];
    forall id ensures id in g' <==> exists x :: x in s' && x.shopId == id {
      if id == t.shopId {
        assert t in s';
      } else if id in groups {
        var x :| x in s && x.shopId == id;
        assert x in s';
      } else {
        forall x | x in s' ensures x.shopId != id {
          if x != t {
            assert x in s;
          }
        }
      }
    }
    forall id | id in g' ensures g'[id] == ShopRows(s', id) {
      FilterSnoc(s, t, BelongsTo(id));
      if id == t.shopId && t.shopId !in groups {
        FilterNone(s, BelongsTo(id));
      }
    }
  }

  /** groupBy by shop id: each row in turn is pushed onto its shop's group,
      which is created empty the first time the shop is seen. */
  method GroupByShop(s: seq<Transaction>) returns (groups: map<Id, seq<Transaction>>)
    ensures Grouped(s, groups)
  {
    groups := map[];
    var k := 0;
    while k < |s|
      invariant 0 <= k <= |s|
      invariant Grouped(s[..k], groups)
    {
      var t := s[k];
      assert s[..k + 1] == s[..k] + [t];
      GroupedSnoc(s[..k], groups, t);
      var current := if t.shopId in groups then groups[t.shopId] else [];
      groups := groups[t.shopId := current + [t]];
      k := k + 1;
    }
    assert s[..k] == s;
  }

  /** One row of the `.map`: the row with its balance replaced by the sum of
      the deltas of its group's rows dated on or before it, sorted by date first. */
  function Recalculated(t: Transaction, group: seq<Transaction>): Transaction {
    t.(outstandingBalance := NetDelta(SortBy(Filter(group, UpToDate(t.date)), TxDate)))
  }

  /** The `.map` of updateTransaction: every row recalculated from its shop's
      group. Given the groups of the list itself, it keeps the deliveries as
      they were, makes the list balanced by the app's rule, and keeps date
      order. */
  function RecalculateAll(s: seq<Transaction>, groups: map<Id, seq<Transaction>>): (r: seq<Transaction>)
    requires forall t :: t in s ==> t.shopId in groups
    requires Grouped(s, groups)
    ensures SameBookings(r, s)
    ensures AppBalanced(r)
    ensures Sorted(s, TxDate) ==> Sorted(r, TxDate)
  {
    var r := seq(|s|, i requires 0 <= i < |s| => Recalculated(s[i], groups[s[i].shopId]));
    RecalculationBalanced(s, groups, r);
    r
  }

  /** Rows recalculated one by one from their shops' groups satisfy the app's
      rule and carry the same deliveries. */
  lemma RecalculationBalanced(s: seq<Transaction>, groups: map<Id, seq<Transaction>>, r: seq<Transaction>)
    requires Grouped(s, groups)
    requires |r| == |s|
    requires forall i :: 0 <= i < |s| ==> s[i].shopId in groups && r[i] == Recalculated(s[i], groups[s[i].shopId])
    ensures SameBookings(r, s)
    ensures AppBalanced(r)
    ensures Sorted(s, TxDate) ==> Sorted(r, TxDate)
  {
    assert SameBookings(r, s);
    forall i | 0 <= i < |r|
      ensures r[i].outstandingBalance == NetDelta(Filter(r, ShopUpTo(r[i].shopId, r[i].date)))
    {
      var id, d := s[i].shopId, s[i].date;
      calc {
        r[i].outstandingBalance;
        NetDelta(SortBy(Filter(ShopRows(s, id), UpToDate(d)), TxDate));
        { SumRealSortBy(Filter(ShopRows(s, id), UpToDate(d)), TxDate, Delta); }
        NetDelta(Filter(ShopRows(s, id), UpToDate(d)));
        { FilterFilter(s, BelongsTo(id), UpToDate(d), ShopUpTo(id, d)); }
        NetDelta(Filter(s, ShopUpTo(id, d)));
        { NetDeltaSameBookings(r, s, ShopUpTo(id, d)); }
        NetDelta(Filter(r, ShopUpTo(id, d)));
      }
    }
    if Sorted(s, TxDate) {
      SameBookingsSorted(r, s);
    }
  }

  /** In a date-ordered list, the rows dated on or before a row that precedes
      every later date are the prefix ending at that row. */
  lemma UpToDatePrefix(h: seq<Transaction>, k: nat)
    requires Sorted(h, TxDate) && k < |h|
    requires forall j :: k < j < |h| ==> h[k].date < h[j].date
    ensures Filter(h, UpToDate(h[k].date)) == h[..k + 1]
  {
    var upTo := UpToDate(h[k].date);
    forall j | 0 <= j < k + 1 ensures upTo(h[j]) {
      assert TxDate(h[j]) <= TxDate(h[k]);
    }
    FilterPrefix(h, upTo, k + 1);
  }

  /** Under the app's rule, a row of a shop's history that is dated strictly
      before every later row of that history stores the running balance. */
  lemma AppRowIsRunning(txs: seq<Transaction>, shopId: Id, k: nat)
    requires AppBalanced(txs)
    requires k < |ShopTransactions(txs, shopId)|
    requires var h := ShopTransactions(txs, shopId);
      forall j :: k < j < |h| ==> h[k].date < h[j].date
    ensures var h := ShopTransactions(txs, shopId);
      h[k].outstandingBalance == NetDelta(h[..k + 1])
  {
    var rows := ShopRows(txs, shopId);
    var h := ShopTransactions(txs, shopId);
    var d := h[k].date;
    assert h[k] in txs;
    var i :| 0 <= i < |txs| && txs[i] == h[k];
    calc {
      h[k].outstandingBalance;
      NetDelta(Filter(txs, ShopUpTo(shopId, d)));
      { FilterFilter(txs, BelongsTo(shopId), UpToDate(d), ShopUpTo(shopId, d)); }
      NetDelta(Filter(rows, UpToDate(d)));
      { SumRealSortBy(Filter(rows, UpToDate(d)), TxDate, Delta); }
      NetDelta(SortBy(Filter(rows, UpToDate(d)), TxDate));
      { FilterSortBy(rows, TxDate, UpToDate(d)); }
      NetDelta(Filter(h, UpToDate(d)));
      { UpToDatePrefix(h, k); }
      NetDelta(h[..k + 1]);
    }
  }

  /** Where a shop has at most one row per date (and no row twice), the
      app's rule is the strict running balance. */
  lemma AppBalancedIsRunning(txs: seq<Transaction>, shopId: Id)
    requires AppBalanced(txs)
    requires Distinct(txs)
    requires forall t, u :: t in txs && u in txs && t.shopId == shopId && u.shopId == shopId && t.date == u.date ==> t == u
    ensures RunningBalanced(txs, shopId)
  {
    var h := ShopTransactions(txs, shopId);
    FilterDistinct(txs, BelongsTo(shopId));
    SortByDistinct(ShopRows(txs, shopId), TxDate);
    forall k | 0 <= k < |h| ensures h[k].outstandingBalance == NetDelta(h[..k + 1]) {
      LaterRowsAreLater(h, k);
      AppRowIsRunning(txs, shopId, k);
    }
  }

  /** In a date-ordered list of distinct rows no two of which share a date,
      every row after position `k` is dated strictly after it. */
  lemma LaterRowsAreLater(h: seq<Transaction>, k: nat)
    requires Sorted(h, TxDate) && Distinct(h) && k < |h|
    requires forall t, u :: t in h && u in h && t.date == u.date ==> t == u
    ensures forall j :: k < j < |h| ==> h[k].date < h[j].date
  {
    forall j | k < j < |h| ensures h[k].date < h[j].date {
      assert h[j] != h[k];
      assert TxDate(h[k]) <= TxDate(h[j]);
    }
  }

  /** Two rows of one shop on the same date both store the pair's combined
      balance under the app's rule, so the earlier one does not store its
      running balance. */
  lemma TiedRowsBreakRunningBalance(a: Transaction, b: Transaction)
    requires a.shopId == b.shopId && a.date == b.date && Delta(b) != 0.0
    requires AppBalanced([a, b])
    ensures a.outstandingBalance == b.outstandingBalance == Delta(a) + Delta(b)
    ensures !RunningBalanced([a, b], a.shopId)
  {
    var txs := [a, b];
    assert txs[..1] == [a];
    assert [a][..0] == [];
    assert SumReal([a][..0], Delta) == 0.0;
    assert NetDelta([a]) == Delta(a);
    NetDeltaOfTwo(a, b);
    FilterAll(txs, ShopUpTo(a.shopId, a.date));
    assert Sorted(txs, TxDate);
    HistoryOfOneShop(txs, a.shopId);
    assert txs[0].outstandingBalance != NetDelta(txs[..1]);
  }

  // ------------------------------------------------------------------
  // getShopDeliveryTrends
  // ------------------------------------------------------------------

  /** One point of the trend chart. The date is the row's timestamp (the
      source formats it for display). */
  datatype TrendPoint = TrendPoint(date: int, flowersSold: nat, cumulativeQuantity: nat, amount: real)

  /** The `.map` of getShopDeliveryTrends with its mutable `cumulative`:
      each point carries the flowers sold up to and including its row. */
  method CumulativePoints(w: seq<Transaction>) returns (points: seq<TrendPoint>)
    ensures |points| == |w|
    ensures forall k :: 0 <= k < |w| ==>
      points[k] == TrendPoint(w[k].date, w[k].flowersSold, SumNat(w[..k + 1], Sold), Amount(w[k]))
    ensures forall i, j :: 0 <= i < j < |points| ==> points[i].cumulativeQuantity <= points[j].cumulativeQuantity
    ensures |points| > 0 ==> points[|points| - 1].cumulativeQuantity == SumNat(w, Sold)
  {
    var cumulative: nat := 0;
    points := [];
    var k := 0;
    while k < |w|
      invariant 0 <= k <= |w| && |points| == k
      invariant cumulative == SumNat(w[..k], Sold)
      invariant forall j :: 0 <= j < k ==>
        points[j] == TrendPoint(w[j].date, w[j].flowersSold, SumNat(w[..j + 1], Sold), Amount(w[j]))
    {
      assert w[..k + 1][..k] == w[..k];
      cumulative := cumulative + w[k].flowersSold;
      points := points + [TrendPoint(w[k].date, w[k].flowersSold, cumulative, Amount(w[k]))];
      k := k + 1;
    }
    forall i, j | 0 <= i < j < |points| ensures points[i].cumulativeQuantity <= points[j].cumulativeQuantity {
      SumNatPrefixMono(w, Sold, i + 1, j + 1);
    }
    assert w[..|w|] == w;
  }

  /** getShopDeliveryTrends with the window [start, end] computed by the
      caller: the shop's rows in the window, in date order, each carrying the
      running total of flowers sold so far. */
  method DeliveryTrends(txs: seq<Transaction>, shopId: Id, start: int, end: int) returns (points: seq<TrendPoint>)
    ensures var w := TrendWindow(txs, shopId, start, end);
      && |points| == |w|
      && forall k :: 0 <= k < |w| ==>
           points[k] == TrendPoint(w[k].date, w[k].flowersSold, SumNat(w[..k + 1], Sold), Amount(w[k]))
    ensures forall i, j :: 0 <= i < j < |points| ==>
      points[i].date <= points[j].date && points[i].cumulativeQuantity <= points[j].cumulativeQuantity
    ensures |points| > 0 ==>
      points[|points| - 1].cumulativeQuantity == SumNat(TrendWindow(txs, shopId, start, end), Sold)
  {
    var w := TrendWindow(txs, shopId, start, end);
    points := CumulativePoints(w);
    forall i, j | 0 <= i < j < |points| ensures points[i].date <= points[j].date {
      assert TxDate(w[i]) <= TxDate(w[j]);
    }
  }

  // ------------------------------------------------------------------
  // getFilteredTransactions, getFilteredAndSortedTransactions, getTransactionSummary
  // ------------------------------------------------------------------

  /** A date range picked by the user; either end may be missing. */
  datatype DateRange = DateRange(from: Option<int>, to: Option<int>)

  /** The trailing period: "all", or a window starting at the caller's
      computed start ("7days", "30days", "month"; with any other period name
      the source's start stays at "now"). */
  datatype Period = AllTime | Since(start: int)

  predicate HasBound(range: Option<DateRange>) {
    range.Some? && (range.value.from.Some? || range.value.to.Some?)
  }

  function InBounds(from: Option<int>, to: Option<int>): Transaction -> bool {
    (t: Transaction) => (from.None? || t.date >= from.value) && (to.None? || t.date <= to.value)
  }

  /** getFilteredTransactions: an explicit range wins over the period; "all"
      keeps the list as it is; a trailing period keeps the rows between its
      start and now. The result keeps the input's order. */
  function FilteredTransactions(txs: seq<Transaction>, period: Period, range: Option<DateRange>, now: int): (r: seq<Transaction>)
    ensures |r| <= |txs|
    ensures HasBound(range) ==> forall t :: t in r <==>
      t in txs && (range.value.from.None? || range.value.from.value <= t.date)
               && (range.value.to.None? || t.date <= range.value.to.value)
    ensures !HasBound(range) && period.AllTime? ==> r == txs
    ensures !HasBound(range) && period.Since? ==> forall t :: t in r <==> t in txs && period.start <= t.date <= now
    ensures forall key :: Sorted(txs, key) ==> Sorted(r, key)
  {
    var r := if HasBound(range) then Filter(txs, InBounds(range.value.from, range.value.to))
      else match period
        case AllTime => txs
        case Since(start) => Filter(txs, InBounds(Some(start), Some(now)));
    forall key | Sorted(txs, key) ensures Sorted(r, key) {
      if HasBound(range) {
        FilterSorted(txs, key, InBounds(range.value.from, range.value.to));
      } else if period.Since? {
        FilterSorted(txs, key, InBounds(Some(period.start), Some(now)));
      }
    }
    r
  }

  /** The row test of getFilteredAndSortedTransactions. `dayOf` maps a
      timestamp to its calendar day in the user's time zone. */
  function MatchesView(day: Option<int>, dayOf: int -> int, start: Option<int>, end: Option<int>,
                       shopId: Option<Id>): Transaction -> bool {
    (t: Transaction) =>
      && (day.None? || dayOf(t.date) == dayOf(day.value))
      && (start.None? || t.date >= start.value)
      && (end.None? || t.date <= end.value)
      && (shopId.None? || t.shopId == shopId.value)
  }

  /** getFilteredAndSortedTransactions: exactly the rows on the given day,
      within the given bounds and of the given shop, in date order. */
  function FilteredAndSorted(txs: seq<Transaction>, day: Option<int>, dayOf: int -> int,
                             start: Option<int>, end: Option<int>, shopId: Option<Id>): (r: seq<Transaction>)
    ensures Sorted(r, TxDate)
    ensures multiset(r) == multiset(Filter(txs, MatchesView(day, dayOf, start, end, shopId)))
    ensures forall t :: t in r <==>
      (&& t in txs
       && (day.None? || dayOf(t.date) == dayOf(day.value))
       && (start.None? || start.value <= t.date) && (end.None? || t.date <= end.value)
       && (shopId.None? || t.shopId == shopId.value))
  {
    SortBy(Filter(txs, MatchesView(day, dayOf, start, end, shopId)), TxDate)
  }

  datatype TransactionSummary = TransactionSummary(totalFlowers: nat, totalAmount: real, totalReceived: real,
                                                   averageRate: real, totalOutstanding: real)

  function Rate(t: Transaction): real { t.rate }

  /** getTransactionSummary: totals over the listed rows, the mean rate (0
      for no rows) and the balance stored on the last listed row (0 for none). */
  function SummarizeTransactions(rows: seq<Transaction>): (r: TransactionSummary)
    ensures r.totalFlowers == SumNat(rows, Sold)
    ensures r.totalAmount == SumReal(rows, Amount) && r.totalReceived == SumReal(rows, Received)
    ensures r.totalAmount - r.totalReceived == NetDelta(rows)
    ensures |rows| > 0 ==> r.averageRate * (|rows| as real) == SumReal(rows, Rate)
    ensures |rows| == 0 ==> r.averageRate == 0.0 && r.totalOutstanding == 0.0
    ensures |rows| > 0 ==> r.totalOutstanding == rows[|rows| - 1].outstandingBalance
  {
    SumRealDifference(rows, Amount, Received, Delta);
    TransactionSummary(
      SumNat(rows, Sold), SumReal(rows, Amount), SumReal(rows, Received),
      if |rows| > 0 then SumReal(rows, Rate) / (|rows| as real) else 0.0,
      if |rows| > 0 then rows[|rows| - 1].outstandingBalance else 0.0)
  }

  /** Over a shop's whole history, the summary's outstanding figure is the
      shop's balance, and (where the running balance holds) what the rows
      billed less what they received. */
  lemma HistorySummaryOutstanding(txs: seq<Transaction>, shopId: Id)
    ensures SummarizeTransactions(ShopTransactions(txs, shopId)).totalOutstanding == ShopBalance(txs, shopId)
    ensures RunningBalanced(txs, shopId) ==>
      var s := SummarizeTransactions(ShopTransactions(txs, shopId));
      s.totalOutstanding == s.totalAmount - s.totalReceived
  {
    if RunningBalanced(txs, shopId) {
      RunningBalanceIsNet(txs, shopId);
      SumRealSortBy(ShopRows(txs, shopId), TxDate, Delta);
    }
  }

  // ------------------------------------------------------------------
  // the stock log view, today's sales, the quantity buttons
  // ------------------------------------------------------------------

  function MoveInBounds(from: Option<int>, to: Option<int>): StockMovement -> bool {
    (m: StockMovement) => (from.None? || m.date >= from.value) && (to.None? || m.date <= to.value)
  }

  /** The stock history table: the movements within the picked dates, in date order. */
  function MovementsInRange(ms: seq<StockMovement>, from: Option<int>, to: Option<int>): (r: seq<StockMovement>)
    ensures Sorted(r, MoveDate)
    ensures multiset(r) == multiset(Filter(ms, MoveInBounds(from, to)))
    ensures forall m :: m in r <==> m in ms && (from.None? || from.value <= m.date) && (to.None? || m.date <= to.value)
  {
    SortBy(Filter(ms, MoveInBounds(from, to)), MoveDate)
  }

  function OfKind(kind: MovementType): StockMovement -> bool { (m: StockMovement) => m.kind == kind }

  function NotOfKind(kind: MovementType): StockMovement -> bool { (m: StockMovement) => m.kind != kind }

  function Quantity(m: StockMovement): int { m.quantity }

  /** "Total Added to Godown" / "Total Added to Stock in Hand" of the printed
      history: the quantities of the movements of the kind; with those of the
      other kinds they make up the whole. */
  function AddedByKind(ms: seq<StockMovement>, kind: MovementType): (r: int)
    ensures r + SumInt(Filter(ms, NotOfKind(kind)), Quantity) == SumInt(ms, Quantity)
  {
    SumIntFilterSplit(ms, OfKind(kind), NotOfKind(kind), Quantity);
    SumInt(Filter(ms, OfKind(kind)), Quantity)
  }

  /** The two printed totals split the quantities of the listed movements. */
  lemma AddedByKindPartition(ms: seq<StockMovement>)
    ensures AddedByKind(ms, Godown) + AddedByKind(ms, Available) == SumInt(ms, Quantity)
  {
    SumIntFilterSplit(ms, OfKind(Godown), NotOfKind(Godown), Quantity);
    FilterExt(ms, NotOfKind(Godown), OfKind(Available));
  }

  function OnDay(dayOf: int -> int, today: int): Transaction -> bool {
    (t: Transaction) => dayOf(t.date) == dayOf(today)
  }

  /** A row's flowers sold if it is dated on the current day, 0 otherwise. */
  function SoldIfOnDay(dayOf: int -> int, today: int, t: Transaction): nat {
    if dayOf(t.date) == dayOf(today) then t.flowersSold else 0
  }

  function SoldToday(dayOf: int -> int, today: int): Transaction -> nat {
    (t: Transaction) => SoldIfOnDay(dayOf, today, t)
  }

  /** "Today's Sales": the flowers sold on rows dated on the current day,
      never more than the flowers sold altogether. */
  function TodaySales(txs: seq<Transaction>, dayOf: int -> int, now: int): (r: nat)
    ensures r == SumNat(txs, SoldToday(dayOf, now))
    ensures r <= SumNat(txs, Sold)
  {
    SumNatFilter(txs, OnDay(dayOf, now), Sold);
    SumNatMask(txs, OnDay(dayOf, now), Sold, SoldToday(dayOf, now));
    SumNat(Filter(txs, OnDay(dayOf, now)), Sold)
  }

  /** handleFlowerSoldChange: the number in the flowers-sold box raised by the
      button's value, a box not holding a number counting as 0. `prev` is the
      box parsed, None when it does not hold a number. */
  function BumpFlowersSold(prev: Option<int>, value: int): (r: int)
    ensures prev.None? ==> r == value
    ensures prev.Some? ==> r - prev.value == value
  {
    prev.GetOr(0) + value
  }

  /** The box after pressing the buttons `presses` in turn: each press reads
      back the number the previous one wrote. */
  function AfterPresses(prev: Option<int>, presses: seq<int>): int
    decreases |presses|
  {
    if |presses| == 0 then prev.GetOr(0)
    else BumpFlowersSold(Some(AfterPresses(prev, presses[..|presses| - 1])), presses[|presses| - 1])
  }

  function Identity(x: int): int { x }

  /** Pressing buttons in turn adds their values up onto what the box held. */
  lemma {:induction false} AfterPressesIsSum(prev: Option<int>, presses: seq<int>)
    ensures AfterPresses(prev, presses) == prev.GetOr(0) + SumInt(presses, Identity)
    decreases |presses|
  {
    if |presses| > 0 {
      AfterPressesIsSum(prev, presses[..|presses| - 1]);
    }
  }

  // ------------------------------------------------------------------
  // the store
  // ------------------------------------------------------------------

  class Store {
    var shops: seq<Shop>
    var transactions: seq<Transaction>
    var stockMovements: seq<StockMovement>
    var availableStock: int
    var godownStock: int

    /** The empty store the page starts from before its data is loaded. */
    constructor()
      ensures shops == [] && transactions == [] && stockMovements == []
      ensures availableStock == 0 && godownStock == 0
    {
      shops := [];
      transactions := [];
      stockMovements := [];
      availableStock := 0;
      godownStock := 0;
    }

    /** addShop: the drafted shop is appended under a fresh id only when its
        name, owner, phone and address are all non-blank; otherwise nothing changes. */
    method AddShop(draft: ShopDraft, freshId: Id)
      requires freshId !in ShopIds(shops)
      modifies this
      ensures DraftComplete(draft) ==> shops == old(shops) + [ShopFromDraft(freshId, draft)]
      ensures !DraftComplete(draft) ==> shops == old(shops)
      ensures IdsDistinct(old(shops)) ==> IdsDistinct(shops)
      ensures transactions == old(transactions) && stockMovements == old(stockMovements)
      ensures availableStock == old(availableStock) && godownStock == old(godownStock)
    {
      if DraftComplete(draft) {
        var s := ShopFromDraft(freshId, draft);
        if IdsDistinct(shops) {
          AppendFreshShop(shops, s);
        }
        shops := shops + [s];
      }
    }

    /** updateShop: every shop with the edited shop's id becomes the edited
        shop; with no shop being edited nothing changes. */
    method UpdateShop(editing: Option<Shop>)
      modifies this
      ensures editing.Some? ==> shops == ReplaceShop(old(shops), editing.value)
      ensures editing.None? ==> shops == old(shops)
      ensures transactions == old(transactions) && stockMovements == old(stockMovements)
      ensures availableStock == old(availableStock) && godownStock == old(godownStock)
    {
      if editing.Some? {
        shops := ReplaceShop(shops, editing.value);
      }
    }

    /** recordSale: refused, changing nothing, when more flowers are sold than
        are in hand; otherwise the sale row (previous balance plus
        `sold * rate - cash`) joins the date-ordered list and the stock in
        hand loses the flowers sold and regains the flowers replaced. */
    method RecordSale(shopId: Id, sold: nat, rate: real, cash: real, replaced: nat, date: int, freshId: Id)
      returns (outcome: SaleOutcome)
      modifies this
      ensures outcome == NotEnoughStock <==> sold > old(availableStock)
      ensures outcome == NotEnoughStock ==>
        transactions == old(transactions) && availableStock == old(availableStock)
      ensures outcome == Recorded ==>
        && transactions == SaleLedger(old(transactions),
                                      SaleRow(old(transactions), freshId, shopId, sold, rate, cash, replaced, date))
        && availableStock == old(availableStock) - sold + replaced
      ensures outcome == Recorded ==> |transactions| == |old(transactions)| + 1 && Sorted(transactions, TxDate)
      ensures godownStock == old(godownStock) && shops == old(shops) && stockMovements == old(stockMovements)
    {
      if sold > availableStock {
        return NotEnoughStock;
      }
      var row := SaleRow(transactions, freshId, shopId, sold, rate, cash, replaced, date);
      transactions := SaleLedger(transactions, row);
      availableStock := availableStock - sold + replaced;
      outcome := Recorded;
    }

    /** addFlowersFromFarm: the movement joins the date-ordered log; a
        transfer moves the quantity from the godown to the stock in hand, a
        godown delivery adds it to the godown. */
    method AddFlowersFromFarm(kind: MovementType, quantity: nat, date: int, freshId: Id)
      requires freshId !in MovementIds(stockMovements)
      modifies this
      ensures stockMovements == SortBy(old(stockMovements) + [StockMovement(freshId, kind, quantity, date)], MoveDate)
      ensures |stockMovements| == |old(stockMovements)| + 1 && Sorted(stockMovements, MoveDate)
      ensures kind == Available ==>
        availableStock == old(availableStock) + quantity && godownStock == old(godownStock) - quantity
      ensures kind == Godown ==>
        availableStock == old(availableStock) && godownStock == old(godownStock) + quantity
      ensures availableStock + godownStock ==
        old(availableStock) + old(godownStock) + (if kind == Godown then quantity else 0)
      ensures shops == old(shops) && transactions == old(transactions)
    {
      var movement := StockMovement(freshId, kind, quantity, date);
      var log := SortBy(stockMovements + [movement], MoveDate);
      assert |log| == |stockMovements| + 1 && Sorted(log, MoveDate);
      stockMovements := log;
      if kind == Available {
        availableStock := availableStock + quantity;
        godownStock := godownStock - quantity;
      } else {
        godownStock := godownStock + quantity;
      }
    }

    /** updateTransaction: the edited row replaces the row with its id, the
        list is sorted by date and every row's balance is recalculated from
        its shop's group. */
    method UpdateTransaction(editing: Option<Transaction>)
      modifies this
      ensures editing.None? ==> transactions == old(transactions)
      ensures editing.Some? ==>
        && SameBookings(transactions, EditedOrder(old(transactions), editing.value))
        && AppBalanced(transactions)
        && Sorted(transactions, TxDate)
      ensures shops == old(shops) && stockMovements == old(stockMovements)
      ensures availableStock == old(availableStock) && godownStock == old(godownStock)
    {
      if editing.Some? {
        var sorted := EditedOrder(transactions, editing.value);
        transactions := RecalculateBalances(sorted);
      }
    }
  }

  /** The recalculation step of updateTransaction: group the rows by shop,
      then give every row the sum of the deltas of its shop's rows dated on
      or before it. */
  method RecalculateBalances(sorted: seq<Transaction>) returns (r: seq<Transaction>)
    ensures SameBookings(r, sorted)
    ensures AppBalanced(r)
    ensures Sorted(sorted, TxDate) ==> Sorted(r, TxDate)
  {
    var groups := GroupByShop(sorted);
    forall t | t in sorted ensures t.shopId in groups {
    }
    r := RecalculateAll(sorted, groups);
  }
}
