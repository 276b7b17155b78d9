/** The older, browser-storage store of page.tsx: the same shops,
    transactions and counters with a farm-movement log, the in-place
    running-balance recalculation of updateTransaction, the column sort of the
    history table and its range filter. */
module LegacyStore {
  import opened Wrappers
  import opened Seqs
  import opened Ledger

  /** One entry of the farm log. */
  datatype FarmMovement = FarmMovement(id: Id, flowersAdded: nat, date: int, kind: MovementType)

  datatype SaleOutcome = Recorded | NotEnoughStock

  function FarmDate(m: FarmMovement): real { m.date as real }

  function FarmIds(ms: seq<FarmMovement>): set<Id> { set m | m in ms :: m.id }

  // ------------------------------------------------------------------
  // updateTransaction
  // ------------------------------------------------------------------

  function ReplaceIfSameTxId(edited: Transaction): Transaction -> Transaction {
    (t: Transaction) => if t.id == edited.id then edited else t
  }

  /** updateTransaction's list: the row carrying the edited id is replaced by the edited row. */
  function ReplaceRow(txs: seq<Transaction>, edited: Transaction): (r: seq<Transaction>)
    ensures |r| == |txs|
    ensures forall i :: 0 <= i < |txs| ==> r[i] == if txs[i].id == edited.id then edited else txs[i]
    ensures forall i :: 0 <= i < |txs| ==> r[i].id == txs[i].id
  {
    MapSeq(txs, ReplaceIfSameTxId(edited))
  }

  /** Stands for an index outside the list; never reached from a valid index. */
  const blankRow := Transaction(0, 0, 0, 0.0, 0.0, 0, 0, 0.0)

  function At(s: seq<Transaction>): int -> Transaction {
    (i: int) => if 0 <= i < |s| then s[i] else blankRow
  }

  function IndexOfShop(s: seq<Transaction>, shopId: Id): int -> bool {
    (i: int) => 0 <= i < |s| && s[i].shopId == shopId
  }

  function IndexDate(s: seq<Transaction>): int -> real {
    (i: int) => if 0 <= i < |s| then TxDate(s[i]) else 0.0
  }

  /** The positions of the shop's rows, in the order of the date-sorted shop
      list: the objects the source's `forEach` visits. */
  function ShopView(s: seq<Transaction>, shopId: Id): (v: seq<int>)
    ensures Distinct(v)
    ensures forall i :: i in v ==> 0 <= i < |s|
    ensures forall i :: 0 <= i < |s| ==> (i in v <==> s[i].shopId == shopId)
  {
    var all := Range(|s|);
    var idx := Filter(all, IndexOfShop(s, shopId));
    assert Distinct(all);
    FilterDistinct(all, IndexOfShop(s, shopId));
    forall i | 0 <= i < |s| ensures i in idx <==> s[i].shopId == shopId {
      assert all[i] == i && all[i] in all;
    }
    SortByDistinct(idx, IndexDate(s));
    SortBy(idx, IndexDate(s))
  }

  lemma {:induction false} ShopIndicesAreRows(s: seq<Transaction>, shopId: Id, n: nat)
    requires n <= |s|
    ensures MapSeq(Filter(Range(n), IndexOfShop(s, shopId)), At(s)) == ShopRows(s[..n], shopId)
    decreases n
  {
    if n > 0 {
      ShopIndicesAreRows(s, shopId, n - 1);
      assert Range(n) == Range(n - 1) + [n - 1];
      assert s[..n] == s[..n - 1] + [s[n - 1]];
      FilterSnoc(Range(n - 1), n - 1, IndexOfShop(s, shopId));
      FilterSnoc(s[..n - 1], s[n - 1], BelongsTo(shopId));
      var idx := Filter(Range(n - 1), IndexOfShop(s, shopId));
      if s[n - 1].shopId == shopId {
        MapSeqSnoc(idx, n - 1, At(s));
      } else {
        assert idx + [] == idx;
      }
    } else {
      assert Range(0) == [];
    }
  }

  /** Reading the view's positions gives the shop's date-ordered history. */
  lemma ViewIsHistory(s: seq<Transaction>, shopId: Id)
    ensures MapSeq(ShopView(s, shopId), At(s)) == ShopTransactions(s, shopId)
  {
    var idx := Filter(Range(|s|), IndexOfShop(s, shopId));
    ShopIndicesAreRows(s, shopId, |s|);
    assert s[..|s|] == s;
    forall y | y in idx ensures IndexDate(s)(y) == TxDate(At(s)(y)) {
      assert IndexOfShop(s, shopId)(y);
    }
    SortByMap(idx, At(s), TxDate, IndexDate(s));
  }

  /** Balances aside, equal ledgers have equal views. */
  lemma ViewSameBookings(a: seq<Transaction>, b: seq<Transaction>, shopId: Id)
    requires SameBookings(a, b)
    ensures ShopView(a, shopId) == ShopView(b, shopId)
  {
    forall i | 0 <= i < |a| ensures a[i].shopId == b[i].shopId && a[i].date == b[i].date {
      assert Booking(a[i]) == Booking(b[i]);
    }
    FilterExt(Range(|a|), IndexOfShop(a, shopId), IndexOfShop(b, shopId));
    var idx := Filter(Range(|a|), IndexOfShop(a, shopId));
    forall y: int ensures IndexDate(a)(y) == IndexDate(b)(y) {
      if 0 <= y < |a| {
        assert Booking(a[y]) == Booking(b[y]);
      }
    }
    SortByKeyExt(idx, IndexDate(a), IndexDate(b));
  }

  function IndexDelta(s: seq<Transaction>): int -> real {
    (i: int) => if 0 <= i < |s| then Delta(s[i]) else 0.0
  }

  /** Summing the deltas over positions of `u` is summing them over the rows
      of `a` at those positions, once the two agree on everything but balances. */
  lemma ViewPrefixSum(u: seq<Transaction>, a: seq<Transaction>, w: seq<int>)
    requires SameBookings(a, u)
    requires forall j :: j in w ==> 0 <= j < |u|
    ensures SumReal(w, IndexDelta(u)) == NetDelta(MapSeq(w, At(a)))
  {
    var m := MapSeq(w, At(a));
    forall j | 0 <= j < |w| ensures IndexDelta(u)(w[j]) == Delta(m[j]) {
      var i := w[j];
      assert i in w;
      assert m[j] == a[i];
      assert Booking(a[i]) == Booking(u[i]);
      assert a[i].flowersSold == u[i].flowersSold && a[i].rate == u[i].rate && a[i].cashReceived == u[i].cashReceived;
    }
    SumRealAgree(w, m, IndexDelta(u), Delta);
  }

  /** Rows of `a` at positions `v` whose balances are the running sums of the
      deltas along `v` form a running chain. */
  lemma ChainAlongPositions(u: seq<Transaction>, a: seq<Transaction>, v: seq<int>)
    requires SameBookings(a, u)
    requires forall j :: j in v ==> 0 <= j < |u|
    requires forall j :: 0 <= j < |v| ==> 0 <= v[j] < |a| && a[v[j]].outstandingBalance == SumReal(v[..j + 1], IndexDelta(u))
    ensures ChainBalanced(MapSeq(v, At(a)))
  {
    var h := MapSeq(v, At(a));
    forall k | 0 <= k < |h| ensures h[k].outstandingBalance == NetDelta(h[..k + 1]) {
      MapSeqPrefix(v, At(a), k + 1);
      var w := v[..k + 1];
      assert h[..k + 1] == MapSeq(w, At(a));
      assert forall j :: j in w ==> j in v;
      ViewPrefixSum(u, a, w);
      assert h[k] == a[v[k]];
      assert a[v[k]].outstandingBalance == SumReal(w, IndexDelta(u));
    }
  }

  /** The balances the loop writes make the shop's history a running chain. */
  lemma ViewChainBalanced(u: seq<Transaction>, a: seq<Transaction>, shopId: Id)
    requires SameBookings(a, u)
    requires var v := ShopView(u, shopId);
      forall j :: 0 <= j < |v| ==> 0 <= v[j] < |a| && a[v[j]].outstandingBalance == SumReal(v[..j + 1], IndexDelta(u))
    ensures RunningBalanced(a, shopId)
  {
    var v := ShopView(u, shopId);
    ChainAlongPositions(u, a, v);
    ViewSameBookings(a, u, shopId);
    ViewIsHistory(a, shopId);
  }

  // ------------------------------------------------------------------
  // the history table: column sort and range filter
  // ------------------------------------------------------------------

  /** The sortable columns of the history table. Dates are ISO strings and
      ids are 13-digit strings in the source, so the string order is the
      numeric order used here. */
  datatype SortKey = ByDate | ByShop | BySold | ByRate | ByCash

  datatype Direction = Ascending | Descending

  datatype SortConfig = SortConfig(key: SortKey, direction: Direction)

  /** requestSort: descending only when the same column is currently ascending. */
  function NextSortConfig(current: Option<SortConfig>, key: SortKey): (r: SortConfig)
    ensures r.key == key
    ensures r.direction == Descending <==> current == Some(SortConfig(key, Ascending))
  {
    if current.Some? && current.value.key == key && current.value.direction == Ascending
    then SortConfig(key, Descending)
    else SortConfig(key, Ascending)
  }

  function Column(key: SortKey): Transaction -> real {
    (t: Transaction) =>
      match key
      case ByDate => t.date as real
      case ByShop => t.shopId as real
      case BySold => t.flowersSold as real
      case ByRate => t.rate
      case ByCash => t.cashReceived
  }

  /** The comparator's order: the column, reversed when descending. */
  function Ordering(cfg: SortConfig): Transaction -> real {
    (t: Transaction) => if cfg.direction == Ascending then Column(cfg.key)(t) else -Column(cfg.key)(t)
  }

  /** sortedTransactions: the list itself with no column chosen, otherwise
      the same rows stably sorted by the column in the chosen direction. */
  function SortedTransactions(txs: seq<Transaction>, cfg: Option<SortConfig>): (r: seq<Transaction>)
    ensures cfg.None? ==> r == txs
    ensures multiset(r) == multiset(txs)
    ensures cfg.Some? && cfg.value.direction == Ascending ==>
      forall i, j :: 0 <= i < j < |r| ==> Column(cfg.value.key)(r[i]) <= Column(cfg.value.key)(r[j])
    ensures cfg.Some? && cfg.value.direction == Descending ==>
      forall i, j :: 0 <= i < j < |r| ==> Column(cfg.value.key)(r[i]) >= Column(cfg.value.key)(r[j])
  {
    if cfg.None? then txs
    else
      var r := SortBy(txs, Ordering(cfg.value));
      assert forall i, j :: 0 <= i < j < |r| ==> Ordering(cfg.value)(r[i]) <= Ordering(cfg.value)(r[j]);
      r
  }

  /** Pressing the same column header twice in a row returns to ascending
      order after descending. */
  lemma RequestSortToggles(current: Option<SortConfig>, key: SortKey)
    ensures var once := NextSortConfig(current, key);
      var twice := NextSortConfig(Some(once), key);
      once.direction == Ascending ==> twice.direction == Descending
    ensures NextSortConfig(Some(SortConfig(key, Descending)), key).direction == Ascending
  {
  }

  /** The history filter boxes. An empty box is None; the shop box is
      matched against shop names by `nameMatches`. */
  datatype HistoryFilter = HistoryFilter(shop: string, minRate: Option<real>, maxRate: Option<real>,
                                         minOutstanding: Option<real>, maxOutstanding: Option<real>)

  predicate WithinBounds(x: real, lo: Option<real>, hi: Option<real>) {
    (lo.None? || x >= lo.value) && (hi.None? || x <= hi.value)
  }

  function KeptBy(shops: seq<Shop>, f: HistoryFilter, nameMatches: (string, string) -> bool): Transaction -> bool {
    (t: Transaction) =>
      && (f.shop == [] || (FindShop(shops, t.shopId).Some? && nameMatches(FindShop(shops, t.shopId).value.name, f.shop)))
      && WithinBounds(t.rate, f.minRate, f.maxRate)
      && WithinBounds(t.outstandingBalance, f.minOutstanding, f.maxOutstanding)
  }

  /** The history table's rows: the sorted rows passing every filled box, in order. */
  function HistoryRows(sorted: seq<Transaction>, shops: seq<Shop>, f: HistoryFilter,
                       nameMatches: (string, string) -> bool): (r: seq<Transaction>)
    ensures |r| <= |sorted|
    ensures forall t :: t in r ==>
      && t in sorted
      && WithinBounds(t.rate, f.minRate, f.maxRate)
      && WithinBounds(t.outstandingBalance, f.minOutstanding, f.maxOutstanding)
    ensures forall t :: t in r ==>
      f.shop == [] || exists s :: s in shops && s.id == t.shopId && nameMatches(s.name, f.shop)
    ensures forall t :: t in sorted && KeptBy(shops, f, nameMatches)(t) ==> t in r
    ensures forall key :: Sorted(sorted, key) ==> Sorted(r, key)
  {
    var r := Filter(sorted, KeptBy(shops, f, nameMatches));
    forall key | Sorted(sorted, key) ensures Sorted(r, key) {
      FilterSorted(sorted, key, KeptBy(shops, f, nameMatches));
    }
    assert forall t :: t in r ==> f.shop == [] || FindShop(shops, t.shopId).Some?;
    forall t | t in r && f.shop != []
      ensures exists s :: s in shops && s.id == t.shopId && nameMatches(s.name, f.shop)
    {
      var found := FindShop(shops, t.shopId);
      assert found.value in shops;
    }
    r
  }

  function OnDay(day: int, dayOf: int -> int): Transaction -> bool {
    (t: Transaction) => dayOf(t.date) == dayOf(day)
  }

  /** The table of the date picked in the calendar: the sorted rows whose
      calendar day (`dayOf`, the `toDateString` of a date) is that day's, in
      the table's order. */
  function RowsOnDay(sorted: seq<Transaction>, day: int, dayOf: int -> int): (r: seq<Transaction>)
    ensures |r| <= |sorted|
    ensures forall t :: t in r <==> t in sorted && dayOf(t.date) == dayOf(day)
    ensures forall key :: Sorted(sorted, key) ==> Sorted(r, key)
  {
    var r := Filter(sorted, OnDay(day, dayOf));
    forall key | Sorted(sorted, key) ensures Sorted(r, key) {
      FilterSorted(sorted, key, OnDay(day, dayOf));
    }
    r
  }

  // ------------------------------------------------------------------
  // getShopDeliveryTrends
  // ------------------------------------------------------------------

  datatype TrendPoint = TrendPoint(date: int, flowersSold: nat)

  function PointOf(t: Transaction): TrendPoint { TrendPoint(t.date, t.flowersSold) }

  /** getShopDeliveryTrends of page.tsx: the date and flowers sold of each of
      the shop's rows in [start, end], in date order, without a running total. */
  function DeliveryTrends(txs: seq<Transaction>, shopId: Id, start: int, end: int): (r: seq<TrendPoint>)
    ensures |r| == |TrendWindow(txs, shopId, start, end)|
    ensures forall k :: 0 <= k < |r| ==> start <= r[k].date <= end
    ensures forall i, j :: 0 <= i < j < |r| ==> r[i].date <= r[j].date
    ensures forall k :: 0 <= k < |r| ==> r[k] == PointOf(TrendWindow(txs, shopId, start, end)[k])
    ensures forall k :: 0 <= k < |r| ==>
      exists t :: t in txs && t.shopId == shopId && t.date == r[k].date && t.flowersSold == r[k].flowersSold
  {
    var w := TrendWindow(txs, shopId, start, end);
    var r := MapSeq(w, PointOf);
    forall k | 0 <= k < |r|
      ensures start <= r[k].date <= end
      ensures exists t :: t in txs && t.shopId == shopId && t.date == r[k].date && t.flowersSold == r[k].flowersSold
    {
      assert w[k] in w;
    }
    forall i, j | 0 <= i < j < |r| ensures r[i].date <= r[j].date {
      assert TxDate(w[i]) <= TxDate(w[j]);
    }
    r
  }

  // ------------------------------------------------------------------
  // the store
  // ------------------------------------------------------------------

  class Store {
    var shops: seq<Shop>
    var transactions: seq<Transaction>
    var farmMovements: seq<FarmMovement>
    var availableStock: int
    var godownStock: int
    var sortConfig: Option<SortConfig>

    /** The empty store of a first visit (nothing saved yet). */
    constructor()
      ensures shops == [] && transactions == [] && farmMovements == []
      ensures availableStock == 0 && godownStock == 0 && sortConfig == None
    {
      shops := [];
      transactions := [];
      farmMovements := [];
      availableStock := 0;
      godownStock := 0;
      sortConfig := None;
    }

    /** addShop: appended under a fresh id only when name, owner, phone and
        address are all non-blank; otherwise nothing changes. */
    method AddShop(draft: ShopDraft, freshId: Id)
      requires freshId !in ShopIds(shops)
      modifies this
      ensures DraftComplete(draft) ==> shops == old(shops) + [ShopFromDraft(freshId, draft)]
      ensures !DraftComplete(draft) ==> shops == old(shops)
      ensures IdsDistinct(old(shops)) ==> IdsDistinct(shops)
      ensures transactions == old(transactions) && farmMovements == old(farmMovements)
      ensures availableStock == old(availableStock) && godownStock == old(godownStock)
      ensures sortConfig == old(sortConfig)
    {
      if DraftComplete(draft) {
        var s := ShopFromDraft(freshId, draft);
        if IdsDistinct(shops) {
          AppendFreshShop(shops, s);
        }
        shops := shops + [s];
      }
    }

    /** updateShop: every shop with the edited id becomes the edited shop. */
    method UpdateShop(editing: Option<Shop>)
      modifies this
      ensures editing.Some? ==> shops == ReplaceShop(old(shops), editing.value)
      ensures editing.None? ==> shops == old(shops)
      ensures transactions == old(transactions) && farmMovements == old(farmMovements)
      ensures availableStock == old(availableStock) && godownStock == old(godownStock)
      ensures sortConfig == old(sortConfig)
    {
      if editing.Some? {
        shops := ReplaceShop(shops, editing.value);
      }
    }

    /** recordSale: refused, changing nothing, when more flowers are sold than
        are in hand; otherwise the sale row joins the date-ordered list and
        the stock in hand changes by the replaced less the sold flowers. */
    method RecordSale(shopId: Id, sold: nat, rate: real, cash: real, replaced: nat, date: int, freshId: Id)
      returns (outcome: SaleOutcome)
      modifies this
      ensures outcome == NotEnoughStock <==> sold > old(availableStock)
      ensures outcome == NotEnoughStock ==>
        transactions == old(transactions) && availableStock == old(availableStock)
      ensures outcome == Recorded ==>
        && transactions == SaleLedger(old(transactions),
                                      SaleRow(old(transactions), freshId, shopId, sold, rate, cash, replaced, date))
        && availableStock == old(availableStock) - sold + replaced
      ensures godownStock == old(godownStock) && shops == old(shops) && farmMovements == old(farmMovements)
      ensures sortConfig == old(sortConfig)
    {
      if sold > availableStock {
        return NotEnoughStock;
      }
      var row := SaleRow(transactions, freshId, shopId, sold, rate, cash, replaced, date);
      transactions := SaleLedger(transactions, row);
      availableStock := availableStock - sold + replaced;
      outcome := Recorded;
    }

    /** addFlowersFromFarm: the movement joins the date-ordered farm log; a
        transfer moves the flowers from the godown to the stock in hand, a
        godown delivery adds them to the godown. */
    method AddFlowersFromFarm(kind: MovementType, flowersAdded: nat, date: int, freshId: Id)
      requires freshId !in FarmIds(farmMovements)
      modifies this
      ensures farmMovements == SortBy(old(farmMovements) + [FarmMovement(freshId, flowersAdded, date, kind)], FarmDate)
      ensures |farmMovements| == |old(farmMovements)| + 1 && Sorted(farmMovements, FarmDate)
      ensures kind == Available ==>
        availableStock == old(availableStock) + flowersAdded && godownStock == old(godownStock) - flowersAdded
      ensures kind == Godown ==>
        availableStock == old(availableStock) && godownStock == old(godownStock) + flowersAdded
      ensures availableStock + godownStock ==
        old(availableStock) + old(godownStock) + (if kind == Godown then flowersAdded else 0)
      ensures shops == old(shops) && transactions == old(transactions) && sortConfig == old(sortConfig)
    {
      var movement := FarmMovement(freshId, flowersAdded, date, kind);
      var log := SortBy(farmMovements + [movement], FarmDate);
      assert |log| == |farmMovements| + 1 && Sorted(log, FarmDate);
      farmMovements := log;
      if kind == Available {
        availableStock := availableStock + flowersAdded;
        godownStock := godownStock - flowersAdded;
      } else {
        godownStock := godownStock + flowersAdded;
      }
    }

    /** requestSort */
    method RequestSort(key: SortKey)
      modifies this
      ensures sortConfig == Some(NextSortConfig(old(sortConfig), key))
      ensures shops == old(shops) && transactions == old(transactions) && farmMovements == old(farmMovements)
      ensures availableStock == old(availableStock) && godownStock == old(godownStock)
    {
      sortConfig := Some(NextSortConfig(sortConfig, key));
    }

    /** updateTransaction: the edited row replaces the row with its id and the
        edited shop's balances are recalculated in place by `Rebalance`. The
        list keeps its order, length and ids, and no other field or shop changes. */
    method UpdateTransaction(editing: Option<Transaction>)
      modifies this
      ensures editing.None? ==> transactions == old(transactions)
      ensures editing.Some? ==>
        && SameBookings(transactions, ReplaceRow(old(transactions), editing.value))
        && (forall i :: 0 <= i < |transactions| && transactions[i].shopId != editing.value.shopId ==>
              transactions[i] == ReplaceRow(old(transactions), editing.value)[i])
        && RunningBalanced(transactions, editing.value.shopId)
        && BalanceIsNet(transactions, editing.value.shopId)
      ensures |transactions| == |old(transactions)|
      ensures forall i :: 0 <= i < |transactions| ==> transactions[i].id == old(transactions)[i].id
      ensures shops == old(shops) && farmMovements == old(farmMovements)
      ensures availableStock == old(availableStock) && godownStock == old(godownStock)
      ensures sortConfig == old(sortConfig)
    {
      if editing.Some? {
        var e := editing.value;
        var u := ReplaceRow(transactions, e);
        var r := Rebalance(u, e.shopId);
        RunningBalanceIsNet(r, e.shopId);
        forall j | 0 <= j < |r| ensures r[j].id == transactions[j].id {
          assert Booking(r[j]) == Booking(u[j]);
        }
        transactions := r;
      }
    }
  }

  /** The `forEach` of updateTransaction: walking the shop's rows in date
      order, each row object is given the running sum of
      `flowersSold * rate - cashReceived` up to and including it. The rows
      are changed in place, so the list keeps its order; other shops' rows
      are untouched. */
  method Rebalance(u: seq<Transaction>, shopId: Id) returns (r: seq<Transaction>)
    ensures SameBookings(r, u)
    ensures forall j :: 0 <= j < |u| && u[j].shopId != shopId ==> r[j] == u[j]
    ensures RunningBalanced(r, shopId)
  {
    var view := ShopView(u, shopId);
    assert forall j :: 0 <= j < |view| ==> view[j] in view;
    r := WriteRunningSums(u, view);
    forall j | 0 <= j < |u| && u[j].shopId != shopId ensures r[j] == u[j] {
      assert j !in view;
    }
    ViewChainBalanced(u, r, shopId);
  }

  /** What the loop has done after visiting the first `k` positions of
      `view`: only balances changed, none outside `view`, and each visited
      row holds the running sum up to it. */
  ghost predicate WrittenUpTo(u: seq<Transaction>, view: seq<int>, r: seq<Transaction>, k: nat)
    requires k <= |view|
  {
    && SameBookings(r, u)
    && (forall j :: 0 <= j < |u| && j !in view ==> r[j] == u[j])
    && (forall j :: 0 <= j < k ==> 0 <= view[j] < |r| && r[view[j]].outstandingBalance == SumReal(view[..j + 1], IndexDelta(u)))
  }

  /** One turn of the loop keeps `WrittenUpTo`. */
  lemma WriteStep(u: seq<Transaction>, view: seq<int>, r: seq<Transaction>, k: nat, running: real)
    requires Distinct(view)
    requires forall j :: 0 <= j < |view| ==> 0 <= view[j] < |u|
    requires k < |view|
    requires WrittenUpTo(u, view, r, k)
    requires running == SumReal(view[..k], IndexDelta(u))
    ensures var i := view[k];
      var running' := running + Delta(r[i]);
      && running' == SumReal(view[..k + 1], IndexDelta(u))
      && WrittenUpTo(u, view, r[i := r[i].(outstandingBalance := running')], k + 1)
  {
    var i := view[k];
    RunningSumStep(u, view, r, k, running);
    var r' := r[i := r[i].(outstandingBalance := running + Delta(r[i]))];
    assert SameBookings(r', u) by {
      assert Booking(r'[i]) == Booking(r[i]);
    }
    BalancesStep(u, view, r, r', k);
    assert i in view;
  }

  lemma BalancesStep(u: seq<Transaction>, view: seq<int>, r: seq<Transaction>, r': seq<Transaction>, k: nat)
    requires Distinct(view)
    requires forall j :: 0 <= j < |view| ==> 0 <= view[j] < |u|
    requires k < |view|
    requires |r| == |r'| == |u|
    requires forall j :: 0 <= j < k ==> r[view[j]].outstandingBalance == SumReal(view[..j + 1], IndexDelta(u))
    requires r'[view[k]].outstandingBalance == SumReal(view[..k + 1], IndexDelta(u))
    requires forall j :: 0 <= j < |u| && j != view[k] ==> r'[j] == r[j]
    ensures forall j :: 0 <= j < k + 1 ==>
      0 <= view[j] < |r'| && r'[view[j]].outstandingBalance == SumReal(view[..j + 1], IndexDelta(u))
  {
    forall j | 0 <= j < k ensures r'[view[j]] == r[view[j]] {
      assert view[j] != view[k];
    }
  }

  lemma RunningSumStep(u: seq<Transaction>, view: seq<int>, r: seq<Transaction>, k: nat, running: real)
    requires forall j :: 0 <= j < |view| ==> 0 <= view[j] < |u|
    requires k < |view|
    requires SameBookings(r, u)
    requires running == SumReal(view[..k], IndexDelta(u))
    ensures running + Delta(r[view[k]]) == SumReal(view[..k + 1], IndexDelta(u))
  {
    var i := view[k];
    assert view[..k + 1][..k] == view[..k];
    assert Booking(r[i]) == Booking(u[i]);
  }

  /** The loop's write of the running balance into the row object at position `i`. */
  method SetBalance(a: array<Transaction>, i: nat, balance: real)
    requires i < a.Length
    modifies a
    ensures a[..] == old(a[..])[i := old(a[i]).(outstandingBalance := balance)]
  {
    a[i] := a[i].(outstandingBalance := balance);
  }

  /** The loop itself: visiting the distinct positions `view` in turn, the
      row object at each is given the running sum of the deltas so far. */
  method WriteRunningSums(u: seq<Transaction>, view: seq<int>) returns (r: seq<Transaction>)
    requires Distinct(view)
    requires forall j :: 0 <= j < |view| ==> 0 <= view[j] < |u|
    ensures SameBookings(r, u)
    ensures forall j :: 0 <= j < |u| && j !in view ==> r[j] == u[j]
    ensures forall j :: 0 <= j < |view| ==> 0 <= view[j] < |r| && r[view[j]].outstandingBalance == SumReal(view[..j + 1], IndexDelta(u))
  {
    var a := new Transaction[|u|](i requires 0 <= i < |u| => u[i]);
    assert a[..] == u;
    var running := 0.0;
    var k := 0;
    while k < |view|
      modifies a
      invariant 0 <= k <= |view|
      invariant a.Length == |u|
      invariant WrittenUpTo(u, view, a[..], k)
      invariant running == SumReal(view[..k], IndexDelta(u))
    {
      var i := view[k];
      WriteStep(u, view, a[..], k, running);
      running := running + Delta(a[i]);
      SetBalance(a, i, running);
      k := k + 1;
    }
    r := a[..];
  }
}
