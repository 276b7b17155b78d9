/** The entities of the flower-distribution app and the bookkeeping code that
    app/page.tsx and page.tsx contain word for word: shop validation and edit,
    the sale row, the balance queries, the period summary and the delivery
    window. Dates are millisecond timestamps, money is exact. */
module Ledger {
  import opened Wrappers
  import opened Seqs

  /** Ids: creation timestamps in the source, held here as numbers. */
  type Id = nat

  datatype Contact = Contact(name: string, number: string)

  datatype Shop = Shop(id: Id, name: string, owner: string, phone: string,
                       alternateNumbers: seq<Contact>, address: string, location: Option<string>)

  /** The add-shop form: a shop before it has an id. */
  datatype ShopDraft = ShopDraft(name: string, owner: string, phone: string,
                                 alternateNumbers: seq<Contact>, address: string, location: Option<string>)

  /** One delivery. The source's replaced-flowers count is optional and read
      as 0 when absent; an absent count is 0 here. */
  datatype Transaction = Transaction(id: Id, shopId: Id, flowersSold: nat, rate: real,
                                     cashReceived: real, date: int, replacedFlowers: nat,
                                     outstandingBalance: real)

  datatype MovementType = Godown | Available

  // ------------------------------------------------------------------
  // shops
  // ------------------------------------------------------------------

  /** The characters `String.prototype.trim` removes: white space and line terminators. */
  predicate IsJsWhitespace(c: char) {
    c == '\t' || c == '\n' || c == '\U{000B}' || c == '\U{000C}' || c == '\r' || c == ' '
    || c == '\U{00A0}' || c == '\U{1680}' || ('\U{2000}' <= c <= '\U{200A}')
    || c == '\U{2028}' || c == '\U{2029}' || c == '\U{202F}' || c == '\U{205F}'
    || c == '\U{3000}' || c == '\U{FEFF}'
  }

  function TrimStart(s: string): (r: string)
    ensures |r| <= |s| && r == s[|s| - |r|..]
    ensures forall i :: 0 <= i < |s| - |r| ==> IsJsWhitespace(s[i])
    ensures |r| > 0 ==> !IsJsWhitespace(r[0])
    decreases |s|
  {
    if |s| > 0 && IsJsWhitespace(s[0]) then TrimStart(s[1..]) else s
  }

  function TrimEnd(s: string): (r: string)
    ensures |r| <= |s| && r == s[..|r|]
    ensures forall i :: |r| <= i < |s| ==> IsJsWhitespace(s[i])
    ensures |r| > 0 ==> !IsJsWhitespace(r[|r| - 1])
    decreases |s|
  {
    if |s| > 0 && IsJsWhitespace(s[|s| - 1]) then TrimEnd(s[..|s| - 1]) else s
  }

  /** `String.prototype.trim`: the leading, then the trailing white space cut off. */
  function Trim(s: string): string {
    TrimEnd(TrimStart(s))
  }

  /** Trimming cuts white space off both ends and nothing else: the result is
      a slice of the input with only white space around it, empty exactly
      when the input is all white space, and without white space at its ends. */
  lemma TrimCutsEdges(s: string)
    ensures |Trim(s)| <= |s|
    ensures Trim(s) == [] <==> forall i :: 0 <= i < |s| ==> IsJsWhitespace(s[i])
    ensures |Trim(s)| > 0 ==> !IsJsWhitespace(Trim(s)[0]) && !IsJsWhitespace(Trim(s)[|Trim(s)| - 1])
    ensures exists k {:trigger s[k..k + |Trim(s)|]} :: 0 <= k <= |s| - |Trim(s)| && Trim(s) == s[k..k + |Trim(s)|]
              && (forall i :: 0 <= i < k ==> IsJsWhitespace(s[i]))
              && (forall i :: k + |Trim(s)| <= i < |s| ==> IsJsWhitespace(s[i]))
  {
    var a := TrimStart(s);
    var r := Trim(s);
    var k := |s| - |a|;
    assert r == s[k..k + |r|];
    if r == [] {
      assert a == [];
    } else {
      assert r[0] == a[0] == s[k];
    }
  }

  /** The guard of addShop: name, owner, phone and address all non-empty after trimming. */
  predicate DraftComplete(d: ShopDraft) {
    Trim(d.name) != [] && Trim(d.owner) != [] && Trim(d.phone) != [] && Trim(d.address) != []
  }

  function HasVisibleChar(s: string): bool {
    exists i :: 0 <= i < |s| && !IsJsWhitespace(s[i])
  }

  lemma DraftCompleteIffVisible(d: ShopDraft)
    ensures DraftComplete(d) <==>
      HasVisibleChar(d.name) && HasVisibleChar(d.owner) && HasVisibleChar(d.phone) && HasVisibleChar(d.address)
  {
    TrimCutsEdges(d.name);
    TrimCutsEdges(d.owner);
    TrimCutsEdges(d.phone);
    TrimCutsEdges(d.address);
  }

  /** The edit form of a shop: every field but the id. */
  function DraftOf(s: Shop): ShopDraft {
    ShopDraft(s.name, s.owner, s.phone, s.alternateNumbers, s.address, s.location)
  }

  /** The shop addShop builds: the drafted fields under the new id. */
  function ShopFromDraft(id: Id, d: ShopDraft): (s: Shop)
    ensures s.id == id && DraftOf(s) == d
  {
    Shop(id, d.name, d.owner, d.phone, d.alternateNumbers, d.address, d.location)
  }

  function ReplaceIfSameId(edited: Shop): Shop -> Shop {
    (s: Shop) => if s.id == edited.id then edited else s
  }

  /** updateShop's list: each shop carrying the edited id is replaced by the edited shop. */
  function ReplaceShop(shops: seq<Shop>, edited: Shop): (r: seq<Shop>)
    ensures |r| == |shops|
    ensures forall i :: 0 <= i < |shops| ==> r[i] == if shops[i].id == edited.id then edited else shops[i]
  {
    MapSeq(shops, ReplaceIfSameId(edited))
  }

  /** The lookup of a shop by id: the first shop with that id, if any. */
  function FindShop(shops: seq<Shop>, id: Id): (r: Option<Shop>)
    ensures r.None? <==> forall s :: s in shops ==> s.id != id
    ensures r.Some? ==> exists i :: 0 <= i < |shops| && shops[i] == r.value && r.value.id == id
                          && forall j :: 0 <= j < i ==> shops[j].id != id
    decreases |shops|
  {
    if |shops| == 0 then None
    else if shops[0].id == id then Some(shops[0])
    else
      var r := FindShop(shops[1..], id);
      assert forall s :: s in shops ==> s == shops[0] || s in shops[1..];
      if r.Some? then
        var i :| 0 <= i < |shops[1..]| && shops[1..][i] == r.value && r.value.id == id
                 && forall j :: 0 <= j < i ==> shops[1..][j].id != id;
        assert shops[i + 1] == r.value;
        r
      else r
  }

  /** After updateShop a lookup by the edited id finds the edited shop (when
      there was one), and a lookup by any other id finds what it found before. */
  lemma {:induction false} FindAfterReplace(shops: seq<Shop>, edited: Shop, id: Id)
    ensures FindShop(ReplaceShop(shops, edited), id) ==
      if id == edited.id then (if FindShop(shops, id).Some? then Some(edited) else None)
      else FindShop(shops, id)
    decreases |shops|
  {
    if |shops| > 0 {
      assert ReplaceShop(shops, edited)[1..] == ReplaceShop(shops[1..], edited);
      FindAfterReplace(shops[1..], edited, id);
    }
  }

  // ------------------------------------------------------------------
  // ledger rows
  // ------------------------------------------------------------------

  /** The key the date comparators sort by: the row's timestamp. */
  function TxDate(t: Transaction): real { t.date as real }

  function Amount(t: Transaction): real { t.flowersSold as real * t.rate }

  function Received(t: Transaction): real { t.cashReceived }

  function Sold(t: Transaction): nat { t.flowersSold }

  function Replaced(t: Transaction): nat { t.replacedFlowers }

  /** What one delivery adds to the shop's debt: `flowersSold * rate - cashReceived`. */
  function Delta(t: Transaction): real { Amount(t) - t.cashReceived }

  function NetDelta(rows: seq<Transaction>): real { SumReal(rows, Delta) }

  function BelongsTo(shopId: Id): Transaction -> bool { (t: Transaction) => t.shopId == shopId }

  /** The shop's rows, in list order. */
  function ShopRows(txs: seq<Transaction>, shopId: Id): seq<Transaction> {
    Filter(txs, BelongsTo(shopId))
  }

  /** getShopTransactions: the shop's rows, stably sorted by date. */
  function ShopTransactions(txs: seq<Transaction>, shopId: Id): (r: seq<Transaction>)
    ensures Sorted(r, TxDate)
    ensures multiset(r) == multiset(ShopRows(txs, shopId))
    ensures forall t :: t in r <==> t in txs && t.shopId == shopId
  {
    SortBy(ShopRows(txs, shopId), TxDate)
  }

  /** getShopBalance: the stored balance of the shop's latest row (the last
      listed among rows sharing the latest date), or 0 for a shop without rows. */
  function ShopBalance(txs: seq<Transaction>, shopId: Id): (b: real)
    ensures ShopRows(txs, shopId) == [] ==> b == 0.0
    ensures ShopRows(txs, shopId) != [] ==>
      b == ShopRows(txs, shopId)[LatestIndex(ShopRows(txs, shopId), TxDate)].outstandingBalance
  {
    var history := ShopTransactions(txs, shopId);
    if |history| > 0 then
      LastOfSortBy(ShopRows(txs, shopId), TxDate);
      history[|history| - 1].outstandingBalance
    else 0.0
  }

  /** Rows of a shop sharing a date keep their list order in its history, so
      the balance getShopBalance reads among rows of the latest date is that of
      the last one listed. */
  lemma HistoryIsStable(txs: seq<Transaction>, shopId: Id, date: int)
    ensures Filter(ShopTransactions(txs, shopId), KeyIs(TxDate, date as real))
         == Filter(ShopRows(txs, shopId), KeyIs(TxDate, date as real))
  {
    SortByStable(ShopRows(txs, shopId), TxDate, date as real);
  }

  /** getLastSaleRate: the rate of the shop's latest row, or nothing. */
  function LastSaleRate(txs: seq<Transaction>, shopId: Id): (r: Option<real>)
    ensures r.None? <==> ShopRows(txs, shopId) == []
    ensures r.Some? ==> r.value == ShopRows(txs, shopId)[LatestIndex(ShopRows(txs, shopId), TxDate)].rate
  {
    var history := ShopTransactions(txs, shopId);
    if |history| > 0 then
      LastOfSortBy(ShopRows(txs, shopId), TxDate);
      Some(history[|history| - 1].rate)
    else None
  }

  function BalanceOf(txs: seq<Transaction>): Shop -> real { (s: Shop) => ShopBalance(txs, s.id) }

  /** getTotalOutstanding: the shops' balances added up, in list order. No
      shop in credit means a total that is not negative. */
  function TotalOutstanding(shops: seq<Shop>, txs: seq<Transaction>): (r: real)
    ensures shops == [] ==> r == 0.0
    ensures (forall s :: s in shops ==> ShopBalance(txs, s.id) >= 0.0) ==> r >= 0.0
  {
    SumRealNonNegative(shops, BalanceOf(txs));
    SumReal(shops, BalanceOf(txs))
  }

  /** A shop added under an id no row carries has balance 0, so it leaves the total as it was. */
  lemma NewShopKeepsTotal(shops: seq<Shop>, txs: seq<Transaction>, s: Shop)
    requires forall t :: t in txs ==> t.shopId != s.id
    ensures TotalOutstanding(shops + [s], txs) == TotalOutstanding(shops, txs)
  {
    FilterNone(txs, BelongsTo(s.id));
    assert (shops + [s])[..|shops|] == shops;
  }

  function HasOutstanding(txs: seq<Transaction>): Shop -> bool { (s: Shop) => ShopBalance(txs, s.id) > 0.0 }

  /** The key of getShopsWithOutstanding's comparator: the larger balance first. */
  function DescendingBalance(txs: seq<Transaction>): Shop -> real { (s: Shop) => -ShopBalance(txs, s.id) }

  /** getShopsWithOutstanding: exactly the shops owing money, largest debt first. */
  function ShopsWithOutstanding(shops: seq<Shop>, txs: seq<Transaction>): (r: seq<Shop>)
    ensures multiset(r) == multiset(Filter(shops, HasOutstanding(txs)))
    ensures forall s :: s in r <==> s in shops && ShopBalance(txs, s.id) > 0.0
    ensures forall i, j :: 0 <= i < j < |r| ==> ShopBalance(txs, r[i].id) >= ShopBalance(txs, r[j].id)
  {
    var r := SortBy(Filter(shops, HasOutstanding(txs)), DescendingBalance(txs));
    assert forall i, j :: 0 <= i < j < |r| ==> DescendingBalance(txs)(r[i]) <= DescendingBalance(txs)(r[j]);
    r
  }

  // ------------------------------------------------------------------
  // the stored running balance
  // ------------------------------------------------------------------

  /** Each of the shop's rows, taken in date order, stores the running sum
      of `flowersSold * rate - cashReceived` up to and including itself. */
  predicate RunningBalanced(txs: seq<Transaction>, shopId: Id) {
    ChainBalanced(ShopTransactions(txs, shopId))
  }

  /** Every row of `h` stores the running sum of the deltas up to and including itself. */
  predicate ChainBalanced(h: seq<Transaction>) {
    forall k :: 0 <= k < |h| ==> h[k].outstandingBalance == NetDelta(h[..k + 1])
  }

  /** A row storing the chain's net plus its own delta extends a balanced chain. */
  lemma ChainBalancedSnoc(h: seq<Transaction>, row: Transaction)
    requires ChainBalanced(h)
    requires row.outstandingBalance == NetDelta(h) + Delta(row)
    ensures ChainBalanced(h + [row])
  {
    var h' := h + [row];
    assert h'[..|h|] == h;
    forall k | 0 <= k < |h'| ensures h'[k].outstandingBalance == NetDelta(h'[..k + 1]) {
      if k < |h| {
        assert h'[..k + 1] == h[..k + 1];
      } else {
        assert h'[..k + 1] == h';
      }
    }
  }

  /** A row with its stored balance blanked out: what was entered for the delivery. */
  function Booking(t: Transaction): Transaction { t.(outstandingBalance := 0.0) }

  /** Two ledgers holding the same deliveries in the same order, whatever their stored balances. */
  predicate SameBookings(a: seq<Transaction>, b: seq<Transaction>) {
    |a| == |b| && forall i :: 0 <= i < |a| ==> Booking(a[i]) == Booking(b[i])
  }

  lemma SameBookingsSorted(a: seq<Transaction>, b: seq<Transaction>)
    requires SameBookings(a, b) && Sorted(b, TxDate)
    ensures Sorted(a, TxDate)
  {
    forall i, j | 0 <= i < j < |a| ensures TxDate(a[i]) <= TxDate(a[j]) {
      assert Booking(a[i]) == Booking(b[i]) && Booking(a[j]) == Booking(b[j]);
    }
  }

  /** Stored balances do not enter the deltas: two ledgers with the same
      bookings have the same net over any selection that ignores balances. */
  lemma {:induction false} NetDeltaSameBookings(a: seq<Transaction>, b: seq<Transaction>, p: Transaction -> bool)
    requires SameBookings(a, b)
    requires forall i :: 0 <= i < |a| ==> p(a[i]) == p(b[i])
    ensures NetDelta(Filter(a, p)) == NetDelta(Filter(b, p))
    decreases |a|
  {
    if |a| > 0 {
      var a', b', x, y := a[..|a| - 1], b[..|b| - 1], a[|a| - 1], b[|b| - 1];
      assert SameBookings(a', b');
      NetDeltaSameBookings(a', b', p);
      assert Delta(x) == Delta(y) by { assert Booking(x) == Booking(y); }
      if p(x) {
        var fa, fb := Filter(a', p) + [x], Filter(b', p) + [y];
        assert Filter(a, p) == fa && Filter(b, p) == fb;
        assert fa[..|fa| - 1] == Filter(a', p) && fb[..|fb| - 1] == Filter(b', p);
      } else {
        assert Filter(a, p) == Filter(a', p) + [] == Filter(a', p);
        assert Filter(b, p) == Filter(b', p) + [] == Filter(b', p);
      }
    }
  }

  /** The shop's balance is what it has been billed less what it has paid. */
  predicate BalanceIsNet(txs: seq<Transaction>, shopId: Id) {
    ShopBalance(txs, shopId) == NetDelta(ShopRows(txs, shopId))
  }

  lemma RunningBalanceIsNet(txs: seq<Transaction>, shopId: Id)
    requires RunningBalanced(txs, shopId)
    ensures BalanceIsNet(txs, shopId)
  {
    var h := ShopTransactions(txs, shopId);
    SumRealSortBy(ShopRows(txs, shopId), TxDate, Delta);
    if |h| > 0 {
      assert h[..|h|] == h;
    }
  }

  function ShopIds(shops: seq<Shop>): (ids: set<Id>)
    ensures forall id :: id in ids <==> exists s :: s in shops && s.id == id
    decreases |shops|
  {
    if |shops| == 0 then {}
    else
      assert forall s :: s in shops <==> s in shops[..|shops| - 1] || s == shops[|shops| - 1];
      ShopIds(shops[..|shops| - 1]) + {shops[|shops| - 1].id}
  }

  predicate IdsDistinct(shops: seq<Shop>) {
    forall i, j :: 0 <= i < j < |shops| ==> shops[i].id != shops[j].id
  }

  /** A shop appended under an id no listed shop has keeps the ids distinct. */
  lemma AppendFreshShop(shops: seq<Shop>, s: Shop)
    requires IdsDistinct(shops)
    requires s.id !in ShopIds(shops)
    ensures IdsDistinct(shops + [s])
  {
    var r := shops + [s];
    forall i, j | 0 <= i < j < |r| ensures r[i].id != r[j].id {
      assert r[i] == shops[i];
      if j == |shops| {
        assert shops[i] in shops;
      }
    }
  }

  function ShopIn(ids: set<Id>): Transaction -> bool { (t: Transaction) => t.shopId in ids }

  lemma {:induction false} OutstandingOfListedShops(shops: seq<Shop>, txs: seq<Transaction>)
    requires IdsDistinct(shops)
    requires forall s :: s in shops ==> BalanceIsNet(txs, s.id)
    ensures TotalOutstanding(shops, txs) == NetDelta(Filter(txs, ShopIn(ShopIds(shops))))
    decreases |shops|
  {
    if |shops| == 0 {
      FilterNone(txs, ShopIn(ShopIds(shops)));
    } else {
      var rest, z := shops[..|shops| - 1], shops[|shops| - 1];
      assert IdsDistinct(rest);
      LastIdFresh(shops);
      assert ShopIds(shops) == ShopIds(rest) + {z.id};
      calc {
        TotalOutstanding(shops, txs);
        SumReal(rest, BalanceOf(txs)) + ShopBalance(txs, z.id);
        { OutstandingOfListedShops(rest, txs); assert z in shops; }
        NetDelta(Filter(txs, ShopIn(ShopIds(rest)))) + NetDelta(ShopRows(txs, z.id));
        { SumRealFilterUnion(txs, ShopIn(ShopIds(rest)), BelongsTo(z.id), ShopIn(ShopIds(shops)), Delta); }
        NetDelta(Filter(txs, ShopIn(ShopIds(shops))));
      }
    }
  }

  lemma LastIdFresh(shops: seq<Shop>)
    requires IdsDistinct(shops) && |shops| > 0
    ensures shops[|shops| - 1].id !in ShopIds(shops[..|shops| - 1])
  {
    var rest, z := shops[..|shops| - 1], shops[|shops| - 1];
    forall s | s in rest ensures s.id != z.id {
      var i :| 0 <= i < |rest| && rest[i] == s;
      assert shops[i] == s;
    }
  }

  /** When every row belongs to a listed shop, shop ids are distinct and each
      shop's balance is its net billing, getTotalOutstanding is the whole
      ledger's amount billed less cash received. */
  lemma TotalOutstandingIsNet(shops: seq<Shop>, txs: seq<Transaction>)
    requires IdsDistinct(shops)
    requires forall t :: t in txs ==> t.shopId in ShopIds(shops)
    requires forall s :: s in shops ==> BalanceIsNet(txs, s.id)
    ensures TotalOutstanding(shops, txs) == SumReal(txs, Amount) - SumReal(txs, Received)
  {
    OutstandingOfListedShops(shops, txs);
    FilterAll(txs, ShopIn(ShopIds(shops)));
    SumRealDifference(txs, Amount, Received, Delta);
  }

  // ------------------------------------------------------------------
  // recordSale, shared by both versions
  // ------------------------------------------------------------------

  /** The row recordSale builds: the previous balance is getShopBalance, taken
      whatever the sale's date. */
  function SaleRow(txs: seq<Transaction>, id: Id, shopId: Id, sold: nat, rate: real, cash: real,
                   replaced: nat, date: int): (t: Transaction)
    ensures t.outstandingBalance == ShopBalance(txs, shopId) + Delta(t)
    ensures t == Transaction(id, shopId, sold, rate, cash, date, replaced, t.outstandingBalance)
  {
    Transaction(id, shopId, sold, rate, cash, date, replaced,
                ShopBalance(txs, shopId) + sold as real * rate - cash)
  }

  /** recordSale's new list: the old rows and the new one, stably sorted by date. */
  function SaleLedger(txs: seq<Transaction>, row: Transaction): (r: seq<Transaction>)
    ensures |r| == |txs| + 1
    ensures Sorted(r, TxDate)
  {
    SortBy(txs + [row], TxDate)
  }

  /** The new list holds exactly the old rows and the sale row. */
  lemma SaleLedgerPermutes(txs: seq<Transaction>, row: Transaction)
    ensures multiset(SaleLedger(txs, row)) == multiset(txs) + multiset{row}
    ensures forall t :: t in SaleLedger(txs, row) <==> t in txs || t == row
  {
  }

  /** On a ledger already in date order, the new row goes after every row
      dated on or before it and before every later row; nothing else moves. */
  lemma SaleLedgerSplit(txs: seq<Transaction>, row: Transaction) returns (k: nat)
    requires Sorted(txs, TxDate)
    ensures k <= |txs| && SaleLedger(txs, row) == txs[..k] + [row] + txs[k..]
    ensures forall i :: 0 <= i < k ==> txs[i].date <= row.date
    ensures forall i :: k <= i < |txs| ==> row.date < txs[i].date
  {
    SortByAppend(txs, row, TxDate);
    SortBySorted(txs, TxDate);
    k := InsertAt(txs, row, TxDate);
  }

  /** The shop's date-ordered rows after a sale. */
  lemma ShopTransactionsAfterSale(txs: seq<Transaction>, row: Transaction, shopId: Id)
    ensures ShopTransactions(SaleLedger(txs, row), shopId) ==
      if row.shopId == shopId then Insert(ShopTransactions(txs, shopId), row, TxDate)
      else ShopTransactions(txs, shopId)
  {
    var rows := ShopRows(txs, shopId);
    FilterSortBy(txs + [row], TxDate, BelongsTo(shopId));
    FilterSnoc(txs, row, BelongsTo(shopId));
    SortBySorted(ShopRows(SaleLedger(txs, row), shopId), TxDate);
    if row.shopId == shopId {
      SortByAppend(rows, row, TxDate);
    } else {
      assert rows + [] == rows;
    }
  }

  /** A sale dated no earlier than any of its shop's rows keeps every shop's
      running balances: the new row is the shop's last and stores the old
      balance plus its own amount less cash. */
  lemma SalePreservesRunningBalance(txs: seq<Transaction>, row: Transaction, shopId: Id)
    requires RunningBalanced(txs, shopId)
    requires row.outstandingBalance == ShopBalance(txs, row.shopId) + Delta(row)
    requires forall t :: t in txs && t.shopId == row.shopId ==> t.date <= row.date
    ensures RunningBalanced(SaleLedger(txs, row), shopId)
  {
    var h := ShopTransactions(txs, shopId);
    ShopTransactionsAfterSale(txs, row, shopId);
    if row.shopId == shopId {
      if |h| > 0 {
        assert h[|h| - 1] in txs;
      }
      InsertSnoc(h, row, TxDate);
      RunningBalanceIsNet(txs, shopId);
      SumRealSortBy(ShopRows(txs, shopId), TxDate, Delta);
      ChainBalancedSnoc(h, row);
    }
  }

  /** A date-ordered list of one shop's rows is its own history. */
  lemma HistoryOfOneShop(txs: seq<Transaction>, shopId: Id)
    requires Sorted(txs, TxDate)
    requires forall t :: t in txs ==> t.shopId == shopId
    ensures ShopTransactions(txs, shopId) == txs
  {
    FilterAll(txs, BelongsTo(shopId));
    SortBySorted(txs, TxDate);
  }

  lemma NetDeltaOfTwo(a: Transaction, b: Transaction)
    ensures NetDelta([a, b]) == Delta(a) + Delta(b)
  {
    assert [a, b][..1] == [a];
    assert [a][..0] == [];
    assert SumReal([a][..0], Delta) == 0.0;
    assert SumReal([a], Delta) == Delta(a);
    assert SumReal([a, b], Delta) == SumReal([a], Delta) + Delta(b);
  }

  // Two rows of one shop, on days 2 and 3: 10 at 40 and 5 at 40, nothing paid.
  const dayTwo := Transaction(1, 7, 10, 40.0, 0.0, 2, 0, 400.0)
  const dayThree := Transaction(2, 7, 5, 40.0, 0.0, 3, 0, 600.0)

  lemma TwoDaysBalanced()
    ensures RunningBalanced([dayTwo, dayThree], 7)
    ensures ShopBalance([dayTwo, dayThree], 7) == 600.0
  {
    var txs := [dayTwo, dayThree];
    HistoryOfOneShop(txs, 7);
    NetDeltaOfTwo(dayTwo, dayThree);
    assert txs[..1] == [dayTwo] && txs[..2] == txs;
    assert [dayTwo][..0] == [];
  }

  /** As written, a backdated sale stores the shop's latest balance plus its
      own amount and leaves the later rows as they were: with the two rows
      above, a day-1 sale of 10 at 40 with nothing paid stores 1000, goes
      first, the later rows keep 400 and 600, and the running balance no
      longer holds. */
  lemma BackdatedSaleKeepsLaterBalances()
    ensures var day1 := SaleRow([dayTwo, dayThree], 3, 7, 10, 40.0, 0.0, 0, 1);
      && RunningBalanced([dayTwo, dayThree], 7)
      && day1.outstandingBalance == 1000.0
      && SaleLedger([dayTwo, dayThree], day1) == [day1, dayTwo, dayThree]
      && !RunningBalanced(SaleLedger([dayTwo, dayThree], day1), 7)
  {
    var day1 := SaleRow([dayTwo, dayThree], 3, 7, 10, 40.0, 0.0, 0, 1);
    TwoDaysBalanced();
    assert day1.outstandingBalance == 1000.0;
    BackdatedRowGoesFirst(day1, dayTwo, dayThree);
    BackdatedLedgerUnbalanced(day1, dayTwo, dayThree);
  }

  /** A row dated before two date-ordered rows is placed first. */
  lemma BackdatedRowGoesFirst(a: Transaction, b: Transaction, c: Transaction)
    requires a.date < b.date <= c.date
    ensures SaleLedger([b, c], a) == [a, b, c]
  {
    var txs := [b, c];
    assert Sorted(txs, TxDate);
    SortByAppend(txs, a, TxDate);
    SortBySorted(txs, TxDate);
    InsertBeforeTwo(a, b, c);
  }

  lemma InsertBeforeTwo(a: Transaction, b: Transaction, c: Transaction)
    requires a.date < b.date <= c.date
    ensures Insert([b, c], a, TxDate) == [a, b, c]
  {
    var s := [b, c];
    assert s[..1] == [b];
    assert TxDate(s[1]) > TxDate(a);
    assert Insert(s, a, TxDate) == Insert([b], a, TxDate) + [c];
    InsertBeforeOne(a, b);
  }

  lemma InsertBeforeOne(a: Transaction, b: Transaction)
    requires a.date < b.date
    ensures Insert([b], a, TxDate) == [a, b]
  {
    assert [b][..0] == [];
  }

  /** If a row dated first leaves its successor's stored balance short by its
      own contribution, the shop's running balance does not hold. */
  lemma BackdatedLedgerUnbalanced(a: Transaction, b: Transaction, c: Transaction)
    requires a.date < b.date <= c.date
    requires a.shopId == b.shopId == c.shopId
    requires b.outstandingBalance == Delta(b) && Delta(a) != 0.0
    ensures !RunningBalanced([a, b, c], a.shopId)
  {
    var after := [a, b, c];
    assert after[..2] == [a, b];
    NetDeltaOfTwo(a, b);
    assert Sorted(after, TxDate);
    HistoryOfOneShop(after, a.shopId);
    assert after[1].outstandingBalance != NetDelta(after[..2]);
  }

  // ------------------------------------------------------------------
  // getSummary
  // ------------------------------------------------------------------

  datatype Summary = Summary(totalSold: nat, totalAmount: real, totalReceived: real,
                             balance: real, averagePrice: real)

  function InPeriod(periodStart: int, shopId: Option<Id>): Transaction -> bool {
    (t: Transaction) => (shopId.None? || t.shopId == shopId.value) && t.date >= periodStart
  }

  /** The rows getSummary counts: those of the given shop (any shop when none
      is given) dated at or after the period start. */
  function PeriodRows(txs: seq<Transaction>, periodStart: int, shopId: Option<Id>): (r: seq<Transaction>)
    ensures forall t :: t in r <==>
      t in txs && t.date >= periodStart && (shopId.None? || t.shopId == shopId.value)
    ensures forall key :: Sorted(txs, key) ==> Sorted(r, key)
  {
    var r := Filter(txs, InPeriod(periodStart, shopId));
    forall key | Sorted(txs, key) ensures Sorted(r, key) {
      FilterSorted(txs, key, InPeriod(periodStart, shopId));
    }
    r
  }

  function SoldIfIn(periodStart: int, shopId: Option<Id>, t: Transaction): nat {
    if InPeriod(periodStart, shopId)(t) then t.flowersSold else 0
  }

  function SoldIn(periodStart: int, shopId: Option<Id>): Transaction -> nat {
    (t: Transaction) => SoldIfIn(periodStart, shopId, t)
  }

  function DeltaIn(periodStart: int, shopId: Option<Id>): Transaction -> real {
    (t: Transaction) => if InPeriod(periodStart, shopId)(t) then Delta(t) else 0.0
  }

  /** The totals of getSummary over some rows. Replaced flowers dilute the
      average price; the balance is local to the rows, and is the net change
      they make to the shops' running balances. */
  function Summarize(rows: seq<Transaction>): (r: Summary)
    ensures r.totalSold == SumNat(rows, Sold)
    ensures r.totalAmount == SumReal(rows, Amount) && r.totalReceived == SumReal(rows, Received)
    ensures r.balance == r.totalAmount - r.totalReceived == NetDelta(rows)
    ensures r.totalSold > 0 ==>
      r.averagePrice * ((r.totalSold + SumNat(rows, Replaced)) as real) == r.totalAmount
    ensures r.totalSold == 0 ==> r.averagePrice == 0.0
  {
    var sold, replaced := SumNat(rows, Sold), SumNat(rows, Replaced);
    var amount, received := SumReal(rows, Amount), SumReal(rows, Received);
    SumRealDifference(rows, Amount, Received, Delta);
    Summary(sold, amount, received, amount - received,
            if sold > 0 then amount / ((sold + replaced) as real) else 0.0)
  }

  /** getSummary with the period start computed by the caller ("now" less a
      day, a week or a month). */
  function PeriodSummary(txs: seq<Transaction>, periodStart: int, shopId: Option<Id>): (r: Summary)
    ensures r.totalSold == SumNat(txs, SoldIn(periodStart, shopId))
    ensures r.balance == SumReal(txs, DeltaIn(periodStart, shopId))
  {
    SumNatMask(txs, InPeriod(periodStart, shopId), Sold, SoldIn(periodStart, shopId));
    SumRealMask(txs, InPeriod(periodStart, shopId), Delta, DeltaIn(periodStart, shopId));
    Summarize(PeriodRows(txs, periodStart, shopId))
  }

  /** One delivery of 10 flowers at 40 with 2 replaced: amount 400, average 400 / 12. */
  lemma ReplacedFlowersDiluteAveragePrice()
    ensures var t := Transaction(1, 7, 10, 40.0, 0.0, 5, 2, 400.0);
            var s := PeriodSummary([t], 0, None);
            s.totalAmount == 400.0 && s.averagePrice == 400.0 / 12.0 && s.balance == 400.0
  {
    var t := Transaction(1, 7, 10, 40.0, 0.0, 5, 2, 400.0);
    FilterAll([t], InPeriod(0, None));
    assert PeriodRows([t], 0, None) == [t];
    assert [t][..0] == [];
    assert SumNat([t], Sold) == 10 && SumNat([t], Replaced) == 2;
    assert SumReal([t], Amount) == 400.0 && SumReal([t], Received) == 0.0;
  }

  // ------------------------------------------------------------------
  // getShopDeliveryTrends
  // ------------------------------------------------------------------

  function Within(start: int, end: int): Transaction -> bool { (t: Transaction) => start <= t.date <= end }

  /** The rows a delivery trend is drawn from: exactly the shop's rows dated
      within [start, end], in date order. */
  function TrendWindow(txs: seq<Transaction>, shopId: Id, start: int, end: int): (w: seq<Transaction>)
    ensures Sorted(w, TxDate)
    ensures forall t :: t in w <==> t in txs && t.shopId == shopId && start <= t.date <= end
  {
    FilterSorted(ShopTransactions(txs, shopId), TxDate, Within(start, end));
    Filter(ShopTransactions(txs, shopId), Within(start, end))
  }
}
