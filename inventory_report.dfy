/** The inventory snapshot script (scripts/verify-inventory.js): reads every
    active product's declared sizes and `stock_<size>` counts, totals them,
    counts low and out-of-stock sizes, and renders the result as a console
    report, a JSON document or CSV rows. Counts are JavaScript numbers, so a
    non-numeric stock value is NaN and poisons every sum it enters. */
module InventoryReport {
  import opened Wrappers
  import opened Js
  import opened JsObject
  import opened InventoryCodec
  import Catalog

  // ---------------------------------------------------------------- numbers

  /** `a + b` on JavaScript numbers: NaN absorbs. */
  function Add(a: Number, b: Number): (r: Number)
    ensures r.Int? <==> a.Int? && b.Int?
    ensures r.Int? ==> r.n == a.n + b.n
  {
    if a.Int? && b.Int? then Int(a.n + b.n) else NaN
  }

  /** `a * b` on JavaScript numbers. */
  function Mul(a: Number, b: Number): (r: Number)
    ensures r.Int? <==> a.Int? && b.Int?
    ensures r.Int? ==> r.n == a.n * b.n
  {
    if a.Int? && b.Int? then Int(a.n * b.n) else NaN
  }

  lemma AddAssociative(a: Number, b: Number, c: Number)
    ensures Add(Add(a, b), c) == Add(a, Add(b, c))
  {
  }

  lemma AddZero(a: Number)
    ensures Add(Int(0), a) == a
  {
  }

  /** `stock === 0`. */
  predicate IsOut(stock: Number) { stock == Int(0) }

  /** `stock !== 0 && stock <= 5`; NaN is neither out nor low. */
  predicate IsLow(stock: Number) { stock.Int? && stock.n != 0 && stock.n <= 5 }

  // ---------------------------------------------------------------- sizes

  /** Lines 39-40: `(metadata.sizes || '').split(',')`, trimmed, blanks
      dropped. */
  function DeclaredSizes(md: Metadata): seq<string> {
    TrimNonEmpty(Split(SizesField(md), ','))
  }

  /** `metadata.sizes || ''`. */
  function SizesField(md: Metadata): string {
    if "sizes" in md then md["sizes"] else ""
  }

  /** The declared sizes are exactly the non-blank comma-separated pieces of the
      `sizes` field, trimmed. */
  lemma DeclaredSizesMembers(md: Metadata, t: string)
    ensures t in DeclaredSizes(md) <==> TrimsTo(Split(SizesField(md), ','), t)
  {
    TrimNonEmptyMembers(Split(SizesField(md), ','), t);
  }

  /** Each declared size is already its own trim. */
  lemma DeclaredSizesTrimmed(md: Metadata, t: string)
    requires t in DeclaredSizes(md)
    ensures Trim(t) == t
  {
    var pieces := Split(SizesField(md), ',');
    TrimNonEmptyMembers(pieces, t);
    var i :| 0 <= i < |pieces| && Trim(pieces[i]) == t;
    TrimIdempotent(pieces[i]);
  }

  // ---------------------------------------------------------------- scanning

  /** The variables the `forEach` over one product's sizes updates: the
      product's `sizes` object and total, and the running report totals. */
  datatype Scan = Scan(sizes: Entries<Number>, productTotal: Number, totalStock: Number,
                       lowStockCount: nat, outOfStockCount: nat)

  /** One iteration of the `forEach` (lines 57-64). */
  function ScanStep(s: Scan, md: Metadata, size: string): Scan {
    var stock := ReadStock(md, size);
    Scan(Put(s.sizes, size, stock),
         Add(s.productTotal, stock),
         Add(s.totalStock, stock),
         s.lowStockCount + if IsLow(stock) then 1 else 0,
         s.outOfStockCount + if IsOut(stock) then 1 else 0)
  }

  /** The `forEach` over `sizes` from state `s`. */
  function ScanSizes(s: Scan, md: Metadata, sizes: seq<string>): Scan {
    if |sizes| == 0 then s else ScanStep(ScanSizes(s, md, sizes[..|sizes| - 1]), md, sizes[|sizes| - 1])
  }

  /** The sum of the stocks of `sizes`, one term per declared size. */
  function StockSum(md: Metadata, sizes: seq<string>): Number {
    if |sizes| == 0 then Int(0) else Add(StockSum(md, sizes[..|sizes| - 1]), ReadStock(md, sizes[|sizes| - 1]))
  }

  /** How many of `sizes` read as exactly 0. */
  function CountOut(md: Metadata, sizes: seq<string>): nat {
    if |sizes| == 0 then 0
    else CountOut(md, sizes[..|sizes| - 1]) + if IsOut(ReadStock(md, sizes[|sizes| - 1])) then 1 else 0
  }

  /** How many of `sizes` read as a non-zero count of at most 5. */
  function CountLow(md: Metadata, sizes: seq<string>): nat {
    if |sizes| == 0 then 0
    else CountLow(md, sizes[..|sizes| - 1]) + if IsLow(ReadStock(md, sizes[|sizes| - 1])) then 1 else 0
  }

  /** No size is both out of stock and low, so the two counts together never
      exceed the number of sizes. */
  lemma {:induction false} CountsDisjoint(md: Metadata, sizes: seq<string>)
    ensures CountOut(md, sizes) + CountLow(md, sizes) <= |sizes|
  {
    if |sizes| > 0 {
      CountsDisjoint(md, sizes[..|sizes| - 1]);
    }
  }

  /** What a scan adds to the totals: the product total and the report
      total both grow by the sum of the sizes' stocks, the counters by the
      number of out and low sizes. */
  lemma {:induction false} ScanSizesTotals(s: Scan, md: Metadata, sizes: seq<string>)
    ensures var r := ScanSizes(s, md, sizes);
      && r.productTotal == Add(s.productTotal, StockSum(md, sizes))
      && r.totalStock == Add(s.totalStock, StockSum(md, sizes))
      && r.outOfStockCount == s.outOfStockCount + CountOut(md, sizes)
      && r.lowStockCount == s.lowStockCount + CountLow(md, sizes)
  {
    if |sizes| > 0 {
      var init := sizes[..|sizes| - 1];
      var last := sizes[|sizes| - 1];
      ScanSizesTotals(s, md, init);
      AddAssociative(s.productTotal, StockSum(md, init), ReadStock(md, last));
      AddAssociative(s.totalStock, StockSum(md, init), ReadStock(md, last));
    }
  }

  /** Every scanned size gets its stock in the product's `sizes` object, and
      every other name keeps what it had. */
  lemma {:induction false} ScanSizesEntries(s: Scan, md: Metadata, sizes: seq<string>, name: string)
    ensures Get(ScanSizes(s, md, sizes).sizes, name) ==
      if name in sizes then Some(ReadStock(md, name)) else Get(s.sizes, name)
  {
    if |sizes| > 0 {
      var init := sizes[..|sizes| - 1];
      var last := sizes[|sizes| - 1];
      ScanSizesEntries(s, md, init, name);
      var r0 := ScanSizes(s, md, init);
      var stock := ReadStock(md, last);
      assert ScanSizes(s, md, sizes).sizes == Put(r0.sizes, last, stock);
      PutGet(r0.sizes, last, stock, name);
      SnocMember(sizes, name);
    }
  }

  lemma SnocMember(xs: seq<string>, x: string)
    requires |xs| > 0
    ensures x in xs <==> x in xs[..|xs| - 1] || x == xs[|xs| - 1]
  {
    if x in xs {
      var i :| 0 <= i < |xs| && xs[i] == x;
      if i < |xs| - 1 {
        assert xs[..|xs| - 1][i] == x;
      }
    }
  }

  /** Lines 56-65: the `forEach` itself. */
  method ScanProductSizes(s: Scan, md: Metadata, sizes: seq<string>) returns (r: Scan)
    ensures r == ScanSizes(s, md, sizes)
  {
    r := s;
    for i := 0 to |sizes|
      invariant r == ScanSizes(s, md, sizes[..i])
    {
      assert sizes[..i + 1][..i] == sizes[..i];
      ghost var next := ScanStep(r, md, sizes[i]);
      assert ScanSizes(s, md, sizes[..i + 1]) == next;
      var stock := ReadStock(md, sizes[i]);
      var low := r.lowStockCount;
      var out := r.outOfStockCount;
      if IsOut(stock) {
        out := out + 1;
      } else if IsLow(stock) {
        low := low + 1;
      }
      r := Scan(Put(r.sizes, sizes[i], stock), Add(r.productTotal, stock), Add(r.totalStock, stock), low, out);
      assert r == next;
    }
    assert sizes[..|sizes|] == sizes;
  }

  // ---------------------------------------------------------------- snapshot

  /** One entry of `inventory`. `price` is in cents. */
  datatype ProductInventory = ProductInventory(id: string, name: string, price: nat,
                                               sizes: Entries<Number>, totalStock: Number)

  /** The report variables after the product loop. */
  datatype Snapshot = Snapshot(inventory: seq<ProductInventory>, totalStock: Number,
                               lowStockCount: nat, outOfStockCount: nat)

  /** `default_price?.unit_amount ? unit_amount / 100 : 0`, in cents. */
  function PriceOf(p: Catalog.StripeProduct): nat {
    if p.defaultPrice.Some? then p.defaultPrice.value.unitAmount else 0
  }

  /** One iteration of the product loop (lines 38-68); `None` when the product
      has no metadata object, where reading `metadata.sizes` throws. */
  function Visit(acc: Snapshot, p: Catalog.StripeProduct): Option<Snapshot> {
    if p.metadata.None? then None
    else
      var md := p.metadata.value;
      var sizes := DeclaredSizes(md);
      if |sizes| == 0 then Some(acc)
      else
        var r := ScanSizes(Scan([], Int(0), acc.totalStock, acc.lowStockCount, acc.outOfStockCount), md, sizes);
        Some(Snapshot(acc.inventory + [ProductInventory(p.id, p.name, PriceOf(p), r.sizes, r.productTotal)],
                      r.totalStock, r.lowStockCount, r.outOfStockCount))
  }

  /** The loop over `products.data`. */
  function SnapshotOf(products: seq<Catalog.StripeProduct>): Option<Snapshot> {
    if |products| == 0 then Some(Snapshot([], Int(0), 0, 0))
    else
      var prev := SnapshotOf(products[..|products| - 1]);
      if prev.None? then None else Visit(prev.value, products[|products| - 1])
  }

  /** Lines 32-69. */
  method ExportSnapshot(products: seq<Catalog.StripeProduct>) returns (r: Option<Snapshot>)
    ensures r == SnapshotOf(products)
  {
    var inventory: seq<ProductInventory> := [];
    var totalStock := Int(0);
    var lowStockCount := 0;
    var outOfStockCount := 0;
    for i := 0 to |products|
      invariant SnapshotOf(products[..i]) == Some(Snapshot(inventory, totalStock, lowStockCount, outOfStockCount))
    {
      assert products[..i + 1][..i] == products[..i];
      var p := products[i];
      ghost var acc := Snapshot(inventory, totalStock, lowStockCount, outOfStockCount);
      assert SnapshotOf(products[..i + 1]) == Visit(acc, p);
      if p.metadata.None? {
        SnapshotAbsorbs(products, i + 1);
        return None;
      }
      var md := p.metadata.value;
      var sizes := DeclaredSizes(md);
      if |sizes| == 0 {
        continue;
      }
      var s := ScanProductSizes(Scan([], Int(0), totalStock, lowStockCount, outOfStockCount), md, sizes);
      inventory := inventory + [ProductInventory(p.id, p.name, PriceOf(p), s.sizes, s.productTotal)];
      totalStock := s.totalStock;
      lowStockCount := s.lowStockCount;
      outOfStockCount := s.outOfStockCount;
    }
    assert products[..|products|] == products;
    r := Some(Snapshot(inventory, totalStock, lowStockCount, outOfStockCount));
  }

  /** Once a product has thrown, the whole loop has. */
  lemma {:induction false} SnapshotAbsorbs(products: seq<Catalog.StripeProduct>, k: nat)
    requires k <= |products| && SnapshotOf(products[..k]) == None
    ensures SnapshotOf(products) == None
    decreases |products| - k
  {
    if k < |products| {
      assert products[..k + 1][..k] == products[..k];
      SnapshotAbsorbs(products, k + 1);
    } else {
      assert products[..k] == products;
    }
  }

  /** The sum of the products' own totals. */
  function SumTotals(inventory: seq<ProductInventory>): Number {
    if |inventory| == 0 then Int(0) else Add(SumTotals(inventory[..|inventory| - 1]), inventory[|inventory| - 1].totalStock)
  }

  /** How many declared sizes the reported products have together. */
  function DeclaredCount(products: seq<Catalog.StripeProduct>): nat {
    if |products| == 0 then 0
    else
      var p := products[|products| - 1];
      DeclaredCount(products[..|products| - 1]) + if p.metadata.Some? then |DeclaredSizes(p.metadata.value)| else 0
  }

  /** How many declared sizes of the products read as exactly 0. */
  function OutCount(products: seq<Catalog.StripeProduct>): nat {
    if |products| == 0 then 0
    else
      var p := products[|products| - 1];
      OutCount(products[..|products| - 1]) +
        if p.metadata.Some? then CountOut(p.metadata.value, DeclaredSizes(p.metadata.value)) else 0
  }

  /** How many declared sizes of the products read as a non-zero count of at
      most 5. */
  function LowCount(products: seq<Catalog.StripeProduct>): nat {
    if |products| == 0 then 0
    else
      var p := products[|products| - 1];
      LowCount(products[..|products| - 1]) +
        if p.metadata.Some? then CountLow(p.metadata.value, DeclaredSizes(p.metadata.value)) else 0
  }

  /** The report totals: the overall total is the sum of the products' own
      totals; the out-of-stock count is the number of declared sizes at
      exactly 0 and the low count the number at a non-zero count of at most
      5; a size is counted as one or the other, never both, so the two
      counts together never exceed the number of declared sizes; at most one
      entry is reported per product. */
  lemma {:induction false} SnapshotTotals(products: seq<Catalog.StripeProduct>)
    ensures var r := SnapshotOf(products);
      r.Some? ==>
        && r.value.totalStock == SumTotals(r.value.inventory)
        && r.value.outOfStockCount == OutCount(products)
        && r.value.lowStockCount == LowCount(products)
        && r.value.outOfStockCount + r.value.lowStockCount <= DeclaredCount(products)
        && |r.value.inventory| <= |products|
  {
    if |products| > 0 {
      var init := products[..|products| - 1];
      var p := products[|products| - 1];
      SnapshotTotals(init);
      var prev := SnapshotOf(init);
      assert SnapshotOf(products) == if prev.None? then None else Visit(prev.value, p);
      if prev.Some? && p.metadata.Some? {
        var acc := prev.value;
        var md := p.metadata.value;
        var sizes := DeclaredSizes(md);
        assert DeclaredCount(products) == DeclaredCount(init) + |sizes|;
        assert OutCount(products) == OutCount(init) + CountOut(md, sizes);
        assert LowCount(products) == LowCount(init) + CountLow(md, sizes);
        if |sizes| > 0 {
          var s0 := Scan([], Int(0), acc.totalStock, acc.lowStockCount, acc.outOfStockCount);
          ScanSizesTotals(s0, md, sizes);
          CountsDisjoint(md, sizes);
          var r := ScanSizes(s0, md, sizes);
          var entry := ProductInventory(p.id, p.name, PriceOf(p), r.sizes, r.productTotal);
          assert Visit(acc, p) == Some(Snapshot(acc.inventory + [entry], r.totalStock, r.lowStockCount, r.outOfStockCount));
          assert (acc.inventory + [entry])[..|acc.inventory|] == acc.inventory;
          AddZero(StockSum(md, sizes));
          assert r.productTotal == StockSum(md, sizes);
          assert SumTotals(acc.inventory + [entry]) == Add(SumTotals(acc.inventory), entry.totalStock);
        } else {
          assert Visit(acc, p) == Some(acc);
        }
      }
    }
  }

  /** The products the report lists: those whose declared sizes are not all
      blank, in their original order. */
  function Reported(products: seq<Catalog.StripeProduct>): seq<Catalog.StripeProduct> {
    if |products| == 0 then []
    else
      var p := products[|products| - 1];
      Reported(products[..|products| - 1]) +
        if p.metadata.Some? && |DeclaredSizes(p.metadata.value)| > 0 then [p] else []
  }

  /** Entry `e` reports product `p`: same id, name and price, a total that is
      the sum over the declared sizes, and, for `name`, the stock read for it
      when it is a declared size and nothing otherwise. */
  predicate EntryMatches(p: Catalog.StripeProduct, e: ProductInventory, name: string) {
    && p.metadata.Some?
    && e.id == p.id && e.name == p.name && e.price == PriceOf(p)
    && e.totalStock == StockSum(p.metadata.value, DeclaredSizes(p.metadata.value))
    && Get(e.sizes, name) ==
         if name in DeclaredSizes(p.metadata.value) then Some(ReadStock(p.metadata.value, name)) else None
  }

  /** The report lists exactly the products with declared sizes, in order; the
      entry of each has its id, name and price, a total that is the sum over
      its declared sizes, and a stock for exactly its declared sizes (a
      missing `stock_<size>` key reading as 0). */
  lemma {:induction false} SnapshotEntries(products: seq<Catalog.StripeProduct>, j: nat, name: string)
    requires SnapshotOf(products).Some?
    ensures var inv := SnapshotOf(products).value.inventory;
      |inv| == |Reported(products)| &&
      (j < |inv| ==> EntryMatches(Reported(products)[j], inv[j], name))
  {
    if |products| > 0 {
      var init := products[..|products| - 1];
      var p := products[|products| - 1];
      var prev := SnapshotOf(init);
      assert SnapshotOf(products) == Visit(prev.value, p);
      SnapshotEntries(init, j, name);
      var acc := prev.value;
      var inv := SnapshotOf(products).value.inventory;
      if |DeclaredSizes(p.metadata.value)| > 0 {
        VisitReports(acc, p, name);
        assert Reported(products) == Reported(init) + [p];
        if j < |acc.inventory| {
          assert inv[j] == inv[..|acc.inventory|][j];
          assert (Reported(init) + [p])[j] == Reported(init)[j];
        } else if j == |acc.inventory| {
          var rp := Reported(init);
          assert |rp| == j;
          assert (rp + [p])[|rp|] == p;
        }
      } else {
        assert Reported(init) + [] == Reported(init);
      }
    }
  }

  /** Visiting a product with declared sizes appends one entry that reports
      it. */
  lemma VisitReports(acc: Snapshot, p: Catalog.StripeProduct, name: string)
    requires p.metadata.Some? && |DeclaredSizes(p.metadata.value)| > 0
    ensures Visit(acc, p).Some?
    ensures var inv := Visit(acc, p).value.inventory;
      && |inv| == |acc.inventory| + 1
      && inv[..|acc.inventory|] == acc.inventory
      && EntryMatches(p, inv[|acc.inventory|], name)
  {
    var md := p.metadata.value;
    var sizes := DeclaredSizes(md);
    var s0 := Scan([], Int(0), acc.totalStock, acc.lowStockCount, acc.outOfStockCount);
    ScanSizesTotals(s0, md, sizes);
    AddZero(StockSum(md, sizes));
    ScanSizesEntries(s0, md, sizes, name);
    var r := ScanSizes(s0, md, sizes);
    var entry := ProductInventory(p.id, p.name, PriceOf(p), r.sizes, r.productTotal);
    assert Visit(acc, p) == Some(Snapshot(acc.inventory + [entry], r.totalStock, r.lowStockCount, r.outOfStockCount));
    assert (acc.inventory + [entry])[..|acc.inventory|] == acc.inventory;
  }

  // ---------------------------------------------------------------- size order

  /** The canonical order of the console report (line 98). */
  const SizeOrder: seq<string> := ["XS", "S", "M", "L", "XL", "2XL", "3XL", "4XL"]

  /** `xs.indexOf(x)`: the first position of `x`, or -1. */
  function IndexOf(xs: seq<string>, x: string): (r: int)
    ensures -1 <= r < |xs|
    ensures r == -1 <==> x !in xs
    ensures r >= 0 ==> xs[r] == x && x !in xs[..r]
  {
    if |xs| == 0 then -1
    else if xs[0] == x then 0
    else
      var r := IndexOf(xs[1..], x);
      assert xs == [xs[0]] + xs[1..];
      if r == -1 then -1
      else
        assert xs[..r + 1] == [xs[0]] + xs[1..][..r];
        r + 1
  }

  /** The sort key of a size: its index in the canonical order, -1 for a size
      not in it, which therefore sorts before every known size. */
  function Rank(size: string): int {
    IndexOf(SizeOrder, size)
  }

  /** Known sizes rank by their position; unknown ones below all of them. */
  lemma RankFacts(size: string)
    ensures size !in SizeOrder ==> Rank(size) == -1
    ensures size in SizeOrder ==> 0 <= Rank(size) < |SizeOrder| && SizeOrder[Rank(size)] == size
  {
  }

  /** A sort key on sizes. */
  type RankFn = string -> int

  /** Places `e` after every entry of `s` whose rank is at most its own, so
      that entries of equal rank keep their relative order. */
  function Insert(s: Entries<Number>, e: (string, Number), rank: RankFn): Entries<Number> {
    if |s| == 0 || rank(s[|s| - 1].0) <= rank(e.0) then s + [e]
    else Insert(s[..|s| - 1], e, rank) + [s[|s| - 1]]
  }

  /** A stable sort of the entries by the rank of their size: what
      `Array.prototype.sort` with the comparator `rank(a) - rank(b)` does. */
  function SortBy(e: Entries<Number>, rank: RankFn): Entries<Number> {
    if |e| == 0 then [] else Insert(SortBy(e[..|e| - 1], rank), e[|e| - 1], rank)
  }

  /** `Object.entries(item.sizes).sort(...)` (lines 97-100). */
  function SortSizes(e: Entries<Number>): Entries<Number> {
    SortBy(e, Rank)
  }

  predicate SortedBy(s: Entries<Number>, rank: RankFn) {
    forall i, j :: 0 <= i < j < |s| ==> rank(s[i].0) <= rank(s[j].0)
  }

  /** The entries of rank `k`, in order. */
  function WithRank(s: Entries<Number>, rank: RankFn, k: int): Entries<Number> {
    if |s| == 0 then []
    else WithRank(s[..|s| - 1], rank, k) + if rank(s[|s| - 1].0) == k then [s[|s| - 1]] else []
  }

  lemma {:induction false} WithRankAppend(a: Entries<Number>, b: Entries<Number>, rank: RankFn, k: int)
    ensures WithRank(a + b, rank, k) == WithRank(a, rank, k) + WithRank(b, rank, k)
    decreases |b|
  {
    if |b| == 0 {
      assert a + b == a;
    } else {
      var b' := b[..|b| - 1];
      WithRankAppend(a, b', rank, k);
      assert (a + b)[..|a + b| - 1] == a + b';
      assert (a + b)[|a + b| - 1] == b[|b| - 1];
    }
  }

  lemma {:induction false} InsertMultiset(s: Entries<Number>, e: (string, Number), rank: RankFn)
    ensures multiset(Insert(s, e, rank)) == multiset(s) + multiset{e}
  {
    if |s| > 0 && rank(s[|s| - 1].0) > rank(e.0) {
      var init := s[..|s| - 1];
      InsertMultiset(init, e, rank);
      assert s == init + [s[|s| - 1]];
    }
  }

  /** Every rank is at most `b`. */
  predicate RanksAtMost(s: Entries<Number>, rank: RankFn, b: int) {
    forall i :: 0 <= i < |s| ==> rank(s[i].0) <= b
  }

  lemma {:induction false} InsertRanksAtMost(s: Entries<Number>, e: (string, Number), rank: RankFn, b: int)
    requires RanksAtMost(s, rank, b) && rank(e.0) <= b
    ensures RanksAtMost(Insert(s, e, rank), rank, b)
  {
    if |s| > 0 && rank(s[|s| - 1].0) > rank(e.0) {
      var init := s[..|s| - 1];
      assert RanksAtMost(init, rank, b) by {
        forall i | 0 <= i < |init| ensures rank(init[i].0) <= b {
          assert init[i] == s[i];
        }
      }
      InsertRanksAtMost(init, e, rank, b);
    }
  }

  lemma {:induction false} InsertSorted(s: Entries<Number>, e: (string, Number), rank: RankFn)
    requires SortedBy(s, rank)
    ensures SortedBy(Insert(s, e, rank), rank)
  {
    if |s| > 0 && rank(s[|s| - 1].0) > rank(e.0) {
      var init := s[..|s| - 1];
      var last := s[|s| - 1];
      assert SortedBy(init, rank) by {
        forall i, j | 0 <= i < j < |init| ensures rank(init[i].0) <= rank(init[j].0) {
          assert init[i] == s[i] && init[j] == s[j];
        }
      }
      assert RanksAtMost(init, rank, rank(last.0)) by {
        forall i | 0 <= i < |init| ensures rank(init[i].0) <= rank(last.0) {
          assert init[i] == s[i];
        }
      }
      InsertSorted(init, e, rank);
      InsertRanksAtMost(init, e, rank, rank(last.0));
      var t := Insert(init, e, rank);
      assert Insert(s, e, rank) == t + [last];
      forall i, j | 0 <= i < j < |t + [last]| ensures rank((t + [last])[i].0) <= rank((t + [last])[j].0) {
        if j == |t| {
          assert (t + [last])[i] == t[i];
        } else {
          assert (t + [last])[i] == t[i] && (t + [last])[j] == t[j];
        }
      }
    }
  }

  lemma {:induction false} InsertWithRank(s: Entries<Number>, e: (string, Number), rank: RankFn, k: int)
    ensures WithRank(Insert(s, e, rank), rank, k) == WithRank(s, rank, k) + if rank(e.0) == k then [e] else []
  {
    if |s| == 0 || rank(s[|s| - 1].0) <= rank(e.0) {
      WithRankAppend(s, [e], rank, k);
      assert [e][..0] == [];
    } else {
      var init := s[..|s| - 1];
      var last := s[|s| - 1];
      InsertWithRank(init, e, rank, k);
      WithRankAppend(Insert(init, e, rank), [last], rank, k);
      WithRankAppend(init, [last], rank, k);
      assert [last][..0] == [];
      assert init + [last] == s;
    }
  }

  /** The sorted entries are a permutation of the entries. */
  lemma {:induction false} SortByPermutes(e: Entries<Number>, rank: RankFn)
    ensures multiset(SortBy(e, rank)) == multiset(e)
  {
    if |e| > 0 {
      var init, last := e[..|e| - 1], e[|e| - 1];
      SortByPermutes(init, rank);
      InsertMultiset(SortBy(init, rank), last, rank);
      assert SortBy(e, rank) == Insert(SortBy(init, rank), last, rank);
      assert multiset(e) == multiset(init) + multiset{last} by {
        assert e == init + [last];
      }
    }
  }

  /** The sorted entries are in rank order. */
  lemma {:induction false} SortBySorted(e: Entries<Number>, rank: RankFn)
    ensures SortedBy(SortBy(e, rank), rank)
  {
    if |e| > 0 {
      SortBySorted(e[..|e| - 1], rank);
      InsertSorted(SortBy(e[..|e| - 1], rank), e[|e| - 1], rank);
    }
  }

  /** The sort is stable: entries of equal rank keep their order. */
  lemma {:induction false} SortByStable(e: Entries<Number>, rank: RankFn, k: int)
    ensures WithRank(SortBy(e, rank), rank, k) == WithRank(e, rank, k)
  {
    if |e| > 0 {
      SortByStable(e[..|e| - 1], rank, k);
      InsertWithRank(SortBy(e[..|e| - 1], rank), e[|e| - 1], rank, k);
    }
  }

  /** The console order of a product's sizes: a permutation of its entries,
      in canonical size order with unknown sizes first, entries of equal rank
      (in particular all unknown sizes) in the order of the `sizes` object. */
  lemma SortSizesSpec(e: Entries<Number>, k: int)
    ensures multiset(SortSizes(e)) == multiset(e)
    ensures SortedBy(SortSizes(e), Rank)
    ensures WithRank(SortSizes(e), Rank, k) == WithRank(e, Rank, k)
  {
    SortByPermutes(e, Rank);
    SortBySorted(e, Rank);
    SortByStable(e, Rank, k);
  }

  // ---------------------------------------------------------------- status

  datatype Status = OutOfStock | LowStock | InStock

  /** `stock === 0` is out, else `stock <= 5` is low, else in stock; NaN
      fails both comparisons and reads as in stock. */
  function StatusOf(stock: Number): (st: Status)
    ensures st == OutOfStock <==> IsOut(stock)
    ensures st == LowStock <==> IsLow(stock)
  {
    if IsOut(stock) then OutOfStock
    else if stock.Int? && stock.n <= 5 then LowStock
    else InStock
  }

  /** The status column of the CSV (lines 156-158). */
  function CsvLabel(st: Status): string {
    match st
    case OutOfStock => "OUT OF STOCK"
    case LowStock => "LOW STOCK"
    case InStock => "IN STOCK"
  }

  /** The status word of the console report (lines 103-105). */
  function ConsoleLabel(st: Status): string {
    match st
    case OutOfStock => "OUT"
    case LowStock => "LOW"
    case InStock => "OK"
  }

  /** The two renderings name the three statuses distinctly. */
  lemma LabelsDistinct(a: Status, b: Status)
    ensures CsvLabel(a) == CsvLabel(b) <==> a == b
    ensures ConsoleLabel(a) == ConsoleLabel(b) <==> a == b
  {
  }

  // ---------------------------------------------------------------- CSV

  /** One CSV row: product id, name, price in cents, size, stock, status. */
  datatype CsvRow = CsvRow(id: string, name: string, price: nat, size: string, stock: Number, status: string)

  /** The row of one size of one product (line 160). */
  function RowOf(item: ProductInventory, e: (string, Number)): CsvRow {
    CsvRow(item.id, item.name, item.price, e.0, e.1, CsvLabel(StatusOf(e.1)))
  }

  /** The rows of one product: one per entry of its `sizes` object. */
  function ItemRows(item: ProductInventory, entries: Entries<Number>): (rows: seq<CsvRow>)
    ensures |rows| == |entries|
    ensures forall j :: 0 <= j < |rows| ==> rows[j] == RowOf(item, entries[j])
  {
    if |entries| == 0 then [] else [RowOf(item, entries[0])] + ItemRows(item, entries[1..])
  }

  /** `inventory.flatMap(item => Object.entries(item.sizes).map(...))`
      (lines 154-162). */
  function CsvRows(inventory: seq<ProductInventory>): seq<CsvRow> {
    if |inventory| == 0 then []
    else CsvRows(inventory[..|inventory| - 1]) + ItemRows(inventory[|inventory| - 1], inventory[|inventory| - 1].sizes)
  }

  /** How many size entries the inventory holds. */
  function EntryCount(inventory: seq<ProductInventory>): nat {
    if |inventory| == 0 then 0 else EntryCount(inventory[..|inventory| - 1]) + |inventory[|inventory| - 1].sizes|
  }

  lemma {:induction false} CsvRowsCount(inventory: seq<ProductInventory>)
    ensures |CsvRows(inventory)| == EntryCount(inventory)
  {
    if |inventory| > 0 {
      CsvRowsCount(inventory[..|inventory| - 1]);
    }
  }

  /** Row `EntryCount(inventory[..i]) + j` is entry `j` of product `i`: one row
      per (product, size) pair, products in report order, sizes in the order of
      the product's `sizes` object, and no other rows. */
  lemma {:induction false} CsvRowsLayout(inventory: seq<ProductInventory>, i: nat, j: nat)
    requires i < |inventory| && j < |inventory[i].sizes|
    ensures |CsvRows(inventory)| == EntryCount(inventory)
    ensures EntryCount(inventory[..i]) + j < EntryCount(inventory)
    ensures CsvRows(inventory)[EntryCount(inventory[..i]) + j] == RowOf(inventory[i], inventory[i].sizes[j])
  {
    var n := |inventory|;
    var init := inventory[..n - 1];
    var last := inventory[n - 1];
    CsvRowsCount(init);
    CsvRowsCount(inventory);
    var head := CsvRows(init);
    var tail := ItemRows(last, last.sizes);
    assert CsvRows(inventory) == head + tail;
    if i < n - 1 {
      assert init[..i] == inventory[..i];
      assert init[i] == inventory[i];
      CsvRowsLayout(init, i, j);
      var k := EntryCount(init[..i]) + j;
      assert (head + tail)[k] == head[k];
    } else {
      assert inventory[..i] == init;
      assert (head + tail)[|head| + j] == tail[j];
    }
  }

  // ---------------------------------------------------------------- value

  /** `inventory.reduce((sum, item) => sum + item.price * item.totalStock, 0)`
      (lines 119-121), in cents. */
  function InventoryValue(inventory: seq<ProductInventory>): Number {
    if |inventory| == 0 then Int(0)
    else
      var item := inventory[|inventory| - 1];
      Add(InventoryValue(inventory[..|inventory| - 1]), Mul(Int(item.price), item.totalStock))
  }

  /** The value is a number exactly when every product's total is, and then
      it is never negative when no total is. */
  lemma {:induction false} InventoryValueDefined(inventory: seq<ProductInventory>)
    ensures InventoryValue(inventory).Int? <==> forall i :: 0 <= i < |inventory| ==> inventory[i].totalStock.Int?
    ensures (forall i :: 0 <= i < |inventory| ==> inventory[i].totalStock.Int? && inventory[i].totalStock.n >= 0) ==>
      InventoryValue(inventory).Int? && InventoryValue(inventory).n >= 0
  {
    if |inventory| > 0 {
      var init := inventory[..|inventory| - 1];
      InventoryValueDefined(init);
      assert forall i :: 0 <= i < |init| ==> init[i] == inventory[i];
    }
  }

  // ---------------------------------------------------------------- script

  datatype Format = Console | Json | Csv

  /** Lines 171-174: `--json` wins over `--csv`; neither gives the console. */
  function FormatOf(args: seq<string>): (f: Format)
    ensures f == Json <==> "--json" in args
    ensures f == Csv <==> "--json" !in args && "--csv" in args
    ensures f == Console <==> "--json" !in args && "--csv" !in args
  {
    if "--json" in args then Json else if "--csv" in args then Csv else Console
  }

  /** One size line of the console report: the size, its stock and status. */
  datatype ConsoleLine = ConsoleLine(size: string, stock: Number, status: string)

  /** One product of the console report, sizes sorted. */
  datatype ConsoleItem = ConsoleItem(name: string, id: string, price: nat, totalStock: Number,
                                     lines: seq<ConsoleLine>)

  /** What the script produces. `Console` carries the product sections, the
      summary numbers and the inventory value; the alert lines print when the
      counts are positive. */
  datatype Report =
    | ConsoleReport(items: seq<ConsoleItem>, totalProducts: nat, totalStock: Number,
                    lowStockCount: nat, outOfStockCount: nat, value: Number)
    | JsonReport(totalProducts: nat, totalStockUnits: Number, lowStockItems: nat,
                 outOfStockItems: nat, products: seq<ProductInventory>)
    | CsvReport(rows: seq<CsvRow>)

  function ConsoleLines(sorted: Entries<Number>): (lines: seq<ConsoleLine>)
    ensures |lines| == |sorted|
    ensures forall j :: 0 <= j < |sorted| ==>
      lines[j] == ConsoleLine(sorted[j].0, sorted[j].1, ConsoleLabel(StatusOf(sorted[j].1)))
  {
    if |sorted| == 0 then []
    else [ConsoleLine(sorted[0].0, sorted[0].1, ConsoleLabel(StatusOf(sorted[0].1)))] + ConsoleLines(sorted[1..])
  }

  function ConsoleItems(inventory: seq<ProductInventory>): (items: seq<ConsoleItem>)
    ensures |items| == |inventory|
    ensures forall i :: 0 <= i < |inventory| ==>
      items[i] == ConsoleItem(inventory[i].name, inventory[i].id, inventory[i].price,
                              inventory[i].totalStock, ConsoleLines(SortSizes(inventory[i].sizes)))
  {
    if |inventory| == 0 then []
    else
      var it := inventory[0];
      [ConsoleItem(it.name, it.id, it.price, it.totalStock, ConsoleLines(SortSizes(it.sizes)))] + ConsoleItems(inventory[1..])
  }

  /** Lines 71-78: the output chosen by the format. */
  function Render(format: Format, snap: Snapshot): Report {
    match format
    case Json => JsonReport(|snap.inventory|, snap.totalStock, snap.lowStockCount, snap.outOfStockCount, snap.inventory)
    case Csv => CsvReport(CsvRows(snap.inventory))
    case Console => ConsoleReport(ConsoleItems(snap.inventory), |snap.inventory|, snap.totalStock,
                                  snap.lowStockCount, snap.outOfStockCount, InventoryValue(snap.inventory))
  }

  /** How a run of the script ends: its exit status, whether it asked Stripe
      for the products, and the report it produced. */
  datatype Run = Run(exitCode: int, fetched: bool, report: Option<Report>)

  /** Lines 170-188. `secretKey` is `STRIPE_SECRET_KEY` ("" when unset);
      `listing` is what `stripe.products.list` returns or the message of the
      error it throws. A product without a metadata object throws inside the
      `try` and ends the same way as a failed listing. */
  function RunScript(args: seq<string>, secretKey: string,
                     listing: Result<seq<Catalog.StripeProduct>, string>): Run {
    if !Truthy(secretKey) then Run(1, false, None)
    else match listing
      case Err(_) => Run(1, true, None)
      case Ok(products) =>
        match SnapshotOf(products)
        case None => Run(1, true, None)
        case Some(snap) => Run(0, true, Some(Render(FormatOf(args), snap)))
  }

  /** A missing key exits with status 1 before any request; otherwise the run
      succeeds exactly when the listing succeeds and every product has
      metadata, and the report then has the format the flags select and the
      snapshot's numbers. */
  lemma RunOutcomes(args: seq<string>, secretKey: string, listing: Result<seq<Catalog.StripeProduct>, string>)
    ensures var r := RunScript(args, secretKey, listing);
      && (secretKey == "" ==> r == Run(1, false, None))
      && (secretKey != "" ==> r.fetched)
      && (r.exitCode == 0 <==> r.report.Some?)
      && (r.exitCode == 0 <==> secretKey != "" && listing.Ok? && SnapshotOf(listing.value).Some?)
      && (r.exitCode != 0 ==> r.exitCode == 1)
      && (r.report.Some? ==>
            (r.report.value.JsonReport? <==> "--json" in args) &&
            (r.report.value.CsvReport? <==> "--json" !in args && "--csv" in args))
  {
  }

  /** Every product with metadata the loop can read. */
  predicate AllHaveMetadata(products: seq<Catalog.StripeProduct>) {
    forall i :: 0 <= i < |products| ==> products[i].metadata.Some?
  }

  /** The loop throws exactly when some product lacks a metadata object. */
  lemma {:induction false} SnapshotDefined(products: seq<Catalog.StripeProduct>)
    ensures SnapshotOf(products).Some? <==> AllHaveMetadata(products)
  {
    if |products| > 0 {
      var init := products[..|products| - 1];
      var p := products[|products| - 1];
      SnapshotDefined(init);
      var prev := SnapshotOf(init);
      assert SnapshotOf(products) == if prev.None? then None else Visit(prev.value, p);
      if prev.Some? {
        VisitDefined(prev.value, p);
      }
      AllHaveMetadataSnoc(products);
    }
  }

  lemma AllHaveMetadataSnoc(products: seq<Catalog.StripeProduct>)
    requires |products| > 0
    ensures AllHaveMetadata(products) <==>
      AllHaveMetadata(products[..|products| - 1]) && products[|products| - 1].metadata.Some?
  {
    var init := products[..|products| - 1];
    if AllHaveMetadata(init) && products[|products| - 1].metadata.Some? {
      forall i | 0 <= i < |products| ensures products[i].metadata.Some? {
        if i < |init| {
          assert init[i].metadata.Some?;
        }
      }
    }
  }

  lemma VisitDefined(acc: Snapshot, p: Catalog.StripeProduct)
    ensures Visit(acc, p).Some? <==> p.metadata.Some?
  {
  }
}
