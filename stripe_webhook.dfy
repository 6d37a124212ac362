/** The Stripe webhook that decrements inventory when a checkout completes
    (netlify/functions/stripe-webhook.js). The Stripe product store is a class
    holding every product's metadata; the webhook groups the session's
    `item_<n>_<field>` metadata keys into purchase items and, for each complete
    item, does a read-modify-write of `stock_<size>`. */
module StripeWebhook {
  import opened Wrappers
  import opened Js
  import opened InventoryCodec

  type ProductId = string

  /** Product id to metadata, as held by the Stripe Products API. */
  type Store = map<ProductId, Metadata>

  /** One purchase item: the fields collected for one index. */
  type ItemFields = map<string, string>

  /** The session metadata in `Object.keys` order. */
  type SessionMetadata = seq<(string, string)>

  /** Indices from 2^32 - 1 on are not array indices in JavaScript: assigning
      them adds a plain property that neither `length` nor `for...of` sees. */
  const MaxArrayIndex: nat := 4294967295

  // ---------------------------------------------------------------- item keys

  /** The key for field `field` of item `n`, as the convention writes it. */
  function ItemKey(n: nat, field: string): string {
    "item_" + ShowNat(n) + "_" + field
  }

  /** Matches `^item_(\d+)_(.+)$` and returns `(parseInt(group1), group2)`. The
      digits run as far as they go and must be followed by `_`; the field is
      non-empty and contains no line terminator (`.` does not match them). */
  function ParseItemKey(key: string): (r: Option<(nat, string)>)
    ensures r.Some? ==> StartsWith(key, "item_") && r.value.1 != ""
  {
    if !StartsWith(key, "item_") then None
    else
      var rest := key[5..];
      var d := DigitRun(rest);
      if d == 0 || d + 1 >= |rest| || rest[d] != '_' then None
      else if exists i :: d + 1 <= i < |rest| && IsLineTerminator(rest[i]) then None
      else Some((DigitsValue(rest[..d]), rest[d + 1..]))
  }

  lemma {:induction false} DigitRunStopsAt(ds: string, tail: string)
    requires forall i :: 0 <= i < |ds| ==> IsDigit(ds[i])
    requires tail != [] && !IsDigit(tail[0])
    ensures DigitRun(ds + tail) == |ds|
  {
    if |ds| > 0 {
      DigitRunStopsAt(ds[1..], tail);
      assert (ds + tail)[1..] == ds[1..] + tail;
    }
  }

  /** Every key written by the convention is read back as the same index and
      field. */
  lemma ItemKeyRoundTrip(n: nat, field: string)
    requires field != ""
    requires forall i :: 0 <= i < |field| ==> !IsLineTerminator(field[i])
    ensures ParseItemKey(ItemKey(n, field)) == Some((n, field))
  {
    var key := ItemKey(n, field);
    var ds := ShowNat(n);
    assert key[..5] == "item_";
    var rest := key[5..];
    assert rest == ds + ("_" + field);
    DigitRunStopsAt(ds, "_" + field);
    assert rest[..|ds|] == ds;
    assert rest[|ds| + 1..] == field;
    DigitsValueShowNat(n);
  }

  // ---------------------------------------------------------------- grouping

  /** The sparse `items` array: fields per index, and its `length`. */
  datatype Grouped = Grouped(items: map<nat, ItemFields>, length: nat)

  /** One step of the `forEach` over the metadata keys. */
  function AddEntry(g: Grouped, entry: (string, string)): Grouped {
    match ParseItemKey(entry.0)
    case None => g
    case Some(p) =>
      var fields := if p.0 in g.items then g.items[p.0] else map[];
      Grouped(g.items[p.0 := fields[p.1 := entry.1]],
              if p.0 < MaxArrayIndex && p.0 + 1 > g.length then p.0 + 1 else g.length)
  }

  /** The `items` array built from the whole session metadata. */
  function Group(md: SessionMetadata): Grouped {
    if |md| == 0 then Grouped(map[], 0)
    else AddEntry(Group(md[..|md| - 1]), md[|md| - 1])
  }

  /** Lines 79-90: the `forEach` that fills `items[index][field]`. */
  method GroupItems(md: SessionMetadata) returns (g: Grouped)
    ensures g == Group(md)
  {
    g := Grouped(map[], 0);
    for i := 0 to |md|
      invariant g == Group(md[..i])
    {
      assert md[..i + 1][..i] == md[..i];
      g := AddEntry(g, md[i]);
    }
    assert md[..|md|] == md;
  }

  /** Key `md[j]` names field `f` of item `n`. */
  predicate Names(md: SessionMetadata, j: int, n: nat, f: string)
    requires 0 <= j < |md|
  {
    ParseItemKey(md[j].0) == Some((n, f))
  }

  /** A field is grouped under an index exactly when some metadata key names
      that index and field. */
  lemma {:induction false} GroupFields(md: SessionMetadata, n: nat, f: string)
    ensures var g := Group(md);
      (n in g.items && f in g.items[n]) <==> exists j :: 0 <= j < |md| && Names(md, j, n, f)
  {
    if |md| > 0 {
      var init := md[..|md| - 1];
      GroupFields(init, n, f);
      var g0 := Group(init);
      var g := Group(md);
      assert g == AddEntry(g0, md[|md| - 1]);
      if Names(md, |md| - 1, n, f) {
        assert n in g.items && f in g.items[n];
      } else {
        assert (n in g.items && f in g.items[n]) <==> (n in g0.items && f in g0.items[n]);
      }
      forall j | 0 <= j < |init| ensures Names(init, j, n, f) == Names(md, j, n, f) {
        assert init[j] == md[j];
      }
      if exists j :: 0 <= j < |md| && Names(md, j, n, f) {
        var j :| 0 <= j < |md| && Names(md, j, n, f);
        if j < |init| {
          assert Names(init, j, n, f);
        }
      }
    }
  }

  /** A grouped field holds the value of the LAST metadata key naming it. */
  lemma {:induction false} GroupLastWins(md: SessionMetadata, n: nat, f: string)
    ensures var g := Group(md);
      n in g.items && f in g.items[n] ==>
        exists j :: 0 <= j < |md| && Names(md, j, n, f) && md[j].1 == g.items[n][f] &&
          forall j' :: j < j' < |md| ==> !Names(md, j', n, f)
  {
    if |md| > 0 {
      var init := md[..|md| - 1];
      var last := md[|md| - 1];
      GroupLastWins(init, n, f);
      var g0 := Group(init);
      var g := Group(md);
      assert g == AddEntry(g0, last);
      if Names(md, |md| - 1, n, f) {
        assert md[|md| - 1].1 == g.items[n][f];
      } else if n in g.items && f in g.items[n] {
        assert n in g0.items && f in g0.items[n] && g.items[n][f] == g0.items[n][f];
        var j :| 0 <= j < |init| && Names(init, j, n, f) && init[j].1 == g0.items[n][f] &&
          forall j' :: j < j' < |init| ==> !Names(init, j', n, f);
        assert md[j] == init[j];
        forall j' | j < j' < |md| ensures !Names(md, j', n, f) {
          if j' < |init| {
            assert md[j'] == init[j'] && !Names(init, j', n, f);
          }
        }
        assert Names(md, j, n, f);
      }
    }
  }

  /** Every index present has at least one field, and `length` exceeds every
      array index present. */
  lemma {:induction false} GroupShape(md: SessionMetadata, n: nat)
    ensures var g := Group(md); n in g.items ==> g.items[n] != map[]
    ensures var g := Group(md); n in g.items && n < MaxArrayIndex ==> n < g.length
  {
    if |md| > 0 {
      var init := md[..|md| - 1];
      var last := md[|md| - 1];
      GroupShape(init, n);
      var g0 := Group(init);
      var g := Group(md);
      assert g == AddEntry(g0, last);
      var p := ParseItemKey(last.0);
      if p.Some? && p.value.0 == n {
        assert p.value.1 in g.items[n];
      }
    }
  }

  // ---------------------------------------------------------------- processing

  /** `item.size && item.product_id && item.quantity`: all three present and
      non-empty. */
  predicate Complete(item: ItemFields) {
    && "size" in item && item["size"] != ""
    && "product_id" in item && item["product_id"] != ""
    && "quantity" in item && item["quantity"] != ""
  }

  /** Severity of the stock log line after a decrement (lines 154-160). */
  datatype Level = OutOfStock | LowStock | Normal

  /** `newStock === 0` logs OUT OF STOCK, else `newStock <= 5` logs LOW STOCK;
      NaN compares false both times. */
  function LevelOf(newStock: Number): (l: Level)
    ensures l == OutOfStock <==> newStock == Int(0)
    ensures l == LowStock <==> newStock.Int? && newStock.n != 0 && newStock.n <= 5
  {
    if newStock == Int(0) then OutOfStock
    else if newStock.Int? && newStock.n <= 5 then LowStock
    else Normal
  }

  /** What one successful `decrementInventory` logs. */
  datatype Alert = Alert(productId: ProductId, size: string, newStock: Number, level: Level)

  /** The stock written for one item and the metadata after writing it. */
  function NewStock(md: Metadata, size: string, quantity: Number): Number {
    Decrement(ReadStock(md, size), quantity)
  }

  /** The result of processing the items: the store afterwards, whether no
      exception escaped, and the stock lines logged. */
  datatype Outcome = Outcome(store: Store, ok: bool, alerts: seq<Alert>)

  /** The `for...of` loop over `items` from index `i` on (lines 93-118). A hole
      in the array is `undefined`, and reading `.size` on it throws; so does
      retrieving a product that does not exist, inside `decrementInventory`.
      Either exception ends the loop with the earlier items already written. */
  function Process(store: Store, g: Grouped, i: nat): Outcome
    decreases g.length - i
  {
    if i >= g.length then Outcome(store, true, [])
    else if i !in g.items then Outcome(store, false, [])
    else
      var item := g.items[i];
      if !Complete(item) then Process(store, g, i + 1)
      else
        var pid := item["product_id"];
        var size := item["size"];
        if pid !in store then Outcome(store, false, [])
        else
          var s := NewStock(store[pid], size, ParseInt(item["quantity"]));
          var rest := Process(store[pid := WriteStock(store[pid], size, s)], g, i + 1);
          Outcome(rest.store, rest.ok, [Alert(pid, size, s, LevelOf(s))] + rest.alerts)
  }

  /** Processing never adds or removes products. */
  lemma {:induction false} ProcessProducts(store: Store, g: Grouped, i: nat)
    ensures Process(store, g, i).store.Keys == store.Keys
    decreases g.length - i
  {
    if i < g.length && i in g.items && Complete(g.items[i]) {
      var item := g.items[i];
      var q := item["product_id"];
      if q in store {
        var s := NewStock(store[q], item["size"], ParseInt(item["quantity"]));
        var written := store[q := WriteStock(store[q], item["size"], s)];
        assert Process(store, g, i).store == Process(written, g, i + 1).store;
        ProcessProducts(written, g, i + 1);
      }
    } else if i < g.length && i in g.items {
      assert Process(store, g, i) == Process(store, g, i + 1);
      ProcessProducts(store, g, i + 1);
    }
  }

  /** Key `k` of product `pid`, if both exist. */
  function Lookup(store: Store, pid: ProductId, k: string): Option<string> {
    if pid in store && k in store[pid] then Some(store[pid][k]) else None
  }

  /** No complete item from index `i` on writes key `k` of product `pid`. */
  predicate Untouched(g: Grouped, i: nat, pid: ProductId, k: string) {
    forall j :: i <= j < g.length && j in g.items && Complete(g.items[j]) ==>
      g.items[j]["product_id"] != pid || StockKey(g.items[j]["size"]) != k
  }

  /** Writing one stock key leaves every other key of every product as it was. */
  lemma WriteStockFrame(store: Store, q: ProductId, size: string, s: Number, pid: ProductId, k: string)
    requires q in store && (q != pid || StockKey(size) != k)
    ensures Lookup(store[q := WriteStock(store[q], size, s)], pid, k) == Lookup(store, pid, k)
  {
  }

  /** Processing changes a metadata key only when some complete item from
      index `i` on names that product and a size whose stock key it is: every
      other key, including unrelated metadata, is written back unchanged. */
  lemma {:induction false} ProcessFrame(store: Store, g: Grouped, i: nat, pid: ProductId, k: string)
    requires Untouched(g, i, pid, k)
    ensures Lookup(Process(store, g, i).store, pid, k) == Lookup(store, pid, k)
    decreases g.length - i
  {
    if i < g.length && i in g.items && Complete(g.items[i]) {
      var item := g.items[i];
      var q := item["product_id"];
      if q in store {
        var s := NewStock(store[q], item["size"], ParseInt(item["quantity"]));
        var written := store[q := WriteStock(store[q], item["size"], s)];
        assert Process(store, g, i).store == Process(written, g, i + 1).store;
        ProcessFrame(written, g, i + 1, pid, k);
        WriteStockFrame(store, q, item["size"], s, pid, k);
      }
    } else if i < g.length && i in g.items {
      assert Process(store, g, i) == Process(store, g, i + 1);
      ProcessFrame(store, g, i + 1, pid, k);
    }
  }

  /** Every index from `i` to the array's end holds an item, and every
      complete one names a product that exists. */
  predicate AllProcessable(store: Store, g: Grouped, i: nat) {
    forall j :: i <= j < g.length ==>
      j in g.items && (Complete(g.items[j]) ==> g.items[j]["product_id"] in store)
  }

  /** The loop finishes without an exception exactly when the array has no hole
      and no complete item names a missing product: the writes never add or
      remove products, so existence can be judged on the store before. */
  lemma {:induction false} ProcessOk(store: Store, g: Grouped, i: nat)
    ensures Process(store, g, i).ok <==> AllProcessable(store, g, i)
    decreases g.length - i
  {
    if i < g.length && i in g.items {
      var item := g.items[i];
      if !Complete(item) {
        ProcessOk(store, g, i + 1);
      } else if item["product_id"] in store {
        var pid := item["product_id"];
        var s := NewStock(store[pid], item["size"], ParseInt(item["quantity"]));
        var next := store[pid := WriteStock(store[pid], item["size"], s)];
        ProcessOk(next, g, i + 1);
        assert next.Keys == store.Keys;
      }
    }
  }

  /** The number of complete items from index `i` on. */
  function CompleteCount(g: Grouped, i: nat): nat
    decreases g.length - i
  {
    if i >= g.length then 0
    else (if i in g.items && Complete(g.items[i]) then 1 else 0) + CompleteCount(g, i + 1)
  }

  /** Each complete item processed logs exactly one stock line, in item
      order: a run without an exception logs one line per complete item, and
      an interrupted run logs fewer. */
  lemma {:induction false} ProcessAlertCount(store: Store, g: Grouped, i: nat)
    ensures |Process(store, g, i).alerts| <= CompleteCount(g, i)
    ensures Process(store, g, i).ok ==> |Process(store, g, i).alerts| == CompleteCount(g, i)
    decreases g.length - i
  {
    if i < g.length && i in g.items {
      var item := g.items[i];
      if !Complete(item) {
        ProcessAlertCount(store, g, i + 1);
      } else if item["product_id"] in store {
        var pid := item["product_id"];
        var s := NewStock(store[pid], item["size"], ParseInt(item["quantity"]));
        ProcessAlertCount(store[pid := WriteStock(store[pid], item["size"], s)], g, i + 1);
      }
    }
  }

  // ---------------------------------------------------------------- handler

  /** The Stripe event, after `constructEvent` has checked its signature. */
  datatype Event = Event(eventType: string, sessionMetadata: Option<SessionMetadata>)

  /** The HTTP request; `verified` is the outcome of the signature check
      (the HMAC is Stripe's and is not modelled): the event or the error
      message. */
  datatype Request = Request(httpMethod: string, verified: Result<Event, string>)

  datatype Body = Received | ErrorBody(message: string)
  datatype Response = Response(statusCode: int, body: Body)

  /** The whole handler on a pure store (lines 9-63). */
  function Handle(store: Store, req: Request): (Response, Outcome) {
    if req.httpMethod != "POST" then
      (Response(405, ErrorBody("Method not allowed")), Outcome(store, true, []))
    else if req.verified.Err? then
      (Response(400, ErrorBody("Webhook Error: " + req.verified.error)), Outcome(store, true, []))
    else if req.verified.value.eventType == "checkout.session.completed" then
      var out := Process(store, Group(req.verified.value.sessionMetadata.GetOr([])), 0);
      if out.ok then (Response(200, Received), out)
      else (Response(500, ErrorBody("Webhook processing failed")), out)
    else
      (Response(200, Received), Outcome(store, true, []))
  }

  /** Only a POST whose signature verifies reaches the event; anything else is
      answered 405 or 400 and touches nothing. Only a completed checkout
      touches inventory. Every event handled without an exception gets 200
      `{received: true}`; an exception gets 500 and keeps what was written
      before it. */
  lemma HandleOutcomes(store: Store, req: Request)
    ensures var (resp, out) := Handle(store, req);
      && (req.httpMethod != "POST" ==> resp.statusCode == 405 && out.store == store)
      && (req.httpMethod == "POST" && req.verified.Err? ==> resp.statusCode == 400 && out.store == store)
      && (req.httpMethod == "POST" && req.verified.Ok? ==> (resp.statusCode == 200 <==> out.ok))
      && (req.httpMethod == "POST" && req.verified.Ok? ==> resp.statusCode in {200, 500})
      && (resp.statusCode == 200 ==> resp.body == Received)
      && (out.store != store ==>
            req.httpMethod == "POST" && req.verified.Ok? &&
            req.verified.value.eventType == "checkout.session.completed")
  {
  }

  // ---------------------------------------------------------------- the store

  /** The outcome of a run that has already logged `done` and then goes on
      as `o`. */
  function Resume(o: Outcome, done: seq<Alert>): (r: Outcome)
    ensures r.store == o.store && r.ok == o.ok && |r.alerts| == |done| + |o.alerts|
  {
    Outcome(o.store, o.ok, done + o.alerts)
  }

  lemma ResumeAppend(o: Outcome, done: seq<Alert>, a: Alert)
    ensures Resume(Outcome(o.store, o.ok, [a] + o.alerts), done) == Resume(o, done + [a])
  {
    assert done + ([a] + o.alerts) == (done + [a]) + o.alerts;
  }

  /** Stripe's product store, reached through `products.retrieve` and
      `products.update`. */
  class ProductStore {
    var products: Store

    constructor (initial: Store)
      ensures products == initial
    {
      products := initial;
    }

    /** `stripe.products.retrieve(id)`: the metadata, or a thrown error. */
    method Retrieve(pid: ProductId) returns (r: Option<Metadata>)
      ensures r == if pid in products then Some(products[pid]) else None
    {
      r := if pid in products then Some(products[pid]) else None;
    }

    /** Lines 136-167: read `stock_<size>`, clamp the decrement at zero, and
        write the whole metadata back with only that key replaced. A product
        that cannot be retrieved throws (`None`) and changes nothing. */
    method DecrementInventory(pid: ProductId, size: string, quantity: Number) returns (r: Option<Alert>)
      modifies this
      ensures pid !in old(products) ==> r == None && products == old(products)
      ensures pid in old(products) ==>
        var s := NewStock(old(products)[pid], size, quantity);
        && r == Some(Alert(pid, size, s, LevelOf(s)))
        && products == old(products)[pid := WriteStock(old(products)[pid], size, s)]
    {
      var md := Retrieve(pid);
      if md.None? {
        return None;
      }
      var current := ReadStock(md.value, size);
      var newStock := Decrement(current, quantity);
      products := products[pid := md.value[StockKey(size) := NumberToString(newStock)]];
      r := Some(Alert(pid, size, newStock, LevelOf(newStock)));
    }

    /** Lines 69-131: group the metadata into items, then process them in
        index order. */
    method HandleCheckoutCompleted(md: SessionMetadata) returns (ok: bool, alerts: seq<Alert>)
      modifies this
      ensures Process(old(products), Group(md), 0) == Outcome(products, ok, alerts)
    {
      var g := GroupItems(md);
      ghost var start := products;
      alerts := [];
      var i := 0;
      while i < g.length
        invariant i <= g.length
        invariant Process(start, g, 0) == Resume(Process(products, g, i), alerts)
      {
        if i !in g.items {
          // `item.size` on a hole: TypeError
          assert Process(products, g, i) == Outcome(products, false, []);
          return false, alerts;
        }
        var item := g.items[i];
        if !Complete(item) {
          assert Process(products, g, i) == Process(products, g, i + 1);
          i := i + 1;
          continue;
        }
        var pid := item["product_id"];
        var size := item["size"];
        var quantity := ParseInt(item["quantity"]);
        ghost var before := products;
        // the product name is fetched for the log line only
        var forName := Retrieve(pid);
        var r := DecrementInventory(pid, size, quantity);
        if r.None? {
          assert Process(before, g, i) == Outcome(before, false, []);
          return false, alerts;
        }
        ghost var rest := Process(products, g, i + 1);
        assert Process(before, g, i) == Outcome(rest.store, rest.ok, [r.value] + rest.alerts);
        ResumeAppend(rest, alerts, r.value);
        alerts := alerts + [r.value];
        i := i + 1;
      }
      ok := true;
      assert Process(products, g, i) == Outcome(products, true, []);
    }

    /** The exported handler. */
    method HandleRequest(req: Request) returns (resp: Response, alerts: seq<Alert>)
      modifies this
      ensures var (r, out) := Handle(old(products), req);
        resp == r && products == out.store && alerts == out.alerts
    {
      if req.httpMethod != "POST" {
        return Response(405, ErrorBody("Method not allowed")), [];
      }
      if req.verified.Err? {
        return Response(400, ErrorBody("Webhook Error: " + req.verified.error)), [];
      }
      var event := req.verified.value;
      if event.eventType == "checkout.session.completed" {
        var ok;
        ok, alerts := HandleCheckoutCompleted(event.sessionMetadata.GetOr([]));
        if ok {
          resp := Response(200, Received);
        } else {
          resp := Response(500, ErrorBody("Webhook processing failed"));
        }
      } else {
        // "payment_intent.succeeded" and unknown types are only logged
        resp := Response(200, Received);
        alerts := [];
      }
    }
  }
}
