/** The admin product, inventory and order routes of the backend
    (backend/app/api/routes/products.py) over the `products`,
    `inventory_logs` and `orders` tables. The tables are fields of a
    `Database` object whose route methods change them in place; each method is
    tied to a function on the old tables, and the properties of the routes are
    proved about those functions. Prices and money amounts are integer cents;
    `datetime.utcnow()` and the random order number are parameters. */
module ProductsApi {
  import opened Wrappers
  import opened Http
  import Js
  import JsonValue

  /** A timestamp (`datetime.utcnow()` is passed in). */
  type Time = int

  /** A row of the `products` table; it is also the `ProductCreate` payload. */
  datatype ProductRow = ProductRow(
    id: string,
    title: string,
    mainCategory: string,
    price: int,
    image: Option<string>,
    images: Option<seq<string>>,
    description: Option<string>,
    fullDescription: Option<string>,
    sizes: Option<seq<string>>,
    colors: Option<seq<string>>,
    stockQuantity: int,
    lowStockThreshold: int,
    sku: Option<string>,
    visible: bool,
    featured: bool,
    order: int)

  /** `ProductUpdate`: every field optional, None meaning "not sent". */
  datatype ProductUpdate = ProductUpdate(
    title: Option<string>,
    mainCategory: Option<string>,
    price: Option<int>,
    image: Option<string>,
    images: Option<seq<string>>,
    description: Option<string>,
    fullDescription: Option<string>,
    sizes: Option<seq<string>>,
    colors: Option<seq<string>>,
    stockQuantity: Option<int>,
    lowStockThreshold: Option<int>,
    sku: Option<string>,
    visible: Option<bool>,
    featured: Option<bool>,
    order: Option<int>)

  /** One entry of `update_data`: a supplied field with its value. */
  datatype ProductField =
    | Title(title: string)
    | MainCategory(mainCategory: string)
    | Price(price: int)
    | Image(image: string)
    | Images(images: seq<string>)
    | Description(description: string)
    | FullDescription(fullDescription: string)
    | Sizes(sizes: seq<string>)
    | Colors(colors: seq<string>)
    | StockQuantity(stockQuantity: int)
    | LowStockThreshold(lowStockThreshold: int)
    | Sku(sku: string)
    | Visible(visible: bool)
    | Featured(featured: bool)
    | SortOrder(order: int)

  /** A row of `inventory_logs`. */
  datatype LogEntry = LogEntry(
    productId: string,
    changeType: string,
    quantityChange: int,
    quantityBefore: int,
    quantityAfter: int,
    referenceType: Option<string>,
    referenceId: Option<string>,
    notes: Option<string>,
    createdBy: Option<int>)

  /** An integrity error at commit surfaces as a 500. */
  const InternalError := HttpError(500, "Internal Server Error")
  const ProductNotFound := HttpError(404, "Product not found")
  const OrderNotFound := HttpError(404, "Order not found")

  /** The product table and the inventory log together. */
  datatype Ledger = Ledger(products: map<string, ProductRow>, logs: seq<LogEntry>)

  /** What a route returns together with the tables it leaves behind. */
  datatype Outcome<T> = Outcome(ledger: Ledger, result: Result<T, HttpError>)

  // ---------------------------------------------------------------- invariants

  /** Every log entry's `after` is its `before` plus its `change`. */
  predicate Balanced(logs: seq<LogEntry>) {
    forall i :: 0 <= i < |logs| ==> logs[i].quantityAfter == logs[i].quantityBefore + logs[i].quantityChange
  }

  /** Rows are keyed by their id, every log entry names a stored product, and
      every entry is balanced. */
  predicate Consistent(l: Ledger) {
    && (forall id :: id in l.products ==> l.products[id].id == id)
    && (forall i :: 0 <= i < |l.logs| ==> l.logs[i].productId in l.products)
    && Balanced(l.logs)
  }

  /** The sum of the logged changes for one product. */
  function Net(logs: seq<LogEntry>, id: string): int {
    if |logs| == 0 then 0
    else
      var e := logs[|logs| - 1];
      Net(logs[..|logs| - 1], id) + (if e.productId == id then e.quantityChange else 0)
  }

  /** The log accounts for all stock: each product's quantity is the sum of its
      logged changes. */
  predicate Reconciled(l: Ledger) {
    forall id :: id in l.products ==> l.products[id].stockQuantity == Net(l.logs, id)
  }

  /** A product other than `except` already carries this sku. */
  predicate SkuInUse(products: map<string, ProductRow>, sku: string, except: string) {
    exists id :: id in products && id != except && products[id].sku == Some(sku)
  }

  // ---------------------------------------------------------------- create_product

  /** The `stock_in` entry written for a product created with stock. */
  function InitialLog(p: ProductRow, user: int): LogEntry {
    LogEntry(p.id, "stock_in", p.stockQuantity, 0, p.stockQuantity,
             Some("initial"), None, Some("Initial stock"), Some(user))
  }

  /** `create_product`: a duplicate id and a duplicate non-empty sku are
      rejected with 400; an empty sku that is already taken violates the unique
      column and fails with 500; otherwise the row is stored, and an initial
      `stock_in` entry is logged when the stock is positive. */
  function Create(l: Ledger, p: ProductRow, user: int): Outcome<ProductRow> {
    if p.id in l.products then Outcome(l, Err(HttpError(400, "Product ID already exists")))
    else if p.sku.Some? && p.sku.value != "" && SkuInUse(l.products, p.sku.value, p.id) then
      Outcome(l, Err(HttpError(400, "SKU already exists")))
    else if p.sku.Some? && SkuInUse(l.products, p.sku.value, p.id) then Outcome(l, Err(InternalError))
    else
      var logs := if p.stockQuantity > 0 then l.logs + [InitialLog(p, user)] else l.logs;
      Outcome(Ledger(l.products[p.id := p], logs), Ok(p))
  }

  /** Rejections change nothing; a new product is stored under its id, and
      exactly one `stock_in` entry from 0 to its stock is logged iff that stock
      is positive. */
  lemma CreateOutcomes(l: Ledger, p: ProductRow, user: int)
    ensures var o := Create(l, p, user);
      && (p.id in l.products ==> o == Outcome(l, Err(HttpError(400, "Product ID already exists"))))
      && (p.id !in l.products && p.sku.Some? && p.sku.value != "" && SkuInUse(l.products, p.sku.value, p.id)
          ==> o == Outcome(l, Err(HttpError(400, "SKU already exists"))))
      && (o.result.Ok? <==> p.id !in l.products && !(p.sku.Some? && SkuInUse(l.products, p.sku.value, p.id)))
      && (o.result.Err? ==> o.ledger == l)
      && (o.result.Ok? ==>
            && o.ledger.products == l.products[p.id := p]
            && o.ledger.logs[..|l.logs|] == l.logs
            && |o.ledger.logs| == |l.logs| + (if p.stockQuantity > 0 then 1 else 0)
            && (p.stockQuantity > 0 ==>
                  var e := o.ledger.logs[|l.logs|];
                  e.changeType == "stock_in" && e.quantityBefore == 0 && e.quantityAfter == p.stockQuantity))
  {
  }

  lemma CreateKeepsConsistent(l: Ledger, p: ProductRow, user: int)
    requires Consistent(l)
    ensures Consistent(Create(l, p, user).ledger)
  {
  }

  /** A product is created with no earlier log entries, so a new product with
      non-negative stock keeps the log reconciled. */
  lemma CreateKeepsReconciled(l: Ledger, p: ProductRow, user: int)
    requires Consistent(l) && Reconciled(l)
    requires p.stockQuantity >= 0
    ensures Reconciled(Create(l, p, user).ledger)
  {
    var o := Create(l, p, user);
    if o.result.Ok? {
      NetUnlogged(l.logs, p.id);
      forall id | id in o.ledger.products
        ensures o.ledger.products[id].stockQuantity == Net(o.ledger.logs, id)
      {
        if p.stockQuantity > 0 {
          NetAppend(l.logs, InitialLog(p, user), id);
        }
      }
    }
  }

  /** A product created with negative stock gets no log entry, so the log no
      longer accounts for its stock. */
  lemma CreateNegativeStockUnreconciled()
    ensures var p := ProductRow("p", "t", "art", 100, None, None, None, None, None, None,
                                -1, 5, None, true, false, 0);
      && Create(Ledger(map[], []), p, 1).result == Ok(p)
      && !Reconciled(Create(Ledger(map[], []), p, 1).ledger)
  {
    var p := ProductRow("p", "t", "art", 100, None, None, None, None, None, None,
                        -1, 5, None, true, false, 0);
    var o := Create(Ledger(map[], []), p, 1);
    assert o.ledger == Ledger(map["p" := p], []);
    assert Net([], "p") == 0;
  }

  // ---------------------------------------------------------------- update_product

  /** The number of fields a `ProductUpdate` can carry. */
  const UpdateFields := 15

  /** The entry for the `k`-th field of `ProductUpdate`, if it was sent. */
  function FieldAt(u: ProductUpdate, k: nat): seq<ProductField>
    requires k < UpdateFields
  {
    match k
    case 0 => if u.title.Some? then [Title(u.title.value)] else []
    case 1 => if u.mainCategory.Some? then [MainCategory(u.mainCategory.value)] else []
    case 2 => if u.price.Some? then [Price(u.price.value)] else []
    case 3 => if u.image.Some? then [Image(u.image.value)] else []
    case 4 => if u.images.Some? then [Images(u.images.value)] else []
    case 5 => if u.description.Some? then [Description(u.description.value)] else []
    case 6 => if u.fullDescription.Some? then [FullDescription(u.fullDescription.value)] else []
    case 7 => if u.sizes.Some? then [Sizes(u.sizes.value)] else []
    case 8 => if u.colors.Some? then [Colors(u.colors.value)] else []
    case 9 => if u.stockQuantity.Some? then [StockQuantity(u.stockQuantity.value)] else []
    case 10 => if u.lowStockThreshold.Some? then [LowStockThreshold(u.lowStockThreshold.value)] else []
    case 11 => if u.sku.Some? then [Sku(u.sku.value)] else []
    case 12 => if u.visible.Some? then [Visible(u.visible.value)] else []
    case 13 => if u.featured.Some? then [Featured(u.featured.value)] else []
    case _ => if u.order.Some? then [SortOrder(u.order.value)] else []
  }

  /** The sent entries among the first `k` fields, in field order. */
  function SentAmong(u: ProductUpdate, k: nat): seq<ProductField>
    requires k <= UpdateFields
  {
    if k == 0 then [] else SentAmong(u, k - 1) + FieldAt(u, k - 1)
  }

  /** The entries of `product.dict(exclude_unset=True)`, in field order. */
  function Supplied(u: ProductUpdate): seq<ProductField> {
    SentAmong(u, UpdateFields)
  }

  /** `setattr(db_product, field, value)`. */
  function SetField(row: ProductRow, f: ProductField): ProductRow {
    match f
    case Title(v) => row.(title := v)
    case MainCategory(v) => row.(mainCategory := v)
    case Price(v) => row.(price := v)
    case Image(v) => row.(image := Some(v))
    case Images(v) => row.(images := Some(v))
    case Description(v) => row.(description := Some(v))
    case FullDescription(v) => row.(fullDescription := Some(v))
    case Sizes(v) => row.(sizes := Some(v))
    case Colors(v) => row.(colors := Some(v))
    case StockQuantity(v) => row.(stockQuantity := v)
    case LowStockThreshold(v) => row.(lowStockThreshold := v)
    case Sku(v) => row.(sku := Some(v))
    case Visible(v) => row.(visible := v)
    case Featured(v) => row.(featured := v)
    case SortOrder(v) => row.(order := v)
  }

  /** The `setattr` loop run over a list of fields. */
  function ApplyFields(row: ProductRow, fs: seq<ProductField>): ProductRow {
    if |fs| == 0 then row else SetField(ApplyFields(row, fs[..|fs| - 1]), fs[|fs| - 1])
  }

  /** The row after an update: every supplied field takes its new value and
      every other field keeps its old one. */
  function Merge(row: ProductRow, u: ProductUpdate): ProductRow {
    row.(
      title := u.title.GetOr(row.title),
      mainCategory := u.mainCategory.GetOr(row.mainCategory),
      price := u.price.GetOr(row.price),
      image := if u.image.Some? then u.image else row.image,
      images := if u.images.Some? then u.images else row.images,
      description := if u.description.Some? then u.description else row.description,
      fullDescription := if u.fullDescription.Some? then u.fullDescription else row.fullDescription,
      sizes := if u.sizes.Some? then u.sizes else row.sizes,
      colors := if u.colors.Some? then u.colors else row.colors,
      stockQuantity := u.stockQuantity.GetOr(row.stockQuantity),
      lowStockThreshold := u.lowStockThreshold.GetOr(row.lowStockThreshold),
      sku := if u.sku.Some? then u.sku else row.sku,
      visible := u.visible.GetOr(row.visible),
      featured := u.featured.GetOr(row.featured),
      order := u.order.GetOr(row.order))
  }

  lemma {:induction false} ApplyFieldsAppend(row: ProductRow, a: seq<ProductField>, b: seq<ProductField>)
    ensures ApplyFields(row, a + b) == ApplyFields(ApplyFields(row, a), b)
  {
    if |b| > 0 {
      ApplyFieldsAppend(row, a, b[..|b| - 1]);
      assert (a + b)[..|a + b| - 1] == a + b[..|b| - 1];
    } else {
      assert a + b == a;
    }
  }

  /** The row with the first `k` fields merged from the update. */
  function MergeUpTo(row: ProductRow, u: ProductUpdate, k: nat): ProductRow {
    row.(
      title := if 0 < k then u.title.GetOr(row.title) else row.title,
      mainCategory := if 1 < k then u.mainCategory.GetOr(row.mainCategory) else row.mainCategory,
      price := if 2 < k then u.price.GetOr(row.price) else row.price,
      image := if 3 < k then (if u.image.Some? then u.image else row.image) else row.image,
      images := if 4 < k then (if u.images.Some? then u.images else row.images) else row.images,
      description := if 5 < k then (if u.description.Some? then u.description else row.description) else row.description,
      fullDescription := if 6 < k then (if u.fullDescription.Some? then u.fullDescription else row.fullDescription) else row.fullDescription,
      sizes := if 7 < k then (if u.sizes.Some? then u.sizes else row.sizes) else row.sizes,
      colors := if 8 < k then (if u.colors.Some? then u.colors else row.colors) else row.colors,
      stockQuantity := if 9 < k then u.stockQuantity.GetOr(row.stockQuantity) else row.stockQuantity,
      lowStockThreshold := if 10 < k then u.lowStockThreshold.GetOr(row.lowStockThreshold) else row.lowStockThreshold,
      sku := if 11 < k then (if u.sku.Some? then u.sku else row.sku) else row.sku,
      visible := if 12 < k then u.visible.GetOr(row.visible) else row.visible,
      featured := if 13 < k then u.featured.GetOr(row.featured) else row.featured,
      order := if 14 < k then u.order.GetOr(row.order) else row.order)
  }

  /** One more field of the update, copied by `setattr`. */
  lemma ApplyFieldAt(row: ProductRow, u: ProductUpdate, k: nat)
    requires k < UpdateFields
    ensures ApplyFields(MergeUpTo(row, u, k), FieldAt(u, k)) == MergeUpTo(row, u, k + 1)
  {
    var fs := FieldAt(u, k);
    if |fs| == 1 {
      assert fs[..0] == [];
    }
    if k < 5 {
      MergeFieldLow(row, u, k);
    } else if k < 10 {
      MergeFieldMiddle(row, u, k);
    } else {
      MergeFieldHigh(row, u, k);
    }
  }

  lemma MergeFieldLow(row: ProductRow, u: ProductUpdate, k: nat)
    requires 0 <= k < 5
    ensures var m := MergeUpTo(row, u, k);
      var fs := FieldAt(u, k);
      (if |fs| == 0 then m else SetField(m, fs[0])) == MergeUpTo(row, u, k + 1)
  {
    var m := MergeUpTo(row, u, k);
    var fs := FieldAt(u, k);
    var next := if |fs| == 0 then m else SetField(m, fs[0]);
    if k == 0 { assert next == MergeUpTo(row, u, 1); }
    else if k == 1 { assert next == MergeUpTo(row, u, 2); }
    else if k == 2 { assert next == MergeUpTo(row, u, 3); }
    else if k == 3 { assert next == MergeUpTo(row, u, 4); }
    else { assert next == MergeUpTo(row, u, 5); }
  }

  lemma MergeFieldMiddle(row: ProductRow, u: ProductUpdate, k: nat)
    requires 5 <= k < 10
    ensures var m := MergeUpTo(row, u, k);
      var fs := FieldAt(u, k);
      (if |fs| == 0 then m else SetField(m, fs[0])) == MergeUpTo(row, u, k + 1)
  {
    var m := MergeUpTo(row, u, k);
    var fs := FieldAt(u, k);
    var next := if |fs| == 0 then m else SetField(m, fs[0]);
    if k == 5 { assert next == MergeUpTo(row, u, 6); }
    else if k == 6 { assert next == MergeUpTo(row, u, 7); }
    else if k == 7 { assert next == MergeUpTo(row, u, 8); }
    else if k == 8 { assert next == MergeUpTo(row, u, 9); }
    else { assert next == MergeUpTo(row, u, 10); }
  }

  lemma MergeFieldHigh(row: ProductRow, u: ProductUpdate, k: nat)
    requires 10 <= k < 15
    ensures var m := MergeUpTo(row, u, k);
      var fs := FieldAt(u, k);
      (if |fs| == 0 then m else SetField(m, fs[0])) == MergeUpTo(row, u, k + 1)
  {
    var m := MergeUpTo(row, u, k);
    var fs := FieldAt(u, k);
    var next := if |fs| == 0 then m else SetField(m, fs[0]);
    if k == 10 { assert next == MergeUpTo(row, u, 11); }
    else if k == 11 { assert next == MergeUpTo(row, u, 12); }
    else if k == 12 { assert next == MergeUpTo(row, u, 13); }
    else if k == 13 { assert next == MergeUpTo(row, u, 14); }
    else { assert next == MergeUpTo(row, u, 15); }
  }

  lemma {:induction false} ApplySentAmong(row: ProductRow, u: ProductUpdate, k: nat)
    requires k <= UpdateFields
    ensures ApplyFields(row, SentAmong(u, k)) == MergeUpTo(row, u, k)
  {
    if k > 0 {
      ApplySentAmong(row, u, k - 1);
      ApplyFieldsAppend(row, SentAmong(u, k - 1), FieldAt(u, k - 1));
      ApplyFieldAt(row, u, k - 1);
    } else {
      assert MergeUpTo(row, u, 0) == row;
    }
  }

  /** The `setattr` loop over the supplied fields yields the merged row. */
  lemma ApplyFieldsSupplied(row: ProductRow, u: ProductUpdate)
    ensures ApplyFields(row, Supplied(u)) == Merge(row, u)
  {
    ApplySentAmong(row, u, UpdateFields);
  }

  /** The `adjustment` entry written when an update changes the stock. */
  function UpdateLog(id: string, before: int, after: int, user: int): LogEntry {
    LogEntry(id, "adjustment", after - before, before, after,
             Some("manual"), None, Some("Manual adjustment via admin panel"), Some(user))
  }

  /** `update_product`: 404 for an unknown id; otherwise an `adjustment` entry
      is logged when a supplied stock differs from the current one, and the
      supplied fields are copied onto the row. A sku that another product
      already carries violates the unique column at commit, which rolls back
      both the row and the log entry (500). */
  function Update(l: Ledger, id: string, u: ProductUpdate, user: int): Outcome<ProductRow> {
    if id !in l.products then Outcome(l, Err(ProductNotFound))
    else if u.sku.Some? && SkuInUse(l.products, u.sku.value, id) then Outcome(l, Err(InternalError))
    else
      var row := l.products[id];
      var logs :=
        if u.stockQuantity.Some? && u.stockQuantity.value - row.stockQuantity != 0
        then l.logs + [UpdateLog(id, row.stockQuantity, u.stockQuantity.value, user)]
        else l.logs;
      var updated := Merge(row, u);
      Outcome(Ledger(l.products[id := updated], logs), Ok(updated))
  }

  /** A successful update logs exactly when the stock is supplied and differs
      from the stored one, and the entry records the move from old to new. */
  lemma UpdateLogsOnlyChanges(l: Ledger, id: string, u: ProductUpdate, user: int)
    requires id in l.products
    ensures var o := Update(l, id, u, user);
      var before := l.products[id].stockQuantity;
      var changed := u.stockQuantity.Some? && u.stockQuantity.value != before;
      o.result.Ok? ==>
        && o.ledger.logs[..|l.logs|] == l.logs
        && |o.ledger.logs| == |l.logs| + (if changed then 1 else 0)
        && (changed ==>
              var e := o.ledger.logs[|l.logs|];
              && e.changeType == "adjustment"
              && e.quantityBefore == before
              && e.quantityAfter == u.stockQuantity.value
              && e.quantityChange == u.stockQuantity.value - before)
  {
  }

  lemma UpdateKeepsConsistent(l: Ledger, id: string, u: ProductUpdate, user: int)
    requires Consistent(l)
    ensures Consistent(Update(l, id, u, user).ledger)
  {
  }

  lemma UpdateKeepsReconciled(l: Ledger, id: string, u: ProductUpdate, user: int)
    requires Reconciled(l)
    ensures Reconciled(Update(l, id, u, user).ledger)
  {
    var o := Update(l, id, u, user);
    if o.result.Ok? && o.ledger.logs != l.logs {
      var row := l.products[id];
      var e := UpdateLog(id, row.stockQuantity, u.stockQuantity.value, user);
      forall k | k in o.ledger.products
        ensures o.ledger.products[k].stockQuantity == Net(o.ledger.logs, k)
      {
        NetAppend(l.logs, e, k);
      }
    }
  }

  /** Sending the same update twice is the same as sending it once. */
  lemma UpdateIdempotent(l: Ledger, id: string, u: ProductUpdate, user: int)
    requires Update(l, id, u, user).result.Ok?
    ensures Update(Update(l, id, u, user).ledger, id, u, user) == Update(l, id, u, user)
  {
    var o := Update(l, id, u, user);
    var row := Merge(l.products[id], u);
    assert Merge(row, u) == row;
    if u.sku.Some? {
      assert !SkuInUse(o.ledger.products, u.sku.value, id) by {
        forall k | k in o.ledger.products && k != id
          ensures o.ledger.products[k].sku != Some(u.sku.value)
        {
          assert o.ledger.products[k] == l.products[k];
        }
      }
    }
  }

  // ---------------------------------------------------------------- adjust_inventory

  /** The body of a successful adjustment response. */
  datatype Adjustment = Adjustment(
    message: string, productId: string, oldQuantity: int, newQuantity: int, change: int)

  /** `adjust_inventory`: 404 for an unknown id, 400 when the stock would go
      below zero, otherwise the stock moves by `change` and one `adjustment`
      entry is logged, its notes defaulting when empty. */
  function Adjust(l: Ledger, id: string, change: int, notes: Option<string>, user: int): Outcome<Adjustment> {
    if id !in l.products then Outcome(l, Err(ProductNotFound))
    else
      var before := l.products[id].stockQuantity;
      var after := before + change;
      if after < 0 then Outcome(l, Err(HttpError(400, "Insufficient stock")))
      else
        var e := LogEntry(id, "adjustment", change, before, after, Some("manual"), None,
                          Some(Js.OrElse(notes, "Manual adjustment")), Some(user));
        Outcome(
          Ledger(l.products[id := l.products[id].(stockQuantity := after)], l.logs + [e]),
          Ok(Adjustment("Inventory adjusted successfully", id, before, after, change)))
  }

  /** A rejected adjustment changes nothing; an accepted one sets the stock to
      old + change, which is never negative, touches no other product and logs
      exactly one entry from old to new. */
  lemma AdjustOutcomes(l: Ledger, id: string, change: int, notes: Option<string>, user: int)
    ensures var o := Adjust(l, id, change, notes, user);
      && (id !in l.products ==> o == Outcome(l, Err(ProductNotFound)))
      && (id in l.products && l.products[id].stockQuantity + change < 0
          ==> o == Outcome(l, Err(HttpError(400, "Insufficient stock"))))
      && (o.result.Ok? <==> id in l.products && l.products[id].stockQuantity + change >= 0)
      && (o.result.Ok? ==>
            var before := l.products[id].stockQuantity;
            && o.ledger.products.Keys == l.products.Keys
            && o.ledger.products[id].stockQuantity == before + change >= 0
            && (forall k :: k in l.products && k != id ==> o.ledger.products[k] == l.products[k])
            && |o.ledger.logs| == |l.logs| + 1
            && o.ledger.logs[..|l.logs|] == l.logs
            && o.ledger.logs[|l.logs|].quantityBefore == before
            && o.ledger.logs[|l.logs|].quantityAfter == before + change
            && o.ledger.logs[|l.logs|].quantityChange == change)
  {
  }

  lemma AdjustKeepsConsistent(l: Ledger, id: string, change: int, notes: Option<string>, user: int)
    requires Consistent(l)
    ensures Consistent(Adjust(l, id, change, notes, user).ledger)
  {
  }

  lemma AdjustKeepsReconciled(l: Ledger, id: string, change: int, notes: Option<string>, user: int)
    requires Reconciled(l)
    ensures Reconciled(Adjust(l, id, change, notes, user).ledger)
  {
    var o := Adjust(l, id, change, notes, user);
    if o.result.Ok? {
      var e := o.ledger.logs[|l.logs|];
      assert o.ledger.logs == l.logs + [e];
      forall k | k in o.ledger.products
        ensures o.ledger.products[k].stockQuantity == Net(o.ledger.logs, k)
      {
        NetAppend(l.logs, e, k);
      }
    }
  }

  // ---------------------------------------------------------------- get_low_stock_products

  /** `get_low_stock_products`: the visible products at or below their own
      threshold. */
  function LowStock(products: map<string, ProductRow>): set<ProductRow> {
    set id | id in products && products[id].visible
             && products[id].stockQuantity <= products[id].lowStockThreshold :: products[id]
  }

  /** After an accepted adjustment the product is listed as low on stock iff
      it is visible and its new stock is at or below its threshold. */
  lemma AdjustLowStock(l: Ledger, id: string, change: int, notes: Option<string>, user: int)
    requires Adjust(l, id, change, notes, user).result.Ok?
    ensures var after := Adjust(l, id, change, notes, user).ledger.products;
      after[id] in LowStock(after)
      <==> l.products[id].visible && l.products[id].stockQuantity + change <= l.products[id].lowStockThreshold
  {
    var after := Adjust(l, id, change, notes, user).ledger.products;
    if after[id] in LowStock(after) {
      var k :| k in after && after[k].visible && after[k].stockQuantity <= after[k].lowStockThreshold
               && after[k] == after[id];
    }
  }

  // ---------------------------------------------------------------- create_order stock

  /** An entry of an order's `items`. */
  datatype OrderItem = OrderItem(productId: string, title: string, quantity: int, price: int)

  /** The `sale` entry written for a deducted item. */
  function SaleLog(item: OrderItem, before: int, after: int, orderNumber: string): LogEntry {
    LogEntry(item.productId, "sale", -item.quantity, before, after,
             Some("order"), Some(orderNumber), Some("Sold via order " + orderNumber), None)
  }

  /** One turn of the deduction loop: an item whose product exists and has
      enough stock is deducted and logged; any other item is skipped. */
  function Sell(l: Ledger, item: OrderItem, orderNumber: string): Ledger {
    if item.productId in l.products && l.products[item.productId].stockQuantity - item.quantity >= 0 then
      var row := l.products[item.productId];
      var after := row.stockQuantity - item.quantity;
      Ledger(l.products[item.productId := row.(stockQuantity := after)],
             l.logs + [SaleLog(item, row.stockQuantity, after, orderNumber)])
    else l
  }

  /** The deduction loop over an order's items, in order. */
  function SellAll(l: Ledger, items: seq<OrderItem>, orderNumber: string): Ledger {
    if |items| == 0 then l
    else Sell(SellAll(l, items[..|items| - 1], orderNumber), items[|items| - 1], orderNumber)
  }

  /** An item is skipped, leaving everything as it was, exactly when its
      product is unknown or has too little stock. */
  lemma SellSkips(l: Ledger, item: OrderItem, orderNumber: string)
    ensures Sell(l, item, orderNumber) == l
      <==> item.productId !in l.products || l.products[item.productId].stockQuantity < item.quantity
  {
    if item.productId in l.products && l.products[item.productId].stockQuantity >= item.quantity {
      assert |Sell(l, item, orderNumber).logs| == |l.logs| + 1;
    }
  }

  predicate NoNegativeStock(l: Ledger) {
    forall id :: id in l.products ==> l.products[id].stockQuantity >= 0
  }

  /** Orders never push stock below zero. */
  lemma {:induction false} SellAllNoNegative(l: Ledger, items: seq<OrderItem>, orderNumber: string)
    requires NoNegativeStock(l)
    ensures NoNegativeStock(SellAll(l, items, orderNumber))
  {
    if |items| > 0 {
      SellAllNoNegative(l, items[..|items| - 1], orderNumber);
    }
  }

  /** The deduction loop keeps the old log as a prefix, adds at most one
      entry per item, and every entry it adds is a balanced `sale` for this
      order that leaves the stock non-negative. */
  lemma {:induction false} SellAllAppendsSales(l: Ledger, items: seq<OrderItem>, orderNumber: string)
    ensures var r := SellAll(l, items, orderNumber);
      && |l.logs| <= |r.logs| <= |l.logs| + |items|
      && r.logs[..|l.logs|] == l.logs
      && r.products.Keys == l.products.Keys
      && (forall i :: |l.logs| <= i < |r.logs| ==>
            && r.logs[i].changeType == "sale"
            && r.logs[i].referenceId == Some(orderNumber)
            && r.logs[i].quantityAfter == r.logs[i].quantityBefore + r.logs[i].quantityChange
            && r.logs[i].quantityAfter >= 0)
  {
    if |items| > 0 {
      var prev := SellAll(l, items[..|items| - 1], orderNumber);
      SellAllAppendsSales(l, items[..|items| - 1], orderNumber);
      var r := SellAll(l, items, orderNumber);
      assert r == Sell(prev, items[|items| - 1], orderNumber);
      assert r.logs[..|prev.logs|] == prev.logs;
      assert r.logs[..|l.logs|] == prev.logs[..|l.logs|];
    }
  }

  lemma SellKeepsConsistent(l: Ledger, item: OrderItem, orderNumber: string)
    requires Consistent(l)
    ensures Consistent(Sell(l, item, orderNumber))
  {
  }

  lemma {:induction false} SellAllKeepsConsistent(l: Ledger, items: seq<OrderItem>, orderNumber: string)
    requires Consistent(l)
    ensures Consistent(SellAll(l, items, orderNumber))
  {
    if |items| > 0 {
      SellAllKeepsConsistent(l, items[..|items| - 1], orderNumber);
      SellKeepsConsistent(SellAll(l, items[..|items| - 1], orderNumber), items[|items| - 1], orderNumber);
    }
  }

  lemma SellKeepsReconciled(l: Ledger, item: OrderItem, orderNumber: string)
    requires Reconciled(l)
    ensures Reconciled(Sell(l, item, orderNumber))
  {
    var r := Sell(l, item, orderNumber);
    if r != l {
      var e := r.logs[|l.logs|];
      assert r.logs == l.logs + [e];
      forall k | k in r.products
        ensures r.products[k].stockQuantity == Net(r.logs, k)
      {
        NetAppend(l.logs, e, k);
      }
    }
  }

  /** The stock each product loses to an order is exactly what the log
      records for it. */
  lemma {:induction false} SellAllKeepsReconciled(l: Ledger, items: seq<OrderItem>, orderNumber: string)
    requires Reconciled(l)
    ensures Reconciled(SellAll(l, items, orderNumber))
  {
    if |items| > 0 {
      SellAllKeepsReconciled(l, items[..|items| - 1], orderNumber);
      SellKeepsReconciled(SellAll(l, items[..|items| - 1], orderNumber), items[|items| - 1], orderNumber);
    }
  }

  // ---------------------------------------------------------------- log sums

  lemma NetAppend(logs: seq<LogEntry>, e: LogEntry, id: string)
    ensures Net(logs + [e], id) == Net(logs, id) + (if e.productId == id then e.quantityChange else 0)
  {
    assert (logs + [e])[..|logs|] == logs;
  }

  lemma {:induction false} NetUnlogged(logs: seq<LogEntry>, id: string)
    requires forall i :: 0 <= i < |logs| ==> logs[i].productId != id
    ensures Net(logs, id) == 0
  {
    if |logs| > 0 {
      NetUnlogged(logs[..|logs| - 1], id);
    }
  }

  // ---------------------------------------------------------------- orders

  /** A row of the `orders` table; amounts in cents. */
  datatype OrderRow = OrderRow(
    id: int,
    userId: Option<int>,
    email: string,
    orderNumber: string,
    stripeSessionId: Option<string>,
    stripePaymentIntent: Option<string>,
    items: seq<OrderItem>,
    subtotal: int,
    tax: int,
    shipping: int,
    total: int,
    status: string,
    paymentStatus: string,
    shippingAddress: Option<JsonValue.Json>,
    trackingNumber: Option<string>,
    paidAt: Option<Time>,
    shippedAt: Option<Time>,
    deliveredAt: Option<Time>)

  /** The `OrderCreate` payload. */
  datatype NewOrder = NewOrder(
    email: string,
    items: seq<OrderItem>,
    subtotal: int,
    tax: int,
    shipping: int,
    total: int,
    shippingAddress: Option<JsonValue.Json>,
    stripeSessionId: Option<string>,
    stripePaymentIntent: Option<string>,
    userId: Option<int>)

  /** The stored order: the payload with its id and order number, pending and
      unpaid, with no timestamps or tracking number yet. */
  function OrderRowFor(o: NewOrder, id: int, orderNumber: string): OrderRow {
    OrderRow(id, o.userId, o.email, orderNumber, o.stripeSessionId, o.stripePaymentIntent,
             o.items, o.subtotal, o.tax, o.shipping, o.total, "pending", "unpaid",
             o.shippingAddress, None, None, None, None)
  }

  /** The Stripe session id of a new order is already stored (a unique column). */
  predicate SessionTaken(orders: seq<OrderRow>, session: Option<string>) {
    session.Some? && exists i :: 0 <= i < |orders| && orders[i].stripeSessionId == session
  }

  /** `OrderUpdate`: None meaning "not sent". */
  datatype OrderUpdate = OrderUpdate(
    status: Option<string>,
    paymentStatus: Option<string>,
    trackingNumber: Option<string>,
    shippingAddress: Option<JsonValue.Json>)

  /** One entry of an order's `update_data`. */
  datatype OrderField =
    | Status(status: string)
    | PaymentStatus(paymentStatus: string)
    | TrackingNumber(trackingNumber: string)
    | ShippingAddress(shippingAddress: JsonValue.Json)

  function SuppliedOrderFields(u: OrderUpdate): seq<OrderField> {
    (if u.status.Some? then [Status(u.status.value)] else [])
    + (if u.paymentStatus.Some? then [PaymentStatus(u.paymentStatus.value)] else [])
    + (if u.trackingNumber.Some? then [TrackingNumber(u.trackingNumber.value)] else [])
    + (if u.shippingAddress.Some? then [ShippingAddress(u.shippingAddress.value)] else [])
  }

  function SetOrderField(o: OrderRow, f: OrderField): OrderRow {
    match f
    case Status(v) => o.(status := v)
    case PaymentStatus(v) => o.(paymentStatus := v)
    case TrackingNumber(v) => o.(trackingNumber := Some(v))
    case ShippingAddress(v) => o.(shippingAddress := Some(v))
  }

  function ApplyOrderFields(o: OrderRow, fs: seq<OrderField>): OrderRow {
    if |fs| == 0 then o else SetOrderField(ApplyOrderFields(o, fs[..|fs| - 1]), fs[|fs| - 1])
  }

  /** The supplied order fields take their new values; the rest are kept. */
  function MergeOrder(o: OrderRow, u: OrderUpdate): OrderRow {
    o.(
      status := u.status.GetOr(o.status),
      paymentStatus := u.paymentStatus.GetOr(o.paymentStatus),
      trackingNumber := if u.trackingNumber.Some? then u.trackingNumber else o.trackingNumber,
      shippingAddress := if u.shippingAddress.Some? then u.shippingAddress else o.shippingAddress)
  }

  lemma {:induction false} ApplyOrderFieldsAppend(o: OrderRow, a: seq<OrderField>, b: seq<OrderField>)
    ensures ApplyOrderFields(o, a + b) == ApplyOrderFields(ApplyOrderFields(o, a), b)
  {
    if |b| > 0 {
      ApplyOrderFieldsAppend(o, a, b[..|b| - 1]);
      assert (a + b)[..|a + b| - 1] == a + b[..|b| - 1];
    } else {
      assert a + b == a;
    }
  }

  /** The `setattr` loop over the supplied order fields yields the merged row. */
  lemma ApplyOrderFieldsSupplied(o: OrderRow, u: OrderUpdate)
    ensures ApplyOrderFields(o, SuppliedOrderFields(u)) == MergeOrder(o, u)
  {
    var s1 := if u.status.Some? then [Status(u.status.value)] else [];
    var s2 := if u.paymentStatus.Some? then [PaymentStatus(u.paymentStatus.value)] else [];
    var s3 := if u.trackingNumber.Some? then [TrackingNumber(u.trackingNumber.value)] else [];
    var s4 := if u.shippingAddress.Some? then [ShippingAddress(u.shippingAddress.value)] else [];
    assert SuppliedOrderFields(u) == s1 + s2 + s3 + s4;
    ApplyOrderFieldsAppend(o, s1 + s2 + s3, s4);
    ApplyOrderFieldsAppend(o, s1 + s2, s3);
    ApplyOrderFieldsAppend(o, s1, s2);
    assert ApplyOrderFields(o, s1) == o.(status := u.status.GetOr(o.status));
  }

  /** The timestamp rules run before the fields are copied: a status of
      "shipped" stamps `shipped_at` unless it is set, otherwise a status of
      "delivered" stamps `delivered_at` unless it is set, and a payment status
      of "paid" stamps `paid_at` unless it is set. */
  function Stamp(o: OrderRow, u: OrderUpdate, now: Time): OrderRow {
    var o1 :=
      if u.status == Some("shipped") && o.shippedAt.None? then o.(shippedAt := Some(now))
      else if u.status == Some("delivered") && o.deliveredAt.None? then o.(deliveredAt := Some(now))
      else o;
    if u.paymentStatus == Some("paid") && o1.paidAt.None? then o1.(paidAt := Some(now)) else o1
  }

  /** `update_order` on a found order. */
  function UpdatedOrder(o: OrderRow, u: OrderUpdate, now: Time): OrderRow {
    MergeOrder(Stamp(o, u, now), u)
  }

  /** Each timestamp is set only on the first transition to its status and is
      never overwritten afterwards. */
  lemma StampedOnce(o: OrderRow, u: OrderUpdate, now: Time)
    ensures var r := UpdatedOrder(o, u, now);
      && (r.shippedAt != o.shippedAt <==> o.shippedAt.None? && u.status == Some("shipped"))
      && (r.deliveredAt != o.deliveredAt <==> o.deliveredAt.None? && u.status == Some("delivered"))
      && (r.paidAt != o.paidAt <==> o.paidAt.None? && u.paymentStatus == Some("paid"))
      && (r.shippedAt != o.shippedAt ==> r.shippedAt == Some(now))
      && (r.deliveredAt != o.deliveredAt ==> r.deliveredAt == Some(now))
      && (r.paidAt != o.paidAt ==> r.paidAt == Some(now))
  {
  }

  /** Repeating an order update later changes nothing: the fields already hold
      the sent values and the timestamps are already set. */
  lemma UpdatedOrderIdempotent(o: OrderRow, u: OrderUpdate, now: Time, later: Time)
    ensures UpdatedOrder(UpdatedOrder(o, u, now), u, later) == UpdatedOrder(o, u, now)
  {
  }

  // ---------------------------------------------------------------- the setattr loops

  /** The `setattr` loop of `update_product`: each sent field is copied onto
      the row in turn. */
  method CopyFields(row: ProductRow, u: ProductUpdate) returns (updated: ProductRow)
    ensures updated == Merge(row, u)
  {
    var fields := Supplied(u);
    updated := row;
    for i := 0 to |fields|
      invariant updated == ApplyFields(row, fields[..i])
    {
      assert fields[..i + 1][..i] == fields[..i];
      updated := SetField(updated, fields[i]);
    }
    assert fields[..|fields|] == fields;
    ApplyFieldsSupplied(row, u);
  }

  /** The timestamp rules of `update_order`, applied to the stored order. */
  method StampOrder(order: OrderRow, u: OrderUpdate, now: Time) returns (stamped: OrderRow)
    ensures stamped == Stamp(order, u, now)
  {
    stamped := order;
    if u.status.Some? {
      if u.status.value == "shipped" && stamped.shippedAt.None? {
        stamped := stamped.(shippedAt := Some(now));
      } else if u.status.value == "delivered" && stamped.deliveredAt.None? {
        stamped := stamped.(deliveredAt := Some(now));
      }
    }
    if u.paymentStatus.Some? {
      if u.paymentStatus.value == "paid" && stamped.paidAt.None? {
        stamped := stamped.(paidAt := Some(now));
      }
    }
  }

  /** The `setattr` loop of `update_order`. */
  method CopyOrderFields(order: OrderRow, u: OrderUpdate) returns (updated: OrderRow)
    ensures updated == MergeOrder(order, u)
  {
    var fields := SuppliedOrderFields(u);
    updated := order;
    for i := 0 to |fields|
      invariant updated == ApplyOrderFields(order, fields[..i])
    {
      assert fields[..i + 1][..i] == fields[..i];
      updated := SetOrderField(updated, fields[i]);
    }
    assert fields[..|fields|] == fields;
    ApplyOrderFieldsSupplied(order, u);
  }

  // ---------------------------------------------------------------- the database

  /** The three tables, changed in place by the routes. Order ids are
      assigned in sequence from 1. */
  class Database {
    var products: map<string, ProductRow>
    var logs: seq<LogEntry>
    var orders: seq<OrderRow>

    ghost predicate Valid()
      reads this
    {
      && Consistent(Ledger(products, logs))
      && forall i :: 0 <= i < |orders| ==> orders[i].id == i + 1
    }

    constructor()
      ensures Valid()
      ensures products == map[] && logs == [] && orders == []
    {
      products := map[];
      logs := [];
      orders := [];
    }

    method CreateProduct(p: ProductRow, user: int) returns (r: Result<ProductRow, HttpError>)
      requires Valid()
      modifies this
      ensures Valid()
      ensures Outcome(Ledger(products, logs), r) == Create(old(Ledger(products, logs)), p, user)
      ensures orders == old(orders)
    {
      if p.id in products {
        return Err(HttpError(400, "Product ID already exists"));
      }
      if p.sku.Some? && p.sku.value != "" && SkuInUse(products, p.sku.value, p.id) {
        return Err(HttpError(400, "SKU already exists"));
      }
      if p.sku.Some? && SkuInUse(products, p.sku.value, p.id) {
        return Err(InternalError);
      }
      ghost var before := Ledger(products, logs);
      products := products[p.id := p];
      if p.stockQuantity > 0 {
        logs := logs + [InitialLog(p, user)];
      }
      CreateKeepsConsistent(before, p, user);
      return Ok(p);
    }

    method UpdateProduct(id: string, u: ProductUpdate, user: int) returns (r: Result<ProductRow, HttpError>)
      requires Valid()
      modifies this
      ensures Valid()
      ensures Outcome(Ledger(products, logs), r) == Update(old(Ledger(products, logs)), id, u, user)
      ensures orders == old(orders)
    {
      if id !in products {
        return Err(ProductNotFound);
      }
      var row := products[id];
      var pending := logs;
      if u.stockQuantity.Some? {
        var change := u.stockQuantity.value - row.stockQuantity;
        if change != 0 {
          pending := pending + [UpdateLog(id, row.stockQuantity, u.stockQuantity.value, user)];
        }
      }
      var updated := CopyFields(row, u);
      if u.sku.Some? && SkuInUse(products, u.sku.value, id) {
        return Err(InternalError);
      }
      UpdateKeepsConsistent(Ledger(products, logs), id, u, user);
      products := products[id := updated];
      logs := pending;
      return Ok(updated);
    }

    method AdjustInventory(id: string, change: int, notes: Option<string>, user: int)
      returns (r: Result<Adjustment, HttpError>)
      requires Valid()
      modifies this
      ensures Valid()
      ensures Outcome(Ledger(products, logs), r) == Adjust(old(Ledger(products, logs)), id, change, notes, user)
      ensures orders == old(orders)
    {
      if id !in products {
        return Err(ProductNotFound);
      }
      var before := products[id].stockQuantity;
      var after := before + change;
      if after < 0 {
        return Err(HttpError(400, "Insufficient stock"));
      }
      AdjustKeepsConsistent(Ledger(products, logs), id, change, notes, user);
      products := products[id := products[id].(stockQuantity := after)];
      logs := logs + [LogEntry(id, "adjustment", change, before, after, Some("manual"), None,
                               Some(Js.OrElse(notes, "Manual adjustment")), Some(user))];
      return Ok(Adjustment("Inventory adjusted successfully", id, before, after, change));
    }

    /** `get_low_stock_products`. */
    function LowStockProducts(): set<ProductRow>
      reads this
    {
      LowStock(products)
    }

    /** One turn of the deduction loop of `create_order`. */
    method DeductItem(item: OrderItem, orderNumber: string)
      modifies this
      ensures Ledger(products, logs) == Sell(old(Ledger(products, logs)), item, orderNumber)
      ensures orders == old(orders)
    {
      if item.productId in products {
        var stock := products[item.productId];
        var after := stock.stockQuantity - item.quantity;
        if after >= 0 {
          products := products[item.productId := stock.(stockQuantity := after)];
          logs := logs + [SaleLog(item, stock.stockQuantity, after, orderNumber)];
        }
      }
    }

    /** The deduction loop of `create_order`, over the items in order. */
    method DeductItems(items: seq<OrderItem>, orderNumber: string)
      modifies this
      ensures Ledger(products, logs) == SellAll(old(Ledger(products, logs)), items, orderNumber)
      ensures orders == old(orders)
    {
      ghost var start := Ledger(products, logs);
      for i := 0 to |items|
        invariant Ledger(products, logs) == SellAll(start, items[..i], orderNumber)
        invariant orders == old(orders)
      {
        assert items[..i + 1][..i] == items[..i];
        DeductItem(items[i], orderNumber);
      }
      assert items[..|items|] == items;
    }

    /** `create_order`: the order is stored (unless its Stripe session id is
        already taken, which fails the insert with 500 and changes nothing),
        then each item is deducted from stock in turn. */
    method CreateOrder(o: NewOrder, orderNumber: string) returns (r: Result<OrderRow, HttpError>)
      requires Valid()
      modifies this
      ensures Valid()
      ensures SessionTaken(old(orders), o.stripeSessionId) ==>
        r == Err(InternalError) && orders == old(orders)
        && products == old(products) && logs == old(logs)
      ensures !SessionTaken(old(orders), o.stripeSessionId) ==>
        && r == Ok(OrderRowFor(o, |old(orders)| + 1, orderNumber))
        && orders == old(orders) + [OrderRowFor(o, |old(orders)| + 1, orderNumber)]
        && Ledger(products, logs) == SellAll(old(Ledger(products, logs)), o.items, orderNumber)
    {
      if o.stripeSessionId.Some? && exists k :: 0 <= k < |orders| && orders[k].stripeSessionId == o.stripeSessionId {
        return Err(InternalError);
      }
      var row := OrderRowFor(o, |orders| + 1, orderNumber);
      orders := orders + [row];
      ghost var start := Ledger(products, logs);
      DeductItems(o.items, orderNumber);
      SellAllKeepsConsistent(start, o.items, orderNumber);
      return Ok(row);
    }

    /** `update_order`: 404 for an unknown id; otherwise the timestamp rules
        run and the supplied fields are copied onto the order. */
    method UpdateOrder(orderId: int, u: OrderUpdate, now: Time) returns (r: Result<OrderRow, HttpError>)
      requires Valid()
      modifies this
      ensures Valid()
      ensures products == old(products) && logs == old(logs)
      ensures !(1 <= orderId <= |old(orders)|) ==> r == Err(OrderNotFound) && orders == old(orders)
      ensures 1 <= orderId <= |old(orders)| ==>
        var updated := UpdatedOrder(old(orders)[orderId - 1], u, now);
        r == Ok(updated) && orders == old(orders)[orderId - 1 := updated]
    {
      if !(1 <= orderId <= |orders|) {
        return Err(OrderNotFound);
      }
      var order := StampOrder(orders[orderId - 1], u, now);
      order := CopyOrderFields(order, u);
      orders := orders[orderId - 1 := order];
      return Ok(order);
    }
  }
}
