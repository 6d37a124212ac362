/** The catalog endpoint (netlify/functions/get-products.js): lists the active
    Stripe products and normalises each into the storefront's product shape,
    decoding the `stock_<size>` inventory convention and applying the image,
    price and category fallbacks. */
module Catalog {
  import opened Wrappers
  import opened Js
  import opened JsObject
  import opened InventoryCodec
  import opened StoreTypes

  /** The main image used when a product has no image at all. */
  const Placeholder: string := "/img/products/placeholder-product.svg"

  /** A Stripe price: its id and `unit_amount` in cents. */
  datatype StripePrice = StripePrice(id: string, unitAmount: nat)

  /** A Stripe product as listed with `expand: ['data.default_price']`. */
  datatype StripeProduct = StripeProduct(
    id: string,
    name: string,
    description: Option<string>,
    images: Option<seq<string>>,
    metadata: Option<Metadata>,
    defaultPrice: Option<StripePrice>)

  /** Images and size chart kept locally for products whose Stripe record has
      no images. */
  datatype LocalData = LocalData(images: Option<seq<string>>, sizeChart: Option<SizeChart>)

  /** `localProductImages`. */
  function LocalProductImages(): map<string, LocalData> {
    map["prod_TgsPf8wZHkrZsZ" := LocalData(
      Some([
        "/img/products/balm-cursive-1-duo.png",
        "/img/products/balm-cursive.png",
        "/img/products/balm-cursive-1-longhair.png",
        "/img/products/balm-cursive-1-cream.png",
        "/img/products/balm-cursive-1-white-chains.png",
        "/img/products/balm-cursive-1-jeans.png"]),
      Some(CursiveSizeChart()))]
  }

  /** The normalised product the endpoint returns. `inventory` is `None` where
      the source leaves it `undefined`. */
  datatype CatalogProduct = CatalogProduct(
    id: string,
    stripeProductId: string,
    stripePriceId: Option<string>,
    title: string,
    price: int,
    description: string,
    image: string,
    images: seq<string>,
    mainCategory: string,
    sizes: seq<string>,
    colors: seq<string>,
    details: string,
    inventory: Option<Entries<int>>,
    sizeChart: Option<SizeChart>,
    metadata: Metadata)

  /** `product.metadata?.[key]`. */
  function MetaField(p: StripeProduct, key: string): Option<string> {
    if p.metadata.Some? && key in p.metadata.value then Some(p.metadata.value[key]) else None
  }

  /** `field ? field.split(',') : []`: a missing or empty field gives no
      entries; otherwise the raw pieces, untrimmed and with empty pieces kept. */
  function SplitField(p: StripeProduct, key: string): seq<string> {
    var f := MetaField(p, key);
    if f.Some? && Truthy(f.value) then Split(f.value, ',') else []
  }

  // ---------------------------------------------------------------- inventory

  /** `stock_<size>` is present with a non-empty value. */
  predicate HasStock(md: Metadata, size: string) {
    StockKey(size) in md && md[StockKey(size)] != ""
  }

  /** `parseInt(metadata[stock_<size>], 10) || 0`: NaN (and 0) become 0. Negative
      counts are kept. */
  function StockValue(md: Metadata, size: string): (v: int)
    requires HasStock(md, size)
    ensures ParseInt(md[StockKey(size)]).Int? ==> v == ParseInt(md[StockKey(size)]).n
    ensures ParseInt(md[StockKey(size)]).NaN? ==> v == 0
  {
    match ParseInt(md[StockKey(size)])
    case Int(n) => n
    case NaN => 0
  }

  /** The `inventory` object after the `forEach` over the declared sizes has
      visited `sizes`. */
  function InventoryOf(md: Metadata, sizes: seq<string>): Entries<int> {
    if |sizes| == 0 then []
    else
      var inv := InventoryOf(md, sizes[..|sizes| - 1]);
      var t := Trim(sizes[|sizes| - 1]);
      if HasStock(md, t) then Put(inv, t, StockValue(md, t)) else inv
  }

  /** Lines 92-98: the `forEach` that fills `inventory`. */
  method DecodeInventory(md: Metadata, sizes: seq<string>) returns (inventory: Entries<int>)
    ensures inventory == InventoryOf(md, sizes)
  {
    inventory := [];
    for i := 0 to |sizes|
      invariant inventory == InventoryOf(md, sizes[..i])
    {
      assert sizes[..i + 1][..i] == sizes[..i];
      var t := Trim(sizes[i]);
      if HasStock(md, t) {
        inventory := Put(inventory, t, StockValue(md, t));
      }
    }
    assert sizes[..|sizes|] == sizes;
  }

  /** Some declared size trims to `t`. */
  predicate Declares(sizes: seq<string>, t: string) {
    exists i :: 0 <= i < |sizes| && Trim(sizes[i]) == t
  }

  lemma DeclaresSnoc(sizes: seq<string>, t: string)
    requires |sizes| > 0
    ensures Declares(sizes, t) <==> Declares(sizes[..|sizes| - 1], t) || Trim(sizes[|sizes| - 1]) == t
  {
    var init := sizes[..|sizes| - 1];
    if Declares(sizes, t) {
      var i :| 0 <= i < |sizes| && Trim(sizes[i]) == t;
      if i < |init| {
        assert init[i] == sizes[i];
      }
    }
    if Declares(init, t) {
      var i :| 0 <= i < |init| && Trim(init[i]) == t;
      assert sizes[i] == init[i];
    }
  }

  /** The decoded inventory has an entry for a name exactly when it is the
      trimmed form of some declared size and its stock key holds a non-empty
      value, and that entry is the parsed count (0 when not numeric). */
  lemma {:induction false} InventoryGet(md: Metadata, sizes: seq<string>, t: string)
    ensures Get(InventoryOf(md, sizes), t) ==
      if Declares(sizes, t) && HasStock(md, t) then Some(StockValue(md, t)) else None
  {
    if |sizes| > 0 {
      var init := sizes[..|sizes| - 1];
      var u := Trim(sizes[|sizes| - 1]);
      InventoryGet(md, init, t);
      DeclaresSnoc(sizes, t);
      if HasStock(md, u) {
        PutGet(InventoryOf(md, init), u, StockValue(md, u), t);
      }
    }
  }

  /** No name occurs twice in the decoded inventory. */
  lemma {:induction false} InventoryDistinct(md: Metadata, sizes: seq<string>)
    ensures DistinctKeys(InventoryOf(md, sizes))
  {
    if |sizes| > 0 {
      var init := sizes[..|sizes| - 1];
      var u := Trim(sizes[|sizes| - 1]);
      InventoryDistinct(md, init);
      if HasStock(md, u) {
        PutDistinct(InventoryOf(md, init), u, StockValue(md, u));
      }
    }
  }

  // ---------------------------------------------------------------- products

  /** `product.images` if it has any, else the local images, else []. */
  function ProductImages(p: StripeProduct): seq<string> {
    if p.images.Some? && |p.images.value| > 0 then p.images.value
    else if p.id in LocalProductImages() && LocalProductImages()[p.id].images.Some? then
      LocalProductImages()[p.id].images.value
    else []
  }

  /** `productImages[0] || placeholder`. */
  function MainImage(images: seq<string>): string {
    if |images| > 0 && Truthy(images[0]) then images[0] else Placeholder
  }

  /** `Object.keys(inventory).length > 0 ? inventory : undefined`. */
  function PresentInventory(inventory: Entries<int>): Option<Entries<int>> {
    if |inventory| > 0 then Some(inventory) else None
  }

  /** The `products.data.map` callback (lines 86-130). */
  function Normalized(p: StripeProduct): CatalogProduct {
    var md := p.metadata.GetOr(map[]);
    var sizes := SplitField(p, "sizes");
    var images := ProductImages(p);
    CatalogProduct(
      p.id,
      p.id,
      if p.defaultPrice.Some? && Truthy(p.defaultPrice.value.id) then Some(p.defaultPrice.value.id) else None,
      p.name,
      if p.defaultPrice.Some? then p.defaultPrice.value.unitAmount else 0,
      OrElse(p.description, ""),
      MainImage(images),
      images,
      OrElse(MetaField(p, "category"), "art"),
      sizes,
      SplitField(p, "colors"),
      OrElse(MetaField(p, "details"), ""),
      PresentInventory(InventoryOf(md, sizes)),
      if p.id in LocalProductImages() then LocalProductImages()[p.id].sizeChart else None,
      md)
  }

  /** The same callback, with the inventory decoded by its loop. */
  method NormalizeProduct(p: StripeProduct) returns (r: CatalogProduct)
    ensures r == Normalized(p)
  {
    var md := p.metadata.GetOr(map[]);
    var sizes := SplitField(p, "sizes");
    var inventory := DecodeInventory(md, sizes);
    var images := ProductImages(p);
    r := CatalogProduct(
      p.id,
      p.id,
      if p.defaultPrice.Some? && Truthy(p.defaultPrice.value.id) then Some(p.defaultPrice.value.id) else None,
      p.name,
      if p.defaultPrice.Some? then p.defaultPrice.value.unitAmount else 0,
      OrElse(p.description, ""),
      MainImage(images),
      images,
      OrElse(MetaField(p, "category"), "art"),
      sizes,
      SplitField(p, "colors"),
      OrElse(MetaField(p, "details"), ""),
      PresentInventory(inventory),
      if p.id in LocalProductImages() then LocalProductImages()[p.id].sizeChart else None,
      md);
  }

  /** Identity and price: both ids are the Stripe id, the price is the default
      price's amount (0 without one), and the price id is reported only when
      there is a default price with a non-empty id. */
  lemma NormalizedIdentityAndPrice(p: StripeProduct)
    ensures var r := Normalized(p);
      && r.id == p.id && r.stripeProductId == p.id && r.title == p.name
      && (p.defaultPrice.None? ==> r.price == 0 && r.stripePriceId.None?)
      && (p.defaultPrice.Some? ==> r.price == p.defaultPrice.value.unitAmount)
      && (r.stripePriceId.Some? <==> p.defaultPrice.Some? && p.defaultPrice.value.id != "")
  {
  }

  /** The returned `sizes` is the raw split of the `sizes` metadata: joining it
      back with commas gives the metadata value, so no piece is trimmed or
      dropped. */
  lemma NormalizedSizesAreRaw(p: StripeProduct)
    ensures var r := Normalized(p);
      && (MetaField(p, "sizes").Some? && MetaField(p, "sizes").value != "" ==>
            |r.sizes| >= 1 && Join(r.sizes, ',') == MetaField(p, "sizes").value)
      && (MetaField(p, "sizes").None? || MetaField(p, "sizes").value == "" ==> r.sizes == [])
  {
    if MetaField(p, "sizes").Some? && MetaField(p, "sizes").value != "" {
      JoinSplit(MetaField(p, "sizes").value, ',');
    }
  }

  /** `inventory` is absent exactly when no declared size has a non-empty
      stock key; when present it maps each trimmed declared size that has one
      to its parsed count. */
  lemma NormalizedInventory(p: StripeProduct, t: string)
    ensures var r := Normalized(p);
      var md := p.metadata.GetOr(map[]);
      && (r.inventory.None? <==> forall i :: 0 <= i < |r.sizes| ==> !HasStock(md, Trim(r.sizes[i])))
      && (r.inventory.Some? ==>
            DistinctKeys(r.inventory.value) &&
            (Get(r.inventory.value, t).Some? <==>
               Declares(r.sizes, t) && HasStock(md, t)) &&
            (Get(r.inventory.value, t).Some? ==> Get(r.inventory.value, t).value == StockValue(md, t)))
  {
    var r := Normalized(p);
    var md := p.metadata.GetOr(map[]);
    var inv := InventoryOf(md, r.sizes);
    InventoryGet(md, r.sizes, t);
    InventoryDistinct(md, r.sizes);
    if |inv| > 0 {
      InventoryGet(md, r.sizes, inv[0].0);
      assert inv[0].0 in Keys(inv);
    } else {
      forall i | 0 <= i < |r.sizes| ensures !HasStock(md, Trim(r.sizes[i])) {
        InventoryGet(md, r.sizes, Trim(r.sizes[i]));
      }
    }
  }

  /** The images are the Stripe images when there are any, else the local
      ones, else none; the main image is the first image when that is
      non-empty, and the placeholder otherwise, so it is always one of the
      images or the placeholder. */
  lemma NormalizedImages(p: StripeProduct)
    ensures var r := Normalized(p);
      && (p.images.Some? && |p.images.value| > 0 ==> r.images == p.images.value)
      && (r.image in r.images || r.image == Placeholder)
      && (r.images == [] ==> r.image == Placeholder)
      && (|r.images| > 0 && r.images[0] != "" ==> r.image == r.images[0])
  {
  }

  /** Missing metadata falls back to category `art`, no colours and empty
      details; a missing description becomes "". */
  lemma NormalizedDefaults(p: StripeProduct)
    ensures var r := Normalized(p);
      && (p.metadata.None? ==> r.mainCategory == "art" && r.colors == [] && r.details == "" &&
                                r.sizes == [] && r.inventory.None? && r.metadata == map[])
      && (MetaField(p, "category").Some? && MetaField(p, "category").value != "" ==>
            r.mainCategory == MetaField(p, "category").value)
      && (p.description.None? ==> r.description == "")
  {
  }

  // ---------------------------------------------------------------- handler

  datatype Body =
    | ProductList(products: seq<CatalogProduct>)
    | Failure(error: string, fallback: Option<seq<CatalogProduct>>)

  datatype Response = Response(statusCode: int, body: Body)

  /** The handler (lines 53-158). `secretKey` is `STRIPE_SECRET_KEY` ("" when
      unset); `listing` is what `stripe.products.list` returns or the message of
      the error it throws. */
  function Handle(httpMethod: string, secretKey: string,
                  listing: Result<seq<StripeProduct>, string>): Response {
    if httpMethod != "GET" then Response(405, Failure("Method not allowed", None))
    else if !Truthy(secretKey) then Response(503, Failure("Stripe is not configured", Some([])))
    else match listing
      case Err(message) => Response(500, Failure(OrElse(Some(message), "Failed to fetch products"), Some([])))
      case Ok(data) => Response(200, ProductList(seq(|data|, i requires 0 <= i < |data| => Normalized(data[i]))))
  }

  method HandleRequest(httpMethod: string, secretKey: string,
                       listing: Result<seq<StripeProduct>, string>) returns (resp: Response)
    ensures resp == Handle(httpMethod, secretKey, listing)
  {
    if httpMethod != "GET" {
      return Response(405, Failure("Method not allowed", None));
    }
    if !Truthy(secretKey) {
      return Response(503, Failure("Stripe is not configured", Some([])));
    }
    if listing.Err? {
      return Response(500, Failure(OrElse(Some(listing.error), "Failed to fetch products"), Some([])));
    }
    var data := listing.value;
    var products: seq<CatalogProduct> := [];
    for i := 0 to |data|
      invariant |products| == i
      invariant forall j :: 0 <= j < i ==> products[j] == Normalized(data[j])
    {
      var r := NormalizeProduct(data[i]);
      products := products + [r];
    }
    assert products == seq(|data|, i requires 0 <= i < |data| => Normalized(data[i]));
    resp := Response(200, ProductList(products));
  }

  /** A non-GET request gets 405; a missing secret key 503 and an upstream
      error 500, both with an empty product list; otherwise 200 with exactly
      one normalised product per Stripe record, in the same order, each
      carrying its record's id. */
  lemma HandleOutcomes(httpMethod: string, secretKey: string,
                       listing: Result<seq<StripeProduct>, string>)
    ensures var resp := Handle(httpMethod, secretKey, listing);
      && (resp.statusCode == 405 <==> httpMethod != "GET")
      && (resp.statusCode == 503 <==> httpMethod == "GET" && secretKey == "")
      && (resp.statusCode == 500 <==> httpMethod == "GET" && secretKey != "" && listing.Err?)
      && (resp.statusCode in {500, 503} ==> resp.body.Failure? && resp.body.fallback == Some([]))
      && (resp.statusCode == 200 ==>
            listing.Ok? && resp.body.ProductList? && |resp.body.products| == |listing.value| &&
            forall i :: 0 <= i < |listing.value| ==>
              resp.body.products[i] == Normalized(listing.value[i]) &&
              resp.body.products[i].id == listing.value[i].id)
  {
  }
}
