/** The checkout page's "pay" action (frontend/src/store/pages/Checkout.tsx,
    `handleCheckout`): it refuses an empty cart, turns the cart into Stripe
    line items, posts them to the checkout-session function, and either
    redirects to the URL it gets back or shows an error. The network and
    `JSON.parse` are parameters: `respond` is what the post yields, `parse` the
    parsed response text (None when it does not parse). */
module CheckoutPage {
  import opened Wrappers
  import opened JsObject
  import opened JsonValue
  import opened Fetch
  import Js
  import StoreTypes
  import CheckoutSession

  /** A cart entry as the page reads it: the declared cart-item fields, plus
      the `stripePriceId` that some entries carry without the type saying so. */
  datatype CheckoutItem = CheckoutItem(item: StoreTypes.CartItem, stripePriceId: Option<string>)

  /** `product_data`; the optional parts are absent rather than empty. */
  datatype ProductData = ProductData(name: string, description: Option<string>, images: Option<seq<string>>)

  /** A line item as the page builds it. Amounts are in cents. */
  datatype ClientLineItem =
    | PriceLine(price: string, quantity: int)
    | DataLine(currency: string, productData: ProductData, unitAmount: int, quantity: int)

  /** The body posted to the checkout-session function. */
  datatype ClientRequest = ClientRequest(items: seq<ClientLineItem>, successUrl: string, cancelUrl: string)

  const CartEmpty := "Your cart is empty"
  const NotConfigured := "Stripe checkout is not yet configured. Payment processing is currently unavailable."
  const NoUrl := "No checkout URL received from server"
  const DevOrigin := "http://localhost:5173"

  // ---------------------------------------------------------------- line items

  predicate IsHttpUrl(s: string) {
    Js.StartsWith(s, "http://") || Js.StartsWith(s, "https://")
  }

  /** An image path made absolute against the page's origin: a root-relative
      path is appended to the origin, an http(s) URL is kept, and anything else
      is appended after a `/`. */
  function AbsoluteUrl(origin: string, url: string): string {
    if Js.StartsWith(url, "/") then origin + url
    else if !IsHttpUrl(url) then origin + "/" + url
    else url
  }

  /** A prefix of `a` is a prefix of `a + b`. */
  lemma StartsWithAppend(a: string, b: string, prefix: string)
    requires Js.StartsWith(a, prefix)
    ensures Js.StartsWith(a + b, prefix)
  {
    assert (a + b)[..|prefix|] == a[..|prefix|];
  }

  /** On a page served over http(s) every image URL comes out absolute, and
      the original path survives as its tail. */
  lemma AbsoluteUrlIsAbsolute(origin: string, url: string)
    requires IsHttpUrl(origin)
    ensures IsHttpUrl(AbsoluteUrl(origin, url))
    ensures var r := AbsoluteUrl(origin, url);
      |url| <= |r| && r[|r| - |url|..] == url
  {
    var r := AbsoluteUrl(origin, url);
    if Js.StartsWith(url, "/") || !IsHttpUrl(url) {
      var head := if Js.StartsWith(url, "/") then origin else origin + "/";
      assert r == head + url;
      if Js.StartsWith(origin, "http://") {
        StartsWithAppend(origin, r[|origin|..], "http://");
        assert origin + r[|origin|..] == r;
      } else {
        StartsWithAppend(origin, r[|origin|..], "https://");
        assert origin + r[|origin|..] == r;
      }
    }
  }

  /** Making a URL absolute twice changes nothing. */
  lemma AbsoluteUrlIdempotent(origin: string, url: string)
    requires IsHttpUrl(origin)
    ensures AbsoluteUrl(origin, AbsoluteUrl(origin, url)) == AbsoluteUrl(origin, url)
  {
    var r := AbsoluteUrl(origin, url);
    AbsoluteUrlIsAbsolute(origin, url);
    assert !Js.StartsWith(r, "/") by {
      if Js.StartsWith(r, "http://") {
        assert r[0] == 'h';
      } else {
        assert r[0] == 'h';
      }
    }
  }

  /** The callback of `items.map`: a truthy `stripePriceId` gives a price
      reference; otherwise price data with the title, the description only when
      it is not blank (sent untrimmed), and the image only when there is one. */
  function ToClientLineItem(origin: string, ci: CheckoutItem): ClientLineItem {
    var item := ci.item;
    if ci.stripePriceId.Some? && ci.stripePriceId.value != "" then
      PriceLine(ci.stripePriceId.value, item.quantity)
    else
      DataLine(
        "usd",
        ProductData(
          item.title,
          if Js.Trim(item.description) != "" then Some(item.description) else None,
          if item.image != "" then Some([AbsoluteUrl(origin, item.image)]) else None),
        item.price,
        item.quantity)
  }

  function LineItemsFor(origin: string, items: seq<CheckoutItem>): (r: seq<ClientLineItem>)
    ensures |r| == |items|
    ensures forall i :: 0 <= i < |items| ==> r[i] == ToClientLineItem(origin, items[i])
  {
    if |items| == 0 then [] else [ToClientLineItem(origin, items[0])] + LineItemsFor(origin, items[1..])
  }

  /** What each cart entry becomes: a price reference when it has a price id,
      carrying only the id and the quantity; otherwise US-dollar price data for
      its title and price, with the quantity copied, the description present
      exactly when it is not blank and then untrimmed, and one absolute image
      URL exactly when the entry has an image. */
  lemma ClientLineItemShape(origin: string, ci: CheckoutItem)
    ensures var li := ToClientLineItem(origin, ci);
      && (li.PriceLine? <==> ci.stripePriceId.Some? && ci.stripePriceId.value != "")
      && (li.PriceLine? ==> li == PriceLine(ci.stripePriceId.value, ci.item.quantity))
    ensures var li := ToClientLineItem(origin, ci);
      li.DataLine? ==>
        && li.currency == "usd" && li.unitAmount == ci.item.price && li.quantity == ci.item.quantity
        && li.productData.name == ci.item.title
        && (li.productData.description.Some? <==> Js.Trim(ci.item.description) != "")
        && (li.productData.description.Some? ==> li.productData.description.value == ci.item.description)
        && (li.productData.images.Some? <==> ci.item.image != "")
        && (li.productData.images.Some? ==> |li.productData.images.value| == 1)
  {
  }

  /** The page's origin, or the development server's when it has none. */
  function SiteOrigin(origin: string): string {
    if origin != "" then origin else DevOrigin
  }

  function RequestFor(origin: string, items: seq<CheckoutItem>): ClientRequest {
    ClientRequest(
      LineItemsFor(origin, items),
      SiteOrigin(origin) + "/checkout/success?session_id={CHECKOUT_SESSION_ID}",
      SiteOrigin(origin) + "/checkout")
  }

  // ---------------------------------------------------------------- JSON

  function ProductDataJson(pd: ProductData): Json {
    Obj([("name", Str(pd.name))]
      + (if pd.description.Some? then [("description", Str(pd.description.value))] else [])
      + (if pd.images.Some? then [("images", Arr(StrArray(pd.images.value)))] else []))
  }

  function StrArray(ss: seq<string>): (r: seq<Json>)
    ensures |r| == |ss|
    ensures forall i :: 0 <= i < |ss| ==> r[i] == Str(ss[i])
  {
    if |ss| == 0 then [] else [Str(ss[0])] + StrArray(ss[1..])
  }

  /** The `price_data` object of a data line. */
  function PriceDataJson(li: ClientLineItem): Json
    requires li.DataLine?
  {
    Obj([("currency", Str(li.currency)), ("product_data", ProductDataJson(li.productData)),
         ("unit_amount", Num(li.unitAmount as real))])
  }

  /** `JSON.stringify` of one line item, key order as written. */
  function LineItemJson(li: ClientLineItem): Json {
    match li
    case PriceLine(p, q) => Obj([("price", Str(p)), ("quantity", Num(q as real))])
    case DataLine(_, _, _, q) => Obj([("price_data", PriceDataJson(li)), ("quantity", Num(q as real))])
  }

  function LineItemsJson(items: seq<ClientLineItem>): (r: seq<Json>)
    ensures |r| == |items|
    ensures forall i :: 0 <= i < |items| ==> r[i] == LineItemJson(items[i])
  {
    if |items| == 0 then [] else [LineItemJson(items[0])] + LineItemsJson(items[1..])
  }

  function RequestJson(req: ClientRequest): Json {
    Obj([("items", Arr(LineItemsJson(req.items))), ("successUrl", Str(req.successUrl)),
         ("cancelUrl", Str(req.cancelUrl))])
  }

  /** How the checkout-session function reads a line item the page sent: a
      price id it recognises, or the page's price data passed on as is. */
  function ServerView(li: ClientLineItem): CheckoutSession.LineItem {
    var q := if li.quantity != 0 then Num(li.quantity as real) else Num(1.0);
    match li
    case PriceLine(p, _) => CheckoutSession.PriceRef(p, q)
    case DataLine(_, _, _, _) => CheckoutSession.PassThrough(PriceDataJson(li), q)
  }

  /** The two halves agree: the function reads every line item the page builds
      as the page meant it — the same price id, or the same price data — as
      long as price ids start with `price_`; a quantity of 0 becomes 1. */
  lemma ServerReadsClientLineItem(li: ClientLineItem)
    requires li.PriceLine? ==> Js.StartsWith(li.price, "price_")
    ensures CheckoutSession.ToLineItem(LineItemJson(li)) == ServerView(li)
  {
    var e := LineItemJson(li).fields;
    GetAt(e, "quantity", 1);
    if li.PriceLine? {
      assert li.price != "" by {
        assert |li.price| >= |"price_"|;
      }
      GetAt(e, "price", 0);
    } else {
      GetAbsent(e, "price");
      GetAt(e, "price_data", 0);
    }
  }

  /** A price id the function does not recognise is not read as one: the item
      falls through to built price data with no name and no image. */
  lemma ServerMisreadsForeignPriceId(p: string, q: int)
    requires p != "" && !Js.StartsWith(p, "price_")
    ensures var li := CheckoutSession.ToLineItem(LineItemJson(PriceLine(p, q)));
      li.Synthesized? && li.name == None && li.images == []
  {
    var e := LineItemJson(PriceLine(p, q)).fields;
    GetAt(e, "price", 0);
    GetAbsent(e, "price_data");
    GetAbsent(e, "title");
    GetAbsent(e, "name");
    GetAbsent(e, "image");
  }

  /** The posted body carries the line items and both return URLs. */
  lemma RequestJsonFields(req: ClientRequest)
    ensures Prop(RequestJson(req), "items") == Some(Arr(LineItemsJson(req.items)))
    ensures Prop(RequestJson(req), "successUrl") == Some(Str(req.successUrl))
    ensures Prop(RequestJson(req), "cancelUrl") == Some(Str(req.cancelUrl))
  {
    var e := RequestJson(req).fields;
    GetAt(e, "items", 0);
    GetAt(e, "successUrl", 1);
    GetAt(e, "cancelUrl", 2);
  }

  /** How the function reads a whole list of the page's line items. */
  function ServerViews(items: seq<ClientLineItem>): (r: seq<CheckoutSession.LineItem>)
    ensures |r| == |items|
    ensures forall i :: 0 <= i < |items| ==> r[i] == ServerView(items[i])
  {
    if |items| == 0 then [] else [ServerView(items[0])] + ServerViews(items[1..])
  }

  /** Every price id starts with `price_`. */
  predicate PriceIdsRecognised(items: seq<ClientLineItem>) {
    forall i :: 0 <= i < |items| ==> items[i].PriceLine? ==> Js.StartsWith(items[i].price, "price_")
  }

  /** The function maps the page's whole list, item by item, to what the page
      meant. */
  lemma {:induction false} ServerReadsClientLineItems(items: seq<ClientLineItem>)
    requires PriceIdsRecognised(items)
    ensures CheckoutSession.LineItems(LineItemsJson(items)) == Ok(ServerViews(items))
  {
    if |items| > 0 {
      ServerReadsClientLineItems(items[1..]);
      ServerReadsClientLineItem(items[0]);
      assert LineItemsJson(items)[1..] == LineItemsJson(items[1..]);
      assert ServerViews(items)[1..] == ServerViews(items[1..]);
    }
  }

  /** A price id on a cart entry is the page's price id. */
  lemma PriceIdsFromCart(origin: string, items: seq<CheckoutItem>)
    requires forall i :: 0 <= i < |items| ==>
      items[i].stripePriceId.Some? ==> Js.StartsWith(items[i].stripePriceId.value, "price_")
    ensures PriceIdsRecognised(LineItemsFor(origin, items))
  {
  }

  /** A configured function accepts any non-empty request the page can post
      whose price ids start with `price_`: it asks Stripe for a session with
      the page's line items, as the page meant them, and its return URLs. */
  lemma ServerAcceptsRequest(req: ClientRequest, secretKey: string,
                             create: CheckoutSession.SessionRequest -> Result<Option<string>, string>)
    requires |req.items| > 0 && secretKey != "" && PriceIdsRecognised(req.items)
    ensures CheckoutSession.Handle("POST", secretKey, Ok(RequestJson(req)), create).session ==
      Some(CheckoutSession.SessionFor(ServerViews(req.items), Some(Str(req.successUrl)), Some(Str(req.cancelUrl))))
  {
    RequestJsonFields(req);
    ServerReadsClientLineItems(req.items);
    CheckoutSession.HandleAccepted(secretKey, RequestJson(req), LineItemsJson(req.items),
                                   ServerViews(req.items), create);
  }

  /** End to end: for a non-empty cart whose price ids all start with `price_`,
      what the page posts makes a configured function ask Stripe for a
      card-payment session with exactly the page's line items, in order, and
      the page's return URLs. */
  lemma CheckoutReachesStripe(origin: string, items: seq<CheckoutItem>, secretKey: string,
                              create: CheckoutSession.SessionRequest -> Result<Option<string>, string>)
    requires |items| > 0 && secretKey != ""
    requires forall i :: 0 <= i < |items| ==>
      items[i].stripePriceId.Some? ==> Js.StartsWith(items[i].stripePriceId.value, "price_")
    ensures var req := RequestFor(origin, items);
      CheckoutSession.Handle("POST", secretKey, Ok(RequestJson(req)), create).session ==
        Some(CheckoutSession.SessionFor(ServerViews(req.items), Some(Str(req.successUrl)), Some(Str(req.cancelUrl))))
  {
    PriceIdsFromCart(origin, items);
    ServerAcceptsRequest(RequestFor(origin, items), secretKey, create);
  }

  // ---------------------------------------------------------------- response

  /** `new Error(v)` caught and shown as `err.message || NotConfigured`. */
  function ThrownMessage(v: Json): Message {
    if v.Str? && v.s != "" then Text(v.s)
    else if ShowsEmpty(v) then Text(NotConfigured)
    else StringOf(v)
  }

  /** `data?.k`. */
  function Field(data: Json, k: string): Value {
    if data.Null? then None else Prop(data, k)
  }

  /** How one response ends: a redirect to the URL, or an error to show. */
  datatype Settlement = Redirect(url: Json) | Failed(message: Message)

  function Settle(r: FetchResult, parse: string -> Option<Json>): Settlement {
    match r
    case Threw(m) => Failed(Text(if m != "" then m else NotConfigured))
    case Received(status, text) =>
      if text == "" then Failed(Text(NotConfigured))
      else if parse(text).None? then
        Failed(Text("Invalid response from server: " + text[..if |text| < 100 then |text| else 100]))
      else
        var data := parse(text).value;
        if !IsOk(status) then
          var chosen := Or(Or(Field(data, "error"), Field(data, "message")),
                           Some(Str("Server error (" + Js.ShowInt(status) + ")")));
          Failed(ThrownMessage(if chosen.Some? then chosen.value else Null))
        else if data.Null? then Failed(Text("Cannot read properties of null (reading 'url')"))
        else if Truthy(Prop(data, "url")) then Redirect(Prop(data, "url").value)
        else Failed(Text(NoUrl))
  }

  /** The error each failing response shows: the not-configured message for an
      empty body, the first 100 characters of an unparsable one, the server's
      `error`, else its `message`, else the status for a non-2xx answer, and
      the missing-URL message when a 2xx answer has no URL. Only a 2xx answer
      with a URL redirects. */
  lemma SettleMessages(r: FetchResult, parse: string -> Option<Json>)
    ensures r.Received? && r.text == "" ==> Settle(r, parse) == Failed(Text(NotConfigured))
    ensures r.Received? && r.text != "" && parse(r.text).None? ==>
      && Settle(r, parse).Failed? && Settle(r, parse).message.Text?
      && var m := Settle(r, parse).message.s;
         m[..30] == "Invalid response from server: " && |m| - 30 <= 100 && Js.StartsWith(r.text, m[30..])
    ensures Settle(r, parse).Redirect? <==>
      && r.Received? && r.text != "" && parse(r.text).Some? && IsOk(r.status)
      && !parse(r.text).value.Null? && Truthy(Prop(parse(r.text).value, "url"))
    ensures r.Received? && r.text != "" && parse(r.text).Some? && !(IsOk(r.status)) ==>
      var data := parse(r.text).value;
      Settle(r, parse) == Failed(
        if Truthy(Field(data, "error")) then ThrownMessage(Field(data, "error").value)
        else if Truthy(Field(data, "message")) then ThrownMessage(Field(data, "message").value)
        else Text("Server error (" + Js.ShowInt(r.status) + ")"))
  {
    if r.Received? && r.text != "" && parse(r.text).None? {
      var k := if |r.text| < 100 then |r.text| else 100;
      var m := "Invalid response from server: " + r.text[..k];
      assert m[30..] == r.text[..k];
    }
  }

  /** A shown message is never empty text: every failure tells the shopper
      something. */
  lemma SettleMessageNonEmpty(r: FetchResult, parse: string -> Option<Json>)
    ensures Settle(r, parse).Failed? && Settle(r, parse).message.Text? ==> Settle(r, parse).message.s != ""
  {
  }

  // ---------------------------------------------------------------- page

  class Checkout {
    /** The cart, which this page only reads. */
    var items: seq<CheckoutItem>
    var loading: bool
    var error: Option<Message>
    /** Where `window.location.href` was sent, if anywhere. */
    var location: Option<Json>
    /** Every request posted to the checkout-session function. */
    var posted: seq<ClientRequest>

    constructor(cart: seq<CheckoutItem>)
      ensures items == cart && !loading && error == None && location == None && posted == []
    {
      items := cart;
      loading := false;
      error := None;
      location := None;
      posted := [];
    }

    /** `handleCheckout`. An empty cart only sets the error. Otherwise the page
        starts loading, clears the error, posts the cart's line items, and then
        either redirects (still loading) or shows the error and stops loading.
        The cart is never changed. */
    method HandleCheckout(origin: string, respond: ClientRequest -> FetchResult,
                          parse: string -> Option<Json>)
      modifies this
      ensures items == old(items)
      ensures |items| == 0 ==>
        && error == Some(Text(CartEmpty)) && loading == old(loading)
        && location == old(location) && posted == old(posted)
      ensures |items| > 0 ==>
        var request := RequestFor(origin, items);
        && posted == old(posted) + [request]
        && match Settle(respond(request), parse)
           case Redirect(url) => loading && error == None && location == Some(url)
           case Failed(m) => !loading && error == Some(m) && location == old(location)
    {
      if |items| == 0 {
        error := Some(Text(CartEmpty));
        return;
      }
      loading := true;
      error := None;
      var request := ClientRequest(
        LineItemsFor(origin, items),
        SiteOrigin(origin) + "/checkout/success?session_id={CHECKOUT_SESSION_ID}",
        SiteOrigin(origin) + "/checkout");
      posted := posted + [request];
      var settled := Settle(respond(request), parse);
      match settled {
        case Redirect(url) =>
          location := Some(url);
        case Failed(m) =>
          error := Some(m);
          loading := false;
      }
    }
  }
}
