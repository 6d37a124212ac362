/** The serverless function that creates a Stripe Checkout session for a cart
    (netlify/functions/create-checkout-session.js). It validates the request,
    turns every posted item into a Stripe line item, asks Stripe for a
    session and answers with the session's URL. Stripe itself is a parameter:
    `create` maps the session request to the URL Stripe returns, or to the
    message of the error it throws. */
module CheckoutSession {
  import opened Wrappers
  import opened JsonValue
  import Js

  /** One line item as handed to Stripe. */
  datatype LineItem =
      /** `{price, quantity}`: a reference to a price kept by Stripe. */
    | PriceRef(price: string, quantity: Json)
      /** `{price_data, quantity}` with the posted `price_data` as is. */
    | PassThrough(priceData: Json, quantity: Json)
      /** `{price_data: {currency, product_data: {name, description, images},
          unit_amount}, quantity}` built from loose item fields; `amount` is the
          price in dollars that `unit_amount` is computed from. */
    | Synthesized(currency: string, name: Value, description: Value, images: seq<Json>,
                  amount: Json, quantity: Json)
  {
    /** `unit_amount: Math.round(amount * 100)`. */
    function UnitAmount(): Js.Number
      requires Synthesized?
    {
      Cents(amount)
    }

    function Quantity(): Json {
      match this
      case PriceRef(_, q) => q
      case PassThrough(_, q) => q
      case Synthesized(_, _, _, _, _, q) => q
    }
  }

  /** The message JavaScript throws when an item is `null`. */
  const NullItemError := "Cannot read properties of null (reading 'price')"
  /** The message JavaScript throws when the body parses to `null`. */
  const NullBodyError := "Cannot destructure property 'items' of 'JSON.parse(...)' as it is null."

  /** `item.quantity || 1`. */
  function QuantityOf(item: Json): Json {
    var q := Prop(item, "quantity");
    if Truthy(q) then q.value else Num(1.0)
  }

  /** `item.price` is a non-empty string starting with `price_`. */
  predicate IsPriceId(price: Value) {
    price.Some? && price.value.Str? && price.value.s != "" && Js.StartsWith(price.value.s, "price_")
  }

  /** `item.unit_amount || item.price || 0`: the amount an item without
      price data is charged, in dollars. */
  function LooseAmount(item: Json): Json {
    var amount := Or(Or(Prop(item, "unit_amount"), Prop(item, "price")), Some(Num(0.0)));
    if amount.Some? then amount.value else Num(0.0)
  }

  /** The callback of `items.map` on an item that is not `null`. */
  function ToLineItem(item: Json): LineItem
    requires !item.Null?
  {
    var price := Prop(item, "price");
    var priceData := Prop(item, "price_data");
    var image := Prop(item, "image");
    if IsPriceId(price) then PriceRef(price.value.s, QuantityOf(item))
    else if Truthy(priceData) then PassThrough(priceData.value, QuantityOf(item))
    else Synthesized(
      "usd",
      Or(Prop(item, "title"), Prop(item, "name")),
      Prop(item, "description"),
      if Truthy(image) then [image.value] else [],
      LooseAmount(item),
      QuantityOf(item))
  }

  /** No posted item is `null`. */
  predicate NoNullItems(items: seq<Json>) {
    forall i :: 0 <= i < |items| ==> !items[i].Null?
  }

  /** `items.map(...)`: one line item per posted item, in the same order.
      Reading a field of a `null` item throws, so a `null` anywhere means no
      line items at all. */
  function LineItems(items: seq<Json>): (r: Result<seq<LineItem>, string>)
    ensures r.Ok? <==> NoNullItems(items)
    ensures r.Ok? ==> |r.value| == |items|
    ensures r.Ok? ==> forall i :: 0 <= i < |items| ==> r.value[i] == ToLineItem(items[i])
    ensures r.Err? ==> r.error == NullItemError
  {
    if |items| == 0 then Ok([])
    else if items[0].Null? then Err(NullItemError)
    else
      var rest := LineItems(items[1..]);
      if rest.Err? then rest
      else
        assert forall i :: 1 <= i < |items| ==> items[i] == items[1..][i - 1];
        Ok([ToLineItem(items[0])] + rest.value)
  }

  /** The arguments of `stripe.checkout.sessions.create`. */
  datatype SessionRequest = SessionRequest(
    paymentMethodTypes: seq<string>,
    lineItems: seq<LineItem>,
    mode: string,
    successUrl: Value,
    cancelUrl: Value,
    allowedCountries: seq<string>,
    billingAddressCollection: string)

  function SessionFor(lineItems: seq<LineItem>, successUrl: Value, cancelUrl: Value): SessionRequest {
    SessionRequest(["card"], lineItems, "payment", successUrl, cancelUrl, ["US", "CA"], "required")
  }

  /** Response bodies. */
  datatype Body =
    | ErrorBody(error: string)
    | NotConfiguredBody(error: string, message: string)
    | UrlBody(url: Option<string>)

  datatype Response = Response(statusCode: int, body: Body)

  /** What one invocation answers, and the session it asked Stripe for. */
  datatype Outcome = Outcome(response: Response, session: Option<SessionRequest>)

  const NotConfigured := "Stripe checkout is not yet configured. Payment processing is currently unavailable."
  const NotConfiguredHint := "Please set STRIPE_SECRET_KEY environment variable in Netlify dashboard."

  /** The `catch` branch: `error.message || "Failed to create checkout session"`. */
  function Failure(message: string): Response {
    Response(500, ErrorBody(if message != "" then message else "Failed to create checkout session"))
  }

  /** `items` is present, an array, and not empty. */
  predicate ValidItems(items: Value) {
    Truthy(items) && items.value.Arr? && |items.value.elems| > 0
  }

  /** The handler. `body` is what `JSON.parse(event.body)` yields, or the
      message of the syntax error it throws; `secretKey` is "" when
      STRIPE_SECRET_KEY is unset. */
  function Handle(httpMethod: string, secretKey: string, body: Result<Json, string>,
                  create: SessionRequest -> Result<Option<string>, string>): Outcome
  {
    if httpMethod != "POST" then
      Outcome(Response(405, ErrorBody("Method not allowed")), None)
    else if secretKey == "" then
      Outcome(Response(503, NotConfiguredBody(NotConfigured, NotConfiguredHint)), None)
    else if body.Err? then
      Outcome(Failure(body.error), None)
    else
      HandleRequest(body.value, create)
  }

  /** The `try` block once the body has parsed: destructuring `null` throws,
      invalid `items` get 400, and otherwise the line items go to Stripe. */
  function HandleRequest(request: Json, create: SessionRequest -> Result<Option<string>, string>): Outcome {
    if request.Null? then
      Outcome(Failure(NullBodyError), None)
    else
      var items := Prop(request, "items");
      if !ValidItems(items) then
        Outcome(Response(400, ErrorBody("Invalid items")), None)
      else
        var lineItems := LineItems(items.value.elems);
        if lineItems.Err? then Outcome(Failure(lineItems.error), None)
        else CreateSession(SessionFor(lineItems.value, Prop(request, "successUrl"), Prop(request, "cancelUrl")), create)
  }

  /** `stripe.checkout.sessions.create` and the answer built from it. */
  function CreateSession(session: SessionRequest, create: SessionRequest -> Result<Option<string>, string>): Outcome {
    match create(session)
    case Err(message) => Outcome(Failure(message), Some(session))
    case Ok(url) => Outcome(Response(200, UrlBody(url)), Some(session))
  }

  // ---------------------------------------------------------------- properties

  /** The method and configuration guards come first: a non-POST request gets
      405 and a POST without a secret key 503, whatever the body, and neither
      asks Stripe for anything. */
  lemma HandleGuards(httpMethod: string, secretKey: string, body: Result<Json, string>,
                     create: SessionRequest -> Result<Option<string>, string>)
    ensures var o := Handle(httpMethod, secretKey, body, create);
      && (o.response.statusCode == 405 <==> httpMethod != "POST")
      && (o.response.statusCode == 503 <==> httpMethod == "POST" && secretKey == "")
      && (httpMethod != "POST" || secretKey == "" ==> o.session == None)
  {
  }

  /** Missing, non-array or empty `items` get 400 "Invalid items" and no session;
      400 arises in no other way. */
  lemma HandleInvalidItems(httpMethod: string, secretKey: string, body: Result<Json, string>,
                           create: SessionRequest -> Result<Option<string>, string>)
    ensures var o := Handle(httpMethod, secretKey, body, create);
      o.response.statusCode == 400 <==>
        && httpMethod == "POST" && secretKey != ""
        && body.Ok? && !body.value.Null? && !ValidItems(Prop(body.value, "items"))
    ensures var o := Handle(httpMethod, secretKey, body, create);
      o.response.statusCode == 400 ==> o.response.body == ErrorBody("Invalid items") && o.session == None
  {
  }

  /** Stripe is asked for a session exactly when the request passes every guard
      and no item is `null`; the session always takes card payment in mode
      `payment`, ships to the US and Canada, requires a billing address, and
      has one line item per posted item, in order. */
  lemma HandleSession(httpMethod: string, secretKey: string, body: Result<Json, string>,
                      create: SessionRequest -> Result<Option<string>, string>)
    ensures var o := Handle(httpMethod, secretKey, body, create);
      o.session.Some? <==>
        && httpMethod == "POST" && secretKey != "" && body.Ok? && !body.value.Null?
        && ValidItems(Prop(body.value, "items"))
        && NoNullItems(Prop(body.value, "items").value.elems)
    ensures var o := Handle(httpMethod, secretKey, body, create);
      o.session.Some? ==>
        var s := o.session.value;
        var items := Prop(body.value, "items").value.elems;
        && s.paymentMethodTypes == ["card"] && s.mode == "payment"
        && s.allowedCountries == ["US", "CA"] && s.billingAddressCollection == "required"
        && s.successUrl == Prop(body.value, "successUrl") && s.cancelUrl == Prop(body.value, "cancelUrl")
        && |s.lineItems| == |items|
        && forall i :: 0 <= i < |items| ==> s.lineItems[i] == ToLineItem(items[i])
  {
  }

  /** A configured POST whose `items` are a non-empty array free of `null` asks
      Stripe for the session built from its line items and return URLs. */
  lemma HandleAccepted(secretKey: string, request: Json, elems: seq<Json>, lineItems: seq<LineItem>,
                       create: SessionRequest -> Result<Option<string>, string>)
    requires secretKey != "" && !request.Null? && Prop(request, "items") == Some(Arr(elems)) && |elems| > 0
    requires LineItems(elems) == Ok(lineItems)
    ensures Handle("POST", secretKey, Ok(request), create).session ==
      Some(SessionFor(lineItems, Prop(request, "successUrl"), Prop(request, "cancelUrl")))
  {
    assert ValidItems(Some(Arr(elems))) by {
      assert Truthy(Some(Arr(elems)));
    }
    assert HandleRequest(request, create) ==
      CreateSession(SessionFor(lineItems, Prop(request, "successUrl"), Prop(request, "cancelUrl")), create);
  }

  /** Every answer is one of 200, 400, 405, 500 and 503; 200 carries the URL
      Stripe returned, and a Stripe error becomes 500 with its message, or the
      default message when it has none. */
  lemma HandleStatus(httpMethod: string, secretKey: string, body: Result<Json, string>,
                     create: SessionRequest -> Result<Option<string>, string>)
    ensures var o := Handle(httpMethod, secretKey, body, create);
      o.response.statusCode in {200, 400, 405, 500, 503}
    ensures var o := Handle(httpMethod, secretKey, body, create);
      o.response.statusCode == 200 <==> o.session.Some? && create(o.session.value).Ok?
    ensures var o := Handle(httpMethod, secretKey, body, create);
      o.session.Some? ==> match create(o.session.value)
        case Ok(url) => o.response.body == UrlBody(url)
        case Err(m) => o.response == Failure(m)
    ensures Failure("").body == ErrorBody("Failed to create checkout session")
  {
  }

  /** Whatever branch an item takes, its quantity is the posted one when that
      is truthy and 1 otherwise, so Stripe never sees a falsy quantity. */
  lemma QuantityDefault(item: Json)
    requires !item.Null?
    ensures var q := ToLineItem(item).Quantity();
      && Truthy(Some(q))
      && (Truthy(Prop(item, "quantity")) ==> Some(q) == Prop(item, "quantity"))
      && (!Truthy(Prop(item, "quantity")) ==> q == Num(1.0))
  {
  }

  /** Which branch an item takes: a `price_…` string wins, then a truthy
      `price_data`, and everything else gets price data built on the spot. The
      first keeps the string, the second passes `price_data` on unchanged. */
  lemma LineItemBranches(item: Json)
    requires !item.Null?
    ensures var li := ToLineItem(item);
      && (li.PriceRef? <==> IsPriceId(Prop(item, "price")))
      && (li.PassThrough? <==> !IsPriceId(Prop(item, "price")) && Truthy(Prop(item, "price_data")))
      && (li.PriceRef? ==> Some(Str(li.price)) == Prop(item, "price"))
      && (li.PassThrough? ==> Some(li.priceData) == Prop(item, "price_data"))
  {
  }

  /** Built price data is always in US dollars, is named by `title` or else
      `name`, carries the posted description, has at most the one posted image,
      and charges `Math.round(amount * 100)` cents for the first truthy of
      `unit_amount` and `price` — 0 when neither is. */
  lemma SynthesizedPriceData(item: Json)
    requires !item.Null? && !IsPriceId(Prop(item, "price")) && !Truthy(Prop(item, "price_data"))
    ensures var li := ToLineItem(item);
      && li.Synthesized? && li.currency == "usd"
      && li.name == (if Truthy(Prop(item, "title")) then Prop(item, "title") else Prop(item, "name"))
      && li.description == Prop(item, "description")
      && (li.images == [] <==> !Truthy(Prop(item, "image")))
      && (li.images != [] ==> li.images == [Prop(item, "image").value])
    ensures var li := ToLineItem(item);
      var unitAmount := Prop(item, "unit_amount");
      var price := Prop(item, "price");
      && (Truthy(unitAmount) ==> li.UnitAmount() == Cents(unitAmount.value))
      && (!Truthy(unitAmount) && Truthy(price) ==> li.UnitAmount() == Cents(price.value))
      && (!Truthy(unitAmount) && !Truthy(price) ==> li.UnitAmount() == Js.Int(0))
  {
    RoundWhole(0);
  }
}
