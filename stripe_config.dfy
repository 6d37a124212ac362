/** The storefront's Stripe settings (frontend/src/config/stripe.ts): which
    publishable key the build uses, whether Stripe counts as configured, and
    the table of Buy Button ids per product. */
module StripeConfig {
  import opened Wrappers
  import opened JsObject
  import Js

  // ---------------------------------------------------------------- keys

  /** The build's environment: its mode and the two optional key variables. */
  datatype BuildEnv = BuildEnv(mode: string, testKey: Option<string>, liveKey: Option<string>)

  /** The test key in development, the live key in any other mode; "" when
      the chosen variable is unset or empty. */
  function PublishableKey(env: BuildEnv): (key: string)
    ensures env.mode == "development" ==> key == env.testKey.GetOr("")
    ensures env.mode != "development" ==> key == env.liveKey.GetOr("")
  {
    if env.mode == "development" then Js.OrElse(env.testKey, "") else Js.OrElse(env.liveKey, "")
  }

  /** `isStripeConfigured`: the key is non-empty and starts with `pk_`. */
  predicate IsConfigured(key: string) {
    Js.Truthy(key) && Js.StartsWith(key, "pk_")
  }

  /** The emptiness test is subsumed by the prefix test; a development build
      is configured exactly by its test key, any other build by its live key. */
  lemma ConfiguredByPrefix(env: BuildEnv)
    ensures IsConfigured(PublishableKey(env)) <==> Js.StartsWith(PublishableKey(env), "pk_")
    ensures env.mode == "development" ==>
      (IsConfigured(PublishableKey(env)) <==> env.testKey.Some? && Js.StartsWith(env.testKey.value, "pk_"))
    ensures env.mode != "development" ==>
      (IsConfigured(PublishableKey(env)) <==> env.liveKey.Some? && Js.StartsWith(env.liveKey.value, "pk_"))
  {
  }

  // ---------------------------------------------------------------- buttons

  const DefaultBuyButtonId := "buy_btn_1SjUfNFKiaEr26ZcXyKu3pwe"

  /** `STRIPE_BUY_BUTTON_IDS`: one product mapped so far. */
  const BuyButtonIds: Entries<string> := [("balm-shirt-2", "buy_btn_1SjUfNFKiaEr26ZcXyKu3pwe")]

  /** The one mapped product uses the default button. */
  lemma OnlyMappedIsDefault(productId: string, id: string)
    requires (productId, id) in BuyButtonIds
    ensures productId == "balm-shirt-2" && id == DefaultBuyButtonId
  {
  }

  /** Property names every plain object inherits from `Object.prototype`; each
      reads as a truthy value (a function, or the prototype itself). */
  const InheritedNames: set<string> := {
    "constructor", "__proto__", "toString", "toLocaleString", "valueOf",
    "hasOwnProperty", "isPrototypeOf", "propertyIsEnumerable",
    "__defineGetter__", "__defineSetter__", "__lookupGetter__", "__lookupSetter__"}

  /** What `getStripeBuyButtonId` returns as written: a button id, `null`, or
      the inherited member of that name. */
  datatype Lookup = ButtonId(id: string) | NoButton | InheritedMember(name: string)

  /** `STRIPE_BUY_BUTTON_IDS[productId] || null` on a plain object literal: an
      own entry gives its id (empty ones fall through to `null`); otherwise
      an inherited name reaches `Object.prototype`. */
  function LookupAsWritten(productId: string): (r: Lookup)
    ensures r.InheritedMember? <==> Get(BuyButtonIds, productId).None? && productId in InheritedNames
  {
    match Get(BuyButtonIds, productId)
    case Some(id) => if id != "" then ButtonId(id) else NoButton
    case None => if productId in InheritedNames then InheritedMember(productId) else NoButton
  }

  /** An id such as "constructor" is not a product, yet the lookup as written
      returns the `Object` constructor rather than `null`. */
  lemma ConstructorIsNotNull()
    ensures LookupAsWritten("constructor") == InheritedMember("constructor")
  {
    GetAbsent(BuyButtonIds, "constructor");
  }

  /** `getStripeBuyButtonId` reading own entries only: the mapped id when it is
      non-empty, otherwise no button. */
  function BuyButtonId(productId: string): (r: Option<string>)
    ensures r.Some? ==> (productId, r.value) in BuyButtonIds && r.value != ""
    ensures r.None? ==> productId !in Keys(BuyButtonIds) || Get(BuyButtonIds, productId) == Some("")
    ensures r.Some? ==> r.value == DefaultBuyButtonId
  {
    GetFound(BuyButtonIds, productId);
    match Get(BuyButtonIds, productId)
    case Some(id) => if id != "" then Some(id) else None
    case None => None
  }

  /** The mapped product gets the default button, and every other id, the
      inherited names included, gets none. */
  lemma BuyButtonIdCases(productId: string)
    ensures productId == "balm-shirt-2" ==> BuyButtonId(productId) == Some(DefaultBuyButtonId)
    ensures productId != "balm-shirt-2" ==> BuyButtonId(productId) == None
  {
    if productId != "balm-shirt-2" {
      GetAbsent(BuyButtonIds, productId);
    }
  }

  /** The two lookups agree on every id except the inherited names. */
  lemma LookupsAgree(productId: string)
    requires productId !in InheritedNames
    ensures LookupAsWritten(productId) == match BuyButtonId(productId)
      case Some(id) => ButtonId(id)
      case None => NoButton
  {
  }
}
