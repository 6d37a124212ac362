# balm-store storefront, modelled in Dafny

This project models the behaviour of the BALM storefront: a React shop front, three Netlify functions in front of Stripe, an inventory snapshot script, and a FastAPI backend for products, orders and users. Stock is kept in Stripe product metadata as `stock_<size>` keys next to a comma-separated `sizes` list. The Netlify functions read, sell and report that stock.

One module per source file:

- `StripeWebhook` (`netlify/functions/stripe-webhook.js`) models the webhook.
  - It groups a completed checkout's `item_<n>_<field>` metadata into items.
  - It decrements each complete item's stock, clamped at zero, by a read-modify-write on a `ProductStore` object.
  - It answers 405, 400, 200 or 500.
- `InventoryCodec` holds the `stock_<size>` read, decrement and write shared by the webhook.
- `Catalog` (`netlify/functions/get-products.js`) normalises Stripe products into storefront products. It decodes the inventory with a loop.
- `InventoryReport` (`scripts/verify-inventory.js`) models the snapshot.
  - The aggregation loop and the stable size sort.
  - The status labels and the CSV, JSON and console outputs.
- `CheckoutSession` (`netlify/functions/create-checkout-session.js`) validates a request and maps each cart item to a Stripe line item.
- `CheckoutPage` (`frontend/src/store/pages/Checkout.tsx`) builds the line items.
  - It makes image URLs absolute.
  - It maps the function's answer to a redirect or an error message.
  - It is connected to `CheckoutSession` by lemmas about what the server reads from what the page sends.
- `ProductsApi` (`backend/app/api/routes/products.py`) models the product, inventory-log and order tables as fields of a `Database` class.
  - Each route is a method tied to a function on the old tables.
  - Lemmas prove what the routes keep: stock never negative after a sale, and stock equal to the sum of the logged changes.
- `InventoryUi` (`INVENTORY_UI_EXAMPLE.tsx`) models the size buttons, stock notes, availability list, add-to-cart button and the two badges.
- `Signup` (`frontend/src/store/pages/Signup.tsx`) models the validation chain, the registration request and the response handling.
- `Auth` (`backend/app/api/routes/auth.py`) models register, the two logins, the session view and Google sign-in over a `users` table.
- `CorsConfig` (`backend/app/core/config.py`) models `cors_origins_list`.
- `StripeConfig` (`frontend/src/config/stripe.ts`) models the key choice, the configured test and the buy-button lookup.
- `Carousel`, `ImageModal`, `StorePage` and `ProductDetail` model the image carousels, the full-screen modal, the store page and the product page.

Shared modules:

- `Js` holds the JavaScript and Python semantics the code relies on: truthiness, `split`, `trim`/`strip`, `parseInt`, and numbers that can be NaN.
- `JsObject` holds objects as ordered dictionaries.
- `JsonValue` holds JSON values.
- `Fetch` and `Http` hold HTTP results.
- `StoreTypes` holds the product shape and the bundled product list.
- `Wrappers` holds `Option` and `Result`.

Calls into code that is not shown are parameters of the operations that make them:

- Stripe's SDK;
- the browser's `fetch` and `JSON.parse`;
- bcrypt;
- JWT signing;
- Google's HTTP endpoints;
- the clock and the random order number.

Prices are integer cents throughout.

Where the repository's own design description and the code disagree, the model follows the code:

- The webhook stops at the first hole in the item indices (index 1 absent while index 2 is present). Reading `item.size` there throws, so the event gets 500. Items before the hole stay written and items after it are not processed. The description says items 0 and 2 are both applied. The same 500 follows when a product cannot be retrieved, so processing is not best-effort per item.
- The report's console sort gives sizes outside the canonical list the rank -1. They therefore sort **first**, not last.
- A non-numeric stock or quantity is not rejected. It parses to NaN, the webhook writes the string "NaN" back, and the report's sums become NaN. The model keeps NaN for this reason.

## Model

| member | source | states |
|---|---|---|
| StripeWebhook.ParseItemKey | netlify/functions/stripe-webhook.js:79-83 | a metadata key is read as an item field only if it starts with `item_` and its field part is non-empty |
| StripeWebhook.ItemKeyRoundTrip | netlify/functions/stripe-webhook.js:80-83 | every key `item_<n>_<field>` (field non-empty, no line terminator) is read back as index `n` and field `field` |
| StripeWebhook.GroupItems | netlify/functions/stripe-webhook.js:75-90 | the `forEach` over the metadata keys builds exactly the grouping `Group(md)` |
| StripeWebhook.GroupFields | netlify/functions/stripe-webhook.js:79-90 | a field is stored under an index exactly when some metadata key names that index and field; other keys are ignored |
| StripeWebhook.GroupLastWins | netlify/functions/stripe-webhook.js:88 | a stored field holds the value of the last key naming it |
| StripeWebhook.GroupShape | netlify/functions/stripe-webhook.js:85-88 | every index present has at least one field, and the array length exceeds every array index present |
| StripeWebhook.LevelOf | netlify/functions/stripe-webhook.js:154-160 | OUT OF STOCK exactly for a new stock of 0, LOW STOCK exactly for a non-zero count of at most 5, nothing for NaN or larger counts |
| StripeWebhook.ProcessProducts | netlify/functions/stripe-webhook.js:93-118 | processing the items never adds or removes a product |
| StripeWebhook.WriteStockFrame | netlify/functions/stripe-webhook.js:146-151 | writing one stock key leaves every other key of every product unchanged |
| StripeWebhook.ProcessFrame | netlify/functions/stripe-webhook.js:93-118 | a metadata key changes only if a complete item names its product and size |
| StripeWebhook.ProcessOk | netlify/functions/stripe-webhook.js:93-97 | the loop ends without an exception exactly when no index is a hole and every complete item's product exists; incomplete items are skipped |
| StripeWebhook.ProcessAlertCount | netlify/functions/stripe-webhook.js:113-118 | each processed complete item logs one stock line, so a run without an exception logs one per complete item |
| StripeWebhook.HandleOutcomes | netlify/functions/stripe-webhook.js:9-62 | non-POST gets 405 and a failed signature 400, both touching nothing; only `checkout.session.completed` changes the store; 200 `{received: true}` exactly when no exception escaped, else 500 |
| StripeWebhook.ProductStore.Retrieve | netlify/functions/stripe-webhook.js:139 | `products.retrieve` gives the product's metadata, or throws for an unknown id |
| StripeWebhook.ProductStore.DecrementInventory | netlify/functions/stripe-webhook.js:136-167 | the new stock is `max(0, current - quantity)` with an absent key read as 0, written back as a string with every other key kept; an unknown product throws and changes nothing |
| StripeWebhook.ProductStore.HandleCheckoutCompleted | netlify/functions/stripe-webhook.js:69-131 | the loop leaves exactly the store, the success flag and the log lines of `Process` over the grouped items |
| StripeWebhook.ProductStore.HandleRequest | netlify/functions/stripe-webhook.js:9-63 | the handler's response, store and log lines are those of `Handle` |
| InventoryCodec.StockKey | netlify/functions/stripe-webhook.js:141 | the key is `stock_` followed by the size |
| InventoryCodec.StockKeyInjective | netlify/functions/stripe-webhook.js:141 | different sizes never share a stock key |
| InventoryCodec.ReadStock | netlify/functions/stripe-webhook.js:142 | an absent stock key reads as 0 |
| InventoryCodec.Decrement | netlify/functions/stripe-webhook.js:143 | the new stock is the larger of 0 and the difference, and NaN when either operand is NaN |
| InventoryCodec.DecrementBounds | netlify/functions/stripe-webhook.js:143 | for non-negative stock and quantity the new stock lies between 0 and the old stock |
| InventoryCodec.WriteStock | netlify/functions/stripe-webhook.js:146-151 | the written metadata has the old keys plus the stock key, the new stock as a string, and every other value unchanged |
| InventoryCodec.WriteReadStock | netlify/functions/stripe-webhook.js:141-151 | a written count reads back as that count, and other sizes read as before |
| Catalog.StockValue | netlify/functions/get-products.js:96 | a parsed stock is kept and NaN becomes 0 |
| Catalog.DecodeInventory | netlify/functions/get-products.js:91-98 | the `forEach` builds exactly `InventoryOf` of the declared sizes |
| Catalog.InventoryGet | netlify/functions/get-products.js:93-98 | the inventory has an entry for a name exactly when a declared size trims to it and its stock key is non-empty, and the entry is that stock's value |
| Catalog.InventoryDistinct | netlify/functions/get-products.js:93-98 | no size occurs twice in the decoded inventory |
| Catalog.NormalizeProduct | netlify/functions/get-products.js:86-130 | the per-product callback, with its loop, gives `Normalized(p)` |
| Catalog.NormalizedIdentityAndPrice | netlify/functions/get-products.js:87-88 | both ids are the Stripe id; the price is the default price's amount, 0 without one; the price id is given exactly when the default price has a non-empty id |
| Catalog.NormalizedSizesAreRaw | netlify/functions/get-products.js:91 | the returned sizes are the untrimmed split of the `sizes` metadata: joined with commas they give the metadata back |
| Catalog.NormalizedInventory | netlify/functions/get-products.js:92-98 | `inventory` is absent exactly when no declared size has stock; otherwise it maps each trimmed declared size with stock to its count, without duplicates |
| Catalog.NormalizedImages | netlify/functions/get-products.js:101-108 | Stripe images when present, else the local ones; the main image is the first image when non-empty and otherwise the placeholder |
| Catalog.NormalizedDefaults | netlify/functions/get-products.js:116-129 | missing metadata gives category `art`, no colours, no sizes, no inventory and empty details; a missing description gives "" |
| Catalog.HandleRequest | netlify/functions/get-products.js:53-158 | the handler's loop gives the response of `Handle` |
| Catalog.HandleOutcomes | netlify/functions/get-products.js:55-157 | 405 exactly for non-GET, 503 exactly for a missing key, 500 exactly for an upstream error, both with `products: []`; 200 with one normalised product per Stripe record, in order, each with its record's id |
| InventoryReport.Add | scripts/verify-inventory.js:60-61 | JavaScript addition on stocks: a number exactly when both operands are, then their sum; NaN absorbs |
| InventoryReport.DeclaredSizesMembers | scripts/verify-inventory.js:39-40 | the declared sizes are exactly the non-blank comma-separated pieces of the `sizes` field, trimmed |
| InventoryReport.DeclaredSizesTrimmed | scripts/verify-inventory.js:40 | each declared size is its own trim |
| InventoryReport.CountsDisjoint | scripts/verify-inventory.js:63-64 | no size is counted both out of stock and low, so the two counts never exceed the number of sizes |
| InventoryReport.ScanSizesTotals | scripts/verify-inventory.js:56-65 | a scan adds the sum of the sizes' stocks to the product and report totals, and the number of out and low sizes to the counters |
| InventoryReport.ScanSizesEntries | scripts/verify-inventory.js:57-59 | each scanned size gets its stock in the product's `sizes` object (an absent key reading 0) and other names keep theirs |
| InventoryReport.ScanProductSizes | scripts/verify-inventory.js:56-65 | the `forEach` loop computes exactly `ScanSizes` |
| InventoryReport.ExportSnapshot | scripts/verify-inventory.js:32-69 | the product loop computes exactly `SnapshotOf` |
| InventoryReport.SnapshotAbsorbs | scripts/verify-inventory.js:37-38 | once a product without metadata has thrown, the whole loop has thrown |
| InventoryReport.SnapshotDefined | scripts/verify-inventory.js:38-39 | the loop throws exactly when some product lacks a metadata object |
| InventoryReport.SnapshotTotals | scripts/verify-inventory.js:33-68 | the overall total is the sum of the products' totals; the out-of-stock count is exactly the number of declared sizes at 0 and the low count exactly the number at a non-zero count of at most 5, over all products; the two together never exceed the declared sizes; at most one entry per product |
| InventoryReport.SnapshotEntries | scripts/verify-inventory.js:37-69 | the report lists exactly the products with declared sizes, in order, each with its id, name, price, the sum over its sizes, and a stock for exactly its declared sizes |
| InventoryReport.VisitReports | scripts/verify-inventory.js:42-68 | a product with declared sizes appends one entry that reports it |
| InventoryReport.IndexOf | scripts/verify-inventory.js:99 | `indexOf` gives the first position of the size, or -1 exactly when it is absent |
| InventoryReport.RankFacts | scripts/verify-inventory.js:98-99 | known sizes rank by their canonical position, unknown ones at -1, below all of them |
| InventoryReport.SortByPermutes | scripts/verify-inventory.js:97-100 | the sorted entries are a permutation of the entries |
| InventoryReport.SortBySorted | scripts/verify-inventory.js:97-100 | the sorted entries are in rank order |
| InventoryReport.SortByStable | scripts/verify-inventory.js:97-100 | entries of equal rank keep their order (the sort is stable) |
| InventoryReport.SortSizesSpec | scripts/verify-inventory.js:97-100 | the console order is a permutation in canonical size order, unknown sizes first, ties in `sizes` order |
| InventoryReport.StatusOf | scripts/verify-inventory.js:156-158 | out of stock exactly for 0, low exactly for a non-zero count of at most 5, in stock otherwise (NaN included) |
| InventoryReport.LabelsDistinct | scripts/verify-inventory.js:103-105 | the CSV and the console name the three statuses distinctly |
| InventoryReport.ItemRows | scripts/verify-inventory.js:155-161 | one CSV row per entry of a product's `sizes` object, in order |
| InventoryReport.CsvRowsCount | scripts/verify-inventory.js:154-162 | the CSV has exactly one row per (product, size) entry |
| InventoryReport.CsvRowsLayout | scripts/verify-inventory.js:154-162 | row `EntryCount(inventory[..i]) + j` is entry `j` of product `i`, and there are no other rows |
| InventoryReport.InventoryValueDefined | scripts/verify-inventory.js:119-121 | the inventory value is a number exactly when every product total is, and is then non-negative when the totals are |
| InventoryReport.FormatOf | scripts/verify-inventory.js:171-174 | `--json` wins over `--csv`, and neither gives the console report |
| InventoryReport.ConsoleLines | scripts/verify-inventory.js:102-108 | one console line per sorted size, with its stock and status |
| InventoryReport.RunOutcomes | scripts/verify-inventory.js:170-188 | a missing key exits 1 before any request; otherwise the run succeeds exactly when the listing does and every product has metadata, with the report in the selected format |
| InventoryReport.ConsoleItems | scripts/verify-inventory.js:91-108 | one console section per reported product, with its name, id, price, total and its sizes in console order |
| CheckoutSession.LineItems | netlify/functions/create-checkout-session.js:47-81 | one line item per posted item, in order; a `null` item throws and gives no line items at all |
| CheckoutSession.HandleGuards | netlify/functions/create-checkout-session.js:6-27 | a non-POST gets 405 and a POST without a secret key 503, whatever the body, and neither reaches Stripe |
| CheckoutSession.HandleInvalidItems | netlify/functions/create-checkout-session.js:30-41 | missing, non-array or empty `items` get 400 "Invalid items" and no session, and 400 arises in no other way |
| CheckoutSession.HandleSession | netlify/functions/create-checkout-session.js:84-96 | Stripe is asked for a session exactly when every guard passes and no item is `null`; the session is card, `payment` mode, US/CA shipping, billing required, one line item per item |
| CheckoutSession.HandleAccepted | netlify/functions/create-checkout-session.js:29-96 | a configured POST with a non-empty `null`-free items array asks Stripe for the session of its line items and return URLs |
| CheckoutSession.HandleStatus | netlify/functions/create-checkout-session.js:98-121 | every answer is 200, 400, 405, 500 or 503; 200 carries Stripe's URL; a Stripe error gives 500 with its message or the default |
| CheckoutSession.QuantityDefault | netlify/functions/create-checkout-session.js:56 | every branch sends the posted quantity when truthy and 1 otherwise |
| CheckoutSession.LineItemBranches | netlify/functions/create-checkout-session.js:49-66 | a `price_` string wins, then truthy `price_data` passed on unchanged, then price data built on the spot |
| CheckoutSession.SynthesizedPriceData | netlify/functions/create-checkout-session.js:68-80 | built price data is in usd, named by `title` or else `name`, with the posted description, at most the one image, and `round(amount * 100)` cents of the first truthy of `unit_amount` and `price` |
| CheckoutPage.AbsoluteUrlIsAbsolute | frontend/src/store/pages/Checkout.tsx:75-86 | on an http(s) page every image URL comes out absolute and ends with the original path |
| CheckoutPage.AbsoluteUrlIdempotent | frontend/src/store/pages/Checkout.tsx:77-85 | making a URL absolute twice changes nothing |
| CheckoutPage.LineItemsFor | frontend/src/store/pages/Checkout.tsx:51-97 | one line item per cart entry, in order |
| CheckoutPage.ClientLineItemShape | frontend/src/store/pages/Checkout.tsx:53-96 | a price id gives a price reference with only id and quantity; otherwise usd price data with the title, the untrimmed description exactly when it is not blank, and one absolute image URL exactly when there is an image |
| CheckoutPage.StrArray | frontend/src/store/pages/Checkout.tsx:86 | the image list is serialised element by element as JSON strings |
| CheckoutPage.LineItemsJson | frontend/src/store/pages/Checkout.tsx:109-110 | each line item is serialised in place, in order |
| CheckoutPage.ServerReadsClientLineItem | frontend/src/store/pages/Checkout.tsx:51-97 | the checkout-session function reads every line item the page builds as the page meant it, when price ids start with `price_`; a quantity of 0 becomes 1 |
| CheckoutPage.ServerMisreadsForeignPriceId | frontend/src/store/pages/Checkout.tsx:53-57 | a price id not starting with `price_` is not read as a price id: the function builds nameless, imageless price data instead |
| CheckoutPage.RequestJsonFields | frontend/src/store/pages/Checkout.tsx:109-117 | the posted body carries the line items and both return URLs |
| CheckoutPage.ServerViews | frontend/src/store/pages/Checkout.tsx:51-97 | the function's reading of the page's list, item by item |
| CheckoutPage.ServerReadsClientLineItems | frontend/src/store/pages/Checkout.tsx:51-119 | the function maps the page's whole list, in order, to what the page meant |
| CheckoutPage.PriceIdsFromCart | frontend/src/store/pages/Checkout.tsx:53-57 | when every cart price id starts with `price_`, so does every price id the page posts |
| CheckoutPage.ServerAcceptsRequest | frontend/src/store/pages/Checkout.tsx:102-119 | a configured function accepts any non-empty request the page can post with `price_` ids and asks Stripe for that session |
| CheckoutPage.CheckoutReachesStripe | frontend/src/store/pages/Checkout.tsx:35-119 | end to end, a non-empty cart with `price_` ids makes Stripe be asked for a card session with exactly the page's line items, in order, and its return URLs |
| CheckoutPage.SettleMessages | frontend/src/store/pages/Checkout.tsx:124-163 | an empty body shows the not-configured message, an unparsable one its first 100 characters, a non-2xx answer `error`, else `message`, else the status, and a 2xx answer without URL the missing-URL message; only a 2xx answer with a URL redirects |
| CheckoutPage.SettleMessageNonEmpty | frontend/src/store/pages/Checkout.tsx:159-162 | every failure shows non-empty text |
| CheckoutPage.Checkout.HandleCheckout | frontend/src/store/pages/Checkout.tsx:35-165 | an empty cart only sets "Your cart is empty"; otherwise loading starts, the error clears, one request is posted, and the page either redirects still loading or shows the error and stops loading; the cart is unchanged |
| ProductsApi.CreateOutcomes | backend/app/api/routes/products.py:58-96 | a duplicate id or non-empty sku is rejected with 400, and a taken empty sku fails the unique column with 500, all changing nothing; otherwise the product is stored under its id, with one `stock_in` entry from 0 exactly when its stock is positive |
| ProductsApi.CreateKeepsConsistent | backend/app/api/routes/products.py:76-94 | creating a product keeps rows keyed by id, log entries naming stored products, and every entry balanced |
| ProductsApi.CreateKeepsReconciled | backend/app/api/routes/products.py:81-94 | a new product with non-negative stock keeps every product's stock equal to the sum of its logged changes |
| ProductsApi.CreateNegativeStockUnreconciled | backend/app/api/routes/products.py:82 | a product created with negative stock gets no log entry, so the log no longer accounts for its stock |
| ProductsApi.ApplyFieldsSupplied | backend/app/api/routes/products.py:111-133 | the `setattr` loop over the fields sent gives the row with every sent field replaced and every other field kept |
| ProductsApi.UpdateLogsOnlyChanges | backend/app/api/routes/products.py:114-130 | a successful update logs exactly when the stock is sent and differs, and the entry records the move from old to new |
| ProductsApi.UpdateKeepsConsistent | backend/app/api/routes/products.py:107-136 | an update keeps the ledger consistent |
| ProductsApi.UpdateKeepsReconciled | backend/app/api/routes/products.py:114-133 | an update keeps every product's stock equal to the sum of its logged changes |
| ProductsApi.UpdateIdempotent | backend/app/api/routes/products.py:107-137 | sending the same update twice is the same as sending it once |
| ProductsApi.AdjustOutcomes | backend/app/api/routes/products.py:184-219 | an unknown id gets 404 and stock going below zero 400, both changing nothing; otherwise the stock becomes old + change, never negative, no other product changes and exactly one entry from old to new is logged |
| ProductsApi.AdjustKeepsConsistent | backend/app/api/routes/products.py:188-210 | an adjustment keeps the ledger consistent |
| ProductsApi.AdjustKeepsReconciled | backend/app/api/routes/products.py:188-210 | an adjustment keeps every product's stock equal to the sum of its logged changes |
| ProductsApi.AdjustLowStock | backend/app/api/routes/products.py:222-233 | after an adjustment the product is listed as low on stock exactly when it is visible and its new stock is at or below its threshold |
| ProductsApi.SellSkips | backend/app/api/routes/products.py:286-291 | an order item is skipped, changing nothing, exactly when its product is unknown or has too little stock |
| ProductsApi.SellAllNoNegative | backend/app/api/routes/products.py:285-305 | orders never push stock below zero |
| ProductsApi.SellAllAppendsSales | backend/app/api/routes/products.py:285-305 | the deduction loop keeps the old log as a prefix and adds at most one balanced `sale` entry per item, for this order, each leaving stock non-negative |
| ProductsApi.SellAllKeepsConsistent | backend/app/api/routes/products.py:285-305 | the deduction loop keeps the ledger consistent |
| ProductsApi.SellAllKeepsReconciled | backend/app/api/routes/products.py:285-305 | the stock each product loses to an order is exactly what the log records for it |
| ProductsApi.ApplyOrderFieldsSupplied | backend/app/api/routes/products.py:323-337 | the `setattr` loop over the order fields sent gives the order with those fields replaced and the rest kept |
| ProductsApi.StampedOnce | backend/app/api/routes/products.py:325-334 | each timestamp is set only on the first transition to its status and never overwritten |
| ProductsApi.UpdatedOrderIdempotent | backend/app/api/routes/products.py:319-341 | repeating an order update later changes nothing |
| ProductsApi.CopyFields | backend/app/api/routes/products.py:132-133 | the loop gives the merged row |
| ProductsApi.StampOrder | backend/app/api/routes/products.py:326-334 | the stamping code gives `Stamp` |
| ProductsApi.CopyOrderFields | backend/app/api/routes/products.py:336-337 | the loop gives the merged order |
| ProductsApi.Database.CreateProduct | backend/app/api/routes/products.py:58-96 | the tables change exactly as `Create` says, and the ledger stays consistent |
| ProductsApi.Database.UpdateProduct | backend/app/api/routes/products.py:99-137 | the tables change exactly as `Update` says, and the ledger stays consistent |
| ProductsApi.Database.AdjustInventory | backend/app/api/routes/products.py:176-219 | the tables change exactly as `Adjust` says, and the ledger stays consistent |
| ProductsApi.Database.DeductItem | backend/app/api/routes/products.py:286-305 | one turn of the deduction loop changes the tables as `Sell` says |
| ProductsApi.Database.DeductItems | backend/app/api/routes/products.py:285-305 | the deduction loop changes the tables as `SellAll` says |
| ProductsApi.Database.CreateOrder | backend/app/api/routes/products.py:269-308 | the order is stored pending and unpaid with the next id (a taken Stripe session id fails with 500 and changes nothing), then its items are deducted in turn |
| ProductsApi.Database.UpdateOrder | backend/app/api/routes/products.py:311-341 | an unknown id gets 404; otherwise the order becomes `UpdatedOrder` and nothing else changes |
| InventoryUi.SizeButtons | INVENTORY_UI_EXAMPLE.tsx:24-76 | one size button per listed size, none without sizes |
| InventoryUi.UntrackedShowsNothing | INVENTORY_UI_EXAMPLE.tsx:19-33 | an untracked product disables no size and shows no stock notes |
| InventoryUi.SizeNotesCases | INVENTORY_UI_EXAMPLE.tsx:31-70 | for a tracked size at most one note shows: "Out" exactly at 0, "N left" exactly from 1 to 5, "In Stock" exactly above 5, none when negative; the button is disabled exactly when "Out" shows |
| InventoryUi.Availability | INVENTORY_UI_EXAMPLE.tsx:89-107 | one availability line per inventory entry, none for an untracked product |
| InventoryUi.AvailabilityLines | INVENTORY_UI_EXAMPLE.tsx:95-105 | each line names its entry, says "Out of Stock" exactly at 0, and is orange for any stock of at most 5 other than 0 |
| InventoryUi.AddToCartCases | INVENTORY_UI_EXAMPLE.tsx:112-127 | the add-to-cart button is disabled exactly when no size is chosen or the chosen size is stored at 0, and its label says which |
| InventoryUi.AbsentSizeDisabledButCartEnabled | INVENTORY_UI_EXAMPLE.tsx:31-38 | a listed size missing from a tracked inventory has its button disabled, yet choosing it would leave add-to-cart enabled |
| InventoryUi.TotalZero | INVENTORY_UI_EXAMPLE.tsx:141 | with no negative stock the total is non-negative and 0 exactly when every size is 0 |
| InventoryUi.BadgesAgree | INVENTORY_UI_EXAMPLE.tsx:136-191 | the two badges agree for non-negative totals: sold out together, the same count from 1 to 10, and above 10 the card shows nothing while the simple badge says "In Stock" |
| InventoryUi.SoldOutIffEverySizeOut | INVENTORY_UI_EXAMPLE.tsx:167-180 | with no negative stock, the card shows "Sold Out" exactly when every size is at 0 |
| InventoryUi.InventoryDisplay.ClickSize | INVENTORY_UI_EXAMPLE.tsx:36-39 | a click chooses the size only when its button exists and is enabled |
| InventoryUi.SelectedNeverSoldOut | INVENTORY_UI_EXAMPLE.tsx:38-39 | a size chosen through its button is never stored at 0, so add-to-cart never reads "Out of Stock" |
| StripeConfig.PublishableKey | frontend/src/config/stripe.ts:4-11 | a development build uses the test key and any other build the live key, "" when that variable is unset |
| StripeConfig.ConfiguredByPrefix | frontend/src/config/stripe.ts:33-35 | Stripe counts as configured exactly when the chosen key starts with `pk_`: by the test key in development, by the live key otherwise |
| StripeConfig.OnlyMappedIsDefault | frontend/src/config/stripe.ts:15-27 | the one mapped product is "balm-shirt-2" and its button id is the default button id |
| StripeConfig.LookupAsWritten | frontend/src/config/stripe.ts:22-24 | the lookup as written reaches an inherited `Object.prototype` member exactly for an unmapped inherited name |
| StripeConfig.ConstructorIsNotNull | frontend/src/config/stripe.ts:22-24 | the lookup of "constructor" as written returns the inherited constructor instead of null |
| StripeConfig.BuyButtonId | frontend/src/config/stripe.ts:15-24 | a button id comes only from an own non-empty entry, and then equals the default id; null otherwise |
| StripeConfig.BuyButtonIdCases | frontend/src/config/stripe.ts:15-24 | "balm-shirt-2" gets the default button and every other id, inherited names included, gets null |
| StripeConfig.LookupsAgree | frontend/src/config/stripe.ts:22-24 | the lookup as written and the own-entries lookup agree on every id that is not an inherited name |
| Carousel.Rem | frontend/src/store/components/ImageModal.tsx:47-53 | JavaScript's `%` for a positive divisor: Dafny's remainder for a non-negative dividend, never positive for a negative one |
| Carousel.Next | frontend/src/store/components/ImageModal.tsx:51-53 | the next index is NaN exactly when the index is NaN or there are no images |
| Carousel.Previous | frontend/src/store/components/ImageModal.tsx:47-49 | the previous index is NaN exactly when the index is NaN or there are no images |
| Carousel.StepsInRange | frontend/src/store/components/ImageModal.tsx:47-53 | from any non-negative index over at least one image, both steps land on an image |
| Carousel.StepsWrap | frontend/src/store/pages/Store.tsx:33-41 | inside the ring next moves one on and wraps from the last image to the first, previous moves one back and wraps from the first to the last |
| Carousel.StepsUndo | frontend/src/store/pages/ProductDetail.tsx:109-115 | previous undoes next and next undoes previous |
| Carousel.ForwardWraps | frontend/src/store/components/ImageModal.tsx:51-53 | m presses of next move the index m places round the ring |
| Carousel.ForwardFullCircle | frontend/src/store/components/ImageModal.tsx:51-53 | n presses of next over n images come back to the start |
| Carousel.EmptyGivesNaN | frontend/src/store/components/ImageModal.tsx:47-53 | with no images both steps give NaN, and a NaN index stays NaN |
| Carousel.ImagesOf | frontend/src/store/pages/Store.tsx:27-30 | the carousel's images are the product's images when there are any, else its one main image; never empty |
| Carousel.ImageCarousel.constructor | frontend/src/store/pages/Store.tsx:31 | a carousel starts on image 0 |
| Carousel.ImageCarousel.GoToPrevious | frontend/src/store/pages/Store.tsx:33-36 | the arrow steps back round the ring and stays on an image |
| Carousel.ImageCarousel.GoToNext | frontend/src/store/pages/Store.tsx:38-41 | the arrow steps on round the ring and stays on an image |
| Carousel.ImageCarousel.GoTo | frontend/src/store/pages/Store.tsx:93-99 | a dot shows its own image |
| Carousel.ImageCarousel.Shown | frontend/src/store/pages/Store.tsx:60-67 | the opaque image is one of the carousel's images |
| Carousel.ImageCarousel.ModalFor | frontend/src/store/pages/Store.tsx:43-46 | the modal is asked for at an index that names the image shown |
| ImageModal.ImageModal.constructor | frontend/src/store/components/ImageModal.tsx:13-20 | the modal's index starts at the given index |
| ImageModal.ImageModal.Rerender | frontend/src/store/components/ImageModal.tsx:22-27 | the index is reset to the given index exactly when the modal is open and `isOpen` or the given index changed; otherwise it is kept |
| ImageModal.ImageModal.KeyDown | frontend/src/store/components/ImageModal.tsx:29-45 | while open, Escape asks to close and the arrows step the index; other keys, and every key while closed, change nothing; an index on an image stays on one |
| ImageModal.ImageModal.ClickPrevious | frontend/src/store/components/ImageModal.tsx:82-90 | the previous button steps back round the ring and changes nothing else |
| ImageModal.ImageModal.ClickNext | frontend/src/store/components/ImageModal.tsx:109-117 | the next button steps on round the ring and changes nothing else |
| ImageModal.ImageModal.ClickDot | frontend/src/store/components/ImageModal.tsx:127-141 | a dot shows its own image |
| ImageModal.ImageModal.ClickClose | frontend/src/store/components/ImageModal.tsx:60-74 | the close button or the backdrop asks the page to close once and changes nothing else |
| ImageModal.ImageModal.View | frontend/src/store/components/ImageModal.tsx:55-142 | nothing renders when closed or without images; the controls render exactly for more than one image; the image is the one at the index |
| ImageModal.ControlsOfView | frontend/src/store/components/ImageModal.tsx:119-141 | the counter reads "i+1 / n", there is one dot per image and exactly the shown image's dot is highlighted |
| StorePage.Fetched | frontend/src/store/pages/Store.tsx:131-152 | the fetched list is used exactly when the response is ok with a non-empty list; every other outcome, a throw included, gives the bundled products |
| StorePage.FetchedNeverEmpty | frontend/src/store/pages/Store.tsx:128-148 | the catalog shown is never empty, and a list other than the bundled one came from an ok response |
| StorePage.OfCategory | frontend/src/store/pages/Store.tsx:199-201 | the filter keeps exactly the products of the category and never lengthens the list |
| StorePage.Filtered | frontend/src/store/pages/Store.tsx:199-201 | no category (or an empty one) shows every product; a category shows exactly its products |
| StorePage.OfCategoryAppend | frontend/src/store/pages/Store.tsx:199-201 | the filter keeps the products' order: it distributes over concatenation |
| StorePage.OfCategoryKeeps | frontend/src/store/pages/Store.tsx:199-201 | a list all of one category passes its filter unchanged |
| StorePage.FilterIdempotent | frontend/src/store/pages/Store.tsx:199-201 | filtering twice by a category is filtering once |
| StorePage.BundledByCategory | frontend/src/store/pages/Store.tsx:199-201 | on the bundled list the "art" category shows its one product and every other category shows none |
| StorePage.ImageClick | frontend/src/store/pages/Store.tsx:43-50 | a click opens the modal on the row's images and index exactly when a modal handler is given, and otherwise goes to the product's page |
| StorePage.StorePage.constructor | frontend/src/store/pages/Store.tsx:121-128 | the page starts with the bundled products and no modal |
| StorePage.StorePage.LoadProducts | frontend/src/store/pages/Store.tsx:131-152 | the fetch leaves the fetched-or-bundled list, never empty, and leaves the modal alone |
| StorePage.StorePage.Visible | frontend/src/store/pages/Store.tsx:199-201 | every card on screen is one of the page's products |
| StorePage.StorePage.ClickCardImage | frontend/src/store/pages/Store.tsx:306-317 | a card's image opens the modal on the row's images at the image it shows, titled with the product |
| StorePage.StorePage.CloseModal | frontend/src/store/pages/Store.tsx:385-393 | closing unmounts the modal and keeps the products |
| ProductDetail.FindProduct | frontend/src/store/pages/ProductDetail.tsx:40 | no product is found exactly when the id is missing or no product carries it; a product found carries the id |
| ProductDetail.FindsFirst | frontend/src/store/pages/ProductDetail.tsx:40 | the product found is the first that carries the id |
| ProductDetail.PageProduct | frontend/src/store/pages/ProductDetail.tsx:40-42 | the page's product comes from the bundled list and carries the URL's id |
| ProductDetail.OnlyBundledIdFound | frontend/src/store/pages/ProductDetail.tsx:40-96 | only "balm-shirt-2" has a page; every other id, and a missing one, renders "Product Not Found" |
| ProductDetail.InitialSize | frontend/src/store/pages/ProductDetail.tsx:98-100 | the size starts as the first listed size when there is one and it is non-empty, and as null otherwise |
| ProductDetail.Description | frontend/src/store/pages/ProductDetail.tsx:305 | the long description when non-empty, the short one otherwise |
| ProductDetail.BundledPage | frontend/src/store/pages/ProductDetail.tsx:98-115 | the bundled shirt opens on size "L" with the size selector, a five-image carousel and its short description |
| ProductDetail.PayloadOf | frontend/src/store/pages/ProductDetail.tsx:361-367 | the cart item carries the product's id, title, price, main image and short description |
| ProductDetail.ProductDetailPage.constructor | frontend/src/store/pages/ProductDetail.tsx:98-107 | the page starts on the initial size, image 0 of the product's images, no modal and nothing added |
| ProductDetail.ProductDetailPage.SelectSize | frontend/src/store/pages/ProductDetail.tsx:310-326 | a size button, shown only for more than one size, chooses that size |
| ProductDetail.ProductDetailPage.GoToPrevious | frontend/src/store/pages/ProductDetail.tsx:109-111 | the arrow steps back round the product's images |
| ProductDetail.ProductDetailPage.GoToNext | frontend/src/store/pages/ProductDetail.tsx:113-115 | the arrow steps on round the product's images |
| ProductDetail.ProductDetailPage.GoTo | frontend/src/store/pages/ProductDetail.tsx:206-212 | a dot shows its own image |
| ProductDetail.ProductDetailPage.OpenModal | frontend/src/store/pages/ProductDetail.tsx:153-160 | a click on the image opens the modal on the product's images at the image shown |
| ProductDetail.ProductDetailPage.CloseModal | frontend/src/store/pages/ProductDetail.tsx:531-538 | closing clears the modal and keeps the size and the cart |
| ProductDetail.ProductDetailPage.AddToCart | frontend/src/store/pages/ProductDetail.tsx:359-367 | "Add to Cart" adds one item with the product's fields and without the chosen size |
| Signup.Validate | frontend/src/store/pages/Signup.tsx:39-56 | the form passes exactly when the email is given, the password equals its confirmation and has at least 8 characters; a failure is one of the three messages |
| Signup.ValidateOrder | frontend/src/store/pages/Signup.tsx:40-56 | each message is shown exactly when its check is the first to fail: required, then mismatch, then length |
| Signup.RegisterUrl | frontend/src/store/pages/Signup.tsx:59-60 | the register endpoint under the configured API base, or under http://localhost:8000 when it is unset or empty |
| Signup.RegisterBodyFields | frontend/src/store/pages/Signup.tsx:65-69 | the body carries the email and password as typed and the name, or null for an empty name, and not the confirmation |
| Signup.DetailMessage | frontend/src/store/pages/Signup.tsx:75 | a falsy `detail` shows "Registration failed"; a string `detail` is shown as sent |
| Signup.React | frontend/src/store/pages/Signup.tsx:72-86 | the page signs in exactly on a 2xx response with a parsable non-null body, keeping its `access_token`; a non-2xx one shows `detail`; a thrown or unparsable request shows the caught message |
| Signup.StayShowsError | frontend/src/store/pages/Signup.tsx:74-85 | whenever the page stays, the error it shows is non-empty |
| Signup.SignupPage.constructor | frontend/src/store/pages/Signup.tsx:15-32 | the page starts with an empty form, no error and not busy |
| Signup.SignupPage.Change | frontend/src/store/pages/Signup.tsx:15-20 | typing replaces one field of the form and nothing else |
| Signup.SignupPage.HandleSubmit | frontend/src/store/pages/Signup.tsx:34-87 | a failed check shows its message, clears the busy flag and posts nothing; otherwise one registration is posted and the page either shows the error and clears the busy flag, or keeps the token and goes to "/" |
| CorsConfig.OriginsList | backend/app/core/config.py:40-45 | a list setting is used as it is, any non-string gives no origins, and every origin read from a string is non-blank, stripped and free of commas |
| CorsConfig.OriginsMembers | backend/app/core/config.py:44 | an origin is listed exactly when it is the stripped, non-blank form of one of the comma-separated pieces |
| CorsConfig.OriginsOrder | backend/app/core/config.py:44 | the origins keep their order: those of `a,b` are those of `a` followed by those of `b` |
| CorsConfig.OriginsOfJoined | backend/app/core/config.py:21-44 | non-blank, stripped, comma-free origins are read back unchanged from their comma-joined string |
| CorsConfig.OriginsRoundTrip | backend/app/core/config.py:44 | joining the origins with commas and reading them again gives the same list |
| Js.SplitJoin | backend/app/core/config.py:44 | splitting a separator-joined list of separator-free pieces gives the pieces back |
| Js.TrimIdempotent | backend/app/core/config.py:44 | stripping twice is stripping once |
| Auth.FirstWithEmail | backend/app/api/routes/auth.py:100 | the row found is the earliest with the address, and none is found exactly when no row has it |
| Auth.LocalPart | backend/app/api/routes/auth.py:90 | `email.split('@')[0]` is the prefix of the address before its first `@`, the whole address when it has none |
| Auth.DisplayName | backend/app/api/routes/auth.py:127 | the shown name is the stored name when non-empty, else an `@`-free prefix of the address |
| Auth.Register | backend/app/api/routes/auth.py:50-93 | an address any row has as e-mail or username is refused with 400 and nothing is added; otherwise one active row is appended with the address as username and only the hash of the password, and its token is returned |
| Auth.RegisterShowsSession | backend/app/api/routes/auth.py:84-93 | the register answer shows the new row as the session view does: the submitted name, else the local part |
| Auth.RegisterKeepsNumbered | backend/app/api/routes/auth.py:74-76 | registration keeps the row ids numbered in insertion order |
| Auth.Login | backend/app/api/routes/auth.py:96-130 | 401 with one message exactly when the address is unknown or the password is wrong; 403 exactly when the credentials pass on an inactive row; otherwise a token and the row's session view |
| Auth.RegisterThenLogin | backend/app/api/routes/auth.py:50-130 | a fresh registration logs in at once with the same password and gets the register answer |
| Auth.TokenLogin | backend/app/api/routes/auth.py:133-153 | the form login fails with 401 exactly when `login`'s credential check fails, and otherwise returns the row's token |
| Auth.TokenLoginAdmitsInactive | backend/app/api/routes/auth.py:109-113 | an inactive account with the right password is refused by `login` yet gets a token from the form login |
| Auth.GoogleLogin | backend/app/api/routes/auth.py:176-195 | 501 exactly when no client id is set; otherwise the consent URL for this client id |
| Auth.Refresh | backend/app/api/routes/auth.py:262-267 | a non-empty picture or name from Google replaces the stored one, an empty or missing one keeps it, and no other column changes |
| Auth.GoogleCallback | backend/app/api/routes/auth.py:198-280 | 501 without client id or secret; the callback succeeds exactly when both are set and both Google calls answer 200; a failure leaves the table unchanged |
| Auth.GoogleCallbackRows | backend/app/api/routes/auth.py:246-269 | an unknown address gets a new active row with Google's name and picture; a known one has its earliest row refreshed in place and every other row kept |
| Auth.GoogleAdmitsInactive | backend/app/api/routes/auth.py:198-280 | the callback never checks `is_active`, so an inactive account is signed in through Google |
| Auth.GoogleCallbackKeepsNumbered | backend/app/api/routes/auth.py:246-269 | the callback keeps the rows numbered and the address has a row afterwards |
| Auth.GoogleCallbackIdempotent | backend/app/api/routes/auth.py:246-280 | a second sign-in with the same profile changes nothing and gives the same redirect |
| Auth.UserTable.constructor | backend/app/api/routes/auth.py:50-51 | the table starts empty and numbered |
| Auth.UserTable.RegisterUser | backend/app/api/routes/auth.py:50-93 | the route on the table leaves the rows and answer `Register` describes and keeps the table numbered |
| Auth.UserTable.SignInWithGoogle | backend/app/api/routes/auth.py:198-280 | the callback, updating the found row one field at a time, leaves the rows and answer `GoogleCallback` describes and keeps the table numbered |
| Js.ParseInt | netlify/functions/stripe-webhook.js:101 | `parseInt(s, 10)` gives a number only when the text holds a decimal digit, and NaN otherwise |
| Js.ParseShowInt | netlify/functions/stripe-webhook.js:141-148 | the stock written back with `toString` is read by `parseInt` as the same integer, for every integer |
| Js.ParseNaNString | netlify/functions/stripe-webhook.js:141-148 | a stock written as "NaN" reads back as NaN |
| JsonValue.OrTruthy | netlify/functions/create-checkout-session.js:77 | `a \|\| b` keeps a truthy left operand and otherwise gives the right one, so it is truthy exactly when either operand is |
| JsonValue.Round | netlify/functions/create-checkout-session.js:77 | `Math.round` gives the integer within one half of its argument, rounding halves up |
| JsonValue.Cents | netlify/functions/create-checkout-session.js:77 | `Math.round(v * 100)` is a whole number of cents exactly when `v` converts to a number, and NaN otherwise |
| JsonValue.CentsOfWholeDollars | frontend/src/store/pages/Checkout.tsx:93 | a whole number of dollars becomes exactly that many hundreds of cents |
| JsonValue.CentsOfDollarString | netlify/functions/create-checkout-session.js:77 | a price sent as the decimal text of a whole dollar amount becomes that many hundreds of cents |

## Left out

- Stripe, the browser, the network, bcrypt, JWT, itsdangerous, SendGrid and Google are not modelled. Their answers are parameters: a verified event or an error, a product map, a session URL or error, a `FetchResult`, a hash, a hash check, a token signer, HTTP statuses and a profile.
- The HMAC signature check of webhook events is not modelled. A request carries its outcome.
- `StripeWebhook.ProductStore.DecrementInventory`: `products.update` is taken to succeed. Only a failed `products.retrieve` throws in the model.
- The webhook's read-modify-write can lose an update when two deliveries overlap. Only single invocations are modelled, with no concurrency.
- Floating point is not modelled. Prices and amounts are integer cents.
- `unit_amount / 100`, `price * 100` with `Math.round`, `toFixed` and the Python `Float` columns are not modelled exactly.
- JSON numbers are exact rationals in `JsonValue`, not binary doubles.
- `InventoryReport.InventoryValue` sums price times stock in exact cents, with NaN propagation. The floating-point sum of dollar prices is not modelled.
- `Js.ParseInt` reads an optional sign and decimal digits after ASCII whitespace. Exponents, hexadecimal prefixes, `Infinity` and the other non-decimal forms of `parseInt`/`Number` parse to NaN or are not modelled.
- `Js.Trim`: JavaScript `trim` and Python `strip` remove only ASCII whitespace and line terminators here, not the other Unicode space characters. Python's `str.strip()` also removes the ASCII control characters `\x1c`–`\x1f` (file, group, record and unit separators); the model keeps them, so `CorsConfig.OriginsList` leaves them on an origin that backend/app/core/config.py:44 would strip.
- JavaScript orders integer-like object keys numerically. The model keeps insertion order for every key.
- `Signup.DetailMessage`: a non-string `detail`, such as FastAPI's validation-error list, is shown by an abstract `StringOf`. What React renders for it is not modelled.
- `Signup`: the password length counts characters, not UTF-16 code units.
- `ProductsApi`: an explicit JSON `null` in an update body is not modelled. Absent and supplied fields are.
- `ProductsApi`: order items that are not well-formed dictionaries are not modelled.
- `ProductsApi`: the random order number is a parameter, so its collisions are not modelled.
- SQLAlchemy sessions, commits, rollbacks other than the unique-column failures, `created_at` ordering, `datetime.utcnow()` and `secrets.token_hex` are not modelled. Time and order numbers are parameters.
- `delete_product`, `get_products`, `get_product`, `get_inventory_logs`, `get_orders` and `get_order_stats` in `backend/app/api/routes/products.py` are not modelled. They only read or delete rows, and nothing about them was named as core.
- `ProductsApi`: the users model `backend/app/models/user.py` is not part of this model. The `users` rows in `Auth` carry only the columns the routes use.
- `Auth.Login`: the `WWW-Authenticate: Bearer` header of the 401 answer is not modelled.
- `Auth.Register`/`Auth.Login`: request validation is not modelled. The e-mail fields are `EmailStr` (backend/app/api/routes/auth.py:25, 31), so a malformed address is refused with 422 before either route runs, and the address is normalised (its domain lower-cased) before the duplicate query and the login lookup. The model's addresses are that validated, normalised form; it does not show that "a@X.com" is refused after "a@x.com" has registered.
- `Auth.GoogleCallback`: Google's profile is taken to carry an e-mail address. A profile without one, and the JSON decoding of Google's answers, are not modelled.
- `get_current_user` and the `/me` route depend on JWT decoding and are not modelled. `Auth.SessionOf` gives the session view of a row.
- The cart context (`CartContext`) is not part of this model. The product page records the payloads it hands to `addItem`, and the store page's card "Add to Cart" button is not modelled.
- `StorePage.Fetched`: a `products` member that is truthy but not an array, and a body `response.json()` cannot parse, are folded into `Threw`.
- `ProductDetail`: the page calls `useState` after its early "not found" return, which breaks React's hook order when the route changes between a found and a missing product. React's hook bookkeeping is not modelled. The model builds a page only for a found product.
- React rendering, animation, styling, toasts, the legal modals, routing, `localStorage` token persistence (`AuthContext.tsx`) and console logging are not modelled. The webhook's stock alerts are the exception: they are returned as `Alert` values.
- Script I/O is not modelled: file writes, the ISO-date file names and `process.exit`. `InventoryReport.RunScript` returns the exit status and the rendered output.
- `InventoryUi.BadgesAgree`: the two badges are compared only for a non-negative total. With negative stock the simple badge says "In Stock" and the card badge shows a negative count, which the lemma states but does not call a bug.

## Findings

| source | as written | input that shows it | evidently intended | confidence | as-written member | corrected member |
|---|---|---|---|---|---|---|
| frontend/src/config/stripe.ts:22-24 | `STRIPE_BUY_BUTTON_IDS[productId] \|\| null` reads the object's prototype chain, so an inherited name returns `Object.prototype`'s member instead of `null` | `getStripeBuyButtonId("constructor")` returns the `Object` function | own entries only: the mapped id, or `null` for every unmapped id | high, not executed | StripeConfig.LookupAsWritten (StripeConfig.ConstructorIsNotNull) | StripeConfig.BuyButtonId (StripeConfig.BuyButtonIdCases) |
