/** The inventory convention stored in Stripe product metadata: a flat
    string-to-string map in which `stock_<size>` holds a decimal stock count.
    This module holds what the webhook uses to read, decrement and write one
    such count (netlify/functions/stripe-webhook.js, `decrementInventory`). */
module InventoryCodec {
  import opened Js

  /** A product's metadata. */
  type Metadata = map<string, string>

  /** The metadata key holding the stock of one size. */
  function StockKey(size: string): (key: string)
    ensures StartsWith(key, "stock_") && key[6..] == size
  {
    "stock_" + size
  }

  /** Different sizes never share a stock key. */
  lemma StockKeyInjective(a: string, b: string)
    ensures StockKey(a) == StockKey(b) ==> a == b
  {
    if StockKey(a) == StockKey(b) {
      assert a == StockKey(a)[6..];
    }
  }

  /** `parseInt(metadata[stockKey] || "0", 10)`: an absent or empty entry reads
      as 0; a non-numeric one as NaN. */
  function ReadStock(md: Metadata, size: string): (x: Number)
    ensures StockKey(size) !in md ==> x == Int(0)
  {
    var key := StockKey(size);
    ParseShowInt(0);
    assert ShowInt(0) == "0";
    ParseInt(if key in md && md[key] != "" then md[key] else "0")
  }

  /** `Math.max(0, current - quantity)`: the new stock never goes below zero;
      an over-sale floors at zero instead of failing. NaN in, NaN out. */
  function Decrement(current: Number, quantity: Number): (r: Number)
    ensures current.Int? && quantity.Int? ==>
      r.Int? && r.n >= 0 && r.n >= current.n - quantity.n &&
      (r.n == 0 || r.n == current.n - quantity.n)
    ensures !(current.Int? && quantity.Int?) ==> r == NaN
  {
    if current.NaN? || quantity.NaN? then NaN
    else if current.n - quantity.n > 0 then Int(current.n - quantity.n) else Int(0)
  }

  /** A non-negative quantity taken from a non-negative stock leaves a stock
      between zero and the old stock. */
  lemma DecrementBounds(current: nat, quantity: nat)
    ensures var r := Decrement(Int(current), Int(quantity));
      r.Int? && 0 <= r.n <= current
  {
  }

  /** The metadata written back: `{...metadata, [stockKey]: newStock.toString()}`. */
  function WriteStock(md: Metadata, size: string, stock: Number): (r: Metadata)
    ensures r.Keys == md.Keys + {StockKey(size)}
    ensures r[StockKey(size)] == NumberToString(stock)
    ensures forall k :: k in md && k != StockKey(size) ==> r[k] == md[k]
  {
    md[StockKey(size) := NumberToString(stock)]
  }

  /** Writing a count and reading it back gives the count, and the stock of
      every other size reads as before. */
  lemma WriteReadStock(md: Metadata, size: string, n: int, other: string)
    ensures ReadStock(WriteStock(md, size, Int(n)), size) == Int(n)
    ensures other != size ==> ReadStock(WriteStock(md, size, Int(n)), other) == ReadStock(md, other)
  {
    var written := WriteStock(md, size, Int(n));
    assert written[StockKey(size)] == ShowInt(n) != "";
    ParseShowInt(n);
    if other != size {
      StockKeyInjective(size, other);
      var key := StockKey(other);
      assert key in written <==> key in md;
      assert key in md ==> written[key] == md[key];
    }
  }
}
