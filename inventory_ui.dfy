/** The inventory display components of INVENTORY_UI_EXAMPLE.tsx: the per-size
    buttons with their stock notes, the availability list, the add-to-cart
    button, and the two stock badges. They read a product's size list and the
    per-size stock the catalog decodes from Stripe metadata. */
module InventoryUi {
  import opened Wrappers
  import opened JsObject

  /** The product fields the components read. */
  datatype StockedProduct = StockedProduct(sizes: Option<seq<string>>, inventory: Option<Entries<int>>)

  /** `product.inventory && Object.keys(product.inventory).length > 0`. */
  predicate Tracked(p: StockedProduct) {
    p.inventory.Some? && |Keys(p.inventory.value)| > 0
  }

  /** `product.sizes && product.sizes.length > 0`. */
  predicate HasSizes(p: StockedProduct) {
    p.sizes.Some? && |p.sizes.value| > 0
  }

  /** A size's stock, `inventory[size] || 0` when tracked and null otherwise. */
  function SizeStock(p: StockedProduct, size: string): Option<int> {
    if Tracked(p) then Some(Get(p.inventory.value, size).GetOr(0)) else None
  }

  /** `stock === 0`: the size's button is disabled. */
  predicate OutOfStock(p: StockedProduct, size: string) {
    SizeStock(p, size) == Some(0)
  }

  /** The notes under a size label. */
  datatype StockNote = Out | Left(n: int) | InStock

  /** The three independent conditionals under a size label, shown only for a
      tracked product: "Out" at 0, "N left" from 1 to 5, "In Stock" above 5. */
  function SizeNotes(p: StockedProduct, size: string): seq<StockNote> {
    if !Tracked(p) then []
    else
      var stock := SizeStock(p, size).value;
      (if stock == 0 then [Out] else [])
      + (if 0 < stock <= 5 then [Left(stock)] else [])
      + (if stock > 5 then [InStock] else [])
  }

  /** A rendered size button. */
  datatype SizeButton = SizeButton(size: string, disabled: bool, selected: bool, notes: seq<StockNote>)

  function ButtonFor(p: StockedProduct, size: string, selected: string): SizeButton {
    SizeButton(size, OutOfStock(p, size), selected == size, SizeNotes(p, size))
  }

  /** The size buttons, one per listed size; none when there are no sizes. */
  function SizeButtons(p: StockedProduct, selected: string): (bs: seq<SizeButton>)
    ensures HasSizes(p) ==> |bs| == |p.sizes.value|
    ensures !HasSizes(p) ==> bs == []
  {
    if !HasSizes(p) then []
    else seq(|p.sizes.value|, i requires 0 <= i < |p.sizes.value| => ButtonFor(p, p.sizes.value[i], selected))
  }

  /** "Please select a size" is shown while sizes are listed and none is chosen. */
  predicate PromptShown(p: StockedProduct, selected: string) {
    HasSizes(p) && selected == ""
  }

  /** An untracked product disables no size and shows no notes. */
  lemma UntrackedShowsNothing(p: StockedProduct, selected: string, i: nat)
    requires !Tracked(p)
    requires i < |SizeButtons(p, selected)|
    ensures !SizeButtons(p, selected)[i].disabled
    ensures SizeButtons(p, selected)[i].notes == []
  {
  }

  /** For a tracked size at most one note shows: "Out" exactly at 0, "N left"
      exactly from 1 to 5, "In Stock" exactly above 5, and none for a negative
      stock; the button is disabled exactly when "Out" shows. */
  lemma SizeNotesCases(p: StockedProduct, size: string)
    requires Tracked(p)
    ensures var stock := Get(p.inventory.value, size).GetOr(0);
      var notes := SizeNotes(p, size);
      && |notes| <= 1
      && (notes == [Out] <==> stock == 0)
      && (notes == [Left(stock)] <==> 0 < stock <= 5)
      && (notes == [InStock] <==> stock > 5)
      && (notes == [] <==> stock < 0)
      && (OutOfStock(p, size) <==> notes == [Out])
  {
    var stock := Get(p.inventory.value, size).GetOr(0);
    var notes := SizeNotes(p, size);
    if stock == 0 {
      assert notes == [Out];
    } else if stock <= 5 && stock > 0 {
      assert notes == [Left(stock)];
    } else if stock > 5 {
      assert notes == [InStock];
    } else {
      assert notes == [];
    }
  }

  // ---------------------------------------------------------------- availability

  datatype Tone = Red | Orange | Green

  /** One line of the availability list: "Out of Stock" or "N available". */
  datatype AvailabilityLine = AvailabilityLine(size: string, stock: int, soldOut: bool, tone: Tone)

  function LineFor(entry: (string, int)): AvailabilityLine {
    var stock := entry.1;
    AvailabilityLine(entry.0, stock, stock == 0,
                     if stock == 0 then Red else if stock <= 5 then Orange else Green)
  }

  /** The availability list, one line per inventory entry in key order; absent
      for an untracked product. */
  function Availability(p: StockedProduct): (ls: seq<AvailabilityLine>)
    ensures Tracked(p) ==> |ls| == |p.inventory.value|
    ensures !Tracked(p) ==> ls == []
  {
    if !Tracked(p) then []
    else seq(|p.inventory.value|, i requires 0 <= i < |p.inventory.value| => LineFor(p.inventory.value[i]))
  }

  /** Each line names its entry; the orange tone also covers negative stock. */
  lemma AvailabilityLines(p: StockedProduct, i: nat)
    requires Tracked(p) && i < |p.inventory.value|
    ensures var line := Availability(p)[i];
      var e := p.inventory.value[i];
      && line.size == e.0 && line.stock == e.1
      && (line.soldOut <==> e.1 == 0)
      && (line.tone == Red <==> e.1 == 0)
      && (line.tone == Orange <==> e.1 != 0 && e.1 <= 5)
      && (line.tone == Green <==> e.1 > 5)
  {
  }

  // ---------------------------------------------------------------- add to cart

  datatype CartButton = CartButton(disabled: bool, caption: string)

  /** The stored stock of the chosen size is exactly 0. */
  predicate ChosenSoldOut(p: StockedProduct, selected: string) {
    Tracked(p) && Get(p.inventory.value, selected) == Some(0)
  }

  /** The add-to-cart button, shown only when sizes are listed. */
  function AddToCart(p: StockedProduct, selected: string): Option<CartButton> {
    if !HasSizes(p) then None
    else
      Some(CartButton(
        selected == "" || ChosenSoldOut(p, selected),
        if selected == "" then "Select a Size"
        else if ChosenSoldOut(p, selected) then "Out of Stock"
        else "Add to Cart"))
  }

  /** The button is disabled exactly when no size is chosen or the chosen size
      is stored with stock 0, and its label says which. */
  lemma AddToCartCases(p: StockedProduct, selected: string)
    requires HasSizes(p)
    ensures var b := AddToCart(p, selected).value;
      && (b.disabled <==> selected == "" || (Tracked(p) && Get(p.inventory.value, selected) == Some(0)))
      && (b.disabled <==> b.caption != "Add to Cart")
  {
  }

  /** A listed size missing from a tracked inventory has its button disabled,
      yet choosing it would not disable add-to-cart. */
  lemma AbsentSizeDisabledButCartEnabled(p: StockedProduct, size: string)
    requires Tracked(p) && HasSizes(p) && size != ""
    requires size !in Keys(p.inventory.value)
    ensures OutOfStock(p, size)
    ensures !AddToCart(p, size).value.disabled
  {
    GetFound(p.inventory.value, size);
  }

  // ---------------------------------------------------------------- badges

  /** `Object.values(inventory).reduce((sum, stock) => sum + stock, 0)`. */
  function Total(vs: seq<int>): int {
    if |vs| == 0 then 0 else Total(vs[..|vs| - 1]) + vs[|vs| - 1]
  }

  /** With no negative stock, the total is 0 exactly when every size is at 0. */
  lemma {:induction false} TotalZero(vs: seq<int>)
    requires forall i :: 0 <= i < |vs| ==> vs[i] >= 0
    ensures Total(vs) >= 0
    ensures Total(vs) == 0 <==> forall i :: 0 <= i < |vs| ==> vs[i] == 0
  {
    if |vs| > 0 {
      TotalZero(vs[..|vs| - 1]);
      assert forall i :: 0 <= i < |vs| - 1 ==> vs[..|vs| - 1][i] == vs[i];
    }
  }

  function TotalStock(p: StockedProduct): int
    requires p.inventory.Some?
  {
    Total(Values(p.inventory.value))
  }

  datatype Badge = OutOfStockBadge | LowStockBadge(total: int) | InStockBadge

  /** `SimpleInventoryBadge`. */
  function SimpleBadge(p: StockedProduct): Option<Badge> {
    if !Tracked(p) then None
    else
      var total := TotalStock(p);
      if total == 0 then Some(OutOfStockBadge)
      else if 0 < total <= 10 then Some(LowStockBadge(total))
      else Some(InStockBadge)
  }

  datatype CardBadge = SoldOut | UnitsLeft(n: int)

  /** `ProductCardInventoryBadge`: nothing above 10 units. */
  function ProductCardBadge(p: StockedProduct): Option<CardBadge> {
    if !Tracked(p) then None
    else
      var total := TotalStock(p);
      if total == 0 then Some(SoldOut)
      else if total <= 10 then Some(UnitsLeft(total))
      else None
  }

  /** The two badges tell the same story for non-negative totals: sold out
      together, the same count from 1 to 10, and above 10 the card shows
      nothing while the simple badge says "In Stock". A negative total reads
      "In Stock" on one and "N Left" on the other. */
  lemma BadgesAgree(p: StockedProduct)
    requires Tracked(p)
    ensures var total := TotalStock(p);
      && (SimpleBadge(p) == Some(OutOfStockBadge) <==> ProductCardBadge(p) == Some(SoldOut))
      && (total >= 0 ==> (SimpleBadge(p) == Some(InStockBadge) <==> ProductCardBadge(p) == None))
      && (total > 0 && total <= 10 ==>
            SimpleBadge(p) == Some(LowStockBadge(total)) && ProductCardBadge(p) == Some(UnitsLeft(total)))
      && (total < 0 ==> SimpleBadge(p) == Some(InStockBadge) && ProductCardBadge(p) == Some(UnitsLeft(total)))
  {
  }

  /** With no negative stock, the product shows "Sold Out" exactly when every
      size is at 0. */
  lemma SoldOutIffEverySizeOut(p: StockedProduct)
    requires Tracked(p)
    requires forall i :: 0 <= i < |p.inventory.value| ==> p.inventory.value[i].1 >= 0
    ensures ProductCardBadge(p) == Some(SoldOut)
      <==> forall i :: 0 <= i < |p.inventory.value| ==> p.inventory.value[i].1 == 0
  {
    TotalZero(Values(p.inventory.value));
  }

  // ---------------------------------------------------------------- selection

  /** `InventoryDisplay` with its `selectedSize` state; a disabled button
      ignores clicks. */
  class InventoryDisplay {
    const product: StockedProduct
    var selectedSize: string

    /** A size whose button exists and is enabled. */
    predicate Clickable(size: string) {
      HasSizes(product) && size in product.sizes.value && !OutOfStock(product, size)
    }

    /** The chosen size, if any, came from an enabled button. */
    ghost predicate Valid()
      reads this
    {
      selectedSize == "" || Clickable(selectedSize)
    }

    constructor(p: StockedProduct)
      ensures product == p && selectedSize == ""
      ensures Valid()
    {
      product := p;
      selectedSize := "";
    }

    method ClickSize(size: string)
      requires Valid()
      modifies this
      ensures Valid()
      ensures selectedSize == if Clickable(size) then size else old(selectedSize)
    {
      if Clickable(size) {
        selectedSize := size;
      }
    }

    function AddToCartButton(): Option<CartButton>
      reads this
    {
      AddToCart(product, selectedSize)
    }
  }

  /** A size chosen through its button is never stored with stock 0, so the
      add-to-cart button never reads "Out of Stock". */
  lemma SelectedNeverSoldOut(d: InventoryDisplay)
    requires d.Valid()
    requires HasSizes(d.product)
    ensures d.AddToCartButton().value.caption != "Out of Stock"
  {
  }
}
