/** The store's front page (frontend/src/store/pages/Store.tsx): the product
    list, which starts as the bundled products and is replaced once by the
    fetch of the catalog, the filter by the active category, the image row of
    each product card and the image modal the rows open. */
module StorePage {
  import opened Wrappers
  import opened Js
  import opened StoreTypes
  import opened Carousel

  // ---------------------------------------------------------------- fetch

  /** How the catalog request ended: the request or the JSON decoding threw,
      or a response came with its `ok` flag and its `products` member
      (`None` when it is missing or null). */
  datatype ProductsResponse = Threw | Answered(ok: bool, products: Option<seq<Product>>)

  /** The response is used only when it is ok and carries a non-empty list. */
  predicate Accepted(r: ProductsResponse) {
    r.Answered? && r.ok && r.products.Some? && |r.products.value| > 0
  }

  /** The list `fetchProducts` leaves in the state: the fetched products when
      accepted, the bundled ones in every other case. */
  function Fetched(r: ProductsResponse): (ps: seq<Product>)
    ensures Accepted(r) ==> ps == r.products.value
    ensures !Accepted(r) ==> ps == StoreProducts
  {
    if Accepted(r) then r.products.value else StoreProducts
  }

  /** The page never shows an empty catalog: whatever the fetch does, there is
      at least one product, and a list other than the bundled one came from
      an ok response. */
  lemma FetchedNeverEmpty(r: ProductsResponse)
    ensures |Fetched(r)| >= 1
    ensures Fetched(r) != StoreProducts ==> r.Answered? && r.ok && r.products == Some(Fetched(r))
  {
  }

  // ---------------------------------------------------------------- filter

  /** The products of one main category, in their order. */
  function OfCategory(ps: seq<Product>, c: string): (r: seq<Product>)
    ensures |r| <= |ps|
    ensures forall p :: p in r <==> p in ps && p.mainCategory == c
  {
    if |ps| == 0 then []
    else if ps[0].mainCategory == c then [ps[0]] + OfCategory(ps[1..], c)
    else OfCategory(ps[1..], c)
  }

  /** `activeCategory` is truthy: set and not empty. */
  predicate Filtering(category: Option<string>) {
    category.Some? && Truthy(category.value)
  }

  /** `filteredProducts`. */
  function Filtered(ps: seq<Product>, category: Option<string>): (r: seq<Product>)
    ensures !Filtering(category) ==> r == ps
    ensures Filtering(category) ==> forall p :: p in r <==> p in ps && p.mainCategory == category.value
  {
    if Filtering(category) then OfCategory(ps, category.value) else ps
  }

  /** Filtering keeps the order: the filter of a concatenation is the
      concatenation of the filters. */
  lemma {:induction false} OfCategoryAppend(a: seq<Product>, b: seq<Product>, c: string)
    ensures OfCategory(a + b, c) == OfCategory(a, c) + OfCategory(b, c)
  {
    if |a| > 0 {
      assert (a + b)[0] == a[0] && (a + b)[1..] == a[1..] + b;
      OfCategoryAppend(a[1..], b, c);
    } else {
      assert a + b == b;
    }
  }

  /** A list already of one category passes the filter unchanged. */
  lemma {:induction false} OfCategoryKeeps(ps: seq<Product>, c: string)
    requires forall i :: 0 <= i < |ps| ==> ps[i].mainCategory == c
    ensures OfCategory(ps, c) == ps
  {
    if |ps| > 0 {
      OfCategoryKeeps(ps[1..], c);
    }
  }

  /** Filtering twice by the same category is filtering once. */
  lemma FilterIdempotent(ps: seq<Product>, category: Option<string>)
    ensures Filtered(Filtered(ps, category), category) == Filtered(ps, category)
  {
    if Filtering(category) {
      var r := OfCategory(ps, category.value);
      assert forall i :: 0 <= i < |r| ==> r[i] in r;
      OfCategoryKeeps(r, category.value);
    }
  }

  /** On the bundled list, the "art" category shows the one product and any
      other category shows nothing. */
  lemma BundledByCategory(c: string)
    requires c != ""
    ensures Filtered(StoreProducts, Some(c)) == if c == "art" then StoreProducts else []
  {
    var p := StoreProducts[0];
    assert StoreProducts == [p];
    assert OfCategory(StoreProducts, c) == (if p.mainCategory == c then [p] else []) + OfCategory([], c);
  }

  // ---------------------------------------------------------------- image row

  /** What a click on a card's image does. */
  datatype ClickAction = OpenModal(request: ModalRequest) | Navigate(path: string)

  /** `handleImageClick`: with a modal handler the row asks for the modal on
      its images at its index, otherwise it follows `onImageClick`, which on
      this page goes to the product's page. */
  function ImageClick(row: ModalRequest, productId: string, hasModalHandler: bool): (a: ClickAction)
    ensures a.OpenModal? <==> hasModalHandler
    ensures a.OpenModal? ==> a.request == row
    ensures a.Navigate? ==> a.path == "/product/" + productId
  {
    if hasModalHandler then OpenModal(row) else Navigate("/product/" + productId)
  }

  // ---------------------------------------------------------------- page

  /** `modalImage`: the images, the index and the title the modal opens with. */
  datatype ModalImage = ModalImage(images: seq<string>, currentIndex: Number, productTitle: string)

  class StorePage {
    var products: seq<Product>
    var modalImage: Option<ModalImage>

    /** First render: the bundled products and no modal. */
    constructor()
      ensures products == StoreProducts && modalImage == None
    {
      products := StoreProducts;
      modalImage := None;
    }

    /** The effect's fetch completing. */
    method LoadProducts(r: ProductsResponse)
      modifies this
      ensures products == Fetched(r) && |products| >= 1
      ensures modalImage == old(modalImage)
    {
      FetchedNeverEmpty(r);
      products := Fetched(r);
    }

    /** The cards on screen for the active category. */
    function Visible(category: Option<string>): (r: seq<Product>)
      reads this
      ensures forall p :: p in r ==> p in products
    {
      Filtered(products, category)
    }

    /** A click on a card's image. The page always passes a modal handler, so
        the click opens the modal on the row's images at the image the row
        shows, titled with the product. */
    method ClickCardImage(row: ImageCarousel, p: Product)
      requires row.Valid()
      modifies this
      ensures ImageClick(row.ModalFor(), p.id, true) == OpenModal(ModalRequest(row.images, row.index))
      ensures modalImage == Some(ModalImage(row.images, row.index, p.title))
      ensures InRange(row.index, |row.images|) && row.images[row.index.n] == row.Shown()
      ensures products == old(products)
    {
      var req := row.ModalFor();
      match ImageClick(req, p.id, true)
      case OpenModal(q) =>
        modalImage := Some(ModalImage(q.images, q.currentIndex, p.title));
      case Navigate(_) =>
    }

    /** `onClose`: the modal is unmounted. */
    method CloseModal()
      modifies this
      ensures modalImage == None && products == old(products)
    {
      modalImage := None;
    }
  }
}
