/** The product page (frontend/src/store/pages/ProductDetail.tsx): the lookup
    of the product named in the URL among the bundled products, the size
    preselection and selector, the image carousel and its modal, and the
    add-to-cart button. */
module ProductDetail {
  import opened Wrappers
  import opened Js
  import opened StoreTypes
  import opened Carousel

  // ---------------------------------------------------------------- lookup

  /** `products.find((p) => p.id === id)`: the first product with that id;
      an absent route parameter matches none. */
  function FindProduct(ps: seq<Product>, id: Option<string>): (r: Option<Product>)
    ensures r.None? <==> id.None? || forall k :: 0 <= k < |ps| ==> ps[k].id != id.value
    ensures r.Some? ==> r.value in ps && id == Some(r.value.id)
  {
    if id.None? || |ps| == 0 then None
    else if ps[0].id == id.value then Some(ps[0])
    else FindProduct(ps[1..], id)
  }

  /** The product found is the first one carrying the id. */
  lemma {:induction false} FindsFirst(ps: seq<Product>, id: string, k: nat)
    requires k < |ps| && ps[k].id == id
    requires forall j :: 0 <= j < k ==> ps[j].id != id
    ensures FindProduct(ps, Some(id)) == Some(ps[k])
  {
    if k > 0 {
      FindsFirst(ps[1..], id, k - 1);
    }
  }

  /** The page's product: looked up in the bundled list only. */
  function PageProduct(id: Option<string>): (r: Option<Product>)
    ensures r.Some? ==> r.value in StoreProducts && id == Some(r.value.id)
  {
    FindProduct(StoreProducts, id)
  }

  /** Only the bundled product's id has a page; every other id, and a missing
      one, renders "Product Not Found". */
  lemma OnlyBundledIdFound(id: Option<string>)
    ensures PageProduct(id).Some? <==> id == Some("balm-shirt-2")
  {
    assert StoreProducts[0].id == "balm-shirt-2";
  }

  // ---------------------------------------------------------------- sizes

  /** `product.sizes?.[0] || null`: the first size when there is one and it is
      not empty. */
  function InitialSize(p: Product): (s: Option<string>)
    ensures s.Some? <==> p.sizes.Some? && |p.sizes.value| > 0 && p.sizes.value[0] != ""
    ensures s.Some? ==> s.value == p.sizes.value[0] && s.value in p.sizes.value
  {
    if p.sizes.Some? && |p.sizes.value| > 0 && Truthy(p.sizes.value[0]) then Some(p.sizes.value[0]) else None
  }

  /** The size buttons exist only for more than one size. */
  predicate SizeSelectorShown(p: Product) {
    p.sizes.Some? && |p.sizes.value| > 1
  }

  /** `product.fullDescription || product.description`. */
  function Description(p: Product): (d: string)
    ensures p.fullDescription.Some? && p.fullDescription.value != "" ==> d == p.fullDescription.value
    ensures p.fullDescription.None? || p.fullDescription.value == "" ==> d == p.description
  {
    OrElse(p.fullDescription, p.description)
  }

  /** The bundled shirt opens with "L" chosen, shows the size selector and the
      five-image carousel, and has no long description, so the short one is
      shown. */
  lemma BundledPage()
    ensures var p := StoreProducts[0];
      && InitialSize(p) == Some("L") && SizeSelectorShown(p)
      && |ImagesOf(p)| == 5 && Description(p) == p.description
  {
  }

  // ---------------------------------------------------------------- cart

  /** The object handed to `addItem`: no size and no quantity. */
  datatype AddItemPayload = AddItemPayload(id: string, title: string, price: int, image: string, description: string)

  /** The payload for a product: its main image and its short description. */
  function PayloadOf(p: Product): (a: AddItemPayload)
    ensures a.id == p.id && a.title == p.title && a.price == p.price
    ensures a.image == p.image && a.description == p.description
  {
    AddItemPayload(p.id, p.title, p.price, p.image, p.description)
  }

  // ---------------------------------------------------------------- page

  /** The page of a product that was found. The carousel is the page's own
      `currentImageIndex` over `ImagesOf(product)`; `added` records the calls
      to `addItem`. */
  class ProductDetailPage {
    const product: Product
    const carousel: ImageCarousel
    var selectedSize: Option<string>
    var modalImage: Option<ModalRequest>
    var added: seq<AddItemPayload>

    ghost predicate Valid()
      reads this, carousel
    {
      && carousel.Valid() && carousel.images == ImagesOf(product)
      && (selectedSize.Some? ==> product.sizes.Some? && selectedSize.value in product.sizes.value)
    }

    /** First render of a found product. */
    constructor(p: Product)
      ensures product == p && selectedSize == InitialSize(p)
      ensures fresh(carousel) && carousel.images == ImagesOf(p) && carousel.index == Int(0)
      ensures modalImage == None && added == []
      ensures Valid()
    {
      product := p;
      carousel := new ImageCarousel(ImagesOf(p));
      selectedSize := InitialSize(p);
      modalImage := None;
      added := [];
    }

    /** A size button; they exist only when the selector is shown. */
    method SelectSize(size: string)
      requires Valid() && SizeSelectorShown(product) && size in product.sizes.value
      modifies this
      ensures Valid() && selectedSize == Some(size)
      ensures modalImage == old(modalImage) && added == old(added)
    {
      selectedSize := Some(size);
    }

    method GoToPrevious()
      requires Valid() && carousel.ControlsShown()
      modifies carousel
      ensures Valid() && carousel.index == Previous(old(carousel.index), |carousel.images|)
    {
      carousel.GoToPrevious();
    }

    method GoToNext()
      requires Valid() && carousel.ControlsShown()
      modifies carousel
      ensures Valid() && carousel.index == Next(old(carousel.index), |carousel.images|)
    {
      carousel.GoToNext();
    }

    /** A dot button. */
    method GoTo(k: nat)
      requires Valid() && carousel.ControlsShown() && k < |carousel.images|
      modifies carousel
      ensures Valid() && carousel.index == Int(k)
    {
      carousel.GoTo(k);
    }

    /** A click on the image opens the modal on the images at the shown one. */
    method OpenModal()
      requires Valid()
      modifies this
      ensures Valid() && modalImage == Some(ModalRequest(ImagesOf(product), carousel.index))
      ensures modalImage.value.images[modalImage.value.currentIndex.n] == carousel.Shown()
      ensures selectedSize == old(selectedSize) && added == old(added)
    {
      modalImage := Some(carousel.ModalFor());
    }

    method CloseModal()
      requires Valid()
      modifies this
      ensures Valid() && modalImage == None
      ensures selectedSize == old(selectedSize) && added == old(added)
    {
      modalImage := None;
    }

    /** "Add to Cart": one more item with the product's fields; the chosen
        size is not part of it. */
    method AddToCart()
      requires Valid()
      modifies this
      ensures Valid() && added == old(added) + [PayloadOf(product)]
      ensures selectedSize == old(selectedSize) && modalImage == old(modalImage)
    {
      added := added + [PayloadOf(product)];
    }
  }
}
