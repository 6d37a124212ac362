/** The image carousels of the storefront: the product-card rows of the store
    page, the gallery of the product page and the full-screen image modal all
    step their index with `(i + 1) % n` and `(i - 1 + n) % n` over the
    product's images. Indices are JavaScript numbers, so `% 0` is NaN and NaN
    stays NaN. */
module Carousel {
  import opened Wrappers
  import opened Js
  import StoreTypes

  /** `a % n` in JavaScript for a positive `n`: the remainder takes the sign of
      `a`, unlike Dafny's `%`. */
  function Rem(a: int, n: int): (r: int)
    requires n > 0
    ensures a >= 0 ==> 0 <= r < n && r == a % n
    ensures a < 0 ==> r <= 0
  {
    if a >= 0 then a % n else -((-a) % n)
  }

  /** `goToNext`. */
  function Next(i: Number, n: nat): (j: Number)
    ensures j.NaN? <==> i.NaN? || n == 0
  {
    if i.NaN? || n == 0 then NaN else Int(Rem(i.n + 1, n))
  }

  /** `goToPrevious`. */
  function Previous(i: Number, n: nat): (j: Number)
    ensures j.NaN? <==> i.NaN? || n == 0
  {
    if i.NaN? || n == 0 then NaN else Int(Rem(i.n - 1 + n, n))
  }

  /** The index names one of the `n` images. */
  predicate InRange(i: Number, n: nat) {
    i.Int? && 0 <= i.n < n
  }

  lemma MulAtLeast(d: int, n: int)
    requires d >= 1 && n > 0
    ensures d * n >= n
  {
  }

  /** A remainder is pinned down by any quotient-remainder split. */
  lemma ModUnique(a: int, n: int, q: int, r: int)
    requires n > 0 && 0 <= r < n && a == q * n + r
    ensures a % n == r
  {
    var q', r' := a / n, a % n;
    assert (q - q') * n == r' - r;
    if q > q' {
      MulAtLeast(q - q', n);
    } else if q < q' {
      MulAtLeast(q' - q, n);
    }
  }

  lemma ModSucc(x: int, n: int)
    requires x >= 0 && n > 0
    ensures (x + 1) % n == (x % n + 1) % n
  {
    var q, r := x / n, x % n;
    if r + 1 < n {
      ModUnique(x + 1, n, q, r + 1);
    } else {
      ModUnique(x + 1, n, q + 1, 0);
      ModUnique(r + 1, n, 1, 0);
    }
  }

  /** From any non-negative index, even one past the end, both steps land on
      an image. */
  lemma StepsInRange(i: Number, n: nat)
    requires n > 0 && i.Int? && i.n >= 0
    ensures InRange(Next(i, n), n) && InRange(Previous(i, n), n)
  {
  }

  /** Inside the ring, next moves one on and wraps from the last image to the
      first, and previous moves one back and wraps from the first to the last. */
  lemma StepsWrap(i: Number, n: nat)
    requires InRange(i, n)
    ensures Next(i, n) == Int(if i.n == n - 1 then 0 else i.n + 1)
    ensures Previous(i, n) == Int(if i.n == 0 then n - 1 else i.n - 1)
  {
    if i.n == n - 1 {
      ModUnique(i.n + 1, n, 1, 0);
    } else {
      ModUnique(i.n + 1, n, 0, i.n + 1);
    }
    if i.n == 0 {
      ModUnique(n - 1, n, 0, n - 1);
    } else {
      ModUnique(i.n - 1 + n, n, 1, i.n - 1);
    }
  }

  /** Previous undoes next and next undoes previous. */
  lemma StepsUndo(i: Number, n: nat)
    requires InRange(i, n)
    ensures Previous(Next(i, n), n) == i
    ensures Next(Previous(i, n), n) == i
  {
    StepsWrap(i, n);
    StepsWrap(Next(i, n), n);
    StepsWrap(Previous(i, n), n);
  }

  /** `m` presses of next. */
  function Forward(i: Number, n: nat, m: nat): Number {
    if m == 0 then i else Next(Forward(i, n, m - 1), n)
  }

  /** `m` presses of next move the index `m` places round the ring. */
  lemma {:induction false} ForwardWraps(i: Number, n: nat, m: nat)
    requires InRange(i, n)
    ensures Forward(i, n, m) == Int((i.n + m) % n)
  {
    if m == 0 {
      ModUnique(i.n, n, 0, i.n);
    } else {
      ForwardWraps(i, n, m - 1);
      ModSucc(i.n + m - 1, n);
    }
  }

  /** `n` presses of next come back to the start. */
  lemma ForwardFullCircle(i: Number, n: nat)
    requires InRange(i, n)
    ensures Forward(i, n, n) == i
  {
    ForwardWraps(i, n, n);
    ModUnique(i.n + n, n, 1, i.n);
  }

  /** With no images both steps give NaN, and NaN is never left again. */
  lemma EmptyGivesNaN(i: Number, j: Number, n: nat)
    requires j.NaN?
    ensures Next(i, 0).NaN? && Previous(i, 0).NaN?
    ensures Next(j, n).NaN? && Previous(j, n).NaN?
  {
  }

  // ---------------------------------------------------------------- images

  /** `product.images && product.images.length > 0 ? product.images :
      [product.image]`. */
  function ImagesOf(p: StoreTypes.Product): (images: seq<string>)
    ensures |images| >= 1
    ensures p.images.Some? && |p.images.value| > 0 ==> images == p.images.value
    ensures p.images.None? || |p.images.value| == 0 ==> images == [p.image]
  {
    if p.images.Some? && |p.images.value| > 0 then p.images.value else [p.image]
  }

  /** What clicking the image asks for: the modal on these images at this
      index. */
  datatype ModalRequest = ModalRequest(images: seq<string>, currentIndex: Number)

  /** An in-page carousel: the images, fixed for the product, and the shown
      index, which starts at 0. */
  class ImageCarousel {
    const images: seq<string>
    var index: Number

    ghost predicate Valid()
      reads this
    {
      InRange(index, |images|)
    }

    constructor(images: seq<string>)
      requires |images| >= 1
      ensures this.images == images && index == Int(0)
      ensures Valid()
    {
      this.images := images;
      index := Int(0);
    }

    /** The arrows and dots exist only for more than one image. */
    predicate ControlsShown() {
      |images| > 1
    }

    method GoToPrevious()
      requires Valid() && ControlsShown()
      modifies this
      ensures Valid()
      ensures index == Previous(old(index), |images|)
    {
      StepsWrap(index, |images|);
      index := Previous(index, |images|);
    }

    method GoToNext()
      requires Valid() && ControlsShown()
      modifies this
      ensures Valid()
      ensures index == Next(old(index), |images|)
    {
      StepsWrap(index, |images|);
      index := Next(index, |images|);
    }

    /** A dot button: shows that image. */
    method GoTo(k: nat)
      requires Valid() && ControlsShown() && k < |images|
      modifies this
      ensures Valid() && index == Int(k)
    {
      index := Int(k);
    }

    /** The image shown opaque, all others transparent. */
    function Shown(): (src: string)
      requires Valid()
      reads this
      ensures src in images
    {
      images[index.n]
    }

    /** Opening the modal hands it these images at the shown index. */
    function ModalFor(): (r: ModalRequest)
      requires Valid()
      reads this
      ensures InRange(r.currentIndex, |r.images|) && r.images[r.currentIndex.n] == Shown()
    {
      ModalRequest(images, index)
    }
  }
}
