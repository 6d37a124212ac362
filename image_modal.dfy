/** The full-screen image viewer (frontend/src/store/components/ImageModal.tsx):
    its props, its own `currentIndex` state, the reset when it opens, the
    keyboard listener that is registered only while it is open, and what it
    renders. `onClose` is a callback to the page; the model counts its calls. */
module ImageModal {
  import opened Wrappers
  import opened Js
  import opened Carousel

  /** The counter and the dots, shown only for more than one image. */
  datatype Controls = Controls(counter: string, dots: seq<bool>)

  /** What the modal renders: the image source (`undefined` for an index
      outside the list), its alt text, and the controls. */
  datatype ModalView = ModalView(src: Option<string>, alt: string, controls: Option<Controls>)

  /** `currentIndex + 1` as the page prints it. */
  function Ordinal(i: Number): string {
    match i
    case Int(k) => ShowInt(k + 1)
    case NaN => "NaN"
  }

  class ImageModal {
    var images: seq<string>
    var initialIndex: Number
    var isOpen: bool
    var productTitle: Option<string>
    var currentIndex: Number
    var closeRequests: nat

    /** Mounting: the state starts at the given index. */
    constructor(images: seq<string>, initialIndex: Number, isOpen: bool, productTitle: Option<string>)
      ensures this.images == images && this.initialIndex == initialIndex
      ensures this.isOpen == isOpen && this.productTitle == productTitle
      ensures currentIndex == initialIndex && closeRequests == 0
    {
      this.images := images;
      this.initialIndex := initialIndex;
      this.isOpen := isOpen;
      this.productTitle := productTitle;
      currentIndex := initialIndex;
      closeRequests := 0;
    }

    /** A render with new props: when `isOpen` or the given index changed and
        the modal is open, the effect moves the state to the given index. */
    method Rerender(images: seq<string>, initialIndex: Number, isOpen: bool, productTitle: Option<string>)
      modifies this
      ensures this.images == images && this.initialIndex == initialIndex
      ensures this.isOpen == isOpen && this.productTitle == productTitle
      ensures currentIndex ==
        if isOpen && (isOpen != old(this.isOpen) || initialIndex != old(this.initialIndex)) then initialIndex
        else old(currentIndex)
      ensures closeRequests == old(closeRequests)
    {
      var reset := isOpen != this.isOpen || initialIndex != this.initialIndex;
      this.images := images;
      this.initialIndex := initialIndex;
      this.isOpen := isOpen;
      this.productTitle := productTitle;
      if reset && isOpen {
        currentIndex := initialIndex;
      }
    }

    /** A key press. The listener exists only while the modal is open: Escape
        asks the page to close, the arrows step the index, other keys do
        nothing. */
    method KeyDown(key: string)
      modifies this
      ensures images == old(images) && initialIndex == old(initialIndex)
      ensures isOpen == old(isOpen) && productTitle == old(productTitle)
      ensures !isOpen ==> currentIndex == old(currentIndex) && closeRequests == old(closeRequests)
      ensures isOpen ==>
        && currentIndex == (if key == "ArrowLeft" then Previous(old(currentIndex), |images|)
                            else if key == "ArrowRight" then Next(old(currentIndex), |images|)
                            else old(currentIndex))
        && closeRequests == old(closeRequests) + (if key == "Escape" then 1 else 0)
      ensures InRange(old(currentIndex), |images|) ==> InRange(currentIndex, |images|)
    {
      if InRange(currentIndex, |images|) {
        StepsInRange(currentIndex, |images|);
      }
      if !isOpen {
        return;
      }
      if key == "Escape" {
        closeRequests := closeRequests + 1;
      } else if key == "ArrowLeft" {
        currentIndex := Previous(currentIndex, |images|);
      } else if key == "ArrowRight" {
        currentIndex := Next(currentIndex, |images|);
      }
    }

    /** The modal renders at all. */
    predicate Rendered()
      reads this
    {
      isOpen && |images| > 0
    }

    /** The previous and next buttons and the dots exist. */
    predicate ControlsShown()
      reads this
    {
      Rendered() && |images| > 1
    }

    method ClickPrevious()
      requires ControlsShown()
      modifies this
      ensures currentIndex == Previous(old(currentIndex), |images|)
      ensures images == old(images) && isOpen == old(isOpen) && closeRequests == old(closeRequests)
      ensures initialIndex == old(initialIndex) && productTitle == old(productTitle)
    {
      currentIndex := Previous(currentIndex, |images|);
    }

    method ClickNext()
      requires ControlsShown()
      modifies this
      ensures currentIndex == Next(old(currentIndex), |images|)
      ensures images == old(images) && isOpen == old(isOpen) && closeRequests == old(closeRequests)
      ensures initialIndex == old(initialIndex) && productTitle == old(productTitle)
    {
      currentIndex := Next(currentIndex, |images|);
    }

    /** A dot: shows that image. */
    method ClickDot(k: nat)
      requires ControlsShown() && k < |images|
      modifies this
      ensures currentIndex == Int(k)
      ensures images == old(images) && isOpen == old(isOpen) && closeRequests == old(closeRequests)
      ensures initialIndex == old(initialIndex) && productTitle == old(productTitle)
    {
      currentIndex := Int(k);
    }

    /** The close button or the backdrop: asks the page to close. */
    method ClickClose()
      requires Rendered()
      modifies this
      ensures closeRequests == old(closeRequests) + 1
      ensures currentIndex == old(currentIndex) && images == old(images) && isOpen == old(isOpen)
      ensures initialIndex == old(initialIndex) && productTitle == old(productTitle)
    {
      closeRequests := closeRequests + 1;
    }

    /** The rendered modal, nothing when closed or without images. */
    function View(): (v: Option<ModalView>)
      reads this
      ensures v.Some? <==> Rendered()
      ensures v.Some? ==> (v.value.controls.Some? <==> |images| > 1)
      ensures v.Some? && InRange(currentIndex, |images|) ==> v.value.src == Some(images[currentIndex.n])
    {
      if !Rendered() then None
      else
        var i := currentIndex;
        var n := |images|;
        var src := if InRange(i, |images|) then Some(images[i.n]) else None;
        var alt := if productTitle.Some? && productTitle.value != "" then productTitle.value + " - Image " + Ordinal(i)
                   else "Image " + Ordinal(i);
        var controls := if |images| > 1 then
            Some(Controls(Ordinal(i) + " / " + ShowInt(|images|),
                          seq(n, k requires 0 <= k < n => i == Int(k))))
          else None;
        Some(ModalView(src, alt, controls))
    }
  }

  /** With the index on an image, the counter reads "i+1 / n" and exactly the
      dot of the shown image is highlighted. */
  lemma ControlsOfView(m: ImageModal)
    requires m.ControlsShown() && InRange(m.currentIndex, |m.images|)
    ensures var c := m.View().value.controls.value;
      && c.counter == ShowInt(m.currentIndex.n + 1) + " / " + ShowInt(|m.images|)
      && |c.dots| == |m.images|
      && (forall k :: 0 <= k < |c.dots| ==> (c.dots[k] <==> k == m.currentIndex.n))
  {
  }
}
