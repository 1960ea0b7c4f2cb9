/**
 * The preview's shrink-to-fit factor (src/components/Canvas.tsx:81-109).
 *
 * Whenever the wrapper is resized or a layout-affecting prop changes, the
 * canvas measures the wrapper and the export container and sets
 * `scale = min((wrapperW - 80) / contentW, (wrapperH - 80) / contentH, 1)`.
 * Sizes are whole CSS pixels; the arithmetic is done exactly, over `real`.
 */
module FitScaler {
  import opened Options

  /** The inset kept free around the scaled content (Canvas.tsx:90). */
  const SafePadding: int := 80

  /** A measured box: `clientWidth`/`clientHeight` or `offsetWidth`/`offsetHeight`. */
  datatype Size = Size(width: nat, height: nat)

  /** The canvas mode prop. */
  datatype Mode = Image | Code

  function Min(a: real, b: real): real { if a <= b then a else b }

  /** The room left inside a wrapper side once the inset is taken off; it may be negative. */
  function Available(side: nat): int { side - SafePadding }

  /** The factor `updateScale` computes (Canvas.tsx:90-99). */
  function FitScale(wrapper: Size, content: Size): (s: real)
    requires content.width > 0 && content.height > 0
    ensures s <= 1.0
    ensures s * content.width as real <= Available(wrapper.width) as real
    ensures s * content.height as real <= Available(wrapper.height) as real
    ensures s == 1.0 || s * content.width as real == Available(wrapper.width) as real
                     || s * content.height as real == Available(wrapper.height) as real
  {
    var scaleX := Available(wrapper.width) as real / content.width as real;
    var scaleY := Available(wrapper.height) as real / content.height as real;
    var s := Min(Min(scaleX, scaleY), 1.0);
    ScaledBound(s, scaleX, content.width);
    ScaledBound(s, scaleY, content.height);
    s
  }

  /** `s <= a / c` with `c > 0` is `s * c <= a`, with equality carried over. */
  lemma ScaledBound(s: real, q: real, c: nat)
    requires c > 0
    ensures s <= q ==> s * c as real <= q * c as real
    ensures s == q ==> s * c as real == q * c as real
  {
  }

  /** The factor is the largest one that keeps both sides inside the inset without upscaling. */
  lemma FitIsLargest(wrapper: Size, content: Size, t: real)
    requires content.width > 0 && content.height > 0
    requires t <= 1.0
    requires t * content.width as real <= Available(wrapper.width) as real
    requires t * content.height as real <= Available(wrapper.height) as real
    ensures t <= FitScale(wrapper, content)
  {
  }

  /** Content that fits inside the inset is shown at natural size. */
  lemma FitsMeansNatural(wrapper: Size, content: Size)
    requires content.width > 0 && content.height > 0
    ensures FitScale(wrapper, content) == 1.0 <==>
      content.width <= Available(wrapper.width) && content.height <= Available(wrapper.height)
  {
  }

  /** The factor is positive exactly when both wrapper sides exceed the inset;
      nothing in the code guards the other case, which yields zero or a negative factor. */
  lemma PositiveIff(wrapper: Size, content: Size)
    requires content.width > 0 && content.height > 0
    ensures FitScale(wrapper, content) > 0.0 <==> wrapper.width > SafePadding && wrapper.height > SafePadding
  {
    var s := FitScale(wrapper, content);
    var cw, ch := content.width as real, content.height as real;
    if wrapper.width > SafePadding && wrapper.height > SafePadding {
      var t := Min(Min(Available(wrapper.width) as real / cw, Available(wrapper.height) as real / ch), 1.0);
      assert t > 0.0;
      ScaledBound(t, Available(wrapper.width) as real / cw, content.width);
      ScaledBound(t, Available(wrapper.height) as real / ch, content.height);
      FitIsLargest(wrapper, content, t);
    } else if wrapper.width <= SafePadding {
      assert s * cw <= 0.0;
    } else {
      assert s * ch <= 0.0;
    }
  }

  /** Two measurements: a 520x420 container in an 800x600 wrapper keeps natural size;
      in a 300x300 wrapper it shrinks to 220/520. */
  lemma ResizeScenario()
    ensures FitScale(Size(800, 600), Size(520, 420)) == 1.0
    ensures FitScale(Size(300, 300), Size(520, 420)) == 220.0 / 520.0
  {
  }

  /** `Math.round(scale * 100)` in the fit label (Canvas.tsx:262), over exact reals. */
  function PercentLabel(scale: real): (p: int)
    ensures p as real - 0.5 <= scale * 100.0 < p as real + 0.5
  {
    (scale * 100.0 + 0.5).Floor
  }

  lemma LabelRange(scale: real)
    requires 0.0 <= scale <= 1.0
    ensures 0 <= PercentLabel(scale) <= 100
    ensures scale == 1.0 ==> PercentLabel(scale) == 100
  {
  }

  /** Whether a recompute is skipped: image mode without an image renders the upload
      prompt instead of the container (Canvas.tsx:83, 178), and a missing wrapper or
      container element stops `updateScale` too (Canvas.tsx:88). */
  predicate Skipped(mode: Mode, hasImage: bool, wrapper: Option<Size>, content: Option<Size>)
    ensures !Skipped(mode, hasImage, wrapper, content) ==> wrapper.Some? && content.Some?
    ensures mode == Image && !hasImage ==> Skipped(mode, hasImage, wrapper, content)
  {
    (mode == Image && !hasImage) || wrapper.None? || content.None?
  }

  /** The canvas component's `scale` state. */
  class Canvas {
    var scale: real

    ghost predicate Valid()
      reads this
    {
      scale <= 1.0
    }

    /** `useState(1)` (Canvas.tsx:54). */
    constructor ()
      ensures Valid() && scale == 1.0
    {
      scale := 1.0;
    }

    /** One run of the effect and its `updateScale` closure (Canvas.tsx:83-101). */
    method UpdateScale(mode: Mode, hasImage: bool, wrapper: Option<Size>, content: Option<Size>)
      requires Valid()
      requires content.Some? ==> content.value.width > 0 && content.value.height > 0
      modifies this
      ensures Valid()
      ensures Skipped(mode, hasImage, wrapper, content) ==> scale == old(scale)
      ensures !Skipped(mode, hasImage, wrapper, content) ==> scale == FitScale(wrapper.value, content.value)
    {
      if (mode == Image && !hasImage) || wrapper.None? || content.None? {
        return;
      }
      var availableWidth := wrapper.value.width - SafePadding;
      var availableHeight := wrapper.value.height - SafePadding;
      var contentWidth := content.value.width;
      var contentHeight := content.value.height;
      var scaleX := availableWidth as real / contentWidth as real;
      var scaleY := availableHeight as real / contentHeight as real;
      scale := Min(Min(scaleX, scaleY), 1.0);
    }
  }
}
