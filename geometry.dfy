/** Optional values, standing for the source's `null` / `undefined`. */
module Options {
  datatype Option<+T> = None | Some(value: T)
}

/**
 * The fit geometry of one slider (src/slider.ts, `resizeImg`): the image is
 * scaled by a single ratio so that it fits a viewport shrunk by a fixed
 * padding on every side, and the scaled rect is centred in the viewport.
 * Pixel values are exact reals.
 */
module Geometry {

  /** Padding, in pixels, kept free on each side of the viewport. */
  const Padding: real := 24.0

  /** A strictly positive length: the natural width or height of a loaded image. */
  type Positive = x: real | x > 0.0 witness 1.0

  /** A measured viewport size. */
  datatype Size = Size(width: real, height: real)

  /** The displayed rect of an image inside the viewport. */
  datatype Rect = Rect(left: real, top: real, width: real, height: real)

  /** What `resizeImg` computes: the ratio it stores and the rect it styles. */
  datatype Fit = Fit(ratio: real, rect: Rect)

  function Min(a: real, b: real): (m: real)
    ensures m <= a && m <= b
    ensures m == a || m == b
  {
    if a <= b then a else b
  }

  /** Width available to the image once both paddings are taken off. */
  function InnerWidth(size: Size): real { size.width - 2.0 * Padding }

  /** Height available to the image once both paddings are taken off. */
  function InnerHeight(size: Size): real { size.height - 2.0 * Padding }

  /**
   * The fit of an image of natural size `natW` x `natH` in a viewport of
   * the given size. The ratio is the smaller of the two per-axis ratios and
   * is not capped at 1, so small images are scaled up.
   */
  function FitImage(size: Size, natW: Positive, natH: Positive): (f: Fit)
    // the aspect ratio of the image is kept
    ensures f.rect.width == f.ratio * natW && f.rect.height == f.ratio * natH
    // the rect fits the padded viewport ...
    ensures f.rect.width <= InnerWidth(size) && f.rect.height <= InnerHeight(size)
    // ... and touches it in at least one dimension
    ensures f.rect.width == InnerWidth(size) || f.rect.height == InnerHeight(size)
    // the rect is centred in the viewport
    ensures f.rect.left + f.rect.width / 2.0 == size.width / 2.0
    ensures f.rect.top + f.rect.height / 2.0 == size.height / 2.0
  {
    var ratio := Min(InnerWidth(size) / natW, InnerHeight(size) / natH);
    var imgW := ratio * natW;
    var imgH := ratio * natH;
    Fit(ratio, Rect((size.width - imgW) / 2.0, (size.height - imgH) / 2.0, imgW, imgH))
  }

  /**
   * The ratio is the largest one that fits: any ratio whose scaled image
   * fits the padded viewport is at most the computed one.
   */
  lemma FitRatioIsLargest(size: Size, natW: Positive, natH: Positive, r: real)
    requires r * natW <= InnerWidth(size) && r * natH <= InnerHeight(size)
    ensures r <= FitImage(size, natW, natH).ratio
  {
  }

  /**
   * The ratio is not capped at 1: an image smaller than the padded viewport
   * in both dimensions is scaled up.
   */
  lemma FitUpscalesSmallImages(size: Size, natW: Positive, natH: Positive)
    requires natW < InnerWidth(size) && natH < InnerHeight(size)
    ensures FitImage(size, natW, natH).ratio > 1.0
  {
  }

  /**
   * When the viewport is at least as large as the two paddings, the rect
   * lies inside the viewport with at least the padding on every side.
   */
  lemma FitInsideViewport(size: Size, natW: Positive, natH: Positive)
    requires InnerWidth(size) >= 0.0 && InnerHeight(size) >= 0.0
    ensures var r := FitImage(size, natW, natH).rect;
      Padding <= r.left && r.left + r.width <= size.width - Padding &&
      Padding <= r.top && r.top + r.height <= size.height - Padding &&
      0.0 <= r.width && 0.0 <= r.height
  {
  }

  /**
   * Only the aspect ratio of the reported image size matters for the rect:
   * scaling both dimensions by the same factor gives the same rect, and the
   * ratio shrinks by that factor.
   */
  lemma FitScaleInvariant(size: Size, natW: Positive, natH: Positive, k: Positive)
    ensures var f, g := FitImage(size, natW, natH), FitImage(size, k * natW, k * natH);
      g.rect == f.rect && g.ratio * k == f.ratio
  {
  }
}
