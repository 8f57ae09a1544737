/**
 * One slider of the gallery (src/slider.ts): an image element bound to a
 * url, the last viewport size it was given, and the fit ratio and rect it
 * computed. Also the module-level pool that `destroy` pushes sliders onto
 * and the factory that pops from it.
 */
module Slide {
  import opened Options
  import opened Geometry

  /**
   * Load state of the image element: `Pending` while `complete` is false,
   * `Complete` once it has loaded, with the size the element reports.
   */
  datatype ImageStatus = Pending | Complete(natW: Positive, natH: Positive)

  /**
   * The observable state of a slider: its url (`undefined` when the gallery
   * indexed past the image list), the stored size (`null` when unset), the
   * ratio, the load state of its image, and the rect written to the
   * image's style (`None` while no style has been written).
   */
  datatype SliderView = SliderView(
    url: Option<string>,
    size: Option<Size>,
    ratio: real,
    image: ImageStatus,
    rect: Option<Rect>)

  /** The state of a newly constructed slider: ratio 1, nothing else set. */
  const FreshView: SliderView := SliderView(None, None, 1.0, Pending, None)

  /** `resizeImg`: recompute the fit, or change nothing when not ready. */
  function AfterResizeImg(v: SliderView): (r: SliderView)
    ensures r.url == v.url && r.size == v.size && r.image == v.image
    // no size or image not complete: a no-op
    ensures v.image.Pending? || v.size.None? ==> r == v
    // otherwise ratio and rect are those of the fit for the stored size
    ensures v.image.Complete? && v.size.Some? ==>
      var f := FitImage(v.size.value, v.image.natW, v.image.natH);
      r.ratio == f.ratio && r.rect == Some(f.rect)
  {
    match (v.image, v.size)
    case (Complete(w, h), Some(z)) =>
      var f := FitImage(z, w, h);
      v.(ratio := f.ratio, rect := Some(f.rect))
    case _ => v
  }

  /** `init`: bind a new url, forget the size and start loading the image. */
  function Initialized(v: SliderView, url: Option<string>): (r: SliderView)
    ensures r.url == url && r.size.None? && r.image.Pending?
    ensures r.ratio == v.ratio && r.rect == v.rect
  {
    v.(url := url, size := None, image := Pending)
  }

  /** `resize`: store the size, then `resizeImg`. */
  function Resized(v: SliderView, z: Size): (r: SliderView)
    ensures r.url == v.url && r.size == Some(z) && r.image == v.image
    ensures v.image.Pending? ==> r.ratio == v.ratio && r.rect == v.rect
    ensures v.image.Complete? ==>
      var f := FitImage(z, v.image.natW, v.image.natH);
      r.ratio == f.ratio && r.rect == Some(f.rect)
  {
    AfterResizeImg(v.(size := Some(z)))
  }

  /**
   * The `onload` handler: the image becomes complete with the given size
   * and `resizeImg` runs. The handler clears itself, so a slider whose
   * image is already complete does not react.
   */
  function Loaded(v: SliderView, natW: Positive, natH: Positive): (r: SliderView)
    ensures v.image.Complete? ==> r == v
    ensures v.image.Pending? ==> r.image == Complete(natW, natH) && r.url == v.url && r.size == v.size
    ensures v.image.Pending? && v.size.None? ==> r.ratio == v.ratio && r.rect == v.rect
    ensures v.image.Pending? && v.size.Some? ==>
      var f := FitImage(v.size.value, natW, natH);
      r.ratio == f.ratio && r.rect == Some(f.rect)
  {
    if v.image.Pending? then AfterResizeImg(v.(image := Complete(natW, natH))) else v
  }

  /**
   * Resizing twice keeps only the second size: the result is that of the
   * last resize alone. With `z1 == z2` this is idempotence.
   */
  lemma ResizeLastWins(v: SliderView, z1: Size, z2: Size)
    ensures Resized(Resized(v, z1), z2) == Resized(v, z2)
  {
  }

  /**
   * `init` forgets the size, so the load that follows it computes no rect:
   * ratio and rect stay as they were until the next `resize`.
   */
  lemma InitThenLoadComputesNoRect(v: SliderView, url: Option<string>, natW: Positive, natH: Positive)
    ensures var r := Loaded(Initialized(v, url), natW, natH);
      r.size.None? && r.ratio == v.ratio && r.rect == v.rect && r.image == Complete(natW, natH)
  {
  }

  /**
   * Whichever of the load and the resize happens first, once both have
   * happened after `init` the slider shows the fit of the image in the
   * latest size.
   */
  lemma LoadAndResizeCommute(v: SliderView, url: Option<string>, z: Size, natW: Positive, natH: Positive)
    ensures var s := Initialized(v, url);
      Loaded(Resized(s, z), natW, natH) == Resized(Loaded(s, natW, natH), z)
    ensures var f := FitImage(z, natW, natH);
      Resized(Loaded(Initialized(v, url), natW, natH), z).rect == Some(f.rect)
  {
  }

  /**
   * The slider's invariant: whenever a size is stored and the image is
   * complete, the ratio and rect are the fit of that image in that size.
   */
  predicate FitsStoredSize(v: SliderView)
  {
    v.image.Complete? && v.size.Some? ==>
      var f := FitImage(v.size.value, v.image.natW, v.image.natH);
      v.ratio == f.ratio && v.rect == Some(f.rect)
  }

  /** The things that happen to a slider: `init`, `resize` and the load event. */
  datatype SliderEvent =
    | InitWith(url: Option<string>)
    | ResizeTo(z: Size)
    | LoadDone(natW: Positive, natH: Positive)

  function Step(v: SliderView, e: SliderEvent): SliderView
  {
    match e
    case InitWith(u) => Initialized(v, u)
    case ResizeTo(z) => Resized(v, z)
    case LoadDone(w, h) => Loaded(v, w, h)
  }

  /** The state after the events, in order. */
  function Replay(v: SliderView, events: seq<SliderEvent>): SliderView
    decreases |events|
  {
    if events == [] then v else Replay(Step(v, events[0]), events[1..])
  }

  /** A new slider satisfies the invariant: it has no size. */
  lemma FreshFitsStoredSize()
    ensures FitsStoredSize(FreshView)
  {
  }

  /**
   * Every operation keeps the invariant, so along any sequence of
   * `init`, `resize` and load events the displayed rect is never stale:
   * once both a size and a complete image are known, the rect is the fit
   * for the latest stored size.
   */
  lemma {:induction false} ReplayKeepsFit(v: SliderView, events: seq<SliderEvent>)
    requires FitsStoredSize(v)
    ensures FitsStoredSize(Replay(v, events))
    decreases |events|
  {
    if events != [] {
      var w := Step(v, events[0]);
      assert FitsStoredSize(w) by {
        match events[0]
        case InitWith(u) =>
        case ResizeTo(z) =>
        case LoadDone(nw, nh) =>
      }
      ReplayKeepsFit(w, events[1..]);
    }
  }

  /**
   * A burst of resizes leaves the slider exactly as the last resize of the
   * burst alone would: the earlier sizes leave no trace.
   */
  lemma {:induction false} ResizeBurstKeepsLast(v: SliderView, events: seq<SliderEvent>)
    requires |events| > 0
    requires forall i :: 0 <= i < |events| ==> events[i].ResizeTo?
    ensures Replay(v, events) == Resized(v, events[|events| - 1].z)
    decreases |events|
  {
    var w := Resized(v, events[0].z);
    if |events| == 1 {
      assert Replay(v, events) == Replay(w, []);
    } else {
      ResizeBurstKeepsLast(w, events[1..]);
      ResizeLastWins(v, events[0].z, events[|events| - 1].z);
    }
  }

  /** The module-level array that destroyed sliders are pushed onto. */
  class SliderPool {
    var sliders: seq<Slider>

    constructor ()
      ensures sliders == []
    {
      sliders := [];
    }
  }

  /** The pool after `sliderFactory`: its last element popped when it has one. */
  function Popped<T>(pool: seq<T>): (r: seq<T>)
    ensures |pool| > 0 ==> |r| == |pool| - 1 && pool == r + [pool[|pool| - 1]]
    ensures |pool| == 0 ==> r == []
  {
    if |pool| > 0 then pool[..|pool| - 1] else pool
  }

  class Slider {
    var url: Option<string>
    var size: Option<Size>
    var ratio: real
    var image: ImageStatus
    var rect: Option<Rect>
    /** Whether `init` has created the image element and appended it to a parent. */
    var attached: bool

    function View(): SliderView
      reads this
    {
      SliderView(url, size, ratio, image, rect)
    }

    /** The displayed rect is never stale (see `FitsStoredSize`). */
    predicate Valid()
      reads this
    {
      FitsStoredSize(View())
    }

    constructor ()
      ensures Valid() && View() == FreshView && !attached
    {
      url, size, ratio, image, rect := None, None, 1.0, Pending, None;
      attached := false;
    }

    /** `init`: bind the url, unset the size, attach and start loading. */
    method Init(u: Option<string>)
      modifies this
      ensures Valid() && attached
      ensures View() == Initialized(old(View()), u)
    {
      url := u;
      size := None;
      attached := true;
      image := Pending;
    }

    /** `resize`: store the size and recompute the fit. */
    method Resize(z: Size)
      requires attached
      modifies this
      ensures Valid() && attached
      ensures View() == Resized(old(View()), z)
    {
      size := Some(z);
      ResizeImg();
    }

    /** The private `resizeImg`. */
    method ResizeImg()
      requires attached
      modifies this
      ensures attached
      ensures View() == AfterResizeImg(old(View()))
    {
      if image.Pending? || size.None? {
        return;
      }
      var f := FitImage(size.value, image.natW, image.natH);
      ratio := f.ratio;
      rect := Some(f.rect);
    }

    /** The image finished loading: the element's `onload` handler. */
    method ImageLoaded(natW: Positive, natH: Positive)
      requires Valid() && attached
      modifies this
      ensures Valid() && attached
      ensures View() == Loaded(old(View()), natW, natH)
    {
      if image.Pending? {
        image := Complete(natW, natH);
        ResizeImg();
      }
    }

    /** `destroy`: push this slider onto the pool; the slider itself is untouched. */
    method Destroy(pool: SliderPool)
      modifies pool
      ensures pool.sliders == old(pool.sliders) + [this]
    {
      pool.sliders := pool.sliders + [this];
    }
  }

  /**
   * `sliderFactory`: pops the pool when it is non-empty, but discards the
   * popped slider and always returns a newly constructed one, initialised
   * with the url.
   */
  method SliderFactory(pool: SliderPool, url: Option<string>) returns (s: Slider)
    modifies pool
    ensures fresh(s) && s.Valid() && s.attached
    ensures s.View() == Initialized(FreshView, url)
    ensures pool.sliders == Popped(old(pool.sliders))
  {
    if |pool.sliders| > 0 {
      // the popped slider is overwritten below without being used
      var _ := pool.sliders[|pool.sliders| - 1];
      pool.sliders := pool.sliders[..|pool.sliders| - 1];
    }
    s := new Slider();
    s.Init(url);
  }
}
