/**
 * The gallery controller (src/index.ts): picks the current index, holds the
 * sliders (exactly one, bound to the current image), forwards every
 * measured size to them and destroys them on close.
 */
module GalleryController {
  import opened Options
  import opened Geometry
  import opened Slide

  /** `index || 0`: an absent index and the index 0 both give 0. */
  function InitialIndex(index: Option<int>): (r: int)
    ensures index.Some? && index.value != 0 ==> r == index.value
    ensures index.None? || index == Some(0) ==> r == 0
  {
    if index.Some? && index.value != 0 then index.value else 0
  }

  /** `images[i]`: the url at `i`, or `undefined` outside the list. */
  function ImageAt(images: seq<string>, i: int): (r: Option<string>)
    ensures r.Some? <==> 0 <= i < |images|
    ensures r.Some? ==> r.value == images[i]
  {
    if 0 <= i < |images| then Some(images[i]) else None
  }

  /** What a click inside the gallery element landed on. */
  datatype ClickTarget = Backdrop | SlideImage

  class Gallery {
    const images: seq<string>
    /** Set once by the constructor; no method assigns it. */
    const currentIndex: int
    var size: Option<Size>
    var currentSlide: Slider?
    var sliders: seq<Slider>
    /** Whether the gallery element is still a child of its root. */
    var attached: bool
    /**
     * Whether the window resize listener is registered. `destroy` passes
     * `this.resize` to `removeEventListener`, not the debounced wrapper
     * that was registered, so it stays registered.
     */
    var resizeListening: bool

    /**
     * The current slider has been initialised (its image element exists)
     * and keeps its own invariant. While attached, the only slider is the
     * current one; once destroyed, there are none.
     */
    ghost predicate Valid()
      reads this, currentSlide
    {
      currentSlide != null && currentSlide.Valid() && currentSlide.attached &&
      (attached ==> sliders == [currentSlide]) &&
      (!attached ==> sliders == [])
    }

    /**
     * The constructor, given the size the new gallery element measures at
     * its first `resize`.
     */
    constructor (imgs: seq<string>, index: Option<int>, pool: SliderPool, measured: Size)
      modifies pool
      ensures Valid() && attached && resizeListening && currentSlide.attached
      ensures images == imgs && currentIndex == InitialIndex(index)
      ensures size == Some(measured)
      ensures fresh(currentSlide) && sliders == [currentSlide]
      ensures currentSlide.View() == Resized(Initialized(FreshView, ImageAt(imgs, currentIndex)), measured)
      ensures pool.sliders == Popped(old(pool.sliders))
    {
      images := imgs;
      currentIndex := InitialIndex(index);
      size := None;
      currentSlide := null;
      sliders := [];
      attached := true;
      resizeListening := true;
      new;
      AddSliders(pool);
      ghost var before := currentSlide.View();
      Resize(measured);
      assert sliders[0] == currentSlide;
      assert currentSlide.View() == Resized(before, measured);
    }

    /** `addSliders`: one new slider for `images[currentIndex]`. */
    method AddSliders(pool: SliderPool)
      modifies this, pool
      ensures attached == old(attached) && size == old(size)
      ensures resizeListening == old(resizeListening)
      ensures fresh(currentSlide) && sliders == [currentSlide]
      ensures currentSlide.Valid() && currentSlide.attached
      ensures currentSlide.View() == Initialized(FreshView, ImageAt(images, currentIndex))
      ensures pool.sliders == Popped(old(pool.sliders))
    {
      var s := SliderFactory(pool, ImageAt(images, currentIndex));
      currentSlide := s;
      sliders := [s];
    }

    /** `resize`: record the measured size and pass it to every slider. */
    method Resize(measured: Size)
      requires Valid()
      modifies this, sliders
      ensures Valid()
      ensures size == Some(measured)
      ensures sliders == old(sliders) && currentSlide == old(currentSlide)
      ensures attached == old(attached) && resizeListening == old(resizeListening)
      ensures forall k :: 0 <= k < |sliders| ==>
        sliders[k].View() == Resized(old(sliders[k].View()), measured)
    {
      size := Some(measured);
      var i := 0;
      while i < |sliders|
        invariant 0 <= i <= |sliders|
        invariant Valid()
        invariant size == Some(measured)
        invariant sliders == old(sliders) && currentSlide == old(currentSlide)
        invariant attached == old(attached) && resizeListening == old(resizeListening)
        invariant forall k :: 0 <= k < i ==>
          sliders[k].View() == Resized(old(sliders[k].View()), measured)
        invariant forall k :: i <= k < |sliders| ==> sliders[k].View() == old(sliders[k].View())
      {
        sliders[i].Resize(measured);
        i := i + 1;
      }
    }

    /**
     * `destroy`: detach the gallery element, then push every slider onto
     * the pool and empty the list. Removing an element that is no longer
     * attached throws before anything changes: `ok` is false and the state
     * is unchanged. The resize listener is not removed.
     */
    method Destroy(pool: SliderPool) returns (ok: bool)
      requires Valid()
      modifies this, pool
      ensures Valid()
      ensures ok == old(attached)
      ensures ok ==> !attached && sliders == [] && pool.sliders == old(pool.sliders) + old(sliders)
      ensures !ok ==> attached == old(attached) && sliders == old(sliders) && pool.sliders == old(pool.sliders)
      ensures size == old(size) && currentSlide == old(currentSlide)
      ensures resizeListening == old(resizeListening)
    {
      ok := attached;
      if !ok {
        return;
      }
      attached := false;
      var i := 0;
      while i < |sliders|
        invariant 0 <= i <= |sliders|
        invariant sliders == old(sliders) && !attached
        invariant size == old(size) && currentSlide == old(currentSlide)
        invariant resizeListening == old(resizeListening)
        invariant pool.sliders == old(pool.sliders) + sliders[..i]
      {
        sliders[i].Destroy(pool);
        i := i + 1;
      }
      assert sliders[..i] == sliders;
      sliders := [];
    }

    /**
     * The click listener on the gallery element: a click on the element
     * itself (the backdrop) destroys the gallery; a click on the image
     * does nothing.
     */
    method OnClick(target: ClickTarget, pool: SliderPool)
      requires Valid()
      modifies this, pool
      ensures Valid()
      ensures target == SlideImage ==>
        attached == old(attached) && sliders == old(sliders) && pool.sliders == old(pool.sliders)
      ensures target == Backdrop ==> !attached
      ensures target == Backdrop && old(attached) ==>
        sliders == [] && pool.sliders == old(pool.sliders) + old(sliders)
      ensures target == Backdrop && !old(attached) ==>
        sliders == old(sliders) && pool.sliders == old(pool.sliders)
      ensures size == old(size) && currentSlide == old(currentSlide)
      ensures resizeListening == old(resizeListening)
    {
      if target == Backdrop {
        var _ := Destroy(pool);
      }
    }
  }

  /** `duckGallery`: construct a gallery from the options. */
  method DuckGallery(images: seq<string>, index: Option<int>, pool: SliderPool, measured: Size)
    returns (g: Gallery)
    modifies pool
    ensures fresh(g) && g.Valid() && g.attached && g.resizeListening
    ensures g.images == images && g.currentIndex == InitialIndex(index)
    ensures g.size == Some(measured)
    ensures fresh(g.currentSlide) && g.sliders == [g.currentSlide]
    ensures g.currentSlide.View() == Resized(Initialized(FreshView, ImageAt(images, g.currentIndex)), measured)
    ensures pool.sliders == Popped(old(pool.sliders))
  {
    g := new Gallery(images, index, pool, measured);
  }

  /**
   * A gallery's life: it opens with a first measured size, its image
   * loads, the window is resized, a click lands on the image and then on
   * the backdrop. The image ends up fitted in the latest size and the
   * slider ends up in the pool.
   */
  method OpenLoadResizeClose(images: seq<string>, m1: Size, m2: Size, natW: Positive, natH: Positive)
    returns (rect: Option<Rect>, pooled: nat)
    ensures rect == Some(FitImage(m2, natW, natH).rect)
    ensures pooled == 1
  {
    var pool := new SliderPool();
    var g := DuckGallery(images, None, pool, m1);
    g.currentSlide.ImageLoaded(natW, natH);
    g.Resize(m2);
    assert g.sliders[0] == g.currentSlide;
    rect := g.currentSlide.rect;
    g.OnClick(SlideImage, pool);
    assert g.attached;
    g.OnClick(Backdrop, pool);
    pooled := |pool.sliders|;
  }
}
