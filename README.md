# duckGallery core: slider fit geometry, slider pool and gallery bookkeeping

This project is a Dafny model of the early duckGallery image viewer. The
modelled version has no gestures, no three-slide window, no zoom or pan and
no settle animation. It has three parts, and the model covers all three:

- **Slider** (`src/slider.ts`). A slider holds a url, an optional viewport
  size, the load state of its image element and the ratio and rect it last
  computed. `resizeImg` does nothing until both a size is set and the image
  is complete. Then it fits the image inside the viewport, padded by 24px on
  each side. It takes the smaller of the two per-axis ratios, with no cap at
  1, and centres the scaled rect. Pixel values are exact `real`s.
  `Geometry.FitImage` states the fit, the aspect ratio and the centring.
  `Slide.SliderView` is a slider's state as a value. The functions
  `Initialized`, `Resized`, `AfterResizeImg` and `Loaded` describe each
  operation. The `Slide.Slider` class's methods are proved to behave as
  those functions say.
- **Slider pool**. `destroy` pushes the slider onto a module-level array,
  modelled as the `SliderPool` class. `sliderFactory` pops that array when
  it is non-empty. It then throws the popped slider away and always
  constructs a new one. The model does the same.
- **Gallery** (`src/index.ts`). The constructor takes `index || 0` as the
  current index. It holds exactly one slider, bound to
  `images[currentIndex]`, and forwards every measured size to it. `destroy`
  pushes every slider onto the pool and empties the list. A click on the
  gallery element itself destroys the gallery. A click on the image does
  nothing.

Inputs from the host become parameters:
- The measured `offsetWidth`/`offsetHeight` is the `measured: Size`
  argument.
- The image's load is the event method `Slider.ImageLoaded(natW, natH)`.
- The module-level pool is a `SliderPool` object passed to the methods that
  touch it.
- A click is a `ClickTarget` value.

Three behaviours of the code are kept as written:
- An index past the end of the list gives the url `undefined`. It is
  modelled as `None` in `ImageAt`, not as an error.
- A second `destroy` throws in `removeChild` before anything changes. It is
  modelled as `ok == false` with the state unchanged.
- `removeEventListener` is given `this.resize`, not the debounced wrapper
  that was registered. So the window resize listener is never removed:
  `Gallery.resizeListening` stays `true` after `Destroy`.

`currentIndex` is a `const` field. It is set in the constructor, and no
method can assign it.

## Model

| member | source | states |
|---|---|---|
| Geometry.FitImage | src/slider.ts:44-56 | The displayed size is ratio times the natural size in both axes, so the aspect ratio is kept. The rect fits inside the viewport less 2*24 in each axis and touches that bound in at least one axis. The rect is centred: left + width/2 = W/2 and top + height/2 = H/2. |
| Geometry.FitRatioIsLargest | src/slider.ts:46-48 | Every ratio that fits the padded viewport in both axes is at most the computed ratio. The computed ratio is therefore min((W-48)/natW, (H-48)/natH). |
| Geometry.FitUpscalesSmallImages | src/slider.ts:48-51 | There is no cap at 1. An image smaller than the padded viewport in both axes gets a ratio above 1, so it is scaled up. |
| Geometry.FitInsideViewport | src/slider.ts:46-55 | If W, H >= 48, the rect has non-negative size and lies inside the viewport with at least 24px on every side. |
| Geometry.FitScaleInvariant | src/slider.ts:48-50 | Scaling the reported image size by any k > 0 gives the same rect, and the ratio is divided by k. Only the image's aspect ratio decides the rect. |
| Slide.AfterResizeImg | src/slider.ts:44-56 | `resizeImg` changes nothing when the image is not complete or no size is set. Otherwise it stores the fit's ratio and rect for the stored size and leaves url, size and image as they were. |
| Slide.Initialized | src/slider.ts:17-29 | `init` binds the url, unsets the size and restarts the image load. Ratio and rect are not reset. |
| Slide.Resized | src/slider.ts:39-42 | `resize` stores the size. With the image complete, ratio and rect become the fit for that size. With the image pending, ratio and rect are unchanged. |
| Slide.Loaded | src/slider.ts:31-37 | The load handler marks the image complete and runs `resizeImg`. With a size stored, ratio and rect become the fit of the loaded image in that size. With no size set it computes no rect. Once the image is complete, a further load event changes nothing, because the handler has cleared itself. |
| Slide.ResizeLastWins | src/slider.ts:39-42 | Two resizes in a row leave the same state as the second resize alone. Resizing twice with the same size is the same as resizing once. |
| Slide.InitThenLoadComputesNoRect | src/slider.ts:17-37 | After `init`, the load event leaves the size unset and the ratio and rect as they were. No rect is computed until a later `resize`. |
| Slide.LoadAndResizeCommute | src/slider.ts:31-42 | After `init`, a load then a resize gives the same state as the resize then the load. Either way the rect is the fit of the image in that size. |
| Slide.FreshFitsStoredSize | src/slider.ts:10-15 | A new slider satisfies the slider invariant `FitsStoredSize`: whenever a size is stored and the image is complete, ratio and rect are the fit of that image in that size. |
| Slide.ReplayKeepsFit | src/slider.ts:17-56 | Every sequence of `init`, `resize` and load events keeps that invariant. Once a size and a complete image are both known, the rect is the fit for the latest stored size, whatever order the events came in. |
| Slide.ResizeBurstKeepsLast | src/slider.ts:39-56 | After a burst of resizes, the slider is in the same state as after the last resize of the burst alone. This is why the debounced window listener at src/index.ts:38 may drop all but the last call without changing the final state. |
| Slide.Popped | src/slider.ts:71-74 | The pool after `sliderFactory` is one element shorter when it was non-empty, with its last element removed. An empty pool stays empty. |
| Slide.SliderPool.constructor | src/slider.ts:70 | The pool starts empty. |
| Slide.Slider.constructor | src/slider.ts:10-15 | A new slider has ratio 1, no url, no size, no rect, a pending image, and is not attached. It satisfies the invariant `Valid()` (`FitsStoredSize`). |
| Slide.Slider.Init | src/slider.ts:17-29 | The slider's new state is `Initialized(old state, url)`, and it is attached to a parent. The invariant holds afterwards. |
| Slide.Slider.Resize | src/slider.ts:39-42 | The slider's new state is `Resized(old state, size)`. The invariant holds afterwards. |
| Slide.Slider.ResizeImg | src/slider.ts:44-56 | The slider's new state is `AfterResizeImg(old state)`. |
| Slide.Slider.ImageLoaded | src/slider.ts:31-37 | The slider's new state is `Loaded(old state, natW, natH)`. The invariant is preserved. |
| Slide.Slider.Destroy | src/slider.ts:58-60 | The pool grows by exactly this slider, appended at the end. |
| Slide.SliderFactory | src/slider.ts:71-77 | The pool is popped when non-empty. The returned slider is always newly allocated, never the popped one. It is initialised with the url, attached, and satisfies the invariant. |
| GalleryController.InitialIndex | src/index.ts:22 | JavaScript's "index or 0": a non-zero index is kept, and an absent index or 0 gives 0. |
| GalleryController.ImageAt | src/index.ts:43 | `images[i]` is the url at `i` exactly when 0 <= i and i is below the length of `images`. Otherwise it is `undefined`. |
| GalleryController.Gallery.constructor | src/index.ts:20-40 | The current index is "index or 0" (`InitialIndex`). The only slider is a new one, bound to `images[currentIndex]` and resized to the first measured size. The pool is popped once if it was non-empty. The resize listener is registered. The slider is attached and satisfies its invariant, so the gallery can be resized and its image can load. |
| GalleryController.Gallery.AddSliders | src/index.ts:42-45 | `sliders` holds exactly one element, the new `currentSlide`, initialised with `images[currentIndex]`. |
| GalleryController.Gallery.Resize | src/index.ts:47-56 | The measured size is recorded, and every slider in the list is resized with that same size. The list and the current slide are unchanged. |
| GalleryController.Gallery.Destroy | src/index.ts:58-63 | On an attached gallery, the element is detached, every slider is appended to the pool in list order, and the list is emptied. On a detached gallery, nothing changes and `ok` is false. The resize listener stays registered in both cases. |
| GalleryController.Gallery.OnClick | src/index.ts:29-33 | A click on the backdrop (the gallery element) behaves as `Destroy` and leaves the gallery detached. A click on the image changes nothing: not the attachment, the list, the pool, the size or the current slider. The listener stays registered either way. |
| GalleryController.DuckGallery | src/index.ts:66-69 | Returns a new gallery with all of the constructor's guarantees: the images, the current index "index or 0", the first measured size, a new current slider that is the only one in the list, the pool popped when non-empty, and the listener registered. |
| GalleryController.OpenLoadResizeClose | src/index.ts:36-63 | A gallery is opened with a first size. Then its image loads (the `onload` of src/slider.ts:33), the window is resized, the image is clicked, and the backdrop is clicked. After all that, the rect shown is the fit of the image in the latest size, and the one slider is in the pool. |

## Left out

- DOM element creation, class names, `appendChild`/`removeChild` and the
  px-string formatting of styles. The rect is kept as numbers. The parent
  element a slider is appended to is modelled only as the `attached` flag.
- Network loading of the image. Completion of the load is the external
  event `Slider.ImageLoaded`. A failed load, or an image whose reported
  width or height is 0, is not modelled. The natural sizes are positive
  reals. With a zero size the code divides by zero and produces Infinity
  or NaN.
- Geometry.FitImage: the element's `width`/`height` are taken to be the
  image's natural size. In a browser they report the rendered size, as
  whole pixels, once a style is applied. `FitScaleInvariant` shows that
  the rect is the same for any size with exactly the same aspect ratio.
  Because the reported size is rounded, a later `resizeImg` can fit a
  slightly different aspect ratio. So the rect agrees only up to that
  rounding, and the stored `ratio` differs. The model captures neither
  difference.
- Floating-point rounding. All pixel arithmetic is exact.
- The measurement of `offsetWidth`/`offsetHeight`. It is the `measured`
  argument.
- `debounce` (src/util.ts). Its behaviour depends on timer scheduling, so
  the debounced window listener is modelled only as the `resizeListening`
  flag.
- `isTouchDevice` (src/util.ts). It is a global capability probe that the
  core does not use.
- The `IGallery` and `ISlider` interfaces of src/util.ts. They declare
  methods that have no implementation in these files.
- Non-integer and NaN values of `index`. The option is an optional integer.
  A NaN index, like `undefined`, would give 0.
- Swipe, dismiss, zoom, pan, prev/next, the three-slide window and the
  settle animation. None of them exist in this version of the code.
