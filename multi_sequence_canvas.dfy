/** The canvas that plays one preloaded frame sequence
    (src/utils/canvas/MultiSequenceCanvas.ts). Instead of pixels, the model
    records every `drawImage` call: which frame and which rectangle. */
module SequenceCanvas {
  import opened Wrappers
  import opened Numbers
  import opened Helpers

  /** How the browser's attempt to fetch and decode one frame ended. */
  datatype LoadOutcome = Loaded(naturalWidth: nat, naturalHeight: nat) | Failed

  /** An image element as the player sees it. The element is never put into
      the document, so its `width`/`height` are its natural size. */
  datatype Image = Image(src: string, complete: bool, naturalWidth: nat, naturalHeight: nat)

  /** `img.complete && img.naturalWidth > 0`: the frame can be painted. */
  predicate Drawable(img: Image) {
    img.complete && img.naturalWidth > 0
  }

  /** The image element for `url` once its load attempt has settled. A failed
      load also completes (as a broken image of size 0); it is logged and the
      batch goes on. */
  function Settled(url: string, outcome: LoadOutcome): (img: Image)
    ensures img.src == url && img.complete
    ensures Drawable(img) <==> outcome.Loaded? && outcome.naturalWidth > 0
  {
    match outcome
    case Loaded(w, h) => Image(url, true, w, h)
    case Failed => Image(url, true, 0, 0)
  }

  /** The measured box of the canvas's parent element. */
  datatype Container = Container(clientWidth: nat, clientHeight: nat)

  /** One `drawImage` call: the frame index and the cover rectangle in CSS
      pixels (None when the image has no area, where the source would compute
      with infinities or NaN). */
  datatype Draw = Draw(frame: nat, rect: Option<Rect>)

  /** `window.devicePixelRatio || 1`. */
  function PixelRatio(dpr: real): (d: real)
    requires dpr >= 0.0
    ensures d > 0.0
    ensures dpr > 0.0 ==> d == dpr
    ensures dpr == 0.0 ==> d == 1.0
  {
    if dpr == 0.0 then 1.0 else dpr
  }

  /** `canvas.width = cssSize * dpr`: the attribute is an unsigned integer, so
      the product is truncated. */
  function BackingStoreSize(cssSize: nat, dpr: real): (n: nat)
    requires dpr >= 0.0
    ensures n as real <= cssSize as real * PixelRatio(dpr) < n as real + 1.0
  {
    (cssSize as real * PixelRatio(dpr)).Floor
  }

  /** The newest frame at or below index `k` that can be painted. Indices past
      the end of `images` hold no image and are passed over. */
  function LastDrawableAtOrBelow(images: seq<Image>, k: int): (r: Option<nat>)
    ensures r.Some? ==> r.value <= k && r.value < |images| && Drawable(images[r.value])
    ensures r.Some? ==> forall j :: r.value < j <= k && j < |images| ==> !Drawable(images[j])
    ensures r.None? ==> forall j :: 0 <= j <= k && j < |images| ==> !Drawable(images[j])
    decreases k
  {
    if k < 0 then None
    else if k < |images| && Drawable(images[k]) then Some(k)
    else LastDrawableAtOrBelow(images, k - 1)
  }

  /** The cover rectangle for `img` on a backing store of `width` x `height`
      device pixels, in the CSS pixels the scaled context draws in; a canvas
      without area still gets the source's finite rectangle. */
  function CanvasRect(width: nat, height: nat, dpr: real, img: Image): (r: Option<Rect>)
    requires dpr >= 0.0
    ensures r.Some? <==> img.naturalWidth > 0 && img.naturalHeight > 0
    ensures r.Some? ==> r.value == CoverDimensions(width as real / PixelRatio(dpr), height as real / PixelRatio(dpr), img.naturalWidth as real, img.naturalHeight as real)
  {
    var canvasWidth := width as real / PixelRatio(dpr);
    var canvasHeight := height as real / PixelRatio(dpr);
    if img.naturalWidth > 0 && img.naturalHeight > 0 then
      Some(CoverDimensions(canvasWidth, canvasHeight, img.naturalWidth as real, img.naturalHeight as real))
    else
      None
  }

  /** What one `render()` call paints: nothing without images, else the frame
      `Math.round(frame)`, falling back to the newest paintable frame below it. */
  function RenderDraws(images: seq<Image>, frame: real, width: nat, height: nat, dpr: real): seq<Draw>
    requires dpr >= 0.0
  {
    if |images| == 0 then []
    else
      match LastDrawableAtOrBelow(images, Round(frame))
      case None => []
      case Some(j) => [Draw(j, CanvasRect(width, height, dpr, images[j]))]
  }

  class MultiSequenceCanvas {
    /** `canvas.width` / `canvas.height`: the backing store in device pixels. */
    var width: nat
    var height: nat
    /** `canvas.style.width` / `canvas.style.height` in CSS pixels, once set. */
    var styleWidth: Option<nat>
    var styleHeight: Option<nat>
    /** The uniform scale of the 2D context's transform. */
    var contextScale: real
    var images: array<Image>
    /** `frameObj.frame`: the real-valued cursor the scrub tween animates. */
    var frame: real
    var manifest: Option<Manifest>
    /** Whether the window resize listener is registered. */
    var listening: bool
    /** Every `drawImage` call so far, oldest first. */
    var drawn: seq<Draw>

    /** Loaded images are the manifest's frames, in order. */
    ghost predicate Valid()
      reads this, images
    {
      images.Length > 0 ==>
        && manifest.Some?
        && images.Length == manifest.value.count
        && forall i :: 0 <= i < images.Length ==> images[i].src == FrameUrl(manifest.value, i)
    }

    /** `getTotalFrames()`: the loaded manifest's frame count, 0 before any
        load. */
    function TotalFrames(): (n: nat)
      reads this
      ensures manifest.None? ==> n == 0
      ensures manifest.Some? ==> n == manifest.value.count
    {
      if manifest.Some? then manifest.value.count else 0
    }

    /** Binds a canvas whose backing store is `initialWidth` x `initialHeight`,
        sizes it to `container` (the parent element, if any) and starts
        listening for resizes. */
    constructor (initialWidth: nat, initialHeight: nat, container: Option<Container>, dpr: real)
      requires dpr >= 0.0
      ensures Valid() && fresh(images) && images.Length == 0
      ensures frame == 0.0 && manifest == None && TotalFrames() == 0 && listening && drawn == []
      ensures container.None? ==>
        width == initialWidth && height == initialHeight && styleWidth == None && styleHeight == None && contextScale == 1.0
      ensures container.Some? ==>
        && width == BackingStoreSize(container.value.clientWidth, dpr)
        && height == BackingStoreSize(container.value.clientHeight, dpr)
        && styleWidth == Some(container.value.clientWidth)
        && styleHeight == Some(container.value.clientHeight)
        && contextScale == PixelRatio(dpr)
    {
      width, height := initialWidth, initialHeight;
      styleWidth, styleHeight := None, None;
      contextScale := 1.0;
      images := new Image[0];
      frame := 0.0;
      manifest := None;
      drawn := [];
      listening := false;
      new;
      UpdateCanvasSize(container, dpr);
      listening := true;
    }

    /** `updateCanvasSize()`: nothing happens without a parent; otherwise the
        backing store becomes the parent's size times the pixel ratio, the CSS
        size the parent's size, the context scale the pixel ratio, and loaded
        images are re-rendered. */
    method UpdateCanvasSize(container: Option<Container>, dpr: real)
      requires Valid() && dpr >= 0.0
      modifies this`width, this`height, this`styleWidth, this`styleHeight, this`contextScale, this`drawn
      ensures Valid()
      ensures container.None? ==>
        && width == old(width) && height == old(height)
        && styleWidth == old(styleWidth) && styleHeight == old(styleHeight)
        && contextScale == old(contextScale) && drawn == old(drawn)
      ensures container.Some? ==>
        && width == BackingStoreSize(container.value.clientWidth, dpr)
        && height == BackingStoreSize(container.value.clientHeight, dpr)
        && styleWidth == Some(container.value.clientWidth)
        && styleHeight == Some(container.value.clientHeight)
        && contextScale == PixelRatio(dpr)
        && drawn == old(drawn) + RenderDraws(images[..], frame, width, height, dpr)
    {
      if container.None? {
        return;
      }
      var d := PixelRatio(dpr);
      width := BackingStoreSize(container.value.clientWidth, dpr);
      height := BackingStoreSize(container.value.clientHeight, dpr);
      styleWidth := Some(container.value.clientWidth);
      styleHeight := Some(container.value.clientHeight);
      contextScale := d;
      if images.Length > 0 {
        Render(dpr);
      }
    }

    /** `loadSequence(manifest)`, with the outcome of every frame's load given:
        one image per frame, each pointed at its frame URL; a failed frame
        does not stop the batch, and the current frame is rendered once all
        have settled. */
    method LoadSequence(m: Manifest, outcomes: seq<LoadOutcome>, dpr: real)
      requires Valid() && |outcomes| == m.count && dpr >= 0.0
      modifies this`manifest, this`images, this`drawn
      ensures Valid() && manifest == Some(m) && TotalFrames() == m.count
      ensures fresh(images) && images.Length == m.count
      ensures forall i :: 0 <= i < m.count ==> images[i] == Settled(FrameUrl(m, i), outcomes[i])
      ensures drawn == old(drawn) + RenderDraws(images[..], frame, width, height, dpr)
    {
      manifest := Some(m);
      images := new Image[m.count](i requires 0 <= i < m.count => Settled(FrameUrl(m, i), outcomes[i]));
      Render(dpr);
    }

    /** The search in `render()`: the frame `Math.round(frame)` if it can be
        painted, else the nearest paintable frame below it, else none. */
    method FrameToDraw() returns (choice: Option<nat>)
      ensures choice.Some? ==> choice.value <= Round(frame) && choice.value < images.Length && Drawable(images[choice.value])
      ensures choice.Some? ==> forall j :: choice.value < j <= Round(frame) && j < images.Length ==> !Drawable(images[j])
      ensures choice.None? ==> forall j :: 0 <= j <= Round(frame) && j < images.Length ==> !Drawable(images[j])
      ensures choice == LastDrawableAtOrBelow(images[..], Round(frame))
    {
      var index := Round(frame);
      if 0 <= index < images.Length && Drawable(images[index]) {
        return Some(index);
      }
      var i := index - 1;
      while i >= 0
        invariant i < index
        invariant LastDrawableAtOrBelow(images[..], index) == LastDrawableAtOrBelow(images[..], i)
        decreases i
      {
        if i < images.Length && Drawable(images[i]) {
          return Some(i);
        }
        i := i - 1;
      }
      return None;
    }

    /** `render()`: a no-op without images; otherwise paints the frame that
        `FrameToDraw` picks, if any. */
    method Render(dpr: real)
      requires dpr >= 0.0
      modifies this`drawn
      ensures drawn == old(drawn) + RenderDraws(images[..], frame, width, height, dpr)
    {
      if images.Length == 0 {
        return;
      }
      var choice := FrameToDraw();
      if choice.Some? {
        RenderImage(choice.value, dpr);
      }
    }

    /** `renderImage(img)`: clears the canvas and draws frame `i` with cover
        fit against the backing store's size in CSS pixels. */
    method RenderImage(i: nat, dpr: real)
      requires i < images.Length && dpr >= 0.0
      modifies this`drawn
      ensures drawn == old(drawn) + [Draw(i, CanvasRect(width, height, dpr, images[i]))]
    {
      drawn := drawn + [Draw(i, CanvasRect(width, height, dpr, images[i]))];
    }

    /** `destroy()`: blanks the `src` of every image (aborting pending loads),
        drops them all and removes the resize listener. The manifest is kept,
        so `getTotalFrames()` is unchanged. */
    method Destroy()
      modifies this`images, this`listening, images
      ensures fresh(images) && images.Length == 0 && !listening && Valid()
      ensures manifest == old(manifest) && TotalFrames() == old(TotalFrames())
      ensures forall i :: 0 <= i < old(images).Length ==> old(images)[i] == old(images[i]).(src := "")
    {
      var released := images;
      for i := 0 to released.Length
        invariant forall j :: 0 <= j < i ==> released[j] == old(released[j]).(src := "")
        invariant forall j :: i <= j < released.Length ==> released[j] == old(released[j])
      {
        released[i] := released[i].(src := "");
      }
      images := new Image[0];
      listening := false;
    }
  }
}
