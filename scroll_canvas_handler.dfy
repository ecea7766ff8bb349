/** The scroll wiring of one canvas sequence
    (src/utils/canvas/scrollCanvasHandler.ts): an opacity/visibility
    controller fed by two fade progresses, and a scrub tween that moves the
    canvas's frame cursor. Progress values come from the scroll-trigger
    library and arrive here already eased. */
module ScrollCanvasHandler {
  import opened Wrappers
  import opened Numbers
  import opened Helpers
  import opened Compositing
  import opened SequenceCanvas
  import opened Triggers

  /** Below or at this opacity the element is hidden and ignores the pointer. */
  const VisibilityThreshold: real := 0.01

  datatype Visibility = Visible | Hidden
  datatype PointerEvents = Auto | NoPointerEvents

  function VisibilityFor(alpha: real): (v: Visibility)
    ensures v == Visible <==> alpha > VisibilityThreshold
  {
    if alpha > VisibilityThreshold then Visible else Hidden
  }

  function PointerEventsFor(alpha: real): (p: PointerEvents)
    ensures p == Auto <==> alpha > VisibilityThreshold
  {
    if alpha > VisibilityThreshold then Auto else NoPointerEvents
  }

  /** A fully transparent element never takes clicks, and an element that
      takes clicks is always visible. */
  lemma InteractiveOnlyWhenVisible(alpha: real)
    ensures PointerEventsFor(alpha) == Auto <==> VisibilityFor(alpha) == Visible
    ensures alpha == 0.0 ==> VisibilityFor(alpha) == Hidden && PointerEventsFor(alpha) == NoPointerEvents
  {
  }

  /** The inline style of the sequence's host element. */
  class StyledElement {
    var opacity: real
    var visibility: Visibility
    var pointerEvents: PointerEvents
    var transform: string

    constructor (opacity: real, visibility: Visibility, pointerEvents: PointerEvents, transform: string)
      ensures this.opacity == opacity && this.visibility == visibility
      ensures this.pointerEvents == pointerEvents && this.transform == transform
    {
      this.opacity := opacity;
      this.visibility := visibility;
      this.pointerEvents := pointerEvents;
      this.transform := transform;
    }
  }

  /** The element's style shows opacity `alpha` with the matching visibility. */
  ghost predicate Shows(element: StyledElement, alpha: real)
    reads element
  {
    && element.opacity == alpha
    && element.visibility == VisibilityFor(alpha)
    && element.pointerEvents == PointerEventsFor(alpha)
  }

  /** `setupFadeEffects`: the two progress variables its closures share. */
  class FadeEffects {
    const element: StyledElement
    var inProgress: real
    var outProgress: real

    /** The style always reflects both current progresses together. */
    ghost predicate Valid()
      reads this, element
    {
      Shows(element, CompositeAlpha(inProgress, outProgress))
    }

    /** Both progresses start at 0 and the style is applied once, which hides
        the element. */
    constructor (element: StyledElement)
      modifies element
      ensures this.element == element && inProgress == 0.0 && outProgress == 0.0 && Valid()
      ensures element.opacity == 0.0 && element.visibility == Hidden && element.pointerEvents == NoPointerEvents
      ensures element.transform == old(element.transform)
    {
      this.element := element;
      inProgress := 0.0;
      outProgress := 0.0;
      new;
      ApplyVisibility();
    }

    /** `applyVisibility()`. */
    method ApplyVisibility()
      modifies element
      ensures Valid() && element.transform == old(element.transform)
    {
      var alpha := CompositeAlpha(inProgress, outProgress);
      element.opacity := alpha;
      if alpha > VisibilityThreshold {
        element.visibility := Visible;
        element.pointerEvents := Auto;
      } else {
        element.visibility := Hidden;
        element.pointerEvents := NoPointerEvents;
      }
    }

    /** The fade-in trigger's update with its eased progress. */
    method OnFadeInUpdate(eased: real)
      modifies this, element
      ensures inProgress == eased && outProgress == old(outProgress) && Valid()
      ensures element.transform == old(element.transform)
    {
      inProgress := eased;
      ApplyVisibility();
    }

    /** The fade-out trigger's update with its eased progress. */
    method OnFadeOutUpdate(eased: real)
      modifies this, element
      ensures outProgress == eased && inProgress == old(inProgress) && Valid()
      ensures element.transform == old(element.transform)
    {
      outProgress := eased;
      ApplyVisibility();
    }
  }

  /** The frame value the scrub tween writes at `progress`: linear from the
      cursor's value when the tween was made to `to`, snapped to a whole
      frame. */
  function TweenFrame(from: real, to: real, progress: real): (f: int)
    ensures progress == 0.0 ==> f == Round(from)
  {
    Round(from + progress * (to - from))
  }

  /** Between two whole frames `from <= to`, every progress in [0, 1] lands
      on a frame between them: `from` at the start and `to` at the end. */
  lemma TweenFrameBetween(from: int, to: int, progress: real)
    requires from <= to && 0.0 <= progress <= 1.0
    ensures from <= TweenFrame(from as real, to as real, progress) <= to
    ensures progress == 0.0 ==> TweenFrame(from as real, to as real, progress) == from
    ensures progress == 1.0 ==> TweenFrame(from as real, to as real, progress) == to
  {
    var span := (to - from) as real;
    MulNonneg(progress, span);
    MulNonneg(1.0 - progress, span);
    assert (1.0 - progress) * span == span - progress * span;
    RoundWithin(from as real + progress * span, from, to);
    if progress == 0.0 {
      RoundOfInt(from);
    }
    if progress == 1.0 {
      RoundOfInt(to);
    }
  }

  /** From a fresh cursor to frame `count - 1`, every progress in [0, 1] lands
      on an existing frame: 0 at the start and the last one at the end. */
  lemma TweenFrameInRange(count: nat, progress: real)
    requires count >= 1 && 0.0 <= progress <= 1.0
    ensures 0 <= TweenFrame(0.0, (count - 1) as real, progress) <= count - 1
    ensures progress == 1.0 ==> TweenFrame(0.0, (count - 1) as real, progress) == count - 1
  {
    TweenFrameBetween(0, count - 1, progress);
  }

  /** The wiring `setupScrollAnimation` makes once the frames have loaded. */
  class CanvasSequence {
    const canvas: MultiSequenceCanvas
    const fades: FadeEffects
    /** The cursor value when the tween was created. */
    const fromFrame: real
    /** `totalFrames - 1` at that moment. */
    const toFrame: real
    const scrubRegion: TriggerRegion
    const fadeInRegion: TriggerRegion
    const fadeOutRegion: TriggerRegion

    constructor (canvas: MultiSequenceCanvas, fades: FadeEffects, fromFrame: real, toFrame: real,
                 scrub: ScrubConfig, fadeIn: FadeConfig, fadeOut: FadeConfig)
      ensures this.canvas == canvas && this.fades == fades
      ensures this.fromFrame == fromFrame && this.toFrame == toFrame
      ensures scrubRegion == ScrubRegion(scrub) && fadeInRegion == FadeRegion(fadeIn) && fadeOutRegion == FadeRegion(fadeOut)
    {
      this.canvas := canvas;
      this.fades := fades;
      this.fromFrame := fromFrame;
      this.toFrame := toFrame;
      scrubRegion := ScrubRegion(scrub);
      fadeInRegion := FadeRegion(fadeIn);
      fadeOutRegion := FadeRegion(fadeOut);
    }

    /** One scrub update: the tween writes the snapped frame, then the canvas
        renders. */
    method OnScrubUpdate(progress: real, dpr: real)
      requires dpr >= 0.0
      modifies canvas`frame, canvas`drawn
      ensures canvas.frame == TweenFrame(fromFrame, toFrame, progress) as real
      ensures canvas.drawn == old(canvas.drawn) + RenderDraws(canvas.images[..], canvas.frame, canvas.width, canvas.height, dpr)
    {
      canvas.frame := TweenFrame(fromFrame, toFrame, progress) as real;
      canvas.Render(dpr);
    }
  }

  /** The synchronous part of `handleScrollCanvasSequence`: the target is made
      visible on its own layer but click-through. Nothing is loaded or wired
      yet; the canvas and its frames are untouched until the load resolves. */
  method ShowTarget(target: StyledElement)
    modifies target
    ensures target.opacity == 1.0 && target.visibility == Visible
    ensures target.pointerEvents == NoPointerEvents && target.transform == "translateZ(0)"
  {
    target.opacity := 1.0;
    target.visibility := Visible;
    target.transform := "translateZ(0)";
    target.pointerEvents := NoPointerEvents;
  }

  /** The continuation of `loadSequence(manifest).then(...)`: the frames load
      and render once, and only then are the scrub tween and the fades wired;
      the fades' first application hides the element until the fade-in
      starts. */
  method LoadThenWire(
    canvas: MultiSequenceCanvas, m: Manifest, target: StyledElement,
    scrub: ScrubConfig, fadeIn: FadeConfig, fadeOut: FadeConfig, outcomes: seq<LoadOutcome>, dpr: real)
    returns (s: CanvasSequence)
    requires canvas.Valid() && |outcomes| == m.count && dpr >= 0.0
    modifies canvas`manifest, canvas`images, canvas`drawn, target
    ensures s.canvas == canvas && s.fades.element == target
    ensures canvas.Valid() && canvas.manifest == Some(m) && canvas.images.Length == m.count
    ensures forall i :: 0 <= i < m.count ==> canvas.images[i] == Settled(FrameUrl(m, i), outcomes[i])
    ensures fresh(canvas.images)
    ensures canvas.drawn == old(canvas.drawn) + RenderDraws(canvas.images[..], canvas.frame, canvas.width, canvas.height, dpr)
    ensures s.fromFrame == canvas.frame && s.toFrame == (canvas.TotalFrames() - 1) as real
    ensures s.scrubRegion == ScrubRegion(scrub) && s.fadeInRegion == FadeRegion(fadeIn) && s.fadeOutRegion == FadeRegion(fadeOut)
    ensures s.fades.inProgress == 0.0 && s.fades.outProgress == 0.0 && s.fades.Valid()
    ensures target.opacity == 0.0 && target.visibility == Hidden && target.pointerEvents == NoPointerEvents
    ensures target.transform == old(target.transform)
  {
    canvas.LoadSequence(m, outcomes, dpr);
    var fades := new FadeEffects(target);
    s := new CanvasSequence(canvas, fades, canvas.frame, (canvas.TotalFrames() - 1) as real, scrub, fadeIn, fadeOut);
  }

  /** `handleScrollCanvasSequence`: without a target element nothing happens.
      Otherwise `ShowTarget` runs at once and `LoadThenWire` when the load
      resolves; the outcomes of the frame loads are given. */
  method HandleScrollCanvasSequence(
    canvas: MultiSequenceCanvas, m: Manifest, target: StyledElement?,
    scrub: ScrubConfig, fadeIn: FadeConfig, fadeOut: FadeConfig, outcomes: seq<LoadOutcome>, dpr: real)
    returns (s: CanvasSequence?)
    requires canvas.Valid() && |outcomes| == m.count && dpr >= 0.0
    modifies canvas`manifest, canvas`images, canvas`drawn, target
    ensures target == null ==> s == null && canvas.manifest == old(canvas.manifest) && canvas.images == old(canvas.images) && canvas.drawn == old(canvas.drawn)
    ensures target != null ==>
      && s != null && s.canvas == canvas && s.fades.element == target
      && canvas.Valid() && canvas.manifest == Some(m) && canvas.images.Length == m.count
      && (forall i :: 0 <= i < m.count ==> canvas.images[i] == Settled(FrameUrl(m, i), outcomes[i]))
      && s.fromFrame == canvas.frame && s.toFrame == (canvas.TotalFrames() - 1) as real
      && s.scrubRegion == ScrubRegion(scrub) && s.fadeInRegion == FadeRegion(fadeIn) && s.fadeOutRegion == FadeRegion(fadeOut)
      && s.fades.inProgress == 0.0 && s.fades.outProgress == 0.0 && s.fades.Valid()
      && target.opacity == 0.0 && target.visibility == Hidden && target.pointerEvents == NoPointerEvents
      && target.transform == "translateZ(0)"
      && fresh(canvas.images)
      && canvas.drawn == old(canvas.drawn) + RenderDraws(canvas.images[..], canvas.frame, canvas.width, canvas.height, dpr)
  {
    if target == null {
      return null;
    }
    ShowTarget(target);
    s := LoadThenWire(canvas, m, target, scrub, fadeIn, fadeOut, outcomes, dpr);
  }
}
