/** `handleScrollVideo` of src/pages/index.tsx (lines 62-174): a video whose
    playback position follows a scrub trigger, inside a target element that
    fades and blurs in and out with two further triggers. */
module ScrollVideo {
  import opened Wrappers
  import opened Numbers
  import opened Compositing
  import opened Triggers

  /** A rewrite of `currentTime` smaller than this is skipped. */
  const TimeTolerance: real := 0.01

  /** The `will-change` hint: kept on only while a fade is under way. */
  datatype WillChange = Auto | FilterOpacity

  /** `alpha > 0 && alpha < 1 ? "filter, opacity" : "auto"`. */
  function WillChangeFor(alpha: real): (w: WillChange)
    ensures w == FilterOpacity <==> 0.0 < alpha < 1.0
  {
    if alpha > 0.0 && alpha < 1.0 then FilterOpacity else Auto
  }

  /** Fully hidden and fully shown both drop the hint. */
  lemma WillChangeOffAtRest(inProgress: real, outProgress: real)
    requires inProgress == 0.0 || outProgress == 1.0 || (inProgress == 1.0 && outProgress == 0.0)
    ensures WillChangeFor(CompositeAlpha(inProgress, outProgress)) == Auto
  {
  }

  /** `video.duration` is usable: neither NaN (None) nor 0. */
  predicate HasDuration(duration: Option<real>) {
    duration.Some? && duration.value != 0.0
  }

  function Abs(x: real): real {
    if x < 0.0 then -x else x
  }

  /** The playback position after a scrub update at `progress`: unchanged
      without a duration; otherwise within the tolerance of
      `progress * duration`, and rewritten only when it was farther off. */
  function ScrubbedTime(current: real, duration: Option<real>, progress: real): (t: real)
    ensures !HasDuration(duration) ==> t == current
    ensures HasDuration(duration) ==> Abs(t - progress * duration.value) <= TimeTolerance
    ensures HasDuration(duration) && Abs(current - progress * duration.value) <= TimeTolerance ==> t == current
    ensures t != current ==> HasDuration(duration) && t == progress * duration.value
  {
    if !HasDuration(duration) then current
    else
      var newTime := progress * duration.value;
      if Abs(current - newTime) > TimeTolerance then newTime else current
  }

  /** A rewritten position lies within the video when the progress does. */
  lemma ScrubbedTimeInVideo(current: real, duration: real, progress: real)
    requires duration > 0.0 && 0.0 <= progress <= 1.0
    requires ScrubbedTime(current, Some(duration), progress) != current
    ensures 0.0 <= ScrubbedTime(current, Some(duration), progress) <= duration
  {
    MulNonneg(progress, duration);
    MulNonneg(1.0 - progress, duration);
  }

  /** Scrubbing to the same progress again leaves the position alone. */
  lemma ScrubIdempotent(current: real, duration: Option<real>, progress: real)
    ensures var t := ScrubbedTime(current, duration, progress);
      ScrubbedTime(t, duration, progress) == t
  {
  }

  /** The scrubbed `<video>` element. */
  class Video {
    var currentTime: real
    /** None is NaN: metadata not loaded yet. */
    var duration: Option<real>
    var paused: bool
    /** The `filter` and `willChange` styles; None until first set. */
    var filter: Option<Filter>
    var willChange: Option<WillChange>

    constructor (currentTime: real, duration: Option<real>, paused: bool)
      ensures this.currentTime == currentTime && this.duration == duration && this.paused == paused
      ensures filter == None && willChange == None
    {
      this.currentTime := currentTime;
      this.duration := duration;
      this.paused := paused;
      filter := None;
      willChange := None;
    }
  }

  /** The `[data-role="video-overlay"]` element inside the target. */
  class Overlay {
    var opacity: real

    constructor (opacity: real)
      ensures this.opacity == opacity
    {
      this.opacity := opacity;
    }
  }

  /** The element that fades: its opacity, filter and transform, and the
      overlay it contains, if any. */
  class VideoTarget {
    var opacity: real
    var filter: Filter
    var transform: string
    const overlay: Overlay?

    constructor (opacity: real, filter: Filter, transform: string, overlay: Overlay?)
      ensures this.opacity == opacity && this.filter == filter && this.transform == transform && this.overlay == overlay
    {
      this.opacity := opacity;
      this.filter := filter;
      this.transform := transform;
      this.overlay := overlay;
    }
  }

  /** The target, and its overlay if any, show opacity `alpha` and the blur
      that goes with it. */
  ghost predicate TargetShows(el: VideoTarget, alpha: real)
    reads el, el.overlay
  {
    && el.opacity == alpha
    && el.filter == BlurFilter(BlurAmount(alpha), 1.0)
    && (el.overlay != null ==> el.overlay.opacity == alpha)
  }

  /** The state shared by the closures of one `handleScrollVideo` call. */
  class ScrollVideoSequence {
    const video: Video
    const el: VideoTarget
    const scrubRegion: TriggerRegion
    const fadeInRegion: TriggerRegion
    const fadeOutRegion: TriggerRegion
    var inP: real
    var outP: real

    /** The target always shows the opacity the two fades combine to. */
    ghost predicate Valid()
      reads this, el, el.overlay
    {
      TargetShows(el, CompositeAlpha(inP, outP))
    }

    constructor (video: Video, el: VideoTarget, scrub: ScrubConfig, fadeIn: FadeConfig, fadeOut: FadeConfig)
      requires TargetShows(el, 0.0)
      ensures Valid() && inP == 0.0 && outP == 0.0
      ensures this.video == video && this.el == el
      ensures scrubRegion == ScrubRegion(scrub) && fadeInRegion == FadeRegion(fadeIn) && fadeOutRegion == FadeRegion(fadeOut)
    {
      this.video := video;
      this.el := el;
      scrubRegion := ScrubRegion(scrub);
      fadeInRegion := FadeRegion(fadeIn);
      fadeOutRegion := FadeRegion(fadeOut);
      inP := 0.0;
      outP := 0.0;
    }

    /** `apply()`: the target and overlay take the combined opacity, the
        target its blur, the video half that blur and the `will-change` hint. */
    method Apply()
      modifies el`opacity, el`filter, el.overlay, video`filter, video`willChange
      ensures Valid()
      ensures video.filter == Some(BlurFilter(BlurAmount(CompositeAlpha(inP, outP)), 0.5))
      ensures video.willChange == Some(WillChangeFor(CompositeAlpha(inP, outP)))
      ensures el.transform == old(el.transform) && video.currentTime == old(video.currentTime)
    {
      var alpha := CompositeAlpha(inP, outP);
      var blurAmount := BlurAmount(alpha);
      el.opacity := alpha;
      el.filter := BlurFilter(blurAmount, 1.0);
      if el.overlay != null {
        el.overlay.opacity := alpha;
      }
      video.filter := Some(BlurFilter(blurAmount, 0.5));
      video.willChange := Some(WillChangeFor(alpha));
    }

    /** The fade-in trigger's `onUpdate`: only the fade-in progress changes. */
    method OnFadeInUpdate(progress: real)
      modifies this`inP, el`opacity, el`filter, el.overlay, video`filter, video`willChange
      ensures inP == progress && outP == old(outP) && Valid()
      ensures video.filter == Some(BlurFilter(BlurAmount(CompositeAlpha(inP, outP)), 0.5))
      ensures video.willChange == Some(WillChangeFor(CompositeAlpha(inP, outP)))
      ensures video.currentTime == old(video.currentTime)
    {
      inP := progress;
      Apply();
    }

    /** The fade-out trigger's `onUpdate`: only the fade-out progress changes. */
    method OnFadeOutUpdate(progress: real)
      modifies this`outP, el`opacity, el`filter, el.overlay, video`filter, video`willChange
      ensures outP == progress && inP == old(inP) && Valid()
      ensures video.filter == Some(BlurFilter(BlurAmount(CompositeAlpha(inP, outP)), 0.5))
      ensures video.willChange == Some(WillChangeFor(CompositeAlpha(inP, outP)))
      ensures video.currentTime == old(video.currentTime)
    {
      outP := progress;
      Apply();
    }

    /** The scrub trigger's `onUpdate`: only the playback position changes. */
    method OnScrubUpdate(progress: real)
      modifies video`currentTime
      ensures video.currentTime == ScrubbedTime(old(video.currentTime), video.duration, progress)
    {
      if !HasDuration(video.duration) {
        return;
      }
      var newTime := progress * video.duration.value;
      if Abs(video.currentTime - newTime) > TimeTolerance {
        video.currentTime := newTime;
      }
    }

    /** The scrub trigger's `onLeaveBack`: scrolling back above it rewinds. */
    method OnLeaveBack()
      modifies video`currentTime
      ensures video.currentTime == 0.0
    {
      video.currentTime := 0.0;
    }
  }

  /** `handleScrollVideo`: without a target nothing happens. Otherwise the
      target starts hidden and fully blurred on its own compositing layer,
      the overlay hidden, and the video paused at its start. */
  method HandleScrollVideo(video: Video, target: VideoTarget?, scrub: ScrubConfig, fadeIn: FadeConfig, fadeOut: FadeConfig)
    returns (s: ScrollVideoSequence?)
    modifies video, target, if target != null then target.overlay else null
    ensures target == null ==> s == null && unchanged(video)
    ensures target != null ==>
      && s != null && fresh(s) && s.Valid() && s.video == video && s.el == target
      && s.inP == 0.0 && s.outP == 0.0
      && target.opacity == 0.0 && target.filter == Blur(MaxBlur) && target.transform == "translateZ(0)"
      && (target.overlay != null ==> target.overlay.opacity == 0.0)
      && video.paused && video.currentTime == 0.0
      && video.duration == old(video.duration) && video.filter == old(video.filter) && video.willChange == old(video.willChange)
      && s.scrubRegion == ScrubRegion(scrub) && s.fadeInRegion == FadeRegion(fadeIn) && s.fadeOutRegion == FadeRegion(fadeOut)
  {
    if target == null {
      return null;
    }
    target.opacity := 0.0;
    target.filter := Blur(MaxBlur);
    target.transform := "translateZ(0)";
    if target.overlay != null {
      target.overlay.opacity := 0.0;
    }
    video.paused := true;
    video.currentTime := 0.0;
    s := new ScrollVideoSequence(video, target, scrub, fadeIn, fadeOut);
  }
}
