/** The windowed frame player of src/utils/handleScrollCanvas.ts: decoded
    frames are kept in a cache keyed by frame index, a window of frames around
    the scroll position is requested, frames far outside it are evicted, and
    the canvas shows the frame under the scroll position once it is in the
    cache. Fetching and decoding are asynchronous in the source; here a
    request is recorded, and its arrival is a separate event. A decoded bitmap
    is identified with the URL it came from. */
module WindowedCanvas {
  import opened Wrappers
  import opened Numbers
  import opened Helpers
  import opened Compositing
  import opened Triggers

  /** The preload radius when none is given. */
  const DefaultRadius: int := 80

  /** Cached frames up to this far outside the window are kept. */
  const EvictionMargin: int := 30

  /** `preload`: every frame, or a window of `frames` on each side. */
  datatype Preload = All | Radius(frames: int)

  /** `Math.max(1, window.devicePixelRatio || 1)`. */
  function ClampedPixelRatio(dpr: real): (d: real)
    requires dpr >= 0.0
    ensures d >= 1.0
    ensures dpr >= 1.0 ==> d == dpr
    ensures dpr < 1.0 ==> d == 1.0
  {
    Max(1.0, if dpr == 0.0 then 1.0 else dpr)
  }

  /** `Math.round(progress * (count - 1))`: the frame under the scroll position. */
  function ScrubIndex(progress: real, count: nat): (idx: int)
    ensures var x := progress * (count as real - 1.0); x - 0.5 < idx as real <= x + 0.5
  {
    Round(progress * (count as real - 1.0))
  }

  /** Every progress in [0, 1] names an existing frame: the first at the start
      of the scrub range and the last at its end. */
  lemma ScrubIndexInRange(progress: real, count: nat)
    requires count >= 1 && 0.0 <= progress <= 1.0
    ensures 0 <= ScrubIndex(progress, count) <= count - 1
    ensures progress == 0.0 ==> ScrubIndex(progress, count) == 0
    ensures progress == 1.0 ==> ScrubIndex(progress, count) == count - 1
  {
    var last := count as real - 1.0;
    MulNonneg(progress, last);
    MulNonneg(1.0 - progress, last);
    assert (1.0 - progress) * last == last - progress * last;
    RoundWithin(progress * last, 0, count - 1);
    if progress == 1.0 {
      RoundOfInt(count - 1);
    }
  }

  /** Scrolling forward never moves the frame back. */
  lemma ScrubIndexMonotone(p1: real, p2: real, count: nat)
    requires count >= 1 && p1 <= p2
    ensures ScrubIndex(p1, count) <= ScrubIndex(p2, count)
  {
    var last := count as real - 1.0;
    MulNonneg(p2 - p1, last);
    assert (p2 - p1) * last == p2 * last - p1 * last;
    RoundMonotone(p1 * last, p2 * last);
  }

  /** The first frame of the window around `center`. */
  function WindowStart(center: int, radius: int, count: nat): nat {
    ClampInt(center - radius, 0, count - 1)
  }

  /** The last frame of the window around `center`. */
  function WindowEnd(center: int, radius: int, count: nat): nat {
    ClampInt(center + radius, 0, count - 1)
  }

  /** With a non-negative radius the window is a non-empty range of existing
      frames that holds the centre whenever the centre is a frame. */
  lemma WindowBounds(center: int, radius: int, count: nat)
    requires count >= 1 && radius >= 0
    ensures WindowStart(center, radius, count) <= WindowEnd(center, radius, count) <= count - 1
    ensures 0 <= center < count ==> WindowStart(center, radius, count) <= center <= WindowEnd(center, radius, count)
  {
  }

  /** A cached frame at `k` survives the eviction pass of a window [start, end]. */
  predicate Retained(k: int, start: int, end: int) {
    !(k < start - EvictionMargin || k > end + EvictionMargin)
  }

  /** Strictly increasing frame numbers. */
  predicate Ascending(s: seq<nat>) {
    forall i, j :: 0 <= i < j < |s| ==> s[i] < s[j]
  }

  /** The frames in [lo, hi] that are not in `cached`, from the bottom up. */
  function Uncached(lo: nat, hi: int, cached: set<nat>): seq<nat>
    decreases hi - lo
  {
    if hi < lo then [] else Uncached(lo, hi - 1, cached) + (if hi in cached then [] else [hi])
  }

  /** The request list is exactly the uncached frames of [lo, hi], in
      ascending order. */
  lemma {:induction false} UncachedSpec(lo: nat, hi: int, cached: set<nat>)
    ensures forall x :: x in Uncached(lo, hi, cached) <==> lo <= x <= hi && x !in cached
    ensures Ascending(Uncached(lo, hi, cached))
    decreases hi - lo
  {
    if lo <= hi {
      UncachedSpec(lo, hi - 1, cached);
      var below := Uncached(lo, hi - 1, cached);
      assert forall x :: x in below ==> x < hi;
      AppendAbove(below, if hi in cached then [] else [hi], hi);
      assert Uncached(lo, hi, cached) == below + (if hi in cached then [] else [hi]);
    }
  }

  /** Appending at most `hi` itself above an ascending list of frames below
      `hi` keeps it ascending. */
  lemma AppendAbove(below: seq<nat>, top: seq<nat>, hi: nat)
    requires Ascending(below)
    requires forall x :: x in below ==> x < hi
    requires top == [] || top == [hi]
    ensures forall x :: x in below + top <==> x in below || x in top
    ensures Ascending(below + top)
  {
    var r := below + top;
    forall i, j | 0 <= i < j < |r|
      ensures r[i] < r[j]
    {
      assert r[i] == below[i] && below[i] in below;
      if j >= |below| {
        assert r[j] == hi;
      } else {
        assert r[j] == below[j];
      }
    }
  }

  /** One more frame at the top of the range adds it unless cached. */
  lemma UncachedStep(lo: nat, hi: nat, cached: set<nat>)
    requires lo <= hi
    ensures Uncached(lo, hi, cached) == Uncached(lo, hi - 1, cached) + (if hi in cached then [] else [hi])
  {
  }

  /** The frames one `warm(center)` call asks for, given the frames already
      cached: every missing frame, or the missing frames of the window. */
  function WarmPlan(preload: Preload, count: nat, center: int, cached: set<nat>): seq<nat> {
    match preload
    case All => Uncached(0, count - 1, cached)
    case Radius(r) => Uncached(WindowStart(center, r, count), WindowEnd(center, r, count), cached)
  }

  /** Once every requested frame has arrived, the whole window is cached. */
  lemma WarmCoversWindow(preload: Preload, count: nat, center: int, cached: set<nat>, k: nat)
    requires preload.Radius?
    requires WindowStart(center, preload.frames, count) <= k <= WindowEnd(center, preload.frames, count)
    ensures k in cached || k in WarmPlan(preload, count, center, cached)
    ensures !(k in cached && k in WarmPlan(preload, count, center, cached))
  {
    UncachedSpec(WindowStart(center, preload.frames, count), WindowEnd(center, preload.frames, count), cached);
  }

  /** The cache after the eviction pass of a window [start, end]. */
  function Evict(cache: map<nat, string>, start: int, end: int): (r: map<nat, string>)
    ensures forall k :: k in r <==> k in cache && Retained(k, start, end)
    ensures forall k :: k in r ==> r[k] == cache[k]
  {
    map k | k in cache && Retained(k, start, end) :: cache[k]
  }

  /** Eviction never drops a frame of the window itself. */
  lemma EvictKeepsWindow(cache: map<nat, string>, start: int, end: int, k: nat)
    requires start <= k <= end && k in cache
    ensures k in Evict(cache, start, end) && Evict(cache, start, end)[k] == cache[k]
  {
  }

  /** Eviction follows the new window only: after a jump from frame 0 to frame
      200 of 400 with the default radius, the frame still on the canvas is
      evicted from the cache. */
  lemma JumpEvictsShownFrame(bitmap: string)
    ensures WindowStart(200, DefaultRadius, 400) == 120 && WindowEnd(200, DefaultRadius, 400) == 280
    ensures 0 !in Evict(map[0 := bitmap], WindowStart(200, DefaultRadius, 400), WindowEnd(200, DefaultRadius, 400))
  {
  }

  /** Every cached bitmap is the manifest's frame for its key. */
  ghost predicate CacheHolds(manifest: Manifest, cache: map<nat, string>) {
    forall k :: k in cache ==> cache[k] == FrameUrl(manifest, k)
  }

  /** `current` is the last frame drawn (-1 before any), and no frame is
      drawn twice in a row. */
  ghost predicate DrawLog(drawn: seq<nat>, current: int) {
    && current == (if drawn == [] then -1 else drawn[|drawn| - 1])
    && (forall j :: 0 < j < |drawn| ==> drawn[j] != drawn[j - 1])
  }

  /** The eviction pass part-way through: `kept` is `cache` with the frames
      outside the window dropped, except for the `pending` keys not yet
      visited. */
  ghost predicate EvictedSoFar(cache: map<nat, string>, kept: map<nat, string>, pending: set<nat>, start: int, end: int) {
    (forall k :: k in kept <==> k in cache && (k in pending || Retained(k, start, end)))
    && (forall k :: k in kept ==> kept[k] == cache[k])
  }

  /** Visiting one pending key keeps the pass on track. */
  lemma EvictStep(cache: map<nat, string>, kept: map<nat, string>, pending: set<nat>, k: nat, start: int, end: int)
    requires EvictedSoFar(cache, kept, pending, start, end) && k in pending
    ensures EvictedSoFar(cache, if Retained(k, start, end) then kept else kept - {k}, pending - {k}, start, end)
  {
  }

  /** With every key visited, the pass has computed the eviction. */
  lemma EvictDone(cache: map<nat, string>, kept: map<nat, string>, start: int, end: int)
    requires EvictedSoFar(cache, kept, {}, start, end)
    ensures kept == Evict(cache, start, end)
  {
    assert kept.Keys == Evict(cache, start, end).Keys;
  }

  /** Eviction keeps every surviving bitmap the manifest's frame. */
  lemma EvictHolds(manifest: Manifest, cache: map<nat, string>, start: int, end: int)
    requires CacheHolds(manifest, cache)
    ensures CacheHolds(manifest, Evict(cache, start, end))
  {
  }

  /** Drawing a frame other than the current one extends the log. */
  lemma DrawLogAppend(drawn: seq<nat>, current: int, idx: nat)
    requires DrawLog(drawn, current) && idx != current
    ensures DrawLog(drawn + [idx], idx)
  {
    var next := drawn + [idx];
    forall j | 0 < j < |next|
      ensures next[j] != next[j - 1]
    {
      if j < |drawn| {
        assert next[j] == drawn[j] && next[j - 1] == drawn[j - 1];
      }
    }
  }

  /** The style properties the fade effect writes; None until first written. */
  class FxTarget {
    var opacity: Option<real>
    var filter: Option<Filter>

    constructor ()
      ensures opacity == None && filter == None
    {
      opacity := None;
      filter := None;
    }
  }

  /** The state shared by the closures of one `handleScrollCanvasSequence`
      call. */
  class WindowedSequence {
    const manifest: Manifest
    const preload: Preload
    const target: FxTarget
    /** `canvas.width` / `canvas.height`. */
    const width: int
    const height: int
    const scrubRegion: TriggerRegion
    const fadeInRegion: TriggerRegion
    const fadeOutRegion: TriggerRegion
    var cache: map<nat, string>
    var currentIndex: int
    /** Every frame drawn so far, oldest first. */
    var drawn: seq<nat>
    var inP: real
    var outP: real

    /** Cached bitmaps are the manifest's frames; `currentIndex` is the frame
        on the canvas (-1 before the first draw), and no frame is drawn twice
        in a row. */
    ghost predicate Valid()
      reads this
    {
      CacheHolds(manifest, cache) && DrawLog(drawn, currentIndex)
    }

    constructor (manifest: Manifest, preload: Preload, target: FxTarget, dpr: real,
                 scrub: ScrubConfig, fadeIn: FadeConfig, fadeOut: FadeConfig)
      requires dpr >= 0.0
      ensures Valid()
      ensures scrubRegion == ScrubRegion(scrub) && fadeInRegion == FadeRegion(fadeIn) && fadeOutRegion == FadeRegion(fadeOut)
      ensures this.manifest == manifest && this.preload == preload && this.target == target
      ensures width == Round(manifest.width * ClampedPixelRatio(dpr))
      ensures height == Round(manifest.height * ClampedPixelRatio(dpr))
      ensures cache == map[] && currentIndex == -1 && drawn == [] && inP == 0.0 && outP == 0.0
    {
      this.manifest := manifest;
      this.preload := preload;
      this.target := target;
      var d := ClampedPixelRatio(dpr);
      width := Round(manifest.width * d);
      height := Round(manifest.height * d);
      scrubRegion := ScrubRegion(scrub);
      fadeInRegion := FadeRegion(fadeIn);
      fadeOutRegion := FadeRegion(fadeOut);
      cache := map[];
      currentIndex := -1;
      drawn := [];
      inP, outP := 0.0, 0.0;
    }

    /** `draw(idx)`: a no-op for the frame already shown or a frame not in the
        cache; otherwise the frame is painted over the whole canvas. */
    method Draw(idx: int)
      requires Valid()
      modifies this`currentIndex, this`drawn
      ensures Valid()
      ensures idx != old(currentIndex) && idx >= 0 && idx as nat in cache ==> drawn == old(drawn) + [idx as nat]
      ensures !(idx != old(currentIndex) && idx >= 0 && idx as nat in cache) ==> drawn == old(drawn)
    {
      if idx == currentIndex {
        return;
      }
      if idx < 0 || idx as nat !in cache {
        return;
      }
      DrawLogAppend(drawn, currentIndex, idx as nat);
      currentIndex := idx;
      drawn := drawn + [idx as nat];
    }

    /** `warm(center)`: requests the missing frames of the plan. In windowed
        mode it then evicts every cached frame more than the margin outside
        the window; the frames just requested have not arrived yet. */
    method Warm(center: int) returns (requested: seq<nat>)
      requires Valid()
      modifies this`cache
      ensures Valid()
      ensures requested == WarmPlan(preload, manifest.count, center, old(cache).Keys)
      ensures preload.All? ==> cache == old(cache)
      ensures preload.Radius? ==>
        cache == Evict(old(cache), WindowStart(center, preload.frames, manifest.count), WindowEnd(center, preload.frames, manifest.count))
    {
      if preload.All? {
        requested := Uncached(0, manifest.count - 1, cache.Keys);
        return;
      }
      var start := WindowStart(center, preload.frames, manifest.count);
      var end := WindowEnd(center, preload.frames, manifest.count);
      requested := MissingInWindow(start, end);
      EvictOutside(start, end);
    }

    /** The request loop of `warm`: the window's frames not yet cached. */
    method MissingInWindow(start: nat, end: nat) returns (requested: seq<nat>)
      ensures requested == Uncached(start, end, cache.Keys)
    {
      var cached := cache.Keys;
      requested := [];
      var i: nat := start;
      while i <= end
        invariant start <= i && (i <= end + 1 || i == start)
        invariant requested == Uncached(start, i - 1, cached)
        decreases end + 1 - i
      {
        UncachedStep(start, i, cached);
        if i !in cached {
          requested := requested + [i];
        }
        i := i + 1;
      }
    }

    /** The eviction loop of `warm`, over a snapshot of the cache's keys. */
    method EvictOutside(start: int, end: int)
      requires Valid()
      modifies this`cache
      ensures Valid() && cache == Evict(old(cache), start, end)
    {
      var before := cache;
      var keys := before.Keys;
      while keys != {}
        invariant EvictedSoFar(before, cache, keys, start, end)
        decreases |keys|
      {
        var k :| k in keys;
        EvictStep(before, cache, keys, k, start, end);
        if !Retained(k, start, end) {
          cache := cache - {k};
        }
        keys := keys - {k};
      }
      EvictDone(before, cache, start, end);
      EvictHolds(manifest, before, start, end);
    }

    /** A requested frame has been decoded: it enters the cache, and in
        windowed mode it is drawn if it is the centre of the request that asked
        for it. A failed load changes nothing and needs no event. */
    method FrameArrived(i: nat, center: int)
      requires Valid()
      modifies this`cache, this`currentIndex, this`drawn
      ensures Valid()
      ensures cache == old(cache)[i := FrameUrl(manifest, i)]
      ensures preload.Radius? && i == center && i != old(currentIndex) ==> drawn == old(drawn) + [i]
      ensures !(preload.Radius? && i == center && i != old(currentIndex)) ==> drawn == old(drawn)
    {
      cache := cache[i := FrameUrl(manifest, i)];
      if preload.Radius? && i == center {
        Draw(i);
      }
    }

    /** The scrub trigger's update: warm around the frame under the scroll
        position, then draw it if it is cached. */
    method OnScrubUpdate(progress: real) returns (requested: seq<nat>)
      requires Valid()
      modifies this`cache, this`currentIndex, this`drawn
      ensures Valid()
      ensures requested == WarmPlan(preload, manifest.count, ScrubIndex(progress, manifest.count), old(cache).Keys)
      ensures preload.All? ==> cache == old(cache)
      ensures preload.Radius? ==>
        var idx := ScrubIndex(progress, manifest.count);
        cache == Evict(old(cache), WindowStart(idx, preload.frames, manifest.count), WindowEnd(idx, preload.frames, manifest.count))
      ensures var idx := ScrubIndex(progress, manifest.count);
        if idx != old(currentIndex) && idx >= 0 && idx as nat in cache then drawn == old(drawn) + [idx as nat] else drawn == old(drawn)
    {
      var idx := ScrubIndex(progress, manifest.count);
      requested := Warm(idx);
      Draw(idx);
    }

    /** `applyFx()`: the opacity is the combined fade, and the blur grows as
        the opacity drops. */
    method ApplyFx()
      modifies target
      ensures target.opacity == Some(CompositeAlpha(inP, outP))
      ensures target.filter == Some(BlurFilter(BlurAmount(CompositeAlpha(inP, outP)), 1.0))
    {
      var alpha := CompositeAlpha(inP, outP);
      target.opacity := Some(alpha);
      target.filter := Some(BlurFilter(BlurAmount(alpha), 1.0));
    }

    method OnFadeInUpdate(progress: real)
      modifies this`inP, target
      ensures inP == progress && outP == old(outP)
      ensures target.opacity == Some(CompositeAlpha(inP, outP))
      ensures target.filter == Some(BlurFilter(BlurAmount(CompositeAlpha(inP, outP)), 1.0))
    {
      inP := progress;
      ApplyFx();
    }

    method OnFadeOutUpdate(progress: real)
      modifies this`outP, target
      ensures outP == progress && inP == old(inP)
      ensures target.opacity == Some(CompositeAlpha(inP, outP))
      ensures target.filter == Some(BlurFilter(BlurAmount(CompositeAlpha(inP, outP)), 1.0))
    {
      outP := progress;
      ApplyFx();
    }
  }

  /** `handleScrollCanvasSequence`: without a target nothing happens.
      Otherwise the canvas is sized to the manifest, the cache starts empty
      and the frames around frame 0 are requested. `draw(0)` runs when that
      first warm-up settles: at once in windowed mode, where `warm` does not
      wait for its requests, so it finds the cache empty and draws nothing;
      after every frame has arrived in "all" mode (`Draw(0)` on the returned
      sequence). */
  method HandleScrollCanvasSequence(
    manifest: Manifest, target: FxTarget?, preload: Preload, dpr: real,
    scrub: ScrubConfig, fadeIn: FadeConfig, fadeOut: FadeConfig)
    returns (s: WindowedSequence?, requested: seq<nat>)
    requires dpr >= 0.0
    ensures target == null ==> s == null && requested == []
    ensures target != null ==>
      && s != null && fresh(s) && s.Valid() && s.manifest == manifest && s.preload == preload && s.target == target
      && s.width == Round(manifest.width * ClampedPixelRatio(dpr))
      && s.height == Round(manifest.height * ClampedPixelRatio(dpr))
      && requested == WarmPlan(preload, manifest.count, 0, {})
      && s.currentIndex == -1 && s.drawn == [] && s.inP == 0.0 && s.outP == 0.0
      && s.cache == map[]
      && s.scrubRegion == ScrubRegion(scrub) && s.fadeInRegion == FadeRegion(fadeIn) && s.fadeOutRegion == FadeRegion(fadeOut)
  {
    if target == null {
      return null, [];
    }
    s := new WindowedSequence(manifest, preload, target, dpr, scrub, fadeIn, fadeOut);
    assert s.cache.Keys == {};
    requested := s.Warm(0);
    assert Evict(map[], 0, 0) == map[];
    if preload.Radius? {
      s.Draw(0);
    }
  }
}
