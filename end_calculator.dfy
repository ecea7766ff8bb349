/** The scroll lengths of src/utils/animations/endCalculator.ts: each helper
    produces a relative scroll-trigger end of the form `+=<pixels>`. The
    window's size and scroll position and the document are parameters. */
module EndCalculator {
  import opened Wrappers
  import opened Numbers
  import opened Decimal
  import opened Dom

  datatype ScrollSpeed = Slow | Normal | Fast

  /** Scroll pixels per frame: a slower speed spends more scroll per frame. */
  function SpeedValue(speed: ScrollSpeed): (px: real)
    ensures px > 0.0
    ensures speed == Slow ==> px == 20.0
    ensures speed == Normal ==> px == 15.0
    ensures speed == Fast ==> px == 10.0
  {
    match speed
    case Slow => 20.0
    case Normal => 15.0
    case Fast => 10.0
  }

  lemma SlowerSpendsMoreScroll()
    ensures SpeedValue(Fast) < SpeedValue(Normal) < SpeedValue(Slow)
  {
  }

  /** Windows narrower than this count as mobile. */
  const MobileBreakpoint: real := 768.0

  /** The factor applied to pixels per frame on mobile. */
  const MobileMultiplier: real := 0.7

  datatype Window = Window(innerWidth: real, innerHeight: real, pageYOffset: real, scrollTop: real)

  /** `isMobile()`: narrower than the 768 px breakpoint. */
  predicate IsMobile(w: Window): (b: bool)
    ensures b <==> w.innerWidth < 768.0
  {
    w.innerWidth < MobileBreakpoint
  }

  /** `+=<px>`: a scroll length relative to the trigger's start. */
  function Offset(px: int): (s: string)
    ensures |s| >= 3 && s[..2] == "+="
  {
    "+=" + IntString(px)
  }

  /** The pixel count can be read back from an offset. */
  lemma OffsetParses(px: int)
    ensures IsIntText(Offset(px)[2..]) && ParseInt(Offset(px)[2..]) == px
  {
    assert Offset(px)[2..] == IntString(px);
    ParseIntString(px);
  }

  lemma OffsetInjective(a: int, b: int)
    requires Offset(a) == Offset(b)
    ensures a == b
  {
    OffsetParses(a);
    OffsetParses(b);
  }

  /** The options of `forCanvasFrames`; None is an omitted option. */
  datatype CanvasFramesConfig = CanvasFramesConfig(
    speed: Option<ScrollSpeed>, responsive: Option<bool>, customMultiplier: Option<real>)

  /** A multiplier that JavaScript treats as present: given and not 0. */
  predicate MultiplierApplies(config: CanvasFramesConfig) {
    config.customMultiplier.Some? && config.customMultiplier.value != 0.0
  }

  /** Pixels per frame before the mobile adjustment: the speed's value
      (Normal if omitted) times the custom multiplier if it applies. */
  function BasePixels(config: CanvasFramesConfig): real {
    SpeedValue(config.speed.GetOr(Normal)) * (if MultiplierApplies(config) then config.customMultiplier.value else 1.0)
  }

  /** Pixels per frame: the base value, times the mobile factor when
      responsive (the default) on a narrow window. */
  function FramePixels(config: CanvasFramesConfig, w: Window): real {
    BasePixels(config) * (if config.responsive.GetOr(true) && IsMobile(w) then MobileMultiplier else 1.0)
  }

  /** With the default options the scroll is 15 px per frame on desktop and
      70% of that on mobile. */
  lemma DefaultFramePixels(w: Window)
    ensures IsMobile(w) ==> FramePixels(CanvasFramesConfig(None, None, None), w) == 10.5
    ensures !IsMobile(w) ==> FramePixels(CanvasFramesConfig(None, None, None), w) == 15.0
  {
  }

  /** Turning responsiveness off makes the result independent of the window. */
  lemma NonResponsiveIgnoresWindow(config: CanvasFramesConfig, w1: Window, w2: Window)
    requires config.responsive == Some(false)
    ensures FramePixels(config, w1) == FramePixels(config, w2)
  {
  }

  /** `+=<Math.round(length * factor)>`. */
  function ScaledLength(length: real, factor: real): string {
    Offset(Round(length * factor))
  }

  /** `forCanvasFrames(frames, config)`. */
  method ForCanvasFrames(frames: real, config: CanvasFramesConfig, w: Window) returns (end: string)
    ensures end == ScaledLength(frames, FramePixels(config, w))
  {
    var pixelsPerFrame := SpeedValue(config.speed.GetOr(Normal));
    if MultiplierApplies(config) {
      pixelsPerFrame := pixelsPerFrame * config.customMultiplier.value;
    }
    assert pixelsPerFrame == BasePixels(config);
    if config.responsive.GetOr(true) && IsMobile(w) {
      pixelsPerFrame := pixelsPerFrame * MobileMultiplier;
    }
    assert pixelsPerFrame == FramePixels(config, w);
    end := ScaledLength(frames, pixelsPerFrame);
  }

  /** A length raised to `min` if below it, then lowered to `max` if above
      it: the last bound applied wins when they conflict. */
  function Bounded(total: real, min: Option<real>, max: Option<real>): (r: real)
    ensures min.None? && max.None? ==> r == total
    ensures max.Some? ==> r <= max.value
    ensures min.Some? && (max.None? || min.value <= max.value) ==> r >= min.value
    ensures min.Some? && max.Some? && min.value > max.value ==> r == max.value
    ensures (min.None? || min.value <= total) && (max.None? || total <= max.value) ==> r == total
  {
    var raised := if min.Some? && total < min.value then min.value else total;
    if max.Some? && raised > max.value then max.value else raised
  }

  /** `count` window heights. */
  function ViewportsHeight(count: real, w: Window): real {
    w.innerHeight * count
  }

  /** The length `viewports(count, {min, max})` yields. */
  function ViewportsLength(count: real, min: Option<real>, max: Option<real>, w: Window): string {
    Offset(Round(Bounded(ViewportsHeight(count, w), min, max)))
  }

  /** `viewports(count, {min, max})`. */
  method Viewports(count: real, min: Option<real>, max: Option<real>, w: Window) returns (end: string)
    ensures end == ViewportsLength(count, min, max, w)
  {
    var total := ViewportsHeight(count, w);
    if min.Some? && total < min.value {
      total := min.value;
    }
    if max.Some? && total > max.value {
      total := max.value;
    }
    end := Offset(Round(total));
  }

  /** One viewport: the fallback of the element-based helpers. */
  function OneViewport(w: Window): (end: string)
    ensures end == Offset(Round(w.innerHeight))
  {
    ViewportsLength(1.0, None, None, w)
  }

  /** `window.pageYOffset || document.documentElement.scrollTop`. */
  function ScrollPosition(w: Window): (y: real)
    ensures w.pageYOffset != 0.0 ==> y == w.pageYOffset
    ensures w.pageYOffset == 0.0 ==> y == w.scrollTop
  {
    if w.pageYOffset != 0.0 then w.pageYOffset else w.scrollTop
  }

  /** The element's distance from the top of the document, plus `offset`. */
  function DistanceLength(e: Element, offset: real, w: Window): string {
    Offset(Round(e.top + ScrollPosition(w) + offset))
  }

  /** The closure of `untilElement(id, offset)`, evaluated: the element's
      distance from the top of the document plus `offset`, or one viewport. */
  function UntilElement(doc: Document, id: string, offset: real, w: Window): (end: string)
    ensures GetElementById(doc, id).None? ==> end == OneViewport(w)
    ensures GetElementById(doc, id).Some? ==> end == DistanceLength(GetElementById(doc, id).value, offset, w)
  {
    var found := GetElementById(doc, id);
    if found.None? then OneViewport(w) else DistanceLength(found.value, offset, w)
  }

  /** The closure of `elementHeight(id, multiplier)`, evaluated. */
  function ElementHeight(doc: Document, id: string, multiplier: real, w: Window): (end: string)
    ensures GetElementById(doc, id).None? ==> end == OneViewport(w)
    ensures GetElementById(doc, id).Some? ==> end == ScaledLength(GetElementById(doc, id).value.offsetHeight as real, multiplier)
  {
    var found := GetElementById(doc, id);
    if found.None? then OneViewport(w) else ScaledLength(found.value.offsetHeight as real, multiplier)
  }

  /** The ids among `ids` that name an element, in the given order. */
  function Found(doc: Document, ids: seq<string>): (r: seq<string>)
    ensures forall id :: id in r <==> id in ids && GetElementById(doc, id).Some?
    ensures |r| <= |ids|
  {
    if ids == [] then []
    else
      var rest := Found(doc, ids[1..]);
      assert forall id :: id in ids <==> id == ids[0] || id in ids[1..];
      (if GetElementById(doc, ids[0]).Some? then [ids[0]] else []) + rest
  }

  /** The summed heights of the elements those ids name. */
  function SumFound(doc: Document, ids: seq<string>): nat {
    if ids == [] then 0
    else
      var found := GetElementById(doc, ids[0]);
      (if found.Some? then found.value.offsetHeight else 0) + SumFound(doc, ids[1..])
  }

  /** Missing ids are skipped: adding one changes neither the found list nor
      the sum. */
  lemma MissingSectionSkipped(doc: Document, ids: seq<string>, missing: string)
    requires GetElementById(doc, missing).None?
    ensures Found(doc, [missing] + ids) == Found(doc, ids)
    ensures SumFound(doc, [missing] + ids) == SumFound(doc, ids)
  {
    assert ([missing] + ids)[1..] == ids;
  }

  /** The sum over two lists of ids is the sum of the sums. */
  lemma {:induction false} SumFoundAppend(doc: Document, a: seq<string>, b: seq<string>)
    ensures SumFound(doc, a + b) == SumFound(doc, a) + SumFound(doc, b)
    ensures Found(doc, a + b) == Found(doc, a) + Found(doc, b)
  {
    if a == [] {
      assert a + b == b;
    } else {
      assert (a + b)[1..] == a[1..] + b;
      assert (a + b)[0] == a[0];
      SumFoundAppend(doc, a[1..], b);
    }
  }

  /** The closure of `sections(ids, spacing)`, evaluated: the found sections'
      total height times `spacing`, or one viewport if none is found. */
  method Sections(doc: Document, ids: seq<string>, spacing: real, w: Window) returns (end: string)
    ensures |Found(doc, ids)| == 0 ==> end == OneViewport(w)
    ensures |Found(doc, ids)| > 0 ==> end == ScaledLength(SumFound(doc, ids) as real, spacing)
  {
    var totalHeight: nat := 0;
    var foundSections: seq<string> := [];
    for i := 0 to |ids|
      invariant totalHeight == SumFound(doc, ids[..i])
      invariant foundSections == Found(doc, ids[..i])
    {
      SumFoundAppend(doc, ids[..i], [ids[i]]);
      assert ids[..i + 1] == ids[..i] + [ids[i]];
      var section := GetElementById(doc, ids[i]);
      if section.Some? {
        totalHeight := totalHeight + section.value.offsetHeight;
        foundSections := foundSections + [ids[i]];
      }
    }
    assert ids[..|ids|] == ids;
    if |foundSections| == 0 {
      end := Viewports(1.0, None, None, w);
      return;
    }
    end := ScaledLength(totalHeight as real, spacing);
  }

  /** `sections([id], m)` and `elementHeight(id, m)` agree: both fall back to
      one viewport for a missing element, and otherwise both scale its
      height. */
  lemma SingleSectionIsElementHeight(doc: Document, id: string, multiplier: real, w: Window)
    ensures GetElementById(doc, id).None? ==> |Found(doc, [id])| == 0 && ElementHeight(doc, id, multiplier, w) == OneViewport(w)
    ensures GetElementById(doc, id).Some? ==>
      |Found(doc, [id])| > 0 && ScaledLength(SumFound(doc, [id]) as real, multiplier) == ElementHeight(doc, id, multiplier, w)
  {
    assert [id][1..] == [];
  }

  /** `responsive(desktop, mobile)`. */
  function Responsive(desktop: string, mobile: string, w: Window): (r: string)
    ensures IsMobile(w) ==> r == mobile
    ensures !IsMobile(w) ==> r == desktop
  {
    if IsMobile(w) then mobile else desktop
  }
}
