/** `AnimationConfigReader` (src/utils/animations/configReader.ts): animation
    settings read from a section's `data-*` attributes, with a default for
    every missing value. Numeric attributes are taken to be well-formed
    decimal text. */
module ConfigReader {
  import opened Wrappers
  import opened Decimal
  import opened Dom

  datatype CanvasConfig = CanvasConfig(frames: int, pixelsPerFrame: int, speed: string, end: string)

  datatype ParallaxConfig = ParallaxConfig(
    trigger: string, target: string, distance: int, start: string, end: string, scrub: real)

  /** `pinnedElement` is None when the attribute is absent. */
  datatype PinConfig = PinConfig(duration: real, pinnedElement: Option<string>, spacing: int)

  /** One entry of the `getAll...Configs` lists. */
  datatype SectionEntry<C> = SectionEntry(sectionId: string, config: C)

  /** `SCROLL_SPEEDS[name]`: scroll pixels per frame for a known speed. */
  function ScrollSpeedPixels(name: string): (px: Option<int>)
    ensures px.Some? <==> name in {"fast", "normal", "slow"}
    ensures px.Some? ==> px.value > 0
  {
    if name == "fast" then Some(10)
    else if name == "normal" then Some(15)
    else if name == "slow" then Some(20)
    else None
  }

  /** `SCROLL_SPEEDS[name] || SCROLL_SPEEDS.normal`. */
  function PixelsPerFrame(name: string): (px: int)
    ensures name == "fast" ==> px == 10
    ensures name == "slow" ==> px == 20
    ensures name != "fast" && name != "slow" ==> px == 15
  {
    ScrollSpeedPixels(name).GetOr(15)
  }

  /** `PARALLAX_DISTANCES[speed]`. */
  function ParallaxDistance(speed: string): (d: Option<int>)
    ensures d.Some? <==> speed in {"slow", "medium", "fast"}
    ensures d.Some? ==> d.value < 0
  {
    if speed == "slow" then Some(-100)
    else if speed == "medium" then Some(-300)
    else if speed == "fast" then Some(-600)
    else None
  }

  /** `PARALLAX_DISTANCES[speed] || PARALLAX_DISTANCES.medium`. */
  function DistanceForSpeed(speed: string): (d: int)
    ensures speed == "slow" ==> d == -100
    ensures speed == "fast" ==> d == -600
    ensures speed != "slow" && speed != "fast" ==> d == -300
  {
    ParallaxDistance(speed).GetOr(-300)
  }

  /** A faster parallax moves further. */
  lemma FasterParallaxMovesFurther()
    ensures DistanceForSpeed("fast") < DistanceForSpeed("medium") < DistanceForSpeed("slow") < 0
  {
  }

  const DefaultCanvasConfig: CanvasConfig := CanvasConfig(100, 15, "normal", "+=1500")

  function DefaultParallaxConfig(sectionId: string): (c: ParallaxConfig)
    ensures c.trigger == "#" + sectionId && c.target == "#" + sectionId + "-right"
    ensures c.distance == DistanceForSpeed("medium")
  {
    ParallaxConfig("#" + sectionId, "#" + sectionId + "-right", -300, "top bottom", "bottom top", 1.0)
  }

  const DefaultPinConfig: PinConfig := PinConfig(1.0, None, 0)

  /** The numeric attributes a section carries parse as numbers. */
  predicate WellFormedSection(e: Element) {
    && IsIntText(DataOr(e, "canvasFrames", "100"))
    && (HasNonEmpty(e, "parallaxDistance") ==> IsIntText(e.dataset["parallaxDistance"]))
    && IsDecimalText(DataOr(e, "parallaxScrub", "1"))
    && IsDecimalText(DataOr(e, "pinDuration", "1"))
    && IsIntText(DataOr(e, "pinSpacing", "0"))
  }

  predicate WellFormed(doc: Document) {
    forall e :: e in doc ==> WellFormedSection(e)
  }

  /** The canvas configuration one section's attributes describe. */
  function SectionCanvasConfig(e: Element): (c: CanvasConfig)
    requires WellFormedSection(e)
    ensures c.speed == DataOr(e, "scrollSpeed", "normal")
    ensures c.pixelsPerFrame == PixelsPerFrame(c.speed)
    ensures c.frames == ParseInt(DataOr(e, "canvasFrames", "100"))
    ensures !HasNonEmpty(e, "canvasFrames") ==> c.frames == 100
    ensures HasNonEmpty(e, "canvasDuration") ==> c.end == "+=" + e.dataset["canvasDuration"]
    ensures !HasNonEmpty(e, "canvasDuration") ==> c.end == "+=" + IntString(c.frames * c.pixelsPerFrame)
  {
    var frames := ParseInt(DataOr(e, "canvasFrames", "100"));
    var speedName := DataOr(e, "scrollSpeed", "normal");
    var pixelsPerFrame := PixelsPerFrame(speedName);
    var calculatedEnd :=
      if HasNonEmpty(e, "canvasDuration") then "+=" + e.dataset["canvasDuration"]
      else "+=" + IntString(frames * pixelsPerFrame);
    ParseHundred();
    CanvasConfig(frames, pixelsPerFrame, speedName, calculatedEnd)
  }

  /** `getCanvasConfig(sectionId)`. */
  function GetCanvasConfig(doc: Document, sectionId: string): (c: CanvasConfig)
    requires WellFormed(doc)
    ensures GetElementById(doc, sectionId).None? ==> c == DefaultCanvasConfig
    ensures GetElementById(doc, sectionId).Some? ==> c == SectionCanvasConfig(GetElementById(doc, sectionId).value)
  {
    match GetElementById(doc, sectionId)
    case None => DefaultCanvasConfig
    case Some(e) => SectionCanvasConfig(e)
  }

  /** Without a custom duration, the scroll length is frames times pixels per
      frame. */
  lemma ComputedEndParses(e: Element)
    requires WellFormedSection(e) && !HasNonEmpty(e, "canvasDuration")
    ensures var c := SectionCanvasConfig(e);
      IsIntText(c.end[2..]) && ParseInt(c.end[2..]) == c.frames * c.pixelsPerFrame
  {
    var c := SectionCanvasConfig(e);
    assert c.end[2..] == IntString(c.frames * c.pixelsPerFrame);
    ParseIntString(c.frames * c.pixelsPerFrame);
  }

  lemma ParseHundred()
    ensures IsIntText("100") && ParseInt("100") == 100
  {
    assert Digits(100) == Digits(10) + "0" == Digits(1) + "0" + "0" == "100";
    ValueOfDigits(100);
  }

  /** The default is what a section with no attributes yields, so a missing
      section and a bare one read the same; in particular its end is frames
      times pixels per frame. */
  lemma DefaultCanvasConfigIsBareSection(id: string, height: nat, top: real)
    ensures SectionCanvasConfig(Element(id, map[], height, top)) == DefaultCanvasConfig
    ensures DefaultCanvasConfig.end == "+=" + IntString(DefaultCanvasConfig.frames * DefaultCanvasConfig.pixelsPerFrame)
  {
    ParseHundred();
    assert IntString(1500) == "1500";
  }

  /** The parallax configuration of section `sectionId` whose element is `e`. */
  function SectionParallaxConfig(e: Element, sectionId: string): (c: ParallaxConfig)
    requires WellFormedSection(e)
    ensures c.trigger == "#" + sectionId
    ensures HasNonEmpty(e, "parallaxDistance") ==> c.distance == ParseInt(e.dataset["parallaxDistance"])
    ensures !HasNonEmpty(e, "parallaxDistance") ==> c.distance == DistanceForSpeed(DataOr(e, "parallaxSpeed", "medium"))
    ensures c.target == DataOr(e, "parallaxTarget", "#" + sectionId + "-right")
    ensures c.start == DataOr(e, "parallaxStart", "top bottom")
    ensures c.end == DataOr(e, "parallaxEnd", "bottom top")
    ensures c.scrub == ParseDecimal(DataOr(e, "parallaxScrub", "1"))
  {
    var speed := DataOr(e, "parallaxSpeed", "medium");
    var distance :=
      if HasNonEmpty(e, "parallaxDistance") then ParseInt(e.dataset["parallaxDistance"])
      else DistanceForSpeed(speed);
    ParallaxConfig(
      "#" + sectionId,
      DataOr(e, "parallaxTarget", "#" + sectionId + "-right"),
      distance,
      DataOr(e, "parallaxStart", "top bottom"),
      DataOr(e, "parallaxEnd", "bottom top"),
      ParseDecimal(DataOr(e, "parallaxScrub", "1")))
  }

  /** `getParallaxConfig(sectionId)`. */
  function GetParallaxConfig(doc: Document, sectionId: string): (c: ParallaxConfig)
    requires WellFormed(doc)
    ensures c.trigger == "#" + sectionId
    ensures GetElementById(doc, sectionId).None? ==> c == DefaultParallaxConfig(sectionId)
    ensures GetElementById(doc, sectionId).Some? ==>
      c == SectionParallaxConfig(GetElementById(doc, sectionId).value, sectionId)
  {
    match GetElementById(doc, sectionId)
    case None => DefaultParallaxConfig(sectionId)
    case Some(e) => SectionParallaxConfig(e, sectionId)
  }

  lemma DefaultParallaxConfigIsBareSection(id: string, height: nat, top: real)
    ensures SectionParallaxConfig(Element(id, map[], height, top), id) == DefaultParallaxConfig(id)
  {
  }

  /** The pin configuration one section's attributes describe. */
  function SectionPinConfig(e: Element): (c: PinConfig)
    requires WellFormedSection(e)
    ensures c.duration == ParseDecimal(DataOr(e, "pinDuration", "1"))
    ensures c.pinnedElement == Data(e, "pinElement")
    ensures c.spacing == ParseInt(DataOr(e, "pinSpacing", "0"))
  {
    PinConfig(
      ParseDecimal(DataOr(e, "pinDuration", "1")),
      Data(e, "pinElement"),
      ParseInt(DataOr(e, "pinSpacing", "0")))
  }

  /** `getPinConfig(sectionId)`. */
  function GetPinConfig(doc: Document, sectionId: string): (c: PinConfig)
    requires WellFormed(doc)
    ensures GetElementById(doc, sectionId).None? ==> c == DefaultPinConfig
    ensures GetElementById(doc, sectionId).Some? ==> c == SectionPinConfig(GetElementById(doc, sectionId).value)
  {
    match GetElementById(doc, sectionId)
    case None => DefaultPinConfig
    case Some(e) => SectionPinConfig(e)
  }

  /** A section without pin attributes reads as the default: duration 1 and
      spacing 0. */
  lemma DefaultPinConfigIsBareSection(id: string, height: nat, top: real)
    ensures SectionPinConfig(Element(id, map[], height, top)) == DefaultPinConfig
  {
    assert ParseInt("0") == 0;
  }

  /** The non-empty ids of the elements carrying one of `keys`, in document
      order: `querySelectorAll(...)` mapped to ids, empty ids dropped. */
  function MarkedIds(doc: Document, keys: set<string>): (ids: seq<string>)
    ensures forall id :: id in ids <==> id != "" && exists e :: e in doc && HasAnyAttribute(e, keys) && e.id == id
    ensures forall i :: 0 <= i < |ids| ==> ids[i] != ""
  {
    var marked := WithAnyAttribute(doc, keys);
    NonEmptyIds(marked)
  }

  /** The listing follows document order: one element contributes its id iff
      it is marked and has a non-empty id, and a document listed in two parts
      lists as the two lists one after the other. */
  lemma MarkedIdsInDocumentOrder(a: Document, b: Document, e: Element, keys: set<string>)
    ensures MarkedIds([e], keys) == if HasAnyAttribute(e, keys) && e.id != "" then [e.id] else []
    ensures MarkedIds(a + b, keys) == MarkedIds(a, keys) + MarkedIds(b, keys)
  {
    assert [e][1..] == [];
    WithAnyAttributeAppend(a, b, keys);
    NonEmptyIdsAppend(WithAnyAttribute(a, keys), WithAnyAttribute(b, keys));
  }

  /** `getAllScrollSections()`: the ids of the sections marked
      `data-scroll-section`, in document order, without empty ids. */
  function GetAllScrollSections(doc: Document): (ids: seq<string>)
    ensures ids == MarkedIds(doc, {"scrollSection"})
    ensures forall id :: id in ids <==> id != "" && exists e :: e in doc && "scrollSection" in e.dataset && e.id == id
  {
    var marked := WithAnyAttribute(doc, {"scrollSection"});
    assert forall e :: e in marked <==> e in doc && "scrollSection" in e.dataset;
    NonEmptyIds(marked)
  }

  /** The section ids of a list of entries, in order. */
  function EntryIds<C>(r: seq<SectionEntry<C>>): (ids: seq<string>)
    ensures |ids| == |r| && forall i :: 0 <= i < |r| ==> ids[i] == r[i].sectionId
  {
    if r == [] then [] else [r[0].sectionId] + EntryIds(r[1..])
  }

  /** Pairs each id with its configuration, read by looking the id up again. */
  function CanvasEntries(doc: Document, ids: seq<string>): (r: seq<SectionEntry<CanvasConfig>>)
    requires WellFormed(doc)
    ensures |r| == |ids|
    ensures forall i :: 0 <= i < |r| ==> r[i] == SectionEntry(ids[i], GetCanvasConfig(doc, ids[i]))
  {
    if ids == [] then [] else [SectionEntry(ids[0], GetCanvasConfig(doc, ids[0]))] + CanvasEntries(doc, ids[1..])
  }

  /** `getAllCanvasConfigs()`: every section carrying `data-canvas-frames`
      and a non-empty id, in document order, with `getCanvasConfig(id)`. */
  function GetAllCanvasConfigs(doc: Document): (r: seq<SectionEntry<CanvasConfig>>)
    requires WellFormed(doc)
    ensures EntryIds(r) == MarkedIds(doc, {"canvasFrames"})
    ensures forall i :: 0 <= i < |r| ==> r[i].sectionId != "" && r[i].config == GetCanvasConfig(doc, r[i].sectionId)
  {
    var ids := MarkedIds(doc, {"canvasFrames"});
    CanvasEntries(doc, ids)
  }

  function ParallaxEntries(doc: Document, ids: seq<string>): (r: seq<SectionEntry<ParallaxConfig>>)
    requires WellFormed(doc)
    ensures |r| == |ids|
    ensures forall i :: 0 <= i < |r| ==> r[i] == SectionEntry(ids[i], GetParallaxConfig(doc, ids[i]))
  {
    if ids == [] then [] else [SectionEntry(ids[0], GetParallaxConfig(doc, ids[0]))] + ParallaxEntries(doc, ids[1..])
  }

  /** `getAllParallaxConfigs()`: the sections carrying a parallax speed or
      distance, each once, in document order. */
  function GetAllParallaxConfigs(doc: Document): (r: seq<SectionEntry<ParallaxConfig>>)
    requires WellFormed(doc)
    ensures EntryIds(r) == MarkedIds(doc, {"parallaxSpeed", "parallaxDistance"})
    ensures forall i :: 0 <= i < |r| ==> r[i].sectionId != "" && r[i].config == GetParallaxConfig(doc, r[i].sectionId)
  {
    var ids := MarkedIds(doc, {"parallaxSpeed", "parallaxDistance"});
    ParallaxEntries(doc, ids)
  }

  /** `hasCanvasConfig(sectionId)`: the attribute is present, even if empty. */
  function HasCanvasConfig(doc: Document, sectionId: string): (b: bool)
    ensures b <==> GetElementById(doc, sectionId).Some? && "canvasFrames" in GetElementById(doc, sectionId).value.dataset
  {
    match GetElementById(doc, sectionId)
    case None => false
    case Some(e) => "canvasFrames" in e.dataset
  }

  /** `hasParallaxConfig(sectionId)`. */
  function HasParallaxConfig(doc: Document, sectionId: string): (b: bool)
    ensures b <==> (
      && GetElementById(doc, sectionId).Some?
      && ("parallaxSpeed" in GetElementById(doc, sectionId).value.dataset
          || "parallaxDistance" in GetElementById(doc, sectionId).value.dataset))
  {
    match GetElementById(doc, sectionId)
    case None => false
    case Some(e) => "parallaxSpeed" in e.dataset || "parallaxDistance" in e.dataset
  }

  /** A section that has a canvas configuration is listed by
      `getAllCanvasConfigs`. */
  lemma ConfiguredCanvasIsListed(doc: Document, sectionId: string)
    requires WellFormed(doc) && HasCanvasConfig(doc, sectionId)
    ensures exists i :: 0 <= i < |GetAllCanvasConfigs(doc)| && GetAllCanvasConfigs(doc)[i].sectionId == sectionId
  {
    var e := GetElementById(doc, sectionId).value;
    var marked := WithAnyAttribute(doc, {"canvasFrames"});
    assert e in marked;
    var ids := NonEmptyIds(marked);
    assert sectionId in ids;
    var i :| 0 <= i < |ids| && ids[i] == sectionId;
    assert GetAllCanvasConfigs(doc)[i].sectionId == sectionId;
  }

  /** A section that has a parallax configuration is listed by
      `getAllParallaxConfigs`. */
  lemma ConfiguredParallaxIsListed(doc: Document, sectionId: string)
    requires WellFormed(doc) && HasParallaxConfig(doc, sectionId)
    ensures exists i :: 0 <= i < |GetAllParallaxConfigs(doc)| && GetAllParallaxConfigs(doc)[i].sectionId == sectionId
  {
    var e := GetElementById(doc, sectionId).value;
    var keys := {"parallaxSpeed", "parallaxDistance"};
    var marked := WithAnyAttribute(doc, keys);
    if "parallaxSpeed" in e.dataset {
      assert "parallaxSpeed" in keys;
    } else {
      assert "parallaxDistance" in keys;
    }
    assert e in marked;
    var ids := NonEmptyIds(marked);
    assert sectionId in ids;
    var i :| 0 <= i < |ids| && ids[i] == sectionId;
    assert GetAllParallaxConfigs(doc)[i].sectionId == sectionId;
  }

  /** An id is listed by `getAllCanvasConfigs` iff it is non-empty and some
      section carrying `data-canvas-frames` has it. */
  lemma CanvasListedIff(doc: Document, id: string)
    requires WellFormed(doc)
    ensures id in EntryIds(GetAllCanvasConfigs(doc))
        <==> id != "" && exists e :: e in doc && "canvasFrames" in e.dataset && e.id == id
  {
    var keys := {"canvasFrames"};
    assert forall e: Element :: HasAnyAttribute(e, keys) <==> "canvasFrames" in e.dataset by {
      forall e: Element ensures HasAnyAttribute(e, keys) <==> "canvasFrames" in e.dataset {
        if "canvasFrames" in e.dataset { assert "canvasFrames" in keys; }
      }
    }
  }

  /** An id is listed by `getAllParallaxConfigs` iff it is non-empty and some
      section carrying a parallax speed or distance has it. */
  lemma ParallaxListedIff(doc: Document, id: string)
    requires WellFormed(doc)
    ensures id in EntryIds(GetAllParallaxConfigs(doc))
        <==> id != "" && exists e :: e in doc && ("parallaxSpeed" in e.dataset || "parallaxDistance" in e.dataset) && e.id == id
  {
    var keys := {"parallaxSpeed", "parallaxDistance"};
    assert forall e: Element :: HasAnyAttribute(e, keys) <==> "parallaxSpeed" in e.dataset || "parallaxDistance" in e.dataset by {
      forall e: Element ensures HasAnyAttribute(e, keys) <==> "parallaxSpeed" in e.dataset || "parallaxDistance" in e.dataset {
        if "parallaxSpeed" in e.dataset { assert "parallaxSpeed" in keys; }
        if "parallaxDistance" in e.dataset { assert "parallaxDistance" in keys; }
      }
    }
  }
}
