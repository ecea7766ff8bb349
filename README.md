# Scroll-scrubbed image sequences, modelled in Dafny

This project models the core of a landing page that plays videos as sequences
of still frames. The frames are drawn on a `<canvas>` and advanced by the
scroll position. It covers:

- **Frame naming and cover fit** (`Helpers`). A frame's URL is the manifest's
  base URL, the zero-padded frame number and the extension. The
  "object-fit: cover" rectangle fits an image to the canvas and centres it.
- **The eager player** (`SequenceCanvas.MultiSequenceCanvas`). It preloads
  every frame into an array of images. It sizes the canvas backing store by
  the device pixel ratio. On `render()` it paints the frame under its
  real-valued cursor, or falls back to the newest paintable frame below it.
- **Its scroll wiring** (`ScrollCanvasHandler`). A scrub tween moves the
  cursor. Two fade triggers drive an opacity/visibility controller, which
  hides an element and makes it click-through when it is nearly transparent.
- **The windowed player** (`WindowedCanvas`). It keeps a cache of decoded
  frames keyed by index. It requests the missing frames within a radius of
  the scroll position and evicts cached frames more than 30 frames outside
  that window. Each frame is drawn at most once in a row.
- **Scroll-driven video** (`ScrollVideo`). A `<video>` element's
  `currentTime` follows the scrub progress within a 0.01 s tolerance. Its
  container fades and blurs in and out.
- **Start-up of the page's six canvas sequences** (`CanvasSequences`). It
  uses the six trigger configurations, loads the manifest and matches each
  configuration to its canvas and manifest entry.
- **Configuration from `data-*` attributes** (`ConfigReader`, `Dom`).
- **Scroll lengths for triggers** (`EndCalculator`), all of the form
  `+=<pixels>`.
- **The scroll lock** (`LenisLock`): lock, unlock and the event guards.
- **Two small stores** (`AnimationStore`, `AppStore`).

Supporting modules:

- `Numbers` holds `Math.round` (floor of x + 1/2) and the clamp.
- `Decimal` holds `toString`, `parseInt` and `parseFloat` on well-formed text.
- `Wrappers` holds `Option`.
- `Compositing` holds the shared alpha/blur formula.
- `Triggers` resolves the scroll-trigger defaults.

State the source mutates in place is modelled with classes and methods. Pure
computations are modelled with functions and lemmas. Numbers are exact
`real`s.

Environmental inputs become parameters:

- the window (size, scroll offset, device pixel ratio);
- the document (a sequence of elements);
- per-frame load outcomes;
- the fetched manifest;
- trigger progress values.

**Four behaviours of the code worth stating outright:**

- Visibility switches on at a plain 0.01 threshold (opacity > 0.01), with no
  hysteresis band.
- The fades of the eager player receive eased progress. The fades of the
  windowed player and of the video receive raw progress.
- The windowed player's eviction follows only the new window. A jump can
  evict the frame still shown on the canvas (`WindowedCanvas.JumpEvictsShownFrame`).
- The windowed player's `draw` has no fallback to an earlier frame.

## Model

| member | source | states |
|---|---|---|
| `Numbers.Round` | src/utils/canvas/MultiSequenceCanvas.ts:118 | `Math.round(x)` lies in (x - 1/2, x + 1/2] |
| `Numbers.Clamp` | src/utils/handleScrollCanvas.ts:9 | `max(lo, min(hi, n))` lies in [lo, hi] when lo <= hi; it is n inside the range, lo below it, hi above it, and lo when the bounds are inverted |
| `Numbers.ClampInt` | src/utils/handleScrollCanvas.ts:66-67 | the integer clamp is at least lo, within [lo, hi] when lo <= hi, the identity inside the range |
| `Numbers.ClampIntIsClamp` | src/utils/handleScrollCanvas.ts:9 | the integer clamp agrees with the real one |
| `Numbers.RoundWithin` | src/utils/handleScrollCanvas.ts:84 | a value between two integers rounds to an integer between them |
| `Decimal.Digits` | src/utils/canvas/helpers.ts:12 | `toString` of a non-negative integer is a non-empty digit string without a leading zero; one digit iff the number is below 10 |
| `Decimal.ValueOfDigits` | src/utils/canvas/helpers.ts:12 | reading the digits of n back gives n |
| `Decimal.DigitsInjective` | src/utils/canvas/helpers.ts:12 | distinct numbers have distinct decimal texts |
| `Decimal.ValueIgnoresLeadingZeros` | src/utils/canvas/helpers.ts:12 | leading '0's do not change the number a digit string denotes |
| `Decimal.IntString` | src/utils/animations/configReader.ts:115 | the text of an integer is non-empty and starts with '-' iff it is negative |
| `Decimal.ParseIntString` | src/utils/animations/configReader.ts:105 | `parseInt(String(i)) == i` for every integer |
| `Decimal.ParseDecimalOfInt` | src/utils/animations/configReader.ts:177 | `parseFloat` and `parseInt` agree on integer text |
| `Helpers.PadNumber` | src/utils/canvas/helpers.ts:11-13 | `padStart` yields max(len, digits) characters: '0's followed by the digits of n, and the digits alone when they already reach len |
| `Helpers.PadNumberValue` | src/utils/canvas/helpers.ts:11-13 | the padded name is all digits and denotes n |
| `Helpers.PadNumberInjective` | src/utils/canvas/helpers.ts:11-13 | distinct frame numbers get distinct padded names |
| `Helpers.FrameUrl` | src/utils/canvas/helpers.ts:21-26 | the URL starts with the base URL, ends with the extension, and holds the padded index between them |
| `Helpers.FrameUrlInjective` | src/utils/canvas/helpers.ts:21-26 | within one manifest, distinct frames have distinct URLs |
| `Helpers.CoverDimensions` | src/utils/canvas/helpers.ts:36-62 | the cover rectangle has non-negative size, positive when the canvas has any extent; a zero-height canvas takes the fill-the-width branch |
| `Helpers.CoverKeepsAspect` | src/utils/canvas/helpers.ts:42-59 | the drawn rectangle has the image's aspect ratio |
| `Helpers.CoverWiderImage` | src/utils/canvas/helpers.ts:47-52 | a relatively wider image fills the canvas height and overflows horizontally, with 0 vertical offset |
| `Helpers.CoverTallerImage` | src/utils/canvas/helpers.ts:53-59 | any other image fills the width and overflows vertically, with 0 horizontal offset |
| `Helpers.CoverIsCentred` | src/utils/canvas/helpers.ts:51-58 | the rectangle is centred and covers the canvas on both axes, including a canvas with a zero side |
| `Helpers.ZeroWidthCanvasCover` | src/utils/canvas/helpers.ts:42-52 | a 16:9 image on a zero-width, 100-high canvas is drawn 100 high and centred on the canvas's zero width |
| `Helpers.CoverEqualRatios` | src/utils/canvas/helpers.ts:47-59 | an image with the canvas's ratio is drawn exactly over the canvas |
| `Compositing.CompositeAlpha` | src/utils/canvas/scrollCanvasHandler.ts:89 | the combined opacity lies in [0, 1] and equals in * (1 - out) for progresses in [0, 1] |
| `Compositing.AlphaZeroAtEnds` | src/utils/handleScrollCanvas.ts:40 | nothing shows before the fade-in starts or after the fade-out ends |
| `Compositing.AlphaOneBetweenFades` | src/utils/handleScrollCanvas.ts:40 | fully faded in and not fading out is fully opaque |
| `Compositing.AlphaMonotone` | src/pages/index.tsx:108 | more fade-in never lowers the opacity; more fade-out never raises it |
| `Compositing.BlurAmount` | src/utils/handleScrollCanvas.ts:41 | the blur is within [0, 20] px: 20 px at opacity 0 and none at opacity 1 |
| `Compositing.BlurFilter` | src/utils/handleScrollCanvas.ts:43 | the filter is "none" iff the blur is at most 0.5 px, and otherwise the blur scaled |
| `Compositing.NoFilterIffNearlyOpaque` | src/pages/index.tsx:113-119 | the filter is dropped exactly when the opacity is at least 0.975 |
| `Triggers.OrDefault` | src/utils/handleScrollCanvas.ts:77-78 | an optional setting is used only when it is given and non-empty, else the fallback |
| `Triggers.ScrubRegion` | src/utils/canvas/scrollCanvasHandler.ts:62-67 | the scrub trigger runs from "top bottom" to "bottom top" unless configured, and pins (with anticipation 1) exactly when `pin` is true |
| `Triggers.FadeRegion` | src/utils/canvas/scrollCanvasHandler.ts:106-108 | a fade trigger runs from "top center" to "bottom center" unless configured and never pins |
| `SequenceCanvas.Settled` | src/utils/canvas/MultiSequenceCanvas.ts:84-102 | every frame's image settles with its frame URL, and a failed load settles too but is not paintable |
| `SequenceCanvas.PixelRatio` | src/utils/canvas/MultiSequenceCanvas.ts:53 | the device ratio, or 1 when it is falsy, is positive, and the ratio itself when it is non-zero |
| `SequenceCanvas.BackingStoreSize` | src/utils/canvas/MultiSequenceCanvas.ts:56-57 | the backing store is the CSS size times the ratio, truncated to an integer |
| `SequenceCanvas.LastDrawableAtOrBelow` | src/utils/canvas/MultiSequenceCanvas.ts:118-131 | the chosen frame is paintable, at or below k, with no paintable frame between it and k; none means no paintable frame at or below k |
| `SequenceCanvas.MultiSequenceCanvas.constructor` | src/utils/canvas/MultiSequenceCanvas.ts:17-41 | a new player has no images, cursor 0, total frames 0, is sized to its container and listens for resizes |
| `SequenceCanvas.MultiSequenceCanvas.UpdateCanvasSize` | src/utils/canvas/MultiSequenceCanvas.ts:47-71 | without a parent nothing changes; otherwise the backing store, CSS size and context scale follow the parent and the ratio, and loaded frames are re-rendered |
| `SequenceCanvas.MultiSequenceCanvas.LoadSequence` | src/utils/canvas/MultiSequenceCanvas.ts:77-109 | one settled image per frame at its frame URL, the manifest recorded, then one render |
| `SequenceCanvas.MultiSequenceCanvas.TotalFrames` | src/utils/canvas/MultiSequenceCanvas.ts:170-172 | 0 before any load, the manifest's count once one is recorded; the constructor, `LoadSequence` and `Destroy` state what it becomes |
| `SequenceCanvas.MultiSequenceCanvas.FrameToDraw` | src/utils/canvas/MultiSequenceCanvas.ts:118-131 | the backward search picks the rounded cursor's frame if paintable, else the newest paintable frame below it, else none |
| `SequenceCanvas.MultiSequenceCanvas.Render` | src/utils/canvas/MultiSequenceCanvas.ts:115-135 | render appends exactly the draws that the frame choice gives, and nothing without images |
| `SequenceCanvas.CanvasRect` | src/utils/canvas/MultiSequenceCanvas.ts:140-151 | a rectangle exactly when the image has area, then the cover rectangle of the backing store in CSS pixels, also for a backing store without area |
| `SequenceCanvas.MultiSequenceCanvas.RenderImage` | src/utils/canvas/MultiSequenceCanvas.ts:140-158 | one draw of the frame, with its cover rectangle whenever the image has area |
| `SequenceCanvas.MultiSequenceCanvas.Destroy` | src/utils/canvas/MultiSequenceCanvas.ts:177-183 | every image's src is blanked, the images are dropped and the resize listener removed; the frame count is kept |
| `ScrollCanvasHandler.VisibilityFor` | src/utils/canvas/scrollCanvasHandler.ts:95-101 | visible iff the opacity exceeds 0.01 |
| `ScrollCanvasHandler.PointerEventsFor` | src/utils/canvas/scrollCanvasHandler.ts:95-101 | interactive iff the opacity exceeds 0.01 |
| `ScrollCanvasHandler.InteractiveOnlyWhenVisible` | src/utils/canvas/scrollCanvasHandler.ts:94-101 | an element takes pointer events iff it is visible, and a transparent one is hidden and click-through |
| `ScrollCanvasHandler.FadeEffects.constructor` | src/utils/canvas/scrollCanvasHandler.ts:85-86 | both progresses start at 0 and the first application hides the element |
| `ScrollCanvasHandler.FadeEffects.ApplyVisibility` | src/utils/canvas/scrollCanvasHandler.ts:88-102 | the style shows the combined opacity with its visibility and pointer setting |
| `ScrollCanvasHandler.FadeEffects.OnFadeInUpdate` | src/utils/canvas/scrollCanvasHandler.ts:111-115 | only the fade-in progress changes, and the style follows it |
| `ScrollCanvasHandler.FadeEffects.OnFadeOutUpdate` | src/utils/canvas/scrollCanvasHandler.ts:125-129 | only the fade-out progress changes, and the style follows it |
| `ScrollCanvasHandler.TweenFrame` | src/utils/canvas/scrollCanvasHandler.ts:57-60 | at progress 0 the tween sits on the cursor's starting frame |
| `ScrollCanvasHandler.TweenFrameBetween` | src/utils/canvas/scrollCanvasHandler.ts:57-60 | between whole frames from <= to, every progress in [0, 1] gives a frame in [from, to], from at 0 and to at 1 |
| `ScrollCanvasHandler.TweenFrameInRange` | src/utils/canvas/scrollCanvasHandler.ts:57-60 | over progress [0, 1] the scrub lands on existing frames, 0 to the last |
| `ScrollCanvasHandler.CanvasSequence.OnScrubUpdate` | src/utils/canvas/scrollCanvasHandler.ts:57-70 | the cursor takes the snapped tween frame and the canvas renders it |
| `ScrollCanvasHandler.ShowTarget` | src/utils/canvas/scrollCanvasHandler.ts:30-35 | before the load resolves the target is fully opaque, visible, on its own layer and click-through |
| `ScrollCanvasHandler.LoadThenWire` | src/utils/canvas/scrollCanvasHandler.ts:38-40 | the frames load and render once, and only then are the tween and the fades wired, with the element hidden |
| `ScrollCanvasHandler.HandleScrollCanvasSequence` | src/utils/canvas/scrollCanvasHandler.ts:17-41 | a missing target changes nothing; otherwise the sequence loads into a fresh image array and renders its current frame once, the tween runs to the last frame, and the fades start with the element hidden on its own layer |
| `WindowedCanvas.ClampedPixelRatio` | src/utils/handleScrollCanvas.ts:32 | the ratio used is at least 1, and the device ratio when that is at least 1 |
| `WindowedCanvas.ScrubIndex` | src/utils/handleScrollCanvas.ts:84 | the frame nearest to the progress times the last index, by `Math.round` |
| `WindowedCanvas.ScrubIndexInRange` | src/utils/handleScrollCanvas.ts:84 | every progress in [0, 1] names an existing frame: the first at 0, the last at 1 |
| `WindowedCanvas.ScrubIndexMonotone` | src/utils/handleScrollCanvas.ts:84 | scrolling forward never moves the frame back |
| `WindowedCanvas.WindowBounds` | src/utils/handleScrollCanvas.ts:65-67 | the window is a non-empty range of existing frames holding the centre |
| `WindowedCanvas.UncachedSpec` | src/utils/handleScrollCanvas.ts:68 | the request list is exactly the window's uncached frames, in ascending order |
| `WindowedCanvas.WarmCoversWindow` | src/utils/handleScrollCanvas.ts:65-69 | every window frame is either cached or requested, never both |
| `WindowedCanvas.Evict` | src/utils/handleScrollCanvas.ts:70 | a key survives iff it was cached and lies within 30 frames of the window, with its bitmap unchanged |
| `WindowedCanvas.EvictKeepsWindow` | src/utils/handleScrollCanvas.ts:70 | eviction never drops a frame of the window |
| `WindowedCanvas.JumpEvictsShownFrame` | src/utils/handleScrollCanvas.ts:66-70 | after a long jump the frame on screen is evicted from the cache |
| `WindowedCanvas.WindowedSequence.constructor` | src/utils/handleScrollCanvas.ts:32-47 | the canvas size is the manifest size times the clamped ratio, rounded; the cache is empty, nothing is drawn, and both fades are at 0 |
| `WindowedCanvas.WindowedSequence.Draw` | src/utils/handleScrollCanvas.ts:48-54 | a frame is drawn iff it is not the current one and is cached |
| `WindowedCanvas.WindowedSequence.Warm` | src/utils/handleScrollCanvas.ts:56-71 | the requests are the warm plan; in windowed mode the cache becomes its eviction, and in "all" mode it is untouched |
| `WindowedCanvas.WindowedSequence.MissingInWindow` | src/utils/handleScrollCanvas.ts:68-69 | the request loop yields the window's uncached frames in order |
| `WindowedCanvas.WindowedSequence.EvictOutside` | src/utils/handleScrollCanvas.ts:70 | the eviction loop over the key snapshot leaves exactly the evicted map |
| `WindowedCanvas.WindowedSequence.FrameArrived` | src/utils/handleScrollCanvas.ts:69 | an arrived frame enters the cache and is drawn iff it is the centre of a windowed request and not already shown |
| `WindowedCanvas.WindowedSequence.OnScrubUpdate` | src/utils/handleScrollCanvas.ts:83-86 | the update warms around the rounded scrub frame, then draws it if it is cached and not already shown |
| `WindowedCanvas.WindowedSequence.ApplyFx` | src/utils/handleScrollCanvas.ts:39-44 | the target gets the combined opacity and its blur filter |
| `WindowedCanvas.WindowedSequence.OnFadeInUpdate` | src/utils/handleScrollCanvas.ts:92 | only the fade-in progress changes, then the effect is applied |
| `WindowedCanvas.WindowedSequence.OnFadeOutUpdate` | src/utils/handleScrollCanvas.ts:97 | only the fade-out progress changes, then the effect is applied |
| `WindowedCanvas.HandleScrollCanvasSequence` | src/utils/handleScrollCanvas.ts:17-73 | a missing target does nothing; otherwise a fresh player requests the frames around frame 0 |
| `Dom.FirstWithId` | src/utils/animations/configReader.ts:97 | the lookup finds the first element with the id, and the empty id never matches |
| `Dom.GetElementById` | src/utils/animations/configReader.ts:97 | an element is found iff the id is non-empty and some element has it |
| `Dom.GetElementByIdIsFirst` | src/utils/animations/configReader.ts:97 | among elements sharing an id, the earliest is found |
| `Dom.Data` | src/utils/animations/configReader.ts:167 | an attribute is present iff its key is in the dataset |
| `Dom.DataOr` | src/utils/animations/configReader.ts:162 | the attribute-or-fallback read takes the attribute only when it is present and non-empty |
| `Dom.WithAnyAttribute` | src/utils/animations/configReader.ts:268 | the query yields exactly the elements carrying one of the attributes |
| `Dom.WithAnyAttributeAppend` | src/utils/animations/configReader.ts:268 | the query keeps document order |
| `Dom.NonEmptyIds` | src/utils/animations/configReader.ts:241-243 | the ids are exactly the non-empty ids of the elements |
| `Dom.NonEmptyIdsAppend` | src/utils/animations/configReader.ts:241-243 | mapping and filtering keep order |
| `ConfigReader.ScrollSpeedPixels` | src/utils/animations/configReader.ts:64-68 | only fast, normal and slow have a positive pixels-per-frame entry |
| `ConfigReader.PixelsPerFrame` | src/utils/animations/configReader.ts:109 | fast is 10, slow 20, and every other name 15 |
| `ConfigReader.ParallaxDistance` | src/utils/animations/configReader.ts:73-77 | only slow, medium and fast have a negative distance entry |
| `ConfigReader.DistanceForSpeed` | src/utils/animations/configReader.ts:166 | slow is -100, fast -600, and every other name -300 |
| `ConfigReader.FasterParallaxMovesFurther` | src/utils/animations/configReader.ts:73-77 | a faster parallax moves further |
| `ConfigReader.DefaultParallaxConfig` | src/utils/animations/configReader.ts:313-322 | the default triggers on the section, targets `#<id>-right` and moves by the medium distance |
| `ConfigReader.SectionCanvasConfig` | src/utils/animations/configReader.ts:104-122 | frames are the integer read from `data-canvas-frames` (100 when absent or empty) and speed defaults to "normal"; a custom duration gives the end, else frames times pixels per frame |
| `ConfigReader.GetCanvasConfig` | src/utils/animations/configReader.ts:96-123 | a missing section gives the default; otherwise the section's configuration |
| `ConfigReader.ComputedEndParses` | src/utils/animations/configReader.ts:113-115 | a computed end reads back as frames times pixels per frame |
| `ConfigReader.DefaultCanvasConfigIsBareSection` | src/utils/animations/configReader.ts:301-308 | the default is what a bare section reads as, and its "+=1500" is 100 frames at 15 px |
| `ConfigReader.SectionParallaxConfig` | src/utils/animations/configReader.ts:161-186 | a custom distance wins over the speed; the target, start, end and scrub default as the source says |
| `ConfigReader.GetParallaxConfig` | src/utils/animations/configReader.ts:153-187 | the trigger is always the section; a missing section gives the default |
| `ConfigReader.DefaultParallaxConfigIsBareSection` | src/utils/animations/configReader.ts:313-322 | the default is what a bare section reads as |
| `ConfigReader.SectionPinConfig` | src/utils/animations/configReader.ts:217-225 | the duration defaults to 1, the spacing to 0, and the pinned element is the attribute if present |
| `ConfigReader.GetPinConfig` | src/utils/animations/configReader.ts:209-226 | a missing section gives duration 1 and spacing 0 |
| `ConfigReader.DefaultPinConfigIsBareSection` | src/utils/animations/configReader.ts:214 | a missing section and a bare one read the same |
| `ConfigReader.MarkedIds` | src/utils/animations/configReader.ts:240-243 | an id is listed iff it is non-empty and some element carrying one of the attributes has it |
| `ConfigReader.MarkedIdsInDocumentOrder` | src/utils/animations/configReader.ts:240-243 | one element lists its id iff marked with a non-empty id, and the listing of a document is the listings of its parts in order |
| `ConfigReader.GetAllScrollSections` | src/utils/animations/configReader.ts:239-244 | exactly the non-empty ids of the marked sections, in document order with one entry per marked element |
| `ConfigReader.EntryIds` | src/utils/animations/configReader.ts:256 | the ids of a list of entries, position by position |
| `ConfigReader.CanvasEntries` | src/utils/animations/configReader.ts:254-258 | each id is paired with its looked-up configuration, in order |
| `ConfigReader.GetAllCanvasConfigs` | src/utils/animations/configReader.ts:251-260 | the entries' ids are the marked sections' non-empty ids in document order, each with that id's configuration |
| `ConfigReader.ParallaxEntries` | src/utils/animations/configReader.ts:270-274 | each id is paired with its looked-up configuration, in order |
| `ConfigReader.GetAllParallaxConfigs` | src/utils/animations/configReader.ts:267-276 | the entries' ids are the marked sections' non-empty ids in document order, each with that id's configuration |
| `ConfigReader.HasCanvasConfig` | src/utils/animations/configReader.ts:281-284 | true iff the section exists and carries the frames attribute, even an empty one |
| `ConfigReader.HasParallaxConfig` | src/utils/animations/configReader.ts:289-296 | true iff the section exists and carries a speed or distance attribute |
| `ConfigReader.ConfiguredCanvasIsListed` | src/utils/animations/configReader.ts:251-284 | a section with a canvas configuration appears in the canvas list |
| `ConfigReader.CanvasListedIff` | src/utils/animations/configReader.ts:251-260 | an id is in the canvas list iff it is non-empty and some section carrying `data-canvas-frames` has it |
| `ConfigReader.ParallaxListedIff` | src/utils/animations/configReader.ts:267-276 | an id is in the parallax list iff it is non-empty and some section carrying a parallax speed or distance has it |
| `ConfigReader.ConfiguredParallaxIsListed` | src/utils/animations/configReader.ts:267-296 | a section with a parallax configuration appears in the parallax list |
| `EndCalculator.SpeedValue` | src/utils/animations/endCalculator.ts:43-47 | slow is 20, normal 15 and fast 10 px per frame |
| `EndCalculator.SlowerSpendsMoreScroll` | src/utils/animations/endCalculator.ts:43-47 | a slower speed spends more scroll per frame |
| `EndCalculator.Offset` | src/utils/animations/endCalculator.ts:105 | every end starts with "+=" |
| `EndCalculator.OffsetParses` | src/utils/animations/endCalculator.ts:105 | the pixel count reads back from the end |
| `EndCalculator.OffsetInjective` | src/utils/animations/endCalculator.ts:105 | distinct pixel counts give distinct ends |
| `EndCalculator.DefaultFramePixels` | src/utils/animations/endCalculator.ts:84-101 | with default options a frame takes 15 px on desktop and 10.5 px on mobile |
| `EndCalculator.IsMobile` | src/utils/animations/endCalculator.ts:279-281 | mobile iff the window is narrower than 768 px |
| `EndCalculator.NonResponsiveIgnoresWindow` | src/utils/animations/endCalculator.ts:99 | with responsiveness off the result does not depend on the window |
| `EndCalculator.ForCanvasFrames` | src/utils/animations/endCalculator.ts:83-106 | the end is frames times the speed's pixels, times a non-zero multiplier, times 0.7 on responsive mobile, rounded |
| `EndCalculator.Bounded` | src/utils/animations/endCalculator.ts:131-136 | below min it is raised, above max lowered, with max winning on conflict, unchanged in range |
| `EndCalculator.Viewports` | src/utils/animations/endCalculator.ts:124-139 | the end is the window height times count, bounded, rounded |
| `EndCalculator.OneViewport` | src/utils/animations/endCalculator.ts:167 | the fallback is one window height |
| `EndCalculator.ScrollPosition` | src/utils/animations/endCalculator.ts:171 | the page offset, or `scrollTop` when the offset is 0 |
| `EndCalculator.UntilElement` | src/utils/animations/endCalculator.ts:159-176 | a missing element gives one viewport; otherwise its document distance plus the offset |
| `EndCalculator.ElementHeight` | src/utils/animations/endCalculator.ts:194-208 | a missing element gives one viewport; otherwise its height times the multiplier |
| `EndCalculator.Found` | src/utils/animations/endCalculator.ts:231-239 | the found sections are exactly the ids that name an element |
| `EndCalculator.MissingSectionSkipped` | src/utils/animations/endCalculator.ts:236-238 | a missing id changes neither the list nor the sum |
| `EndCalculator.SumFoundAppend` | src/utils/animations/endCalculator.ts:231-239 | the sum and list over concatenated ids are the concatenation |
| `EndCalculator.Sections` | src/utils/animations/endCalculator.ts:226-255 | with no section found, one viewport; otherwise the summed heights times the spacing |
| `EndCalculator.SingleSectionIsElementHeight` | src/utils/animations/endCalculator.ts:194-255 | one section and `elementHeight` of it give the same end |
| `EndCalculator.Responsive` | src/utils/animations/endCalculator.ts:272-274 | the mobile value on mobile, else the desktop one |
| `CanvasSequences.ValidateCanvasRefs` | src/animations/canvasSequences.ts:114-123 | true iff all six refs hold a canvas |
| `CanvasSequences.ConfigsChain` | src/animations/canvasSequences.ts:40-90 | each video fades out where the next fades in; canvases and ids are pairwise distinct |
| `CanvasSequences.LoadManifest` | src/animations/canvasSequences.ts:95-109 | every failure gives the empty list; success gives the body's videos |
| `CanvasSequences.Find` | src/animations/canvasSequences.ts:151 | the first manifest entry with the id, or none if no entry has it |
| `CanvasSequences.Attempt` | src/animations/canvasSequences.ts:150-157 | a sequence starts iff canvas and video exist, targeting the canvas's parent |
| `CanvasSequences.Selection` | src/animations/canvasSequences.ts:149-158 | exactly the startable configurations start, each with its attempt |
| `CanvasSequences.SelectionAppend` | src/animations/canvasSequences.ts:193-196 | standard then square is the selection over both lists |
| `CanvasSequences.StartedIff` | src/animations/canvasSequences.ts:153 | a configuration starts iff its canvas is mounted and its id is in the manifest |
| `CanvasSequences.InitializeStandardVideos` | src/animations/canvasSequences.ts:148-159 | the loop starts the selection of the five configurations, in order |
| `CanvasSequences.InitializeSquareVideo` | src/animations/canvasSequences.ts:164-173 | the square video starts iff its canvas and its entry exist |
| `CanvasSequences.InitializeCanvasSequences` | src/animations/canvasSequences.ts:178-199 | unready refs stop first, then an empty manifest; otherwise all six configurations are attempted in order |
| `CanvasSequences.SelectionKeepsDistinct` | src/animations/canvasSequences.ts:148-159 | configurations with their own canvases and ids never start one canvas or one video twice |
| `CanvasSequences.SelectionStep` | src/animations/canvasSequences.ts:149-158 | one more iteration appends exactly what its configuration starts |
| `CanvasSequences.StartedOnDistinctCanvases` | src/animations/canvasSequences.ts:40-90 | no two started sequences share a canvas or an id |
| `LenisLock.OnlyScrollingKeysBlocked` | src/utils/lenisLock.tsx:6 | exactly the seven scrolling keys are blocked |
| `LenisLock.ScrollLock.constructor` | src/utils/lenisLock.tsx:2-7 | the lock starts released, with 0 saved and no guards |
| `LenisLock.ScrollLock.AddGuards` | src/utils/lenisLock.tsx:9-16 | all three listeners and both root styles are in place |
| `LenisLock.ScrollLock.RemoveGuards` | src/utils/lenisLock.tsx:18-25 | all listeners and styles are removed and the key handler is cleared |
| `LenisLock.ScrollLock.Lock` | src/utils/lenisLock.tsx:27-35 | a no-op when locked or without a scroller; otherwise it saves the position, stops the scroller and guards |
| `LenisLock.ScrollLock.Unlock` | src/utils/lenisLock.tsx:37-45 | a no-op when unlocked or without a scroller; otherwise it unguards, restores the saved position and restarts |
| `LenisLock.ScrollLock.OnKeyDown` | src/utils/lenisLock.tsx:12 | a key is prevented iff locked and scrolling |
| `LenisLock.ScrollLock.OnWheel` | src/utils/lenisLock.tsx:10 | wheel events are prevented iff locked |
| `LenisLock.ScrollLock.OnTouchMove` | src/utils/lenisLock.tsx:11 | touch moves are prevented iff locked |
| `LenisLock.Lenis.ScrollTo` | src/utils/lenisLock.tsx:42 | jumps to the given position immediately |
| `ScrollVideo.WillChangeFor` | src/pages/index.tsx:120 | the hint is "filter, opacity" iff 0 < alpha < 1 |
| `ScrollVideo.WillChangeOffAtRest` | src/pages/index.tsx:120 | fully hidden or fully shown drops the hint |
| `ScrollVideo.ScrubbedTime` | src/pages/index.tsx:133-140 | without a duration the time is unchanged; otherwise it ends within 0.01 of the target and is rewritten only when it was farther off |
| `ScrollVideo.ScrubbedTimeInVideo` | src/pages/index.tsx:136-139 | a rewritten time lies within the video for progress in [0, 1] |
| `ScrollVideo.ScrubIdempotent` | src/pages/index.tsx:136-139 | repeating an update at the same progress changes nothing |
| `ScrollVideo.ScrollVideoSequence.Apply` | src/pages/index.tsx:107-122 | target and overlay take the opacity; the target takes the blur, the video half the blur and the hint |
| `ScrollVideo.ScrollVideoSequence.OnFadeInUpdate` | src/pages/index.tsx:162 | only the fade-in progress changes, then the effect is applied |
| `ScrollVideo.ScrollVideoSequence.OnFadeOutUpdate` | src/pages/index.tsx:172 | only the fade-out progress changes, then the effect is applied |
| `ScrollVideo.ScrollVideoSequence.OnScrubUpdate` | src/pages/index.tsx:133-140 | only the playback position changes, to the scrubbed time |
| `ScrollVideo.ScrollVideoSequence.OnLeaveBack` | src/pages/index.tsx:141-143 | leaving back rewinds to 0 |
| `ScrollVideo.HandleScrollVideo` | src/pages/index.tsx:76-105 | no target, no change; otherwise hidden and fully blurred on its own layer, overlay hidden, video paused at 0 |
| `AnimationStore.InitialState` | src/store/animationStore.ts:27 | the registry starts empty |
| `AnimationStore.RegisterAnimation` | src/store/animationStore.ts:29-32 | the registration is appended last and earlier ones are kept in order |
| `AnimationStore.ClearAnimations` | src/store/animationStore.ts:34 | the registry is emptied |
| `AnimationStore.ClearIdempotent` | src/store/animationStore.ts:34 | clearing twice is clearing once, and gives the initial state |
| `AnimationStore.RegisterAllAppends` | src/store/animationStore.ts:29-32 | successive registrations append in order |
| `AnimationStore.RegistryIsRegistrationOrder` | src/store/animationStore.ts:27-32 | from empty, the registry is exactly the registrations |
| `AppStore.InitialState` | src/stores/useAppStore.ts:13-15 | the initial section is "hero", loading and muted |
| `AppStore.SetCurrentSection` | src/stores/useAppStore.ts:16 | sets only the section |
| `AppStore.SetLoading` | src/stores/useAppStore.ts:17 | sets only the loading flag |
| `AppStore.ToggleVideoMute` | src/stores/useAppStore.ts:18 | flips only the mute flag |
| `AppStore.ToggleTwiceIsIdentity` | src/stores/useAppStore.ts:18 | toggling twice is the identity |
| `AppStore.SettersOverwriteAndCommute` | src/stores/useAppStore.ts:16-18 | setting twice keeps the last value, and actions on different fields commute |

## Left out

- The scroll-trigger library's internals are foreign. This covers progress from start/end strings, scrub smoothing, pinning, snapping, refresh and easing. Progress values are inputs. `power2.in`/`power2.out` in utils/canvas/scrollCanvasHandler.ts:113 and :127 are not computed, so the eased value reaches the fade controller as given. Only the resolved trigger settings are recorded (`Triggers`).
- Fetching and decoding are asynchronous I/O: `fetch`, `Image.onload`, `createImageBitmap` and `Promise.all`. Each frame's outcome is a parameter of `LoadSequence`. In the windowed player a request is a returned index, and its arrival is `FrameArrived`. A rejected bitmap load is silently caught in the source and needs no event.
- Canvas 2D drawing is left out: the context options, smoothing, `setTransform`, `clearRect` and the pixels of `drawImage`. The model records the frame of every draw and the context scale. It records the rectangle of every draw whose image has area, also on a backing store without area. For an image without area the source computes with infinities or NaN; the model records no rectangle.
- `SequenceCanvas.MultiSequenceCanvas.constructor` assumes the 2D context exists. The source throws when `getContext("2d")` returns null (utils/canvas/MultiSequenceCanvas.ts:27-29). That throw, raised from `initializeVideoSequence` inside the `VIDEO_CONFIGS.forEach` loop (animations/canvasSequences.ts:133, 149-158), would also abort the remaining initialisations; `CanvasSequences.Selection` does not model that abort. `WindowedCanvas.HandleScrollCanvasSequence` likewise assumes the context that utils/handleScrollCanvas.ts:35-36 asserts with `getContext("2d")!`; a null context would throw at its first use, on line 36.
- `ImageBitmap.close()` on eviction is not modelled; the evicted entry is removed from the map.
- The resize listener is a flag. A resize event is a call of `UpdateCanvasSize`.
- Timer and event plumbing is left out: the `loadeddata` and `loadedmetadata` listeners, `enforcePause` and `onToggle` in pages/index.tsx. `HandleScrollVideo` creates the scrub wiring at once rather than after the metadata arrives.
- The call from `initializeVideoSequence` into the canvas player is not composed. `CanvasSequences.Started` records its arguments; the wiring itself is `ScrollCanvasHandler.HandleScrollCanvasSequence`.
- A manifest document without a `videos` field makes the source fail; the model's body is either a list of videos or not JSON.
- Numbers are exact reals, with no IEEE-754 rounding, NaN or infinity. This has four consequences:
  - `CoverDimensions` requires a positive image size. A zero-height canvas is modelled by its branch, the one JavaScript's false comparison with an infinite or NaN ratio selects.
  - A NaN video duration is the absent duration.
  - Numeric data attributes must be well-formed decimal text (`WellFormedSection`).
  - `customMultiplier` is falsy only when it is 0.
- `PadNumber` takes non-negative frame numbers; JavaScript would give "0-5" for -5.
- A lookup-table key such as "constructor" would find an inherited property in the source. The model treats every name outside the table as unknown.
- `WindowedCanvas.Preload` takes an integer radius. The source accepts any number.
- `EndCalculator.debug` and `AnimationConfigReader.debugSection` are diagnostics that only echo values to the console.
- The Lenis smooth-scroll setup and the declarative timelines are library configuration. The React layout components are UI. Neither is part of this model.
