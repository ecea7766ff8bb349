/** The opacity and blur that all three fade controllers derive from their two
    progress values: the fade-in progress and the fade-out progress. The same
    formula appears in src/utils/canvas/scrollCanvasHandler.ts,
    src/utils/handleScrollCanvas.ts and src/pages/index.tsx. */
module Compositing {
  import opened Numbers

  /** `Math.max(0, Math.min(1, inProgress * (1 - outProgress)))`. */
  function CompositeAlpha(inProgress: real, outProgress: real): (alpha: real)
    ensures 0.0 <= alpha <= 1.0
    ensures 0.0 <= inProgress <= 1.0 && 0.0 <= outProgress <= 1.0 ==> alpha == inProgress * (1.0 - outProgress)
  {
    if 0.0 <= inProgress <= 1.0 && 0.0 <= outProgress <= 1.0 then
      UnitProduct(inProgress, 1.0 - outProgress);
      Clamp(inProgress * (1.0 - outProgress), 0.0, 1.0)
    else
      Clamp(inProgress * (1.0 - outProgress), 0.0, 1.0)
  }

  lemma UnitProduct(a: real, b: real)
    requires 0.0 <= a <= 1.0 && 0.0 <= b <= 1.0
    ensures 0.0 <= a * b <= 1.0
  {
    MulNonneg(a, b);
    MulNonneg(1.0 - a, b);
    assert (1.0 - a) * b == b - a * b;
  }

  lemma MulNonneg(a: real, b: real)
    requires a >= 0.0 && b >= 0.0
    ensures a * b >= 0.0
  {
  }

  /** Nothing shows before the fade-in starts or after the fade-out ends. */
  lemma AlphaZeroAtEnds(inProgress: real, outProgress: real)
    requires inProgress == 0.0 || outProgress == 1.0
    ensures CompositeAlpha(inProgress, outProgress) == 0.0
  {
  }

  /** Fully faded in and not yet fading out is fully opaque. */
  lemma AlphaOneBetweenFades()
    ensures CompositeAlpha(1.0, 0.0) == 1.0
  {
  }

  /** Scrolling further into the fade-in never lowers the opacity, and scrolling
      further into the fade-out never raises it. */
  lemma AlphaMonotone(in1: real, in2: real, out1: real, out2: real)
    requires 0.0 <= in1 <= in2 <= 1.0
    requires 0.0 <= out2 <= out1 <= 1.0
    ensures CompositeAlpha(in1, out1) <= CompositeAlpha(in2, out2)
  {
    MulNonneg(in2 - in1, 1.0 - out1);
    assert (in2 - in1) * (1.0 - out1) == in2 * (1.0 - out1) - in1 * (1.0 - out1);
    MulNonneg(in2, out1 - out2);
    assert in2 * (out1 - out2) == in2 * (1.0 - out2) - in2 * (1.0 - out1);
  }

  /** The strongest blur, applied at zero opacity. */
  const MaxBlur: real := 20.0

  /** Blur radii up to this many pixels are dropped in favour of no filter. */
  const BlurCutoff: real := 0.5

  /** `20 * (1 - alpha)`. */
  function BlurAmount(alpha: real): (blur: real)
    ensures 0.0 <= alpha <= 1.0 ==> 0.0 <= blur <= MaxBlur
    ensures alpha == 0.0 ==> blur == MaxBlur
    ensures alpha == 1.0 ==> blur == 0.0
  {
    MaxBlur * (1.0 - alpha)
  }

  /** A CSS `filter` value: `"none"` or `blur(<px>px)`. */
  datatype Filter = NoFilter | Blur(px: real)

  /** `blur > 0.5 ? blur(<blur * scale>px) : "none"`. */
  function BlurFilter(blur: real, scale: real): (f: Filter)
    ensures f == NoFilter <==> blur <= BlurCutoff
    ensures f.Blur? ==> f.px == blur * scale
  {
    if blur > BlurCutoff then Blur(blur * scale) else NoFilter
  }

  /** The filter is dropped exactly when the opacity is at least 0.975. */
  lemma NoFilterIffNearlyOpaque(alpha: real, scale: real)
    ensures BlurFilter(BlurAmount(alpha), scale) == NoFilter <==> alpha >= 0.975
  {
  }
}
