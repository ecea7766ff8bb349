/** Frame file names and the "object-fit: cover" draw rectangle
    (src/utils/canvas/helpers.ts). */
module Helpers {
  import opened Decimal

  /** One frame sequence as listed in the manifest document. */
  datatype Manifest = Manifest(
    id: string,
    baseUrl: string,
    ext: string,
    count: nat,
    pad: int,
    width: real,
    height: real)

  /** `n.toString().padStart(len, "0")`: the decimal digits of `n`, preceded
      by as many '0's as it takes to reach `len` characters. */
  function PadNumber(n: nat, len: int): (r: string)
    ensures |r| == if len > |Digits(n)| then len else |Digits(n)|
    ensures r[|r| - |Digits(n)|..] == Digits(n)
    ensures forall i :: 0 <= i < |r| - |Digits(n)| ==> r[i] == '0'
    ensures |Digits(n)| >= len ==> r == Digits(n)
  {
    var digits := Digits(n);
    if |digits| >= len then digits else Zeros(len - |digits|) + digits
  }

  /** The zero padding never changes the number the name denotes. */
  lemma PadNumberValue(n: nat, len: int)
    ensures AllDigits(PadNumber(n, len)) && Value(PadNumber(n, len)) == n
  {
    var digits := Digits(n);
    ValueOfDigits(n);
    if |digits| < len {
      assert PadNumber(n, len) == Zeros(len - |digits|) + digits;
      ValueIgnoresLeadingZeros(len - |digits|, digits);
    } else {
      assert PadNumber(n, len) == digits;
    }
  }

  /** Distinct frame numbers get distinct padded names. */
  lemma PadNumberInjective(i: nat, j: nat, len: int)
    requires PadNumber(i, len) == PadNumber(j, len)
    ensures i == j
  {
    PadNumberValue(i, len);
    PadNumberValue(j, len);
  }

  /** `${baseUrl}${padNumber(index, pad)}${ext}`. */
  function FrameUrl(m: Manifest, index: nat): (url: string)
    ensures |url| == |m.baseUrl| + |PadNumber(index, m.pad)| + |m.ext|
    ensures url[..|m.baseUrl|] == m.baseUrl
    ensures url[|url| - |m.ext|..] == m.ext
    ensures url[|m.baseUrl|..|url| - |m.ext|] == PadNumber(index, m.pad)
  {
    m.baseUrl + PadNumber(index, m.pad) + m.ext
  }

  /** For a fixed manifest, two frames share a URL only if they are the same frame. */
  lemma FrameUrlInjective(m: Manifest, i: nat, j: nat)
    requires FrameUrl(m, i) == FrameUrl(m, j)
    ensures i == j
  {
    var u := FrameUrl(m, i);
    assert PadNumber(i, m.pad) == u[|m.baseUrl|..|u| - |m.ext|] == PadNumber(j, m.pad);
    PadNumberInjective(i, j, m.pad);
  }

  /** Where and how large to draw an image so that it covers the canvas. */
  datatype Rect = Rect(drawWidth: real, drawHeight: real, offsetX: real, offsetY: real)

  /** `calculateCoverDimensions`: a relatively wider image is fitted to the
      canvas height and a relatively taller one (or one of equal ratio) to its
      width; the overflow is split evenly between both sides. On a canvas of
      zero height the canvas ratio is infinite or NaN, so the comparison is
      false and the image is fitted to the width. */
  function CoverDimensions(canvasWidth: real, canvasHeight: real, imgWidth: real, imgHeight: real): (r: Rect)
    requires canvasWidth >= 0.0 && canvasHeight >= 0.0 && imgWidth > 0.0 && imgHeight > 0.0
    ensures r.drawWidth >= 0.0 && r.drawHeight >= 0.0
    ensures canvasWidth > 0.0 || canvasHeight > 0.0 ==> r.drawWidth > 0.0 && r.drawHeight > 0.0
    ensures canvasHeight == 0.0 ==> r.drawWidth == canvasWidth && r.offsetX == 0.0
  {
    var imgRatio := imgWidth / imgHeight;
    if canvasHeight > 0.0 && imgRatio > canvasWidth / canvasHeight then
      var drawHeight := canvasHeight;
      var drawWidth := drawHeight * imgRatio;
      Rect(drawWidth, drawHeight, (canvasWidth - drawWidth) / 2.0, 0.0)
    else
      var drawWidth := canvasWidth;
      var drawHeight := drawWidth / imgRatio;
      Rect(drawWidth, drawHeight, 0.0, (canvasHeight - drawHeight) / 2.0)
  }

  /** The drawn image keeps the source's aspect ratio. */
  lemma CoverKeepsAspect(canvasWidth: real, canvasHeight: real, imgWidth: real, imgHeight: real)
    requires canvasWidth > 0.0 && canvasHeight > 0.0 && imgWidth > 0.0 && imgHeight > 0.0
    ensures var r := CoverDimensions(canvasWidth, canvasHeight, imgWidth, imgHeight);
      r.drawWidth / r.drawHeight == imgWidth / imgHeight
  {
    var r := CoverDimensions(canvasWidth, canvasHeight, imgWidth, imgHeight);
    var imgRatio := imgWidth / imgHeight;
    if imgRatio > canvasWidth / canvasHeight {
      assert r.drawWidth == canvasHeight * imgRatio;
    } else {
      assert r.drawHeight * imgRatio == canvasWidth;
    }
  }

  /** A relatively wider image fills the height and overflows left and right. */
  lemma CoverWiderImage(canvasWidth: real, canvasHeight: real, imgWidth: real, imgHeight: real)
    requires canvasWidth > 0.0 && canvasHeight > 0.0 && imgWidth > 0.0 && imgHeight > 0.0
    requires imgWidth / imgHeight > canvasWidth / canvasHeight
    ensures var r := CoverDimensions(canvasWidth, canvasHeight, imgWidth, imgHeight);
      r.drawHeight == canvasHeight && r.drawWidth >= canvasWidth && r.offsetY == 0.0 && r.offsetX <= 0.0
  {
    var imgRatio := imgWidth / imgHeight;
    assert canvasHeight * (canvasWidth / canvasHeight) == canvasWidth;
    assert canvasHeight * imgRatio >= canvasHeight * (canvasWidth / canvasHeight);
  }

  /** Any other image fills the width and overflows above and below. */
  lemma CoverTallerImage(canvasWidth: real, canvasHeight: real, imgWidth: real, imgHeight: real)
    requires canvasWidth > 0.0 && canvasHeight > 0.0 && imgWidth > 0.0 && imgHeight > 0.0
    requires imgWidth / imgHeight <= canvasWidth / canvasHeight
    ensures var r := CoverDimensions(canvasWidth, canvasHeight, imgWidth, imgHeight);
      r.drawWidth == canvasWidth && r.drawHeight >= canvasHeight && r.offsetX == 0.0 && r.offsetY <= 0.0
  {
    var imgRatio := imgWidth / imgHeight;
    var r := CoverDimensions(canvasWidth, canvasHeight, imgWidth, imgHeight);
    assert r.drawHeight * imgRatio == canvasWidth;
    assert canvasHeight * imgRatio <= canvasHeight * (canvasWidth / canvasHeight) == canvasWidth;
  }

  /** The rectangle is centred on the canvas and leaves no uncovered strip. */
  lemma CoverIsCentred(canvasWidth: real, canvasHeight: real, imgWidth: real, imgHeight: real)
    requires canvasWidth >= 0.0 && canvasHeight >= 0.0 && imgWidth > 0.0 && imgHeight > 0.0
    ensures var r := CoverDimensions(canvasWidth, canvasHeight, imgWidth, imgHeight);
      && 2.0 * r.offsetX + r.drawWidth == canvasWidth
      && 2.0 * r.offsetY + r.drawHeight == canvasHeight
      && r.offsetX <= 0.0 <= r.offsetX + r.drawWidth - canvasWidth
      && r.offsetY <= 0.0 <= r.offsetY + r.drawHeight - canvasHeight
  {
    if canvasHeight == 0.0 {
      var r := CoverDimensions(canvasWidth, canvasHeight, imgWidth, imgHeight);
      assert r.drawHeight == canvasWidth / (imgWidth / imgHeight) >= 0.0;
    } else if canvasWidth == 0.0 {
      var r := CoverDimensions(canvasWidth, canvasHeight, imgWidth, imgHeight);
      assert r.drawHeight == canvasHeight && r.drawWidth == canvasHeight * (imgWidth / imgHeight) >= 0.0;
    } else if imgWidth / imgHeight > canvasWidth / canvasHeight {
      CoverWiderImage(canvasWidth, canvasHeight, imgWidth, imgHeight);
    } else {
      CoverTallerImage(canvasWidth, canvasHeight, imgWidth, imgHeight);
    }
  }

  /** An image with the canvas's own ratio is drawn exactly over the canvas. */
  lemma CoverEqualRatios(canvasWidth: real, canvasHeight: real, imgWidth: real, imgHeight: real)
    requires canvasWidth > 0.0 && canvasHeight > 0.0 && imgWidth > 0.0 && imgHeight > 0.0
    requires imgWidth / imgHeight == canvasWidth / canvasHeight
    ensures CoverDimensions(canvasWidth, canvasHeight, imgWidth, imgHeight) == Rect(canvasWidth, canvasHeight, 0.0, 0.0)
  {
    var r := CoverDimensions(canvasWidth, canvasHeight, imgWidth, imgHeight);
    var ratio := canvasWidth / canvasHeight;
    assert r.drawHeight * ratio == canvasWidth;
    assert canvasHeight * ratio == canvasWidth;
  }

  /** A canvas with no width still gets a finite rectangle: a 1920x1080
      image on a 0x100 canvas is drawn 1600/9 wide and centred on the
      canvas's left edge. */
  lemma ZeroWidthCanvasCover()
    ensures CoverDimensions(0.0, 100.0, 1920.0, 1080.0) == Rect(1600.0 / 9.0, 100.0, -800.0 / 9.0, 0.0)
  {
  }
}
