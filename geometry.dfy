/** The "cover" fit that `drawImageBackground` and `drawVideoBackground`
    compute before drawing a picture onto the background canvas: scale the
    picture, keeping its aspect ratio, until it covers the whole canvas, and
    centre it, so that the overflow is cut equally on both sides. Computed
    over exact reals; the source computes in IEEE doubles. */
module Geometry {

  /** A rectangle to draw into: top-left corner and size. */
  datatype Rect = Rect(x: real, y: real, width: real, height: real)

  /** `drawWidth`, `drawHeight`, `offsetX`, `offsetY` for a picture of size
      `srcW` x `srcH` on a canvas of size `canvasW` x `canvasH`. */
  function CoverFit(srcW: real, srcH: real, canvasW: real, canvasH: real): (r: Rect)
    requires srcW > 0.0 && srcH > 0.0 && canvasW > 0.0 && canvasH > 0.0
    ensures r.width * srcH == r.height * srcW
    ensures r.width >= canvasW && r.height >= canvasH
    ensures r.width == canvasW || r.height == canvasH
    ensures r.x == (canvasW - r.width) / 2.0 <= 0.0
    ensures r.y == (canvasH - r.height) / 2.0 <= 0.0
  {
    var imgRatio := srcW / srcH;
    var canvasRatio := canvasW / canvasH;
    CoverFitFacts(srcW, srcH, canvasW, canvasH);
    if imgRatio > canvasRatio then
      var drawWidth := canvasH * imgRatio;
      Rect((canvasW - drawWidth) / 2.0, 0.0, drawWidth, canvasH)
    else
      var drawHeight := canvasW / imgRatio;
      Rect(0.0, (canvasH - drawHeight) / 2.0, canvasW, drawHeight)
  }

  /** The two branches of the fit: a picture wider than the canvas (in
      proportion) is fitted to the canvas height, any other to its width. */
  lemma CoverFitFacts(srcW: real, srcH: real, canvasW: real, canvasH: real)
    requires srcW > 0.0 && srcH > 0.0 && canvasW > 0.0 && canvasH > 0.0
    ensures var ratio := srcW / srcH;
      ratio > 0.0 &&
      (ratio > canvasW / canvasH ==> canvasH * ratio > canvasW && (canvasH * ratio) * srcH == canvasH * srcW) &&
      (ratio <= canvasW / canvasH ==> canvasW / ratio >= canvasH && canvasW * srcH == (canvasW / ratio) * srcW)
  {
    var ratio := srcW / srcH;
    assert ratio * srcH == srcW;
    if ratio > canvasW / canvasH {
      assert (canvasW / canvasH) * canvasH == canvasW;
      MulStrict(ratio, canvasW / canvasH, canvasH);
    } else {
      assert (canvasW / ratio) * ratio == canvasW;
      MulMono(canvasW / ratio, canvasH, ratio, canvasW);
    }
  }

  lemma MulStrict(a: real, b: real, c: real)
    requires a > b && c > 0.0
    ensures c * a > c * b
  {
  }

  /** If `q * ratio == w` and `ratio <= w / h` then `q >= h`. */
  lemma MulMono(q: real, h: real, ratio: real, w: real)
    requires ratio > 0.0 && h > 0.0 && q * ratio == w && ratio <= w / h
    ensures q >= h
  {
    assert (w / h) * h == w;
    assert h * ratio <= h * (w / h) == w == q * ratio;
  }

  /** `video.videoWidth || 640`, `video.videoHeight || 480`: a video that does
      not report its size yet (0) counts as the default size. */
  function VideoDimension(reported: nat, default: nat): (d: nat)
    requires default > 0
    ensures d > 0
    ensures reported > 0 ==> d == reported
    ensures reported == 0 ==> d == default
  {
    if reported == 0 then default else reported
  }
}
