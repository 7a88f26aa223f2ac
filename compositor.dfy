/** The per-pixel blend of `fastApplySegmentation`: camera frame, mask and
    background are three RGBA ImageData buffers of one size; the output
    buffer gets, pixel by pixel, the camera colour, the background colour or
    a mix of the two, chosen by the mask's red byte, and is always opaque. */
module Compositor {
  import opened Base

  /** Mask values above this are confident foreground. */
  const HighThreshold: Byte := 200
  /** Mask values above this (and up to HighThreshold) are the soft edge. */
  const LowThreshold: Byte := 100

  function Min(a: int, b: int): int { if a <= b then a else b }
  function Max(a: int, b: int): int { if a <= b then b else a }

  /** `o * (m / 255) + b * (1 - m / 255)` stored into a Uint8ClampedArray,
      which rounds to the nearest integer. The exact value has denominator
      255, which is odd, so it never lies half-way between two integers. */
  function SoftBlend(o: Byte, b: Byte, m: Byte): (v: Byte)
    ensures Min(o, b) <= v <= Max(o, b)
  {
    var num := o * m + b * (255 - m);
    WeightedBounds(o, b, m);
    if 2 * (num % 255) > 255 then num / 255 + 1 else num / 255
  }

  /** The weighted sum lies between 255 times each end, and rounding the
      quotient up never passes the larger end. */
  lemma WeightedBounds(o: Byte, b: Byte, m: Byte)
    ensures var num := o * m + b * (255 - m);
      Min(o, b) <= num / 255 <= Max(o, b) &&
      (2 * (num % 255) > 255 ==> num / 255 + 1 <= Max(o, b))
  {
    var num := o * m + b * (255 - m);
    WeightedSumBounds(o, b, m);
    QuotientBounds(num, Min(o, b), Max(o, b));
  }

  lemma WeightedSumBounds(o: Byte, b: Byte, m: Byte)
    ensures 255 * Min(o, b) <= o * m + b * (255 - m) <= 255 * Max(o, b)
  {
    var lo, hi := Min(o, b), Max(o, b);
    NonNegProduct(o - lo, m);
    NonNegProduct(b - lo, 255 - m);
    NonNegProduct(hi - o, m);
    NonNegProduct(hi - b, 255 - m);
    Expand(o, b, m, lo);
    Expand(o, b, m, hi);
  }

  lemma NonNegProduct(x: int, y: int)
    requires 0 <= x && 0 <= y
    ensures 0 <= x * y
  {
  }

  lemma Expand(o: int, b: int, m: int, t: int)
    ensures o * m + b * (255 - m) - 255 * t == (o - t) * m + (b - t) * (255 - m)
  {
  }

  lemma QuotientBounds(num: int, lo: int, hi: int)
    requires 255 * lo <= num <= 255 * hi
    ensures lo <= num / 255 <= hi
    ensures 2 * (num % 255) > 255 ==> num / 255 + 1 <= hi
  {
    var q, r := num / 255, num % 255;
    assert num == 255 * q + r && 0 <= r < 255;
  }

  /** One colour channel of the output for mask value `m`, camera value `o`
      and background value `b`. */
  function BlendChannel(m: Byte, o: Byte, b: Byte): (v: Byte)
    ensures m > HighThreshold ==> v == o
    ensures m <= LowThreshold ==> v == b
    ensures Min(o, b) <= v <= Max(o, b)
  {
    if m > HighThreshold then o else if m > LowThreshold then SoftBlend(o, b, m) else b
  }

  /** Equal-length RGBA buffers: what the identically sized work canvases
      give `getImageData`. */
  predicate SameShape(mask: seq<Byte>, orig: seq<Byte>, bg: seq<Byte>) {
    |mask| == |orig| == |bg| && |mask| % Stride == 0
  }

  /** Byte `j` of the composited frame: the alpha byte (every fourth) is
      opaque; a colour byte blends by the mask's red byte of its pixel. */
  function OutByte(mask: seq<Byte>, orig: seq<Byte>, bg: seq<Byte>, j: nat): Byte
    requires SameShape(mask, orig, bg) && j < |mask|
  {
    if j % 4 == 3 then 255 else BlendChannel(mask[j - j % 4], orig[j], bg[j])
  }

  /** Number of pixels among the first `k` whose mask value is above LowThreshold. */
  function Foreground(mask: seq<Byte>, k: nat): nat
    requires 4 * k <= |mask|
  {
    if k == 0 then 0 else Foreground(mask, k - 1) + (if mask[4 * (k - 1)] > LowThreshold then 1 else 0)
  }

  /** Number of pixels among the first `k` whose mask value is at most LowThreshold. */
  function Background(mask: seq<Byte>, k: nat): nat
    requires 4 * k <= |mask|
  {
    if k == 0 then 0 else Background(mask, k - 1) + (if mask[4 * (k - 1)] <= LowThreshold then 1 else 0)
  }

  /** The indices of the foreground pixels among the first `k`. */
  function ForegroundSet(mask: seq<Byte>, k: nat): set<nat>
    requires 4 * k <= |mask|
  {
    set p: nat | p < k && IsForeground(mask, p)
  }

  predicate IsForeground(mask: seq<Byte>, p: nat)
    requires 4 * p < |mask|
  {
    mask[4 * p] > LowThreshold
  }

  /** The loop of `fastApplySegmentation`: one pass over the buffers in steps
      of four bytes, counting foreground (`whitePixels`) and background
      (`blackPixels`) pixels. The output buffer is created here, as
      `createImageData` creates it in the source. */
  method FastApplySegmentation(maskData: array<Byte>, origData: array<Byte>, bgData: array<Byte>)
    returns (outData: array<Byte>, whitePixels: nat, blackPixels: nat)
    requires SameShape(maskData[..], origData[..], bgData[..])
    ensures fresh(outData) && outData.Length == maskData.Length
    ensures forall j :: 0 <= j < outData.Length ==>
      outData[j] == OutByte(maskData[..], origData[..], bgData[..], j)
    ensures whitePixels == Foreground(maskData[..], maskData.Length / 4)
    ensures blackPixels == Background(maskData[..], maskData.Length / 4)
  {
    var n := maskData.Length;
    outData := new Byte[n];
    whitePixels, blackPixels := 0, 0;
    ghost var mask, orig, bg := maskData[..], origData[..], bgData[..];
    var i := 0;
    ghost var p := 0;
    while i < n
      invariant 0 <= i <= n && i == 4 * p && 4 * p <= |mask|
      invariant forall j :: 0 <= j < i ==> outData[j] == OutByte(mask, orig, bg, j)
      invariant whitePixels == Foreground(mask, p)
      invariant blackPixels == Background(mask, p)
    {
      PixelBytes(mask, orig, bg, p);
      CountStep(mask, p);
      var maskValue := maskData[i];
      if maskValue > HighThreshold {
        outData[i] := origData[i];
        outData[i + 1] := origData[i + 1];
        outData[i + 2] := origData[i + 2];
        whitePixels := whitePixels + 1;
      } else if maskValue > LowThreshold {
        outData[i] := SoftBlend(origData[i], bgData[i], maskValue);
        outData[i + 1] := SoftBlend(origData[i + 1], bgData[i + 1], maskValue);
        outData[i + 2] := SoftBlend(origData[i + 2], bgData[i + 2], maskValue);
        whitePixels := whitePixels + 1;
      } else {
        outData[i] := bgData[i];
        outData[i + 1] := bgData[i + 1];
        outData[i + 2] := bgData[i + 2];
        blackPixels := blackPixels + 1;
      }
      outData[i + 3] := 255;
      assert forall j :: i <= j < i + 4 ==> outData[j] == OutByte(mask, orig, bg, j);
      i := i + 4;
      p := p + 1;
    }
  }

  /** The four bytes of pixel `p` in the composited frame: three colour
      bytes blended by the pixel's mask value, then the opaque alpha byte. */
  lemma PixelBytes(mask: seq<Byte>, orig: seq<Byte>, bg: seq<Byte>, p: nat)
    requires SameShape(mask, orig, bg) && 4 * p < |mask|
    ensures 4 * p + 3 < |mask|
    ensures OutByte(mask, orig, bg, 4 * p) == BlendChannel(mask[4 * p], orig[4 * p], bg[4 * p])
    ensures OutByte(mask, orig, bg, 4 * p + 1) == BlendChannel(mask[4 * p], orig[4 * p + 1], bg[4 * p + 1])
    ensures OutByte(mask, orig, bg, 4 * p + 2) == BlendChannel(mask[4 * p], orig[4 * p + 2], bg[4 * p + 2])
    ensures OutByte(mask, orig, bg, 4 * p + 3) == 255
  {
    PixelOffsets(p);
  }

  /** Counting one more pixel adds it to exactly one of the two counts. */
  lemma CountStep(mask: seq<Byte>, p: nat)
    requires 4 * (p + 1) <= |mask|
    ensures Foreground(mask, p + 1) == Foreground(mask, p) + (if mask[4 * p] > LowThreshold then 1 else 0)
    ensures Background(mask, p + 1) == Background(mask, p) + (if mask[4 * p] <= LowThreshold then 1 else 0)
  {
  }

  /** Byte `4 * p + c` is channel `c` of pixel `p`. */
  lemma PixelOffsets(p: nat)
    ensures (4 * p) % 4 == 0 && (4 * p + 1) % 4 == 1 && (4 * p + 2) % 4 == 2 && (4 * p + 3) % 4 == 3
  {
  }

  /** Every pixel is counted exactly once: as foreground or as background. */
  lemma {:induction false} CountsCoverAllPixels(mask: seq<Byte>, k: nat)
    requires 4 * k <= |mask|
    ensures Foreground(mask, k) + Background(mask, k) == k
  {
    if k > 0 { CountsCoverAllPixels(mask, k - 1); }
  }

  /** `whitePixels` counts exactly the pixels whose mask value is above LowThreshold. */
  lemma {:induction false} ForegroundIsCardinality(mask: seq<Byte>, k: nat)
    requires 4 * k <= |mask|
    ensures Foreground(mask, k) == |ForegroundSet(mask, k)|
  {
    if k > 0 {
      ForegroundIsCardinality(mask, k - 1);
      var prev := ForegroundSet(mask, k - 1);
      if IsForeground(mask, k - 1) {
        assert ForegroundSet(mask, k) == prev + {k - 1};
      } else {
        assert ForegroundSet(mask, k) == prev;
      }
    }
  }

  /** What one colour byte of the composited frame is, by its pixel's mask
      value: the camera byte above HighThreshold, the background byte at or
      below LowThreshold, a value between the two in the soft band; and the
      pixel's alpha byte is 255. */
  lemma CompositedPixel(mask: seq<Byte>, orig: seq<Byte>, bg: seq<Byte>, p: nat, c: nat)
    requires SameShape(mask, orig, bg) && 4 * p < |mask| && c < 3
    ensures 4 * p + 3 < |mask|
    ensures OutByte(mask, orig, bg, 4 * p + 3) == 255
    ensures var out := OutByte(mask, orig, bg, 4 * p + c);
      (mask[4 * p] > HighThreshold ==> out == orig[4 * p + c]) &&
      (mask[4 * p] <= LowThreshold ==> out == bg[4 * p + c]) &&
      Min(orig[4 * p + c], bg[4 * p + c]) <= out <= Max(orig[4 * p + c], bg[4 * p + c])
  {
    PixelOffsets(p);
  }
}
