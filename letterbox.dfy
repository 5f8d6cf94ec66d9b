/** Placement of the fixed-size rendered image inside the swapchain surface
    (the blit destination rectangle computed in Draw, main.cpp).

    The image is WIDTH x HEIGHT pixels (build-time constants, here `imageW`,
    `imageH`); the surface is `width` x `height` pixels, both `uint32_t`.
    The source computes in single-precision floats and truncates back to
    `uint32_t`; this model computes the same expressions in exact reals and
    truncates with `Floor`, which agrees with truncation on the non-negative
    values that occur. */
module Letterbox {

  import opened Arith

  const U32Modulus: int := 0x1_0000_0000

  /** The values of C++ `uint32_t`. */
  type U32 = n: int | 0 <= n < U32Modulus

  /** `a - b` on `uint32_t`: wraps modulo 2^32 when `b > a`. */
  function SubU32(a: U32, b: U32): (r: U32)
    ensures b <= a ==> r == a - b
    ensures a < b ==> r == a - b + U32Modulus
  {
    (a - b) % U32Modulus
  }

  /** Conversion of a float to `uint32_t` (truncation toward zero). The
      conversion is undefined in C++ outside the range of `uint32_t`, so
      every use of it has to show that its argument is in range. */
  function ToU32(x: real): (r: U32)
    requires 0.0 <= x < U32Modulus as real
    ensures r as real <= x < r as real + 1.0
  {
    x.Floor
  }

  /** The destination rectangle of the blit: offset (x, y), size (w, h). */
  datatype Rect = Rect(x: U32, y: U32, w: U32, h: U32)

  /** The branch condition of the source, `WIDTH / HEIGHT > width / height`,
      over exact reals: the image is wider than the surface. For positive
      denominators it is the comparison of the cross products. */
  predicate ImageIsWider(imageW: nat, imageH: nat, width: nat, height: nat)
    requires 0 < imageH && 0 < height
    ensures ImageIsWider(imageW, imageH, width, height) <==> imageW * height > width * imageH
  {
    CompareRatios(imageW, imageH, width, height);
    imageW as real / imageH as real > width as real / height as real
  }

  /** Two ratios with positive denominators compare as their cross products. */
  lemma CompareRatios(a: nat, b: nat, c: nat, d: nat)
    requires 0 < b && 0 < d
    ensures a as real / b as real > c as real / d as real <==> a * d > c * b
  {
    var p, q := a as real / b as real, c as real / d as real;
    assert p * b as real == a as real && q * d as real == c as real;
    assert (a * d) as real == p * (b as real * d as real);
    assert (c * b) as real == q * (b as real * d as real);
    assert 0.0 < b as real * d as real;
  }

  /** Truncating `n / d` over the reals is the integer quotient. */
  lemma RealFloorIsDiv(n: nat, d: nat)
    requires 0 < d
    ensures (n as real / d as real).Floor == n / d
  {
    var q, m := n / d, n % d;
    assert n == q * d + m && 0 <= m < d;
    var x := n as real / d as real;
    var frac := m as real / d as real;
    assert 0.0 <= frac < 1.0;
    assert n as real == q as real * d as real + m as real;
    assert x == q as real + frac;
  }

  /** A quotient that truncates below a bound when the product does. */
  lemma ScaledBelow(a: nat, b: nat, d: nat, bound: nat)
    requires 0 < d && a * b <= bound * d
    ensures 0.0 <= (a as real * b as real) / d as real <= bound as real
  {
  }

  /** The side of the rectangle across the filled axis, with its offset.
      The filled axis has image extent `imageAlong` and surface extent
      `surfaceAlong`; across it the image extent `imageAcross` is scaled by
      `surfaceAlong / imageAlong` and truncated, and the offset centres it
      in `surfaceAcross` (the `uint32_t` difference halved and truncated). */
  function Across(imageAlong: nat, imageAcross: nat, surfaceAlong: U32, surfaceAcross: U32): (r: (U32, U32))
    requires 0 < imageAlong
    requires imageAcross * surfaceAlong <= surfaceAcross * imageAlong
    ensures r.0 * imageAlong <= imageAcross * surfaceAlong < (r.0 + 1) * imageAlong
    ensures r.0 <= surfaceAcross && r.1 == (surfaceAcross - r.0) / 2
  {
    ScaledBelow(imageAcross, surfaceAlong, imageAlong, surfaceAcross);
    var extent := ToU32(imageAcross as real * surfaceAlong as real / imageAlong as real);
    assert imageAcross as real * surfaceAlong as real == (imageAcross * surfaceAlong) as real;
    RealFloorIsDiv(imageAcross * surfaceAlong, imageAlong);
    DivBracket(imageAcross * surfaceAlong, imageAlong);
    assert extent <= surfaceAcross;
    var gap := SubU32(surfaceAcross, extent);
    RealFloorIsDiv(gap, 2);
    (extent, ToU32(gap as real / 2.0))
  }

  /** What a letterbox rectangle is: it fits the surface; when the image is
      wider than the surface it fills the width, keeps the aspect ratio up to
      truncation of its height and is centred vertically; otherwise it fills
      the height, keeps the aspect ratio up to truncation of its width and is
      centred horizontally. */
  predicate IsLetterbox(imageW: nat, imageH: nat, width: nat, height: nat, r: Rect) {
    r.x + r.w <= width && r.y + r.h <= height &&
    (imageW * height > width * imageH ==>
       r.w == width && r.x == 0 &&
       r.h * imageW <= imageH * width < (r.h + 1) * imageW &&
       r.y == (height - r.h) / 2) &&
    (imageW * height <= width * imageH ==>
       r.h == height && r.y == 0 &&
       r.w * imageH <= imageW * height < (r.w + 1) * imageH &&
       r.x == (width - r.w) / 2)
  }

  /** The rectangle computed in Draw is a letterbox rectangle. The branch is
      chosen by the ratio comparison the source makes; the dependent side is
      the image side scaled to the surface, truncated. */
  function Place(imageW: nat, imageH: nat, width: U32, height: U32): (r: Rect)
    requires 0 < imageW && 0 < imageH
    requires 0 < width && 0 < height
    ensures IsLetterbox(imageW, imageH, width, height, r)
  {
    if ImageIsWider(imageW, imageH, width, height) then
      var (h, y) := Across(imageW, imageH, width, height);
      Rect(0, y, width, h)
    else
      var (w, x) := Across(imageH, imageW, height, width);
      Rect(x, 0, w, height)
  }

  /** Neither `uint32_t` subtraction in Draw wraps: the surface side minus the
      rectangle side is the exact difference on both axes. */
  lemma PlaceNoUnderflow(imageW: nat, imageH: nat, width: U32, height: U32)
    requires 0 < imageW && 0 < imageH && 0 < width && 0 < height
    ensures var r := Place(imageW, imageH, width, height);
      SubU32(height, r.h) == height - r.h && SubU32(width, r.w) == width - r.w
  {
  }

  /** The rectangle is centred: the margins on either side of it differ by at
      most one pixel, the extra pixel going to the right or bottom margin. */
  lemma PlaceCentred(imageW: nat, imageH: nat, width: U32, height: U32)
    requires 0 < imageW && 0 < imageH && 0 < width && 0 < height
    ensures var r := Place(imageW, imageH, width, height);
      r.x <= width - r.x - r.w <= r.x + 1 &&
      r.y <= height - r.y - r.h <= r.y + 1
  {
  }

  /** When the image and the surface have the same aspect ratio, the image
      covers the whole surface, with no border. */
  lemma PlaceEqualAspect(imageW: nat, imageH: nat, width: U32, height: U32)
    requires 0 < imageW && 0 < imageH && 0 < width && 0 < height
    requires imageW * height == width * imageH
    ensures Place(imageW, imageH, width, height) == Rect(0, 0, width, height)
  {
    var r := Place(imageW, imageH, width, height);
    assert !(imageW * height > width * imageH);
    assert r.w * imageH <= width * imageH < (r.w + 1) * imageH;
    CancelFactor(r.w, width, imageH);
    CancelFactorStrict(width, r.w + 1, imageH);
  }

  /** The truncation error of the aspect ratio: the cross products of the
      rectangle and the image differ by less than one image side, and the
      rectangle is never wider (relative to its height) than the image along
      the scaled axis. */
  lemma PlaceAspectError(imageW: nat, imageH: nat, width: U32, height: U32)
    requires 0 < imageW && 0 < imageH && 0 < width && 0 < height
    ensures var r := Place(imageW, imageH, width, height);
      if imageW * height > width * imageH then
        0 <= r.w * imageH - r.h * imageW < imageW
      else
        0 <= r.h * imageW - r.w * imageH < imageH
  {
    var r := Place(imageW, imageH, width, height);
    if imageW * height > width * imageH {
      FloorGap(r.h, imageW, imageH * width);
      assert r.w * imageH == imageH * width;
    } else {
      FloorGap(r.w, imageH, imageW * height);
      assert r.h * imageW == imageW * height;
    }
  }

  /** No larger picture fits: every rectangle with exactly the image's
      aspect ratio that fits the surface is no wider and no taller than the
      placed one. */
  lemma PlaceIsLargest(imageW: nat, imageH: nat, width: U32, height: U32, w: nat, h: nat)
    requires 0 < imageW && 0 < imageH && 0 < width && 0 < height
    requires w <= width && h <= height && w * imageH == h * imageW
    ensures var r := Place(imageW, imageH, width, height); w <= r.w && h <= r.h
  {
    var r := Place(imageW, imageH, width, height);
    if imageW * height > width * imageH {
      // h * imageW == w * imageH <= width * imageH < (r.h + 1) * imageW
      assert w * imageH <= width * imageH by { MulMono(w, width, imageH); }
      CancelFactorStrict(h, r.h + 1, imageW);
      assert w <= r.w;
    } else {
      assert h * imageW <= height * imageW by { MulMono(h, height, imageW); }
      CancelFactorStrict(w, r.w + 1, imageH);
      assert h <= r.h;
    }
  }

}
