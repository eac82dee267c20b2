/**
 * Pixel arithmetic. Pixel quantities are reals; the two JavaScript rounding
 * functions the timeline uses are modelled exactly on them.
 */
module Pixels {

  /** `Math.floor`: the greatest integer not above `x`. */
  function Floor(x: real): (r: int)
    ensures r as real <= x < r as real + 1.0
  {
    x.Floor
  }

  /** `Math.round`: the nearest integer, a half rounded towards +infinity. */
  function Round(x: real): (r: int)
    ensures x - 0.5 < r as real <= x + 0.5
  {
    (x + 0.5).Floor
  }

  /** `Round` is determined by the half-open window around `x`. */
  lemma RoundUnique(x: real, k: int)
    requires k as real - 0.5 <= x < k as real + 0.5
    ensures Round(x) == k
  {
  }

  /**
   * `days * dayWidth`: the pixel length of a whole number of days. It is
   * written as repeated addition so that proofs unfold it only where they
   * need to; `DaysToPixelsIsProduct` shows that it is exactly the product.
   */
  function DaysToPixels(days: int, dayWidth: real): real
    decreases if days < 0 then -days else days
  {
    if days == 0 then 0.0
    else if days > 0 then DaysToPixels(days - 1, dayWidth) + dayWidth
    else DaysToPixels(days + 1, dayWidth) - dayWidth
  }

  lemma {:induction false} DaysToPixelsIsProduct(days: int, dayWidth: real)
    ensures DaysToPixels(days, dayWidth) == days as real * dayWidth
    decreases if days < 0 then -days else days
  {
    if days > 0 {
      DaysToPixelsIsProduct(days - 1, dayWidth);
      assert (days - 1) as real * dayWidth + dayWidth == days as real * dayWidth;
    } else if days < 0 {
      DaysToPixelsIsProduct(days + 1, dayWidth);
      assert (days + 1) as real * dayWidth - dayWidth == days as real * dayWidth;
    }
  }

  /** One more day adds exactly one day width, on either side of day 0. */
  lemma DaysToPixelsStep(days: int, dayWidth: real)
    ensures DaysToPixels(days + 1, dayWidth) == DaysToPixels(days, dayWidth) + dayWidth
  {
  }

  /** More days never take fewer pixels. */
  lemma {:induction false} DaysToPixelsMono(a: int, b: int, dayWidth: real)
    requires a <= b && dayWidth >= 0.0
    ensures DaysToPixels(a, dayWidth) <= DaysToPixels(b, dayWidth)
    decreases b - a
  {
    if a < b {
      DaysToPixelsMono(a, b - 1, dayWidth);
      DaysToPixelsStep(b - 1, dayWidth);
    }
  }

  /** With a positive day width, more days take more pixels. */
  lemma DaysToPixelsStrictMono(a: int, b: int, dayWidth: real)
    requires a < b && dayWidth > 0.0
    ensures DaysToPixels(a, dayWidth) < DaysToPixels(b, dayWidth)
  {
    DaysToPixelsMono(a, b - 1, dayWidth);
    DaysToPixelsStep(b - 1, dayWidth);
  }

  /** With a positive day width, a span's pixel length has the sign of its day count. */
  lemma DaysToPixelsSign(days: int, dayWidth: real)
    ensures dayWidth > 0.0 ==> (DaysToPixels(days, dayWidth) > 0.0 <==> days > 0)
    ensures dayWidth > 0.0 ==> (DaysToPixels(days, dayWidth) == 0.0 <==> days == 0)
  {
    if dayWidth > 0.0 {
      if days > 0 {
        DaysToPixelsStrictMono(0, days, dayWidth);
      } else if days < 0 {
        DaysToPixelsStrictMono(days, 0, dayWidth);
      }
    }
  }

  /** Pixel lengths of consecutive day spans add up. */
  lemma {:induction false} DaysToPixelsAdd(a: int, b: int, dayWidth: real)
    ensures DaysToPixels(a, dayWidth) + DaysToPixels(b, dayWidth) == DaysToPixels(a + b, dayWidth)
    decreases if b < 0 then -b else b
  {
    if b > 0 {
      DaysToPixelsAdd(a, b - 1, dayWidth);
      DaysToPixelsStep(a + b - 1, dayWidth);
    } else if b < 0 {
      DaysToPixelsAdd(a, b + 1, dayWidth);
      DaysToPixelsStep(a + b, dayWidth);
    }
  }

  /** A product of two positive reals is positive. */
  lemma MulPositive(a: real, b: real)
    requires a > 0.0 && b > 0.0
    ensures a * b > 0.0
  {
  }

  /** Scaling by a positive width cancels. */
  lemma MulCancel(a: real, b: real, w: real)
    requires w > 0.0 && a * w == b * w
    ensures a == b
  {
    if a < b {
      MulPositive(b - a, w);
    } else if a > b {
      MulPositive(a - b, w);
    }
  }

  /** `offset / w` for a positive `w`, named so that proofs can scale it back. */
  function Quotient(offset: real, w: real): (x: real)
    requires w > 0.0
    ensures x * w == offset
  {
    offset / w
  }
}
