/** Global tone adjustment: a brightness offset added to every sample and
    saturated to the 8-bit range [0, 255]. */
module Tone {
  import opened Image2D

  const MaxLevel := 255

  /** Distance between two integers. */
  function Dist(a: int, b: int): nat
  {
    if a <= b then b - a else a - b
  }

  /** v clipped to [0, 255]: the level in range nearest to v. */
  function Clamp(v: int): (r: int)
    ensures 0 <= r <= MaxLevel
    ensures forall w :: 0 <= w <= MaxLevel ==> Dist(r, v) <= Dist(w, v)
  {
    if v < 0 then 0 else if v > MaxLevel then MaxLevel else v
  }

  /** Every sample lies in [0, 255]. */
  predicate InRange(img: Image)
  {
    forall y, x :: 0 <= y < img.height && 0 <= x < img.width ==> 0 <= img.data[y][x] <= MaxLevel
  }

  /** Adds d to every sample and clips the sum to [0, 255]. */
  function AdjustBrightness(img: Image, d: int): (r: Image)
    ensures r.width == img.width && r.height == img.height
    ensures InRange(r)
    ensures forall y, x :: 0 <= y < img.height && 0 <= x < img.width ==>
              r.data[y][x] == Clamp(img.data[y][x] + d)
  {
    Grid(img.width, img.height,
      seq(img.height, y requires 0 <= y < img.height =>
        seq(img.width, x requires 0 <= x < img.width => Clamp(img.data[y][x] + d))))
  }

  /** Two images of the same extent with the same samples are the same image. */
  lemma SameSamples(a: Image, b: Image)
    requires a.width == b.width && a.height == b.height
    requires forall y, x :: 0 <= y < a.height && 0 <= x < a.width ==> a.data[y][x] == b.data[y][x]
    ensures a == b
  {
    forall y | 0 <= y < a.height
      ensures a.data[y] == b.data[y]
    {
    }
  }

  /** A zero offset leaves an image already in range unchanged. */
  lemma BrightnessZeroIdentity(img: Image)
    requires InRange(img)
    ensures AdjustBrightness(img, 0) == img
  {
    SameSamples(AdjustBrightness(img, 0), img);
  }

  /** Any image is brought into range by one adjustment, after which a zero
      offset is inert. */
  lemma BrightnessThenZeroIsFixed(img: Image, d: int)
    ensures AdjustBrightness(AdjustBrightness(img, d), 0) == AdjustBrightness(img, d)
  {
    BrightnessZeroIdentity(AdjustBrightness(img, d));
  }

  /** When no sample is clipped by an offset d, the offset -d undoes it. */
  lemma BrightnessUndo(img: Image, d: int)
    requires InRange(img)
    requires forall y, x :: 0 <= y < img.height && 0 <= x < img.width ==>
               0 <= img.data[y][x] + d <= MaxLevel
    ensures AdjustBrightness(AdjustBrightness(img, d), -d) == img
  {
    SameSamples(AdjustBrightness(AdjustBrightness(img, d), -d), img);
  }

  /** Two offsets in the same direction on an in-range image act as their sum:
      saturation at one end is never undone by moving further that way. */
  lemma BrightnessCompose(img: Image, a: int, b: int)
    requires InRange(img)
    requires (a >= 0 && b >= 0) || (a <= 0 && b <= 0)
    ensures AdjustBrightness(AdjustBrightness(img, a), b) == AdjustBrightness(img, a + b)
  {
    SameSamples(AdjustBrightness(AdjustBrightness(img, a), b), AdjustBrightness(img, a + b));
  }
}
