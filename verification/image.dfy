/** A single-channel integer image held in memory: a dense grid of `height`
    rows of `width` samples each, addressed as data[y][x], with bounds-checked
    construction, reads and writes. */
module Image2D {

  /** The ways constructing or accessing an image can fail. */
  datatype Error =
    | NegativeDimension  // the grid cannot be allocated with a negative extent
    | OutOfBounds        // a pixel coordinate lies outside the grid

  /** A value, or the error that prevented computing it. */
  datatype Result<+T, +E> = Success(value: T) | Failure(error: E)

  /** Whether an in-place operation completed or raised. */
  datatype Outcome = Done | Raised(error: Error)

  /** The receiver's state after an in-place operation, with its outcome. */
  datatype Step = Step(after: Image, outcome: Outcome)

  datatype Grid = Grid(width: nat, height: nat, data: seq<seq<int>>) {
    /** Exactly `height` rows, each of exactly `width` samples. */
    predicate Valid() {
      && |data| == height
      && forall y :: 0 <= y < |data| ==> |data[y]| == width
    }
  }

  /** A grid with no missing or surplus samples. */
  type Image = g: Grid | g.Valid() witness Grid(0, 0, [])

  predicate InBounds(img: Image, x: int, y: int)
  {
    0 <= x < img.width && 0 <= y < img.height
  }

  /** Every sample of the image equals v. */
  predicate Uniform(img: Image, v: int)
  {
    forall y, x :: 0 <= y < img.height && 0 <= x < img.width ==> img.data[y][x] == v
  }

  /** Allocates a width x height image filled with v. Like the array it is built
      on, it refuses a negative extent and accepts an empty one. */
  function Create(width: int, height: int, v: int): (r: Result<Image, Error>)
    ensures r.Success? <==> width >= 0 && height >= 0
    ensures r.Failure? ==> r.error == NegativeDimension
    ensures r.Success? ==> r.value.width == width && r.value.height == height
    ensures r.Success? ==> |r.value.data| == height
    ensures r.Success? ==> forall y :: 0 <= y < height ==> |r.value.data[y]| == width
    ensures r.Success? ==> Uniform(r.value, v)
  {
    if width < 0 || height < 0 then
      Failure(NegativeDimension)
    else
      Success(Grid(width, height, seq(height, _ => seq(width, _ => v))))
  }

  /** Reads the sample at column x of row y. */
  function GetPixel(img: Image, x: int, y: int): (r: Result<int, Error>)
    ensures r.Failure? <==> !InBounds(img, x, y)
    ensures r.Failure? ==> r.error == OutOfBounds
    ensures r.Success? ==> r.value == img.data[y][x]
  {
    if 0 <= x < img.width && 0 <= y < img.height then
      Success(img.data[y][x])
    else
      Failure(OutOfBounds)
  }

  /** Overwrites the sample at column x of row y with v, stored as is. */
  function SetPixel(img: Image, x: int, y: int, v: int): (s: Step)
    ensures s.outcome.Raised? <==> !InBounds(img, x, y)
    ensures s.outcome.Raised? ==> s.outcome.error == OutOfBounds && s.after == img
    ensures s.after.width == img.width && s.after.height == img.height
    ensures s.outcome.Done? ==> s.after.data[y][x] == v
    ensures forall y', x' :: 0 <= y' < img.height && 0 <= x' < img.width && (x', y') != (x, y)
              ==> s.after.data[y'][x'] == img.data[y'][x']
  {
    if 0 <= x < img.width && 0 <= y < img.height then
      Step(Grid(img.width, img.height, img.data[y := img.data[y][x := v]]), Done)
    else
      Step(img, Raised(OutOfBounds))
  }

  /** Reading back any pixel after a write: the written cell yields the value
      exactly as given, every other read (including failing ones) is as before. */
  lemma GetAfterSet(img: Image, x: int, y: int, v: int, x': int, y': int)
    ensures GetPixel(SetPixel(img, x, y, v).after, x', y') ==
              if InBounds(img, x, y) && (x', y') == (x, y) then Success(v)
              else GetPixel(img, x', y')
  {
  }

  /** Writing back the value just read leaves the image as it was. */
  lemma SetAfterGet(img: Image, x: int, y: int)
    requires InBounds(img, x, y)
    ensures SetPixel(img, x, y, GetPixel(img, x, y).value) == Step(img, Done)
  {
    var row := img.data[y];
    assert row[x := row[x]] == row;
    assert img.data[y := row] == img.data;
  }
}
