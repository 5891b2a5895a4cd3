/** Zero-padded 2-D convolution of an image with an odd-sized integer kernel,
    and the 3x3 box blur built on it.

    The neighbourhood sum follows true convolution, as the underlying filter
    routine computes it: the kernel is mirrored in both axes, so

      out[y][x] = sum over i, j of  k[i][j] * in[y + ch - i][x + cw - j]

    with ch, cw the kernel's centre row and column, and samples outside the
    image read as 0. */
module Convolution {
  import opened Sums
  import opened Image2D

  type Kernel = seq<seq<int>>

  /** The ways a kernel can be rejected by convolution. */
  datatype KernelError =
    | EvenKernel    // an even number of rows or an even first row
    | RaggedKernel  // rows that do not all have the same length

  /** Length of the first row, the width the filter assumes for every row. */
  function KernelCols(k: Kernel): nat
  {
    if |k| == 0 then 0 else |k[0]|
  }

  /** The kernel's shape check: an odd number of rows and an odd first row. */
  predicate OddShape(k: Kernel)
  {
    |k| % 2 == 1 && KernelCols(k) % 2 == 1
  }

  /** Every row as long as the first, so the kernel is a proper matrix. */
  predicate Rectangular(k: Kernel)
  {
    forall i :: 0 <= i < |k| ==> |k[i]| == KernelCols(k)
  }

  /** The weight at row i, column j, with 0 outside the kernel. */
  function Weight(k: Kernel, i: int, j: int): int
  {
    if 0 <= i < |k| && 0 <= j < |k[i]| then k[i][j] else 0
  }

  /** The sample at (x, y), reading 0 outside the image. */
  function Padded(img: Image, x: int, y: int): (r: int)
    ensures !InBounds(img, x, y) ==> r == 0
    ensures InBounds(img, x, y) ==> GetPixel(img, x, y) == Success(r)
  {
    if InBounds(img, x, y) then img.data[y][x] else 0
  }

  /** Term j of kernel row i in the convolution sum at (x, y). */
  function ConvTerm(img: Image, k: Kernel, x: int, y: int, i: int): int -> int
  {
    j => Weight(k, i, j) * Padded(img, x + KernelCols(k) / 2 - j, y + |k| / 2 - i)
  }

  /** The contribution of kernel row i to the convolution sum at (x, y). */
  function ConvRow(img: Image, k: Kernel, x: int, y: int): int -> int
  {
    i => Sum(KernelCols(k), ConvTerm(img, k, x, y, i))
  }

  /** The zero-padded convolution sum at (x, y). */
  function ConvolveAt(img: Image, k: Kernel, x: int, y: int): int
  {
    Sum(|k|, ConvRow(img, k, x, y))
  }

  /** Term j of kernel row i in the cross-correlation sum at (x, y): the kernel
      laid over the image without mirroring. */
  function CorrTerm(img: Image, k: Kernel, x: int, y: int, i: int): int -> int
  {
    j => Weight(k, i, j) * Padded(img, x + j - KernelCols(k) / 2, y + i - |k| / 2)
  }

  function CorrRow(img: Image, k: Kernel, x: int, y: int): int -> int
  {
    i => Sum(KernelCols(k), CorrTerm(img, k, x, y, i))
  }

  /** The zero-padded cross-correlation sum at (x, y). */
  function CorrelateAt(img: Image, k: Kernel, x: int, y: int): int
  {
    Sum(|k|, CorrRow(img, k, x, y))
  }

  /** The kernel rotated by 180 degrees. */
  function Flip(k: Kernel): (f: Kernel)
    requires Rectangular(k)
    ensures |f| == |k| && KernelCols(f) == KernelCols(k) && Rectangular(f)
    ensures forall i, j :: 0 <= i < |k| && 0 <= j < KernelCols(k) ==>
              Weight(f, i, j) == Weight(k, |k| - 1 - i, KernelCols(k) - 1 - j)
  {
    seq(|k|, i requires 0 <= i < |k| =>
      seq(KernelCols(k), j requires 0 <= j < KernelCols(k) =>
        k[|k| - 1 - i][KernelCols(k) - 1 - j]))
  }

  /** Invariant under a 180-degree rotation, as a box or Gaussian kernel is. */
  predicate PointSymmetric(k: Kernel)
  {
    forall i, j :: 0 <= i < |k| && 0 <= j < KernelCols(k) ==>
      Weight(k, i, j) == Weight(k, |k| - 1 - i, KernelCols(k) - 1 - j)
  }

  /** The output grid: one convolution sum per pixel, same extent as the input. */
  function ConvolveGrid(img: Image, k: Kernel): (r: Image)
    ensures r.width == img.width && r.height == img.height
    ensures forall y, x :: 0 <= y < img.height && 0 <= x < img.width ==>
              r.data[y][x] == ConvolveAt(img, k, x, y)
  {
    Grid(img.width, img.height,
      seq(img.height, y => seq(img.width, x => ConvolveAt(img, k, x, y))))
  }

  /** Convolution with its kernel check. The receiver is a value and is never
      changed; the result is a new image of the same extent. */
  function Convolve(img: Image, k: Kernel): (r: Result<Image, KernelError>)
    ensures r.Failure? <==> !OddShape(k) || !Rectangular(k)
    ensures r.Failure? ==> r.error == (if OddShape(k) then RaggedKernel else EvenKernel)
    ensures r.Success? ==> r.value.width == img.width && r.value.height == img.height
    ensures r.Success? ==> forall y, x :: 0 <= y < img.height && 0 <= x < img.width ==>
              r.value.data[y][x] == ConvolveAt(img, k, x, y)
  {
    if |k| % 2 == 0 || KernelCols(k) % 2 == 0 then
      Failure(EvenKernel)
    else if !Rectangular(k) then
      Failure(RaggedKernel)
    else
      Success(ConvolveGrid(img, k))
  }

  /** The neighbourhood sum at one pixel, accumulated kernel row by kernel row. */
  method WindowSum(img: Image, k: Kernel, x: int, y: int) returns (s: int)
    ensures s == ConvolveAt(img, k, x, y)
  {
    s := 0;
    var i := 0;
    while i < |k|
      invariant 0 <= i <= |k|
      invariant s == Sum(i, ConvRow(img, k, x, y))
    {
      var t := 0;
      var j := 0;
      while j < KernelCols(k)
        invariant 0 <= j <= KernelCols(k)
        invariant t == Sum(j, ConvTerm(img, k, x, y, i))
      {
        t := t + Weight(k, i, j) * Padded(img, x + KernelCols(k) / 2 - j, y + |k| / 2 - i);
        j := j + 1;
      }
      s := s + t;
      i := i + 1;
    }
  }

  /** Convolution computed pixel by pixel into a fresh grid. */
  method ConvolveImage(img: Image, k: Kernel) returns (r: Result<Image, KernelError>)
    ensures r == Convolve(img, k)
  {
    if |k| % 2 == 0 || KernelCols(k) % 2 == 0 {
      return Failure(EvenKernel);
    }
    if !Rectangular(k) {
      return Failure(RaggedKernel);
    }
    var rows: seq<seq<int>> := [];
    var y := 0;
    while y < img.height
      invariant 0 <= y <= img.height
      invariant |rows| == y
      invariant forall yy :: 0 <= yy < y ==> |rows[yy]| == img.width
      invariant forall yy, xx :: 0 <= yy < y && 0 <= xx < img.width ==>
                  rows[yy][xx] == ConvolveAt(img, k, xx, yy)
    {
      var row: seq<int> := [];
      var x := 0;
      while x < img.width
        invariant 0 <= x <= img.width
        invariant |row| == x
        invariant forall xx :: 0 <= xx < x ==> row[xx] == ConvolveAt(img, k, xx, y)
      {
        var s := WindowSum(img, k, x, y);
        row := row + [s];
        x := x + 1;
      }
      rows := rows + [row];
      y := y + 1;
    }
    var grid := ConvolveGrid(img, k);
    forall yy | 0 <= yy < img.height
      ensures rows[yy] == grid.data[yy]
    {
    }
    assert rows == grid.data;
    return Success(Grid(img.width, img.height, rows));
  }

  /** Convolution is cross-correlation with the rotated kernel. */
  lemma ConvolveIsFlippedCorrelation(img: Image, k: Kernel, x: int, y: int)
    requires OddShape(k) && Rectangular(k)
    ensures ConvolveAt(img, k, x, y) == CorrelateAt(img, Flip(k), x, y)
  {
    var f := Flip(k);
    var h, w := |k|, KernelCols(k);
    forall i | 0 <= i < h
      ensures Reverse(h, CorrRow(img, f, x, y))(i) == ConvRow(img, k, x, y)(i)
    {
      var i' := h - 1 - i;
      forall j | 0 <= j < w
        ensures Reverse(w, CorrTerm(img, f, x, y, i'))(j) == ConvTerm(img, k, x, y, i)(j)
      {
        assert Weight(f, i', w - 1 - j) == Weight(k, i, j);
      }
      SumExtensional(w, Reverse(w, CorrTerm(img, f, x, y, i')), ConvTerm(img, k, x, y, i));
      SumReverse(w, CorrTerm(img, f, x, y, i'));
    }
    SumExtensional(h, Reverse(h, CorrRow(img, f, x, y)), ConvRow(img, k, x, y));
    SumReverse(h, CorrRow(img, f, x, y));
  }

  /** For a point-symmetric kernel the mirroring makes no difference:
      convolution and cross-correlation agree. */
  lemma SymmetricConvolveIsCorrelation(img: Image, k: Kernel, x: int, y: int)
    requires OddShape(k) && Rectangular(k) && PointSymmetric(k)
    ensures ConvolveAt(img, k, x, y) == CorrelateAt(img, k, x, y)
  {
    ConvolveIsFlippedCorrelation(img, k, x, y);
    var f := Flip(k);
    forall i | 0 <= i < |k|
      ensures CorrRow(img, f, x, y)(i) == CorrRow(img, k, x, y)(i)
    {
      SumExtensional(KernelCols(k), CorrTerm(img, f, x, y, i), CorrTerm(img, k, x, y, i));
    }
    SumExtensional(|k|, CorrRow(img, f, x, y), CorrRow(img, k, x, y));
  }

  /** The 3x3 box kernel with unit weights. */
  const BoxKernel: Kernel := [[1, 1, 1], [1, 1, 1], [1, 1, 1]]

  /** The plain sum of the 3x3 neighbourhood of (x, y), zero-padded. */
  function BoxSum(img: Image, x: int, y: int): int
  {
    Padded(img, x - 1, y - 1) + Padded(img, x, y - 1) + Padded(img, x + 1, y - 1) +
    Padded(img, x - 1, y)     + Padded(img, x, y)     + Padded(img, x + 1, y) +
    Padded(img, x - 1, y + 1) + Padded(img, x, y + 1) + Padded(img, x + 1, y + 1)
  }

  /** Convolving with the box kernel adds up the nine neighbours. */
  lemma BoxKernelSum(img: Image, x: int, y: int)
    ensures ConvolveAt(img, BoxKernel, x, y) == BoxSum(img, x, y)
  {
    assert KernelCols(BoxKernel) == 3;
    forall i | 0 <= i < 3
      ensures ConvRow(img, BoxKernel, x, y)(i) ==
                Padded(img, x + 1, y + 1 - i) + Padded(img, x, y + 1 - i) + Padded(img, x - 1, y + 1 - i)
    {
      var t := ConvTerm(img, BoxKernel, x, y, i);
      SumOfThree(t);
      assert Weight(BoxKernel, i, 0) == 1 && Weight(BoxKernel, i, 1) == 1 && Weight(BoxKernel, i, 2) == 1;
    }
    SumOfThree(ConvRow(img, BoxKernel, x, y));
  }

  /** A sum of three terms, written out. */
  lemma SumOfThree(f: int -> int)
    ensures Sum(3, f) == f(0) + f(1) + f(2)
  {
  }

  /** The box blur, replacing the image by its 3x3 neighbourhood sums. */
  function ApplyBlur(img: Image): (r: Image)
    ensures r.width == img.width && r.height == img.height
    ensures forall y, x :: 0 <= y < img.height && 0 <= x < img.width ==>
              r.data[y][x] == BoxSum(img, x, y)
  {
    forall y, x | 0 <= y < img.height && 0 <= x < img.width {
      BoxKernelSum(img, x, y);
    }
    ConvolveGrid(img, BoxKernel)
  }

  /** Away from the border a pixel has all eight neighbours. */
  predicate Interior(img: Image, x: int, y: int)
  {
    1 <= x && x + 1 < img.width && 1 <= y && y + 1 < img.height
  }

  /** Blurring a uniform image of value v gives 9v at every interior pixel; for
      v > 0 the zero padding makes every border pixel strictly smaller. */
  lemma BlurUniform(img: Image, v: int, x: int, y: int)
    requires Uniform(img, v) && InBounds(img, x, y)
    ensures Interior(img, x, y) ==> ApplyBlur(img).data[y][x] == 9 * v
    ensures v > 0 && !Interior(img, x, y) ==> ApplyBlur(img).data[y][x] < 9 * v
    ensures v > 0 ==> (ApplyBlur(img).data[y][x] == 9 * v <==> Interior(img, x, y))
  {
  }
}
