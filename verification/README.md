# Grayscale Image_2D, modelled in Dafny

`Image_2D` (in `1.py`) is a small in-memory grayscale image. It is a dense
integer grid stored as `data[y][x]`, with `height` rows of `width` samples.
It supports bounds-checked reads and writes, zero-padded convolution with an
odd-sized kernel, a 3×3 box blur and a saturating brightness offset. This
project models those operations as pure functions over immutable values and
proves what they promise.

- `image.dfy`, module `Image2D`: the grid (`Grid`, and `Image`, the grids
  whose shape is exactly `height × width`), construction, `GetPixel` and
  `SetPixel`. `set_pixel`, the one in-place operation that can fail, is
  modelled as a `Step`, which holds the receiver's state after the call and
  whether the call completed or raised. The other in-place operations,
  `adjust_brightness` and `apply_blur`, cannot fail; they are modelled as
  functions whose result replaces the receiver.
- `convolution.dfy`, module `Convolution`: the zero-padded read, the
  convolution sum, the kernel check, a loop implementation, the
  relation to cross-correlation, and the box blur.
- `tone.dfy`, module `Tone`: clipping to `[0, 255]` and `adjust_brightness`.
- `sums.dfy`, module `Sums`: finite sums, plus reindexing lemmas used by the
  convolution proofs.

Where descriptions of this component and the code differ, the model follows
the code:
- **Non-positive dimensions.** Construction does not check that the
  dimensions are positive. The array allocation refuses only a negative
  extent, so `Create` fails exactly when `width < 0` or `height < 0`. A
  zero-sized image is accepted.
- **Kernel flipping.** The filter routine called at `1.py:25` computes true
  convolution, not cross-correlation: the kernel is rotated by 180 degrees
  before it is laid over the image. So the output is
  `out[y][x] = Σ k[i][j] · in[y + ch − i][x + cw − j]`, where `ch` and `cw`
  are the kernel's centre row and column. The lemma
  `ConvolveIsFlippedCorrelation` shows that this equals cross-correlation
  with the rotated kernel. `SymmetricConvolveIsCorrelation` shows that the
  two agree for point-symmetric kernels such as the blur kernel.
- **Ragged kernels.** `convolve` only checks the number of rows and the
  length of the first row. A kernel whose rows differ in length cannot be
  turned into an array by the filter routine. The model reports it as
  `RaggedKernel`, after the odd-size check.

## Model

| member | source | states |
|---|---|---|
| Image2D.Create | 1.py:5-8 | Construction succeeds exactly when neither dimension is negative. It then gives `height` rows of `width` samples, every one equal to the initial value. Otherwise it fails with `NegativeDimension`. |
| Image2D.GetPixel | 1.py:16-20 | The read fails with `OutOfBounds` exactly when `x` or `y` is outside `[0, width) × [0, height)`. Otherwise it yields the stored sample at row `y`, column `x`. |
| Image2D.SetPixel | 1.py:10-14 | The write raises `OutOfBounds` exactly for an out-of-range coordinate, and then leaves the image identical. An in-range write stores the value unclipped at `[y][x]` and changes no other sample and neither dimension. |
| Image2D.GetAfterSet | 1.py:10-20 | After any write, reading the written in-range cell gives back the value exactly. Every other read gives what it gave before, including reads that fail and all reads after a failed write. |
| Image2D.SetAfterGet | 1.py:10-20 | Writing back the value just read from an in-range cell completes and leaves the image unchanged. |
| Convolution.Padded | 1.py:25 | A read outside the image yields 0, the constant padding value. A read inside yields the same sample that `GetPixel` returns. |
| Convolution.ConvolveGrid | 1.py:25-27 | The filter output is a new image with the receiver's width and height. Each sample is the zero-padded, kernel-weighted neighbourhood sum at that pixel. |
| Convolution.Convolve | 1.py:22-28 | `convolve` fails exactly when the kernel has an even number of rows or an even first row (`EvenKernel`), or has ragged rows (`RaggedKernel`). Otherwise it returns a new image of the same extent whose every sample is the zero-padded convolution sum. The receiver is a value and is never changed. |
| Convolution.WindowSum | 1.py:25 | Accumulating the weighted padded samples row by row over the kernel gives exactly the convolution sum at that pixel. |
| Convolution.ConvolveImage | 1.py:22-28 | A pixel-by-pixel loop implementation, with the same kernel checks, produces exactly the result of `Convolve`, including the errors. |
| Convolution.Flip | 1.py:25 | Rotating a rectangular kernel by 180 degrees keeps its shape. Weight `(i, j)` of the result is weight `(h−1−i, w−1−j)` of the original. |
| Convolution.ConvolveIsFlippedCorrelation | 1.py:25 | For every odd rectangular kernel and every pixel, the convolution sum equals the cross-correlation sum with the rotated kernel. |
| Convolution.SymmetricConvolveIsCorrelation | 1.py:25 | For a point-symmetric odd kernel, convolution and cross-correlation agree at every pixel, so mirroring is irrelevant for the blur kernel. |
| Convolution.BoxKernelSum | 1.py:38-41 | Convolving with the all-ones 3×3 kernel gives the plain sum of the nine zero-padded neighbours of the pixel. |
| Convolution.ApplyBlur | 1.py:37-41 | The blur replaces the image with one of the same extent. Each sample is the sum of its nine zero-padded neighbours. |
| Convolution.BlurUniform | 1.py:37-41 | On an image whose samples all equal `v`, every interior pixel blurs to `9v`. When `v > 0`, a pixel blurs to `9v` exactly when it is interior, so border pixels come out strictly smaller because of the zero padding. |
| Tone.Clamp | 1.py:31 | The clipped value lies in `[0, 255]` and is the level in that range nearest to the input. |
| Tone.AdjustBrightness | 1.py:30-31 | Every sample becomes `clip(v + d, 0, 255)`. The extent is unchanged and every sample of the result lies in `[0, 255]`. |
| Tone.BrightnessZeroIdentity | 1.py:31 | An offset of 0 is the identity on an image whose samples are already in `[0, 255]`. |
| Tone.BrightnessThenZeroIsFixed | 1.py:31 | After any adjustment, a further offset of 0 changes nothing. |
| Tone.BrightnessUndo | 1.py:31 | If an in-range image has no sample clipped by offset `d`, then applying `-d` restores the image exactly. |
| Tone.BrightnessCompose | 1.py:31 | On an in-range image, two offsets of the same sign have the same effect as their sum. |

## Left out

- `adjust_contrast` (`1.py:33-35`): its mean and scaling are floating-point arithmetic, and the result becomes a floating-point array.
- `display` (`1.py:43-45`): console output.
- The example driver at the end of `1.py` (`1.py:47-74`): demonstration code.
- The internals of the filter routine called at `1.py:25` and `1.py:41`: it is a foreign library call. Only the semantics its arguments select are modelled: true convolution, constant padding with 0, and an output with the input's shape.
- Convolve: kernel weights are integers and the sums are exact. The floating-point kernels the code accepts, and the cast of the filter output back to the image's integer type, are not modelled.
- ApplyBlur: computes the 3×3 neighbourhood sum without the division by 9 and without the conversion of the average back to integer storage.
- SetPixel: samples are unbounded integers. Storage in a 64-bit integer array is not modelled: writing a value outside that range raises, and writing a fractional value truncates it.
- AdjustBrightness: `data + adjustment_value` is computed in unbounded integers. Wrap-around of the 64-bit array sum, for offsets near the 64-bit limits, is not modelled.
- Create: dimensions and the fill value are unbounded integers. The array library's handling of non-integer arguments is not modelled, and neither is the 64-bit storage: a fill value outside the 64-bit range is rejected or wrapped by the array library, depending on its version, while the model accepts every integer.
