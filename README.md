# Attenuation plate visualizer — verified model of the pixel pipeline

The visualizer (`Attenuations/production/compiled/visualizer.py`) turns a
plate of attenuation readings into an image. The plate is a flat array of
`size * size` doubles in row-major order. The script:

- runs an advisory checksum self-test on the array;
- takes the array's maximum `mm`;
- colours every sample with either the false-colour mapper
  (`renderFalseColor`, the active choice) or the grayscale mapper
  (`renderBlackWhite`, the commented-out alternative);
- writes sample `t` to pixel `(t % size, t // size)` of a `size × size`
  raster that starts out black;
- resizes, saves and shows the image.

This project models everything in that list except the last step, and proves
what the pipeline promises:

- every sample is written to exactly one cell and every cell receives exactly
  one sample;
- cell `(x, y)` holds the colour of sample `y * size + x`;
- the maximum is a sample and bounds every sample;
- samples `<= 0` become black;
- the range and equality of the grey channels;
- the grey level is non-increasing over positive samples (a sample `<= 0` is
  black, a small positive one nearly white);
- the range of the phase handed to `circleToRGB`, and how it determines the
  sample;
- when the checksum warning fires.

Modules:

- `ColourMap` (`colour_map.dfy`): the `Rgb` pixel, Python's `int()` as
  truncation toward zero (`Trunc`), `RenderBlackWhite`, `RenderFalseColor`
  and the phase `Unit`. The palette is a datatype: `FalseColor` carries
  `circleToRGB` as a function parameter, and `BlackWhite` is the grayscale
  mapper.
- `Normaliser` (`normaliser.dfy`): `Max`, numpy's `amax` over a non-empty
  array.
- `Integrity` (`check_sum.dfy`): `Sum` (Python's left-to-right `sum`), the
  reference constant `14365.942363022965`, and `CheckSum(argc, ary)`: the
  warning `checkSum` prints, as an optional pair of actual and expected sums.
- `Assembler` (`assembler.dfy`): the index arithmetic `Index`/`Coord`, the
  write order of the loop and its bijectivity, and `RenderImage`, which
  contains the loop itself. `RenderImage` fills a Dafny `array2<Rgb>`
  indexed `px[column, row]`, as PIL's pixel access is. A ghost out-parameter
  records the cell written at each step.

Doubles are modelled as `real`. Two facts about the code shape what is
stated:

- The phase handed to `circleToRGB` is `1 - val/mm`. The grey level is
  `int(255 * (1 - val/mm))`.
- No channel is clamped to `[0, 255]`. In the real-number model, the grey level
  stays in `[0, 254]` for samples in `(0, mm]`, and the phase lies in `[0, 1)`.
  `BlackWhite` yields black both for "no signal" and for the maximum sample.
  The false-colour channels are `int(255 * distance)`, with distances up to 2.
  At `val == mm` the phase is 0 and the red distance is `sqrt 2`, so red is
  360. The model therefore states no `[0, 255]` bound for false colour.

## Model

| member | source | states |
|---|---|---|
| `ColourMap.Trunc` | Attenuations/production/compiled/visualizer.py:24 | `int()` truncates toward zero: for `x >= 0` the result is the largest integer `<= x`, for `x < 0` the smallest integer `>= x` |
| `ColourMap.TruncMonotone` | Attenuations/production/compiled/visualizer.py:24 | truncation preserves `<=` |
| `ColourMap.RenderBlackWhite` | Attenuations/production/compiled/visualizer.py:20-25 | black when `ary[t] <= 0` whatever `mm` is; three equal channels; for `0 < ary[t] <= mm` the channel is the truncation of `255 * (1 - ary[t]/mm)` (`c <= 255*(1 - val/mm) < c + 1`) and lies in `[0, 254]`; black when `ary[t] == mm > 0` |
| `ColourMap.BlackWhiteNonIncreasing` | Attenuations/production/compiled/visualizer.py:24-25 | for a fixed `mm > 0`, a larger positive sample never gets a larger grey level |
| `ColourMap.Unit` | Attenuations/production/compiled/visualizer.py:31 | the phase `u` recovers the sample as `val == mm * (1 - u)`; it lies in `[0, 1)` for `0 < val <= mm` and is 0 at `val == mm` |
| `ColourMap.UnitStrictlyDecreasing` | Attenuations/production/compiled/visualizer.py:31 | for `mm > 0` a larger sample gets a strictly smaller phase, so distinct samples get distinct phases |
| `ColourMap.ScaleDistances` | Attenuations/production/compiled/visualizer.py:33 | for a non-negative distance `d`, each channel is the truncation `int(255 * d)`: non-negative, `c <= 255*d < c + 1` |
| `ColourMap.RenderFalseColor` | Attenuations/production/compiled/visualizer.py:27-33 | black when `ary[t] <= 0` whatever `mm` is |
| `ColourMap.FalseColorPhaseInRange` | Attenuations/production/compiled/visualizer.py:31-33 | for `0 < ary[t] <= mm` the colour is the scaled output of `circleToRGB` at a phase `u` in `[0, 1)` with `ary[t] == mm * (1 - u)` |
| `ColourMap.ColourDependsOnSampleOnly` | Attenuations/production/compiled/visualizer.py:20-33 | under either palette, equal sample values give identical colours, whatever their position or array |
| `ColourMap.Render` | Attenuations/production/compiled/visualizer.py:54-55 | whichever renderer is selected, a sample `<= 0` is black |
| `Normaliser.Max` | Attenuations/production/compiled/visualizer.py:52 | the maximum of a non-empty array is one of its elements and is `>=` every element |
| `Integrity.Sum` | Attenuations/production/compiled/visualizer.py:16 | the sum of a plate of non-negative readings is non-negative |
| `Integrity.SumAppend` | Attenuations/production/compiled/visualizer.py:16 | the sum of a concatenation is the sum of the parts, so the order of the fold does not matter |
| `Integrity.CheckSum` | Attenuations/production/compiled/visualizer.py:15-18 | no warning with any extra command-line argument; with none, a warning exactly when the sum differs from `14365.942363022965`; a warning carries the actual sum and the expected constant, which differ |
| `Assembler.Index` | Attenuations/production/compiled/visualizer.py:54 | the flat index `y*size + x` of a cell in range lies in `[0, size*size)` |
| `Assembler.DivModUnique` | Attenuations/production/compiled/visualizer.py:54 | `(q*n + r) // n == q` and `(q*n + r) % n == r` for `0 <= r < n` |
| `Assembler.Coord` | Attenuations/production/compiled/visualizer.py:53-54 | for every `t` in `[0, size*size)`, `t % size` and `t // size` both lie in `[0, size)` |
| `Assembler.IndexOfCoord` | Attenuations/production/compiled/visualizer.py:53-54 | the cell written at step `t` has flat index `t` |
| `Assembler.CoordOfIndex` | Attenuations/production/compiled/visualizer.py:53-54 | cell `(x, y)` is the one written at step `y*size + x` |
| `Assembler.WriteOrder` | Attenuations/production/compiled/visualizer.py:53-54 | the first `n` steps of the loop write `n` cells, each inside the raster, and step `i` writes the cell whose flat index is `i` |
| `Assembler.StepHitsOneCell` | Attenuations/production/compiled/visualizer.py:54 | step `t` writes cell `(x, y)` iff `y*size + x == t` |
| `Assembler.WriteOrderBijective` | Attenuations/production/compiled/visualizer.py:53-54 | over `t` in `[0, size*size)`, the loop writes inside the raster, never writes a cell twice, and writes every cell |
| `Assembler.RenderImage` | Attenuations/production/compiled/visualizer.py:48-54 | the raster is fresh and `size × size`; the warning is the checksum's; after the loop `px[x, y]` is the colour of `ary[y*size + x]` under the maximum for every cell; the cells written, in order, are the loop's write order |
| `Assembler.ChecksumDoesNotAffectPixels` | Attenuations/production/compiled/visualizer.py:50-54 | two renders of the same plate that differ only in the argument count give equal pixels in every cell |

The loop invariant of `RenderImage` also shows that every cell not yet
reached keeps the black of `Image.new(..., 0)`.

## Left out

- `circleToRGB` and `norm` (visualizer.py lines 35-44) rest on `cos`, `sin`
  and `sqrt` of doubles. `circleToRGB` is a function parameter of the
  `FalseColor` palette, so every stated property holds for any such
  function. `norm` is not part of this model.
- `ColourMap.RenderFalseColor`: no `[0, 255]` channel bound is stated,
  because the code does not clamp and the distances reach 2.
- Floating point: `real` replaces IEEE-754 doubles, so `sum`, `/` and the
  exact `!=` against the checksum constant are exact here. There are no NaN,
  infinite or rounding cases. In particular, `ColourMap.RenderBlackWhite`'s
  `[0, 254]` bound and `ColourMap.Unit`'s `[0, 1)` range hold only over reals.
  With doubles, a sample far below the maximum (`val = 1e-20`, `mm = 1.0`)
  rounds `1 - val/mm` to exactly `1.0`. That gives a grey level of 255 and a
  phase of `1.0`.
- Division by a zero maximum is excluded by the renderers' requires
  (`ary[t] > 0 ==> mm != 0`). With a real `mm` of 0, numpy yields infinity
  and `int()` then raises. In `RenderImage` this case cannot arise, since
  `0 < ary[t] <= mm`.
- Empty or mismatched input: the code has no guard.
  `RenderImage` requires `size > 0 && |ary| == size * size`.
- `np.loadtxt` parsing of the input file (line 47) is left out: the array is
  a parameter.
- PIL's `Image.new`, `load`, `resize`, `save` and `show` (lines 48-49,
  57-59) are library behaviour. `Image.new` is modelled as a fresh black
  array. Resampling, encoding, display, and what PIL does with channel
  values outside `[0, 255]` are not modelled.
- The timestamped file name (lines 10-11) and the module-level call on the
  test trace (line 62) are environment glue.
- `checkSum`: reading `sys.argv` becomes the parameter `argc`. The message
  text and its `%.9f` formatting are left out: the warning carries only the
  two sums the message reports.
