# AppleDeviceMediaGenerator geometry, in Dafny

AppleDeviceMediaGenerator takes a screen recording and composites it into a
device-frame image (iPhone 16 Pro, iPad 11 Pro or MacBook Pro 14) through an
alpha mask. Before the ffmpeg render runs, and using the two sizes it probes, the
script does three things with plain values:

- `setup(device, island)` picks the device's content-area size and its frame and mask images.
- `calculate_size(current, target)` finds the cover scale. It multiplies both source
  dimensions by `max(tw/cw, th/ch)` and rounds them, so the scaled recording fills the
  content area on both axes.
- `generate` derives the offsets for a centre crop down to the content size. It also
  derives the offsets for a centring pad onto the frame's canvas.

This project models those three pieces as pure Dafny functions and proves what
they guarantee. The preset table covers exactly the three device names the CLI
accepts. The scaled size covers the content area, and its dominant axis hits the
target exactly. The cover factor is the least factor that covers. The crop has
exactly the content size and lies inside the scaled image. The pad centres the
content on the frame.

Files, one module each:

- `python_ops.dfy` (`PythonOps`): the exceptions raised, Python's `round`
  (half to even) and `// 2`.
- `sizes.dfy` (`Sizes`): the `[width, height]` pair and the covering relation.
- `presets.dfy` (`Presets`): `setup`, plus the same table written as data.
- `cover_scale.dfy` (`CoverScale`): `calculate_size` and its cover factor.
- `placement.dfy` (`Placement`): the crop and pad offset expressions.
- `generate.dfy` (`Generate`): the geometry steps of `generate` composed, with the
  end-to-end lemmas.

Modelling decisions:

- Floats are exact reals. `round` is round-half-to-even on the exact value.
- Python's `x // 2` is Dafny's `x / 2`, which is also the floor for negative `x`.
- The pad offsets use true division, so they are reals.
- `p(relative)` is kept as the opaque value `Bundled(relative)`.
- The two sizes that `generate` probes with ffmpeg are parameters.
- Error paths follow the code:
  - An unknown device name makes `setup` raise `UnboundLocalError` on `CONTENT_SIZE`
    (line 37).
  - A zero source dimension makes `calculate_size` raise `ZeroDivisionError`
    (lines 41-42).
- `setup` takes only `device` and `island`.

## Model

| member | source | states |
|---|---|---|
| PythonOps.HalfFloor | AppleDeviceMediaGenerator.py:100-101 | `x // 2` is the floor of half: `2q <= x <= 2q + 1` |
| PythonOps.RoundHalfEven | AppleDeviceMediaGenerator.py:44 | `round` returns an integer within one half of its argument, and an even one on a tie |
| PythonOps.RoundNearest | AppleDeviceMediaGenerator.py:44 | an integer strictly within one half of `x` is `round(x)` |
| PythonOps.RoundWhole | AppleDeviceMediaGenerator.py:44 | `round` of a whole number is that number |
| PythonOps.RoundAtLeast | AppleDeviceMediaGenerator.py:44 | `round(x) >= n` whenever `x >= n` for an integer `n` |
| Presets.Setup | AppleDeviceMediaGenerator.py:21-37 | a result exists iff the name is one of the three CLI choices. Any other name raises `UnboundLocalError` on `CONTENT_SIZE`. Every content size is positive |
| Presets.IPhonePreset | AppleDeviceMediaGenerator.py:22-28 | iPhone-16-Pro gives content size 884x1918 and the iPhone mask for either flag. Its frame is the island variant exactly when `island` is set |
| Presets.IslandChangesOnlyIPhoneFrame | AppleDeviceMediaGenerator.py:22-28 | on the iPhone, flipping `island` changes the frame path and leaves the content size and mask as they are |
| Presets.IslandIgnoredOffIPhone | AppleDeviceMediaGenerator.py:29-37 | for every other name the result does not depend on `island`. This includes unknown names |
| Presets.TabletAndLaptopPresets | AppleDeviceMediaGenerator.py:29-36 | iPad-11-Pro gives 1310x1898 with the iPad frame and mask. macbook-pro-14 gives 2504x1628 with the Mac frame and mask |
| Presets.Lookup | AppleDeviceMediaGenerator.py:21-37 | a lookup of the first table row with the given name succeeds iff some row has that name |
| Presets.SetupIsTableLookup | AppleDeviceMediaGenerator.py:21-37 | `setup` equals the lookup in the three-row table for every name and flag. The table's names are the CLI's choices (lines 58-59), in order |
| CoverScale.CoverFactor | AppleDeviceMediaGenerator.py:41-43 | the factor is one of the two axis ratios and at least both of them |
| CoverScale.Scaled | AppleDeviceMediaGenerator.py:44 | each dimension of the result is within half a pixel of the source dimension times the factor |
| CoverScale.CalculateSize | AppleDeviceMediaGenerator.py:40-44 | it fails iff a source dimension is zero, and then with `ZeroDivisionError` |
| CoverScale.CoverFactorCovers | AppleDeviceMediaGenerator.py:41-43 | with positive source dimensions, each dimension times the factor reaches its target |
| CoverScale.CoverFactorIsLeast | AppleDeviceMediaGenerator.py:41-43 | every uniform factor that covers both axes is at least the cover factor |
| CoverScale.CalculateSizeCovers | AppleDeviceMediaGenerator.py:40-44 | with positive source dimensions the result is defined and at least the target on both axes |
| CoverScale.CalculateSizeDominantAxisExact | AppleDeviceMediaGenerator.py:41-44 | if `tw/cw >= th/ch` the width equals the target width. Symmetrically, if `th/ch >= tw/cw` the height equals the target height |
| CoverScale.CalculateSizeUniformScale | AppleDeviceMediaGenerator.py:43-44 | both result dimensions are within half a pixel of their source dimension times the same factor |
| CoverScale.CalculateSizeIdentity | AppleDeviceMediaGenerator.py:40-44 | a source already at the target size comes back unchanged |
| CoverScale.LandscapeOntoIPhone | AppleDeviceMediaGenerator.py:40-44 | 1920x1080 onto 884x1918 scales to 3410x1918 |
| Placement.CropWindow | AppleDeviceMediaGenerator.py:96-102 | the crop has the content size. On each axis, the leftover past the window equals the offset or the offset plus one (centre crop) |
| Placement.CropWindowFits | AppleDeviceMediaGenerator.py:96-102 | if the scaled image covers the content, the offsets are non-negative and offset plus content is at most the scaled size on each axis |
| Placement.CropWindowNeedsCover | AppleDeviceMediaGenerator.py:96-102 | the crop window fits iff the scaled image covers the content size |
| Placement.PadPlacement | AppleDeviceMediaGenerator.py:103-109 | the canvas is the frame size, and the content sits with equal margins on both sides of each axis |
| Placement.PadPlacementFits | AppleDeviceMediaGenerator.py:103-109 | if the frame is at least the content size, the pad offsets are non-negative and the content lies within the canvas |
| Generate.GenerateGeometry | AppleDeviceMediaGenerator.py:71-109 | it fails iff the device is unknown or a source dimension is zero. An unknown device is reported first, as `setup` runs first |
| Generate.GenerateCropFits | AppleDeviceMediaGenerator.py:93-102 | for every CLI device and positive source size, the crop has exactly the preset's content size and lies inside the scaled image, which covers it |
| Generate.GeneratePadCentred | AppleDeviceMediaGenerator.py:103-109 | if the probed frame covers the content, the content is centred on the frame's canvas with non-negative offsets |
| Generate.LandscapeIPhoneLayout | AppleDeviceMediaGenerator.py:93-102 | a 1920x1080 recording on the iPhone scales to 3410x1918 and is cropped at (1263, 0) to 884x1918 |

## Left out

- `p()` (AppleDeviceMediaGenerator.py:12-18) reads `sys._MEIPASS` or the working directory.
  An asset path is modelled as its relative part only.
- The ffmpeg calls (AppleDeviceMediaGenerator.py:74-121) are foreign calls into a media
  engine. This covers inputs, probing, the `scale`/`crop`/`pad`/`alphamerge`/`overlay`
  filters, `prores_ks` encoding and writing the output. Only the filter arguments are
  modelled, not how ffmpeg interprets them (e.g. a fractional pad offset).
- The `next(...)` stream lookups (AppleDeviceMediaGenerator.py:80-90) are probe results.
  The `TypeError` raised when a file has no video stream is not modelled. The two probed
  sizes are parameters.
- The click command line (AppleDeviceMediaGenerator.py:47-64, 124-125) is argument parsing.
  This includes its case-insensitive matching of device names. `setup` is modelled on any
  string, and the CLI's choices appear as `DeviceChoices`.
- IEEE-754 rounding in `/`, `*` and `round` is not modelled: the arithmetic is exact.
  For the integer sizes involved the float results agree except possibly right at a
  rounding tie.
- AppleDeviceMediaGenerator.py has no background padding, `libx264` codec or batch
  directory processing, so none is modelled.
