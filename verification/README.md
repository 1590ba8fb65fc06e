# ConvertFromFloat — a Dafny model

This project models the core of the AviSynth `ConvertFromFloat` filter. The filter turns a
floating-point RGB frame into an 8-bit frame. The source frame is carried in an RGB32 clip.
For precision 1 a channel is one byte and a pixel four bytes; for precision 2 a channel is a
two-byte half float and a pixel eight bytes. The destination is either
packed BGR32 or planar YV24. With `convertYuv` set, each pixel goes through the Rec.601
matrix; otherwise R, G and B are passed through into the Y, U and V slots.

The model has six modules:

- `Config` is the constructor. It checks the source pixel type, the destination format name
  and the precision, in the source's order. It reports the first failure as a `Failure`
  value where the filter calls `ThrowError`. It then derives the destination frame
  description.
- `Layout` holds the byte arithmetic:
  - `x << precisionShift` locates source pixel `x` within its row, with
    `precisionShift = precision + 1`;
  - `row * pitch + column` addresses a strided buffer.
- `Pixel` is the per-pixel kernel `convFloat`:
  - channel reads: r at offset 0, g at +2, b at +4 for precision 2;
  - the ×255 scaling;
  - the Rec.601 matrix or pass-through, idealised over `real`;
  - the exact integer tail: add one half, truncate toward zero, clamp each channel to
    [0, 255].
- `Drivers` holds the two scanline drivers, `convFloatToYV24` and `convFloatToRGB32`.
  They work over byte sequences, and the source's moving pointers become indices. Each
  driver returns the buffers it wrote. Its contract states the whole outcome:
  - which byte every pixel lands in;
  - that the packed image is flipped vertically;
  - that the alpha bytes and row padding of the packed frame are zero;
  - that no other byte is written.
- `Filter` is `GetFrame`. It runs the driver that matches the output pixel type chosen at
  construction.
- `Wrappers` holds the `Result` type.

Buffers and pitches are parameters. The pitch sufficiency the code relies on without
checking appears as preconditions:
- `SourceCovers`: every window the kernel reads lies inside the source buffer.
- `PlaneCovers`: each plane's rows fit and do not overlap.
- For the packed frame: `4 * width <= pitchDst` and `height * pitchDst` bytes exist.

`SourceFrameSuffices` shows that the derived output geometry keeps every read inside a
BGR32 source frame. This holds because the width is halved for precision 2, where each
output pixel reads an 8-byte slot.

Facts about the code that the model keeps:
- The precision-2 kernel reads r, g, b at offsets 0, 2, 4 (Src/ConvertFromFloat.cpp:84-86).
  That is the reverse of the B, G, R memory order of a BGR32 pixel.
- Source pixel `x` starts at `x << (precision + 1)`, so a pixel occupies `2^(precision+1)`
  bytes. The kernel reads only the first `3 * precision` of them.
- The Rec.601 row that starts `0.439 * r` is assigned to `v2`, and the row that starts
  `-0.148 * r` to `u2` (:97-98).
- The matrix maps white to Y = 235 (0.859 · 255 + 16 + 0.5 truncates to 235).

## Model

| member | source | states |
|---|---|---|
| Config.Create | Src/ConvertFromFloat.cpp:3-21 | Construction succeeds exactly when the source is BGR32, the format is one of YV24, YV12, RGB32 and the precision is 1 or 2. Otherwise it fails with the first failing check in source order: source type, then format, then precision. On success the converter keeps the source, precision and flag, and its shift is precision + 1. |
| Config.FormatSelectsOutput | Src/ConvertFromFloat.cpp:14-17 | "RGB32" selects packed BGR32 output; "YV24" and "YV12" both select planar YV24. |
| Config.OutputGeometry | Src/ConvertFromFloat.cpp:13-20 | The output height equals the source height. The output width equals the source width for precision 1, and is the source width shifted right by one for precision 2. |
| Config.HalveWidth | Src/ConvertFromFloat.cpp:19-20 | `width >>= 1` yields h with 2h <= w < 2h + 2. |
| Config.Yv12IsYv24 | Src/ConvertFromFloat.cpp:7-17 | Constructing with "YV12" gives exactly the result of constructing with "YV24", errors included. |
| Config.OutputInfo | Src/ConvertFromFloat.cpp:13-20 | The destination description keeps the source height. Its pixel type is BGR32 exactly when the format is "RGB32" and YV24 otherwise. Its width is the source width for precision 1 and floor-halved for precision 2. |
| Config.Message | Src/ConvertFromFloat.cpp:5-10 | Each error message names what the failed check accepts: RGB for the source type, YV24, YV12 and RGB32 for the format, and 1 and 2 for the precision. |
| Layout.Shl | Src/ConvertFromFloat.cpp:47 | The left shift `x << s`, modelled as one doubling per bit, equals x · 2^s. |
| Layout.PixelSlot | Src/ConvertFromFloat.cpp:4 | Pixel x starts at byte 4x for precision 1 and 8x for precision 2, not 3·precision·x. The 3·precision bytes the kernel reads end before the next pixel's slot begins. |
| Layout.PixelWindowsDisjoint | Src/ConvertFromFloat.cpp:76-86 | For x < x', the bytes read for pixel x end no later than pixel x' starts, so no two pixels share a source byte. |
| Layout.AtInjective | Src/ConvertFromFloat.cpp:49-52 | With columns in [0, pitch), two cells with the same byte index are the same cell: rows a pitch apart never overlap. |
| Layout.CellOf | Src/ConvertFromFloat.cpp:58-61 | Every byte of the first height·pitch bytes is the cell (i / pitch, i % pitch) of one of the first height rows. |
| Pixel.Trunc | Src/ConvertFromFloat.cpp:106-108 | The float-to-`short` conversion truncates toward zero: the result is the integer next to v on the side of zero, and values in (-1, 1) give 0. |
| Pixel.Clamp | Src/ConvertFromFloat.cpp:110-115 | A `short` in [0, 255] is kept. One above 255 becomes 255, and one below 0 becomes 0. |
| Pixel.RoundClamp | Src/ConvertFromFloat.cpp:106-115 | A channel below 0.5 gives 0 and one at or above 254.5 gives 255. In between, the result b satisfies b - 0.5 <= v < b + 0.5, so halves round up. |
| Pixel.RoundClampFixesBytes | Src/ConvertFromFloat.cpp:106-115 | A channel that is already an integer in [0, 255] is stored unchanged. |
| Pixel.RoundClampMonotone | Src/ConvertFromFloat.cpp:106-115 | Rounding and clamping preserves order. |
| Pixel.RoundClampCases | Src/ConvertFromFloat.cpp:106-115 | 254.5 → 255, 0.4 → 0, 300 → 255, -3 → 0, 127.5 → 128, 127.49 → 127. |
| Pixel.NearestByteUnique | Src/ConvertFromFloat.cpp:106-115 | At most one byte is nearest to a channel value under the half-up, saturating rule, so `Pixel.KernelRounds` determines the stored bytes. |
| Pixel.Rec601 | Src/ConvertFromFloat.cpp:95-99 | A grey input r = g = b = k gives y2 = 0.859k + 16 and u2 = v2 = 128 exactly, since the chroma rows' coefficients sum to zero. Channels in [0, 255] give y2 in [16, 235.045] and u2, v2 in [16.055, 239.945]. |
| Pixel.Transform | Src/ConvertFromFloat.cpp:95-104 | Without conversion y2, u2, v2 are r, g, b. In either mode, channels in [0, 255] give pre-rounding values in [0, 255], so the clamps act only on out-of-range input. |
| Pixel.KernelRounds | Src/ConvertFromFloat.cpp:106-120 | Each of outY, outU and outV is the byte nearest to its own pre-rounding value: halves round up, values below 0.5 give 0, and values from 254.5 up give 255. |
| Pixel.ReadChannelsLayout | Src/ConvertFromFloat.cpp:74-91 | For precision 2, a window that holds the half floats of r, g and b in that order decodes to those values times 255. For precision 1 the channels are the uninitialised values, whatever the window holds. |
| Pixel.WindowIsHalfTriple | Src/ConvertFromFloat.cpp:84-86 | Every six-byte window is the image of some three half floats, so `Pixel.ReadChannelsLayout` and `Pixel.ConvFloatReads` fix the result for every precision-2 window. |
| Pixel.ConvFloatReads | Src/ConvertFromFloat.cpp:70-121 | On a window holding half floats r, g, b, the kernel decodes them, scales by 255, applies the transform, and rounds and clamps each channel. For precision 1 it applies the kernel to the uninitialised values. |
| Pixel.PassThroughSlots | Src/ConvertFromFloat.cpp:100-120 | Without conversion, outY is round-clamp(r), outU is round-clamp(g) and outV is round-clamp(b). |
| Pixel.PassThroughExact | Src/ConvertFromFloat.cpp:100-120 | Without conversion, channels that are already bytes come out exactly as (r, g, b). |
| Pixel.ChannelsIndependent | Src/ConvertFromFloat.cpp:106-115 | Each output slot depends only on its own pre-rounding channel. Clamping one channel never changes another. |
| Pixel.Rec601BlackWhite | Src/ConvertFromFloat.cpp:95-120 | With conversion, black gives (16, 128, 128) and white (255, 255, 255) gives (235, 128, 128). |
| Pixel.Rec601StudioRange | Src/ConvertFromFloat.cpp:95-115 | With conversion, channels in [0, 255] give Y in [16, 235] and U, V in [16, 240]. |
| Pixel.Precision1IgnoresSource | Src/ConvertFromFloat.cpp:74-82 | For precision 1 the output does not depend on the bytes read; it is the kernel applied to the uninitialised half floats. |
| Drivers.PixelOutReads | Src/ConvertFromFloat.cpp:47 | The kernel output for source pixel (y, x), as both drivers call it (also :63), depends, for precision 2, on the six bytes at y·pitch + 8x and nothing else. For precision 1 it is the kernel on that pixel's uninitialised values. |
| Drivers.PlaneStep | Src/ConvertFromFloat.cpp:47 | Storing pixel (y, x) at byte y·pitch + x of a plane advances the planar loop state by one pixel and leaves every other byte as it was. |
| Drivers.PlaneNextRow | Src/ConvertFromFloat.cpp:49-52 | A completed row is the same loop state as the start of the next row once the pointers advance by their pitches. |
| Drivers.PlaneFinish | Src/ConvertFromFloat.cpp:45-53 | After all rows, the loop state is the full planar outcome. |
| Drivers.PlanarPixel | Src/ConvertFromFloat.cpp:47 | One loop body reads the pixel at s + (x << shift), runs the kernel and stores Y at ry + x and U, V at ruv + x. This advances all three planes by one pixel. |
| Drivers.ConvRowYV24 | Src/ConvertFromFloat.cpp:46-48 | One pass over x writes the whole of source row y into row y of each plane. |
| Drivers.ConvFloatToYV24 | Src/ConvertFromFloat.cpp:41-54 | Every sample (y, x) of each plane holds the corresponding kernel output for source row y, with no flip. The row padding and all bytes past the last row are unchanged. U and V use the shared pitch. |
| Drivers.PlaneWritesOnlySamples | Src/ConvertFromFloat.cpp:45-53 | Any plane byte that is not the index y·pitch + x of a sample of the frame keeps its previous value. |
| Drivers.ZeroRows | Src/ConvertFromFloat.cpp:58 | `ZeroMemory(dst, pitchDst * height)` zeroes exactly the first height·pitch bytes and keeps the rest. |
| Drivers.PackedStart | Src/ConvertFromFloat.cpp:58-59 | The zeroed buffer is the packed loop state before any pixel is written. |
| Drivers.GapsKept | Src/ConvertFromFloat.cpp:63 | Storing one of bytes 4x+2, 4x+1, 4x never touches an alpha byte or row padding. |
| Drivers.PackedStep | Src/ConvertFromFloat.cpp:62-63 | Storing pixel (y, x) at bytes 4x+2, 4x+1, 4x of destination row height-1-y advances the packed loop state and changes nothing else. |
| Drivers.PackPixel | Src/ConvertFromFloat.cpp:63 | One loop body reads the pixel at s + (x << shift) and stores outY, outU, outV at row + 4x + 2, + 1, + 0, advancing the packed loop state. |
| Drivers.ConvRowRGB32 | Src/ConvertFromFloat.cpp:61-64 | After the pointer steps back one pitch, one pass over x writes source row y into destination row height-1-y. |
| Drivers.PackedNextRow | Src/ConvertFromFloat.cpp:60-66 | A completed source row is the same packed loop state as the start of the next one. |
| Drivers.PackedFinish | Src/ConvertFromFloat.cpp:60-66 | After all rows, the packed loop state is the full packed outcome. |
| Drivers.ConvFloatToRGB32 | Src/ConvertFromFloat.cpp:56-67 | Source row y lands in destination row height-1-y, with outY, outU, outV at bytes 4x+2, 4x+1, 4x. Every alpha byte 4x+3 and all padding past 4·width are zero. Bytes past the first height rows are unchanged. |
| Drivers.PackedGapsAreZero | Src/ConvertFromFloat.cpp:58-63 | Within the first height rows, every byte that is not one of the three channel bytes of some pixel is zero. |
| Filter.GetFrame | Src/ConvertFromFloat.cpp:27-38 | A BGR32 converter yields a packed frame with the packed driver's outcome. Otherwise it yields a planar frame with the planar driver's outcome on all three planes, keeping the host's pitches. |
| Filter.SourceFrameSuffices | Src/ConvertFromFloat.cpp:13-20 | For a converter built from a BGR32 source, a source buffer of height rows, each at least 4·width bytes, contains every window the kernel reads for the derived output width and height. |

## Left out

- Half-float decoding (`D3DXFLOAT16` to `float`) is the parameter `half`, applied to a channel's two bytes in memory order. Its values are not modelled.
- Floating-point rounding is not modelled. The ×255 scale and the Rec.601 matrix use exact real arithmetic with the written coefficients, not their nearest `float`s.
- Pixel.ReadChannels: precision-1 values come from the parameter `stale(y, x)`. The source converts uninitialised half floats and discards the bytes it copied, so no meaning is given to them. What the model does fix for precision 1 is which bytes are read and where the outputs are stored.
- Pixel.Trunc: conversion of a value outside the `short` range is undefined in C++. The model truncates to an unbounded integer, which the clamp then saturates. NaN is not modelled.
- 32-bit overflow is not modelled: `x << precisionShift`, `pitchDst * height` and the pointer arithmetic are unbounded integers. Widths and heights are non-negative, as host frames are.
- Host plumbing is replaced by parameters and a frame value:
  - `child->GetFrame` and `env->NewVideoFrame`;
  - `GetReadPtr`, `GetWritePtr` and `GetPitch`;
  - `ThrowError` becomes a `Failure`.
  The frame number, the other fields of the host frame description and the empty destructor are not modelled.
- Only BGR32 and YV24 are named among the host's pixel types. Every other source type is `OtherType`.
- The source frame and the destination planes are separate sequences, so the model assumes they never alias each other. This holds for the host's frames, which are separate allocations.
- Concurrency is not modelled: the source processes rows sequentially.
