/**
 The two scanline drivers, `convFloatToYV24` and `convFloatToRGB32`.

 Buffers are byte sequences and the source's moving pointers are indices
 into them. A driver returns the destination buffers it has written, so its
 contract can state the whole outcome: which byte every source pixel lands
 in, and which bytes keep their previous (or zeroed) content. The pitch
 sufficiency the code silently relies on appears as preconditions.
 */
module Drivers {
  import opened Pixel
  import opened Layout
  import opened Config

  /**
   The meaning of source pixels. `half` decodes one half float from its two
   bytes in memory order; `stale(y, x)` is what the uninitialised half floats
   hold when the precision-1 kernel runs for pixel `(y, x)`.
   */
  datatype Decoding = Decoding(half: (byte, byte) -> real, stale: (int, int) -> Rgb)

  /** Every window the kernel reads, `3 * p` bytes from each pixel start, lies inside the source buffer. */
  ghost predicate SourceCovers(p: Precision, src: seq<byte>, pitch: int, width: nat, height: nat)
  {
    forall y: int, x: int :: 0 <= y < height && 0 <= x < width ==>
      0 <= PixelStart(p, pitch, y, x) && PixelStart(p, pitch, y, x) + 3 * p <= |src|
  }

  /** What the kernel produces for source pixel `(y, x)`. */
  function PixelOut(c: Converter, src: seq<byte>, pitch: int, dec: Decoding, y: int, x: int): Sample
    requires 0 <= x
    requires 0 <= PixelStart(c.precision, pitch, y, x) && PixelStart(c.precision, pitch, y, x) + 3 * c.precision <= |src|
  {
    var start := PixelStart(c.precision, pitch, y, x);
    ConvFloat(c.precision, c.convertYuv, src[start .. start + 3 * c.precision], dec.half, dec.stale(y, x))
  }

  /**
   What `PixelOut` reads: for precision 2 the six bytes at `y * pitch + 8 * x`,
   for precision 1 nothing but the uninitialised values of that pixel.
   */
  lemma PixelOutReads(c: Converter, src: seq<byte>, pitch: int, dec: Decoding, y: int, x: int)
    requires 0 <= x
    requires 0 <= PixelStart(c.precision, pitch, y, x) && PixelStart(c.precision, pitch, y, x) + 3 * c.precision <= |src|
    ensures c.precision == 1 ==> PixelOut(c, src, pitch, dec, y, x) == Kernel(c.convertYuv, dec.stale(y, x))
    ensures c.precision == 2 ==>
              var b := At(pitch, y, 8 * x);
              0 <= b && b + 6 <= |src|
              && PixelOut(c, src, pitch, dec, y, x) == ConvFloat(2, c.convertYuv, src[b .. b + 6], dec.half, dec.stale(y, x))
  {
    PixelSlot(c.precision, x);
  }

  // ---------------------------------------------------------------------
  // Planar driver
  // ---------------------------------------------------------------------

  datatype Plane = PlaneY | PlaneU | PlaneV

  /** The kernel output stored in the given plane. */
  function Component(s: Sample, k: Plane): byte
  {
    match k
    case PlaneY => s.y
    case PlaneU => s.u
    case PlaneV => s.v
  }

  /** Rows of `width` samples, `pitch` bytes apart, fit in a plane of `len` bytes without overlapping. */
  ghost predicate PlaneCovers(pitch: int, width: nat, height: nat, len: nat)
  {
    && width <= pitch
    && forall y: int, x: int :: 0 <= y < height && 0 <= x < width ==> 0 <= At(pitch, y, x) < len
  }

  /**
   The outcome for one plane: sample `(y, x)` of the plane holds the kernel
   output for source pixel `(y, x)` (no vertical flip), while the row padding
   and every byte past the last row keep their previous value.
   */
  ghost predicate PlaneResult(c: Converter, src: seq<byte>, sp: int, dec: Decoding, k: Plane,
                              p0: seq<byte>, p: seq<byte>, pitch: int, width: nat, height: nat)
    requires SourceCovers(c.precision, src, sp, width, height)
  {
    && |p| == |p0|
    && (forall y: int, x: int :: 0 <= y < height && 0 <= x < width && 0 <= At(pitch, y, x) < |p| ==>
          p[At(pitch, y, x)] == Component(PixelOut(c, src, sp, dec, y, x), k))
    && (forall r: int, col: int :: 0 <= r < height && width <= col < pitch && 0 <= At(pitch, r, col) < |p| ==>
          p[At(pitch, r, col)] == p0[At(pitch, r, col)])
    && (forall i: int :: 0 <= i && height * pitch <= i < |p| ==> p[i] == p0[i])
  }

  /** The planar loop state after rows `[0, y)` and the first `x` samples of row `y` are written. */
  ghost predicate PlaneProgress(c: Converter, src: seq<byte>, sp: int, dec: Decoding, k: Plane,
                                p0: seq<byte>, p: seq<byte>, pitch: int, width: nat, height: nat, y: int, x: int)
    requires SourceCovers(c.precision, src, sp, width, height)
  {
    && |p| == |p0|
    && (forall r: int, col: int :: 0 <= r < height && 0 <= col < pitch && 0 <= At(pitch, r, col) < |p| ==>
          p[At(pitch, r, col)]
          == if col < width && (r < y || (r == y && col < x))
             then Component(PixelOut(c, src, sp, dec, r, col), k)
             else p0[At(pitch, r, col)])
    && (forall i: int :: 0 <= i && height * pitch <= i < |p| ==> p[i] == p0[i])
  }

  /** Writing sample `(y, x)` advances the planar loop state by one sample and disturbs nothing else. */
  lemma PlaneStep(c: Converter, src: seq<byte>, sp: int, dec: Decoding, k: Plane,
                  p0: seq<byte>, p: seq<byte>, pitch: int, width: nat, height: nat, y: int, x: int)
    requires SourceCovers(c.precision, src, sp, width, height)
    requires PlaneCovers(pitch, width, height, |p0|)
    requires 0 <= y < height && 0 <= x < width
    requires PlaneProgress(c, src, sp, dec, k, p0, p, pitch, width, height, y, x)
    ensures 0 <= At(pitch, y, x) < |p|
    ensures PlaneProgress(c, src, sp, dec, k, p0,
                          p[At(pitch, y, x) := Component(PixelOut(c, src, sp, dec, y, x), k)],
                          pitch, width, height, y, x + 1)
  {
    AtSeparates(pitch, y, x);
    AtInRows(pitch, height, y, x);
  }

  /** A fully written row is the same loop state as the start of the next row. */
  lemma PlaneNextRow(c: Converter, src: seq<byte>, sp: int, dec: Decoding, k: Plane,
                     p0: seq<byte>, p: seq<byte>, pitch: int, width: nat, height: nat, y: int)
    requires SourceCovers(c.precision, src, sp, width, height)
    requires PlaneProgress(c, src, sp, dec, k, p0, p, pitch, width, height, y, width)
    ensures PlaneProgress(c, src, sp, dec, k, p0, p, pitch, width, height, y + 1, 0)
  {
  }

  /** Once every row is written, the loop state is the planar outcome. */
  lemma PlaneFinish(c: Converter, src: seq<byte>, sp: int, dec: Decoding, k: Plane,
                    p0: seq<byte>, p: seq<byte>, pitch: int, width: nat, height: nat)
    requires SourceCovers(c.precision, src, sp, width, height)
    requires width <= pitch
    requires PlaneProgress(c, src, sp, dec, k, p0, p, pitch, width, height, height, 0)
    ensures PlaneResult(c, src, sp, dec, k, p0, p, pitch, width, height)
  {
  }

  /**
   The loop body of `convFloatToYV24`: run the kernel on source pixel
   `(y, x)`, which starts at `s + (x << precisionShift)`, and store its
   outputs at `ry + x` in the Y plane and `ruv + x` in the U and V planes.
   */
  method PlanarPixel(c: Converter, src: seq<byte>, pitch1: int, dec: Decoding,
                     ghost py0: seq<byte>, ghost pu0: seq<byte>, ghost pv0: seq<byte>,
                     py: seq<byte>, pu: seq<byte>, pv: seq<byte>,
                     pitch2Y: int, pitch2UV: int, width: nat, height: nat,
                     y: int, x: int, s: int, ry: int, ruv: int)
    returns (py': seq<byte>, pu': seq<byte>, pv': seq<byte>)
    requires SourceCovers(c.precision, src, pitch1, width, height)
    requires PlaneCovers(pitch2Y, width, height, |py0|)
    requires PlaneCovers(pitch2UV, width, height, |pu0|)
    requires PlaneCovers(pitch2UV, width, height, |pv0|)
    requires 0 <= y < height && 0 <= x < width
    requires s == y * pitch1 && ry == y * pitch2Y && ruv == y * pitch2UV
    requires PlaneProgress(c, src, pitch1, dec, PlaneY, py0, py, pitch2Y, width, height, y, x)
    requires PlaneProgress(c, src, pitch1, dec, PlaneU, pu0, pu, pitch2UV, width, height, y, x)
    requires PlaneProgress(c, src, pitch1, dec, PlaneV, pv0, pv, pitch2UV, width, height, y, x)
    ensures PlaneProgress(c, src, pitch1, dec, PlaneY, py0, py', pitch2Y, width, height, y, x + 1)
    ensures PlaneProgress(c, src, pitch1, dec, PlaneU, pu0, pu', pitch2UV, width, height, y, x + 1)
    ensures PlaneProgress(c, src, pitch1, dec, PlaneV, pv0, pv', pitch2UV, width, height, y, x + 1)
  {
    var start := s + PixelOffset(c.precision, x);
    assert start == PixelStart(c.precision, pitch1, y, x);
    var out := ConvFloat(c.precision, c.convertYuv, src[start .. start + 3 * c.precision], dec.half, dec.stale(y, x));
    assert out == PixelOut(c, src, pitch1, dec, y, x);
    PlaneStep(c, src, pitch1, dec, PlaneY, py0, py, pitch2Y, width, height, y, x);
    PlaneStep(c, src, pitch1, dec, PlaneU, pu0, pu, pitch2UV, width, height, y, x);
    PlaneStep(c, src, pitch1, dec, PlaneV, pv0, pv, pitch2UV, width, height, y, x);
    assert ry + x == At(pitch2Y, y, x) && ruv + x == At(pitch2UV, y, x);
    py' := py[ry + x := out.y];
    pu' := pu[ruv + x := out.u];
    pv' := pv[ruv + x := out.v];
  }

  /**
   One pass of the row loop of `convFloatToYV24`: the kernel runs for every
   pixel of source row `y`, whose start is `s`; `ry` and `ruv` are where the
   Y and the U/V plane pointers stand for this row.
   */
  method ConvRowYV24(c: Converter, src: seq<byte>, pitch1: int, dec: Decoding,
                     ghost py0: seq<byte>, ghost pu0: seq<byte>, ghost pv0: seq<byte>,
                     py: seq<byte>, pu: seq<byte>, pv: seq<byte>,
                     pitch2Y: int, pitch2UV: int, width: nat, height: nat, y: int, s: int, ry: int, ruv: int)
    returns (py': seq<byte>, pu': seq<byte>, pv': seq<byte>)
    requires SourceCovers(c.precision, src, pitch1, width, height)
    requires PlaneCovers(pitch2Y, width, height, |py0|)
    requires PlaneCovers(pitch2UV, width, height, |pu0|)
    requires PlaneCovers(pitch2UV, width, height, |pv0|)
    requires 0 <= y < height && s == y * pitch1 && ry == y * pitch2Y && ruv == y * pitch2UV
    requires PlaneProgress(c, src, pitch1, dec, PlaneY, py0, py, pitch2Y, width, height, y, 0)
    requires PlaneProgress(c, src, pitch1, dec, PlaneU, pu0, pu, pitch2UV, width, height, y, 0)
    requires PlaneProgress(c, src, pitch1, dec, PlaneV, pv0, pv, pitch2UV, width, height, y, 0)
    ensures PlaneProgress(c, src, pitch1, dec, PlaneY, py0, py', pitch2Y, width, height, y + 1, 0)
    ensures PlaneProgress(c, src, pitch1, dec, PlaneU, pu0, pu', pitch2UV, width, height, y + 1, 0)
    ensures PlaneProgress(c, src, pitch1, dec, PlaneV, pv0, pv', pitch2UV, width, height, y + 1, 0)
  {
    py', pu', pv' := py, pu, pv;
    for x := 0 to width
      invariant PlaneProgress(c, src, pitch1, dec, PlaneY, py0, py', pitch2Y, width, height, y, x)
      invariant PlaneProgress(c, src, pitch1, dec, PlaneU, pu0, pu', pitch2UV, width, height, y, x)
      invariant PlaneProgress(c, src, pitch1, dec, PlaneV, pv0, pv', pitch2UV, width, height, y, x)
    {
      py', pu', pv' := PlanarPixel(c, src, pitch1, dec, py0, pu0, pv0, py', pu', pv',
                                   pitch2Y, pitch2UV, width, height, y, x, s, ry, ruv);
    }
    PlaneNextRow(c, src, pitch1, dec, PlaneY, py0, py', pitch2Y, width, height, y);
    PlaneNextRow(c, src, pitch1, dec, PlaneU, pu0, pu', pitch2UV, width, height, y);
    PlaneNextRow(c, src, pitch1, dec, PlaneV, pv0, pv', pitch2UV, width, height, y);
  }

  /**
   `convFloatToYV24`: rows top to bottom; the kernel output for source pixel
   `(y, x)` goes to byte `x` of row `y` of each plane. U and V share one pitch.
   */
  method ConvFloatToYV24(c: Converter, src: seq<byte>, py0: seq<byte>, pu0: seq<byte>, pv0: seq<byte>,
                         pitch1: int, pitch2Y: int, pitch2UV: int, width: nat, height: nat, dec: Decoding)
    returns (py: seq<byte>, pu: seq<byte>, pv: seq<byte>)
    requires SourceCovers(c.precision, src, pitch1, width, height)
    requires PlaneCovers(pitch2Y, width, height, |py0|)
    requires PlaneCovers(pitch2UV, width, height, |pu0|)
    requires PlaneCovers(pitch2UV, width, height, |pv0|)
    ensures PlaneResult(c, src, pitch1, dec, PlaneY, py0, py, pitch2Y, width, height)
    ensures PlaneResult(c, src, pitch1, dec, PlaneU, pu0, pu, pitch2UV, width, height)
    ensures PlaneResult(c, src, pitch1, dec, PlaneV, pv0, pv, pitch2UV, width, height)
  {
    py, pu, pv := py0, pu0, pv0;
    var s, ry, ruv := 0, 0, 0;
    for y := 0 to height
      invariant s == y * pitch1 && ry == y * pitch2Y && ruv == y * pitch2UV
      invariant PlaneProgress(c, src, pitch1, dec, PlaneY, py0, py, pitch2Y, width, height, y, 0)
      invariant PlaneProgress(c, src, pitch1, dec, PlaneU, pu0, pu, pitch2UV, width, height, y, 0)
      invariant PlaneProgress(c, src, pitch1, dec, PlaneV, pv0, pv, pitch2UV, width, height, y, 0)
    {
      py, pu, pv := ConvRowYV24(c, src, pitch1, dec, py0, pu0, pv0, py, pu, pv,
                                pitch2Y, pitch2UV, width, height, y, s, ry, ruv);
      s, ry, ruv := s + pitch1, ry + pitch2Y, ruv + pitch2UV;
    }
    PlaneFinish(c, src, pitch1, dec, PlaneY, py0, py, pitch2Y, width, height);
    PlaneFinish(c, src, pitch1, dec, PlaneU, pu0, pu, pitch2UV, width, height);
    PlaneFinish(c, src, pitch1, dec, PlaneV, pv0, pv, pitch2UV, width, height);
  }

  // ---------------------------------------------------------------------
  // Packed driver
  // ---------------------------------------------------------------------

  /** The byte at offset `k` of a packed pixel: 2 holds outY, 1 outU and 0 outV. */
  function PackedSlot(s: Sample, k: int): byte
    requires 0 <= k <= 2
  {
    if k == 2 then s.y else if k == 1 then s.u else s.v
  }

  /** Byte `k` of pixel `x` in row `row` of a packed buffer. */
  function PackedIndex(pitch: int, row: int, x: int, k: int): int
  {
    At(pitch, row, 4 * x + k)
  }

  /**
   The packed outcome: source row `y` lands in destination row
   `height - 1 - y` (a vertical flip), pixel `x` in bytes `4x + 2`, `4x + 1`
   and `4x`; the fourth byte of each pixel and the row padding past
   `4 * width` are zero, and every byte past the first `height` rows keeps its
   previous value.
   */
  ghost predicate PackedResult(c: Converter, src: seq<byte>, sp: int, dec: Decoding,
                               d0: seq<byte>, d: seq<byte>, pitch: int, width: nat, height: nat)
    requires SourceCovers(c.precision, src, sp, width, height)
  {
    && |d| == |d0|
    && (forall y: int, x: int ::
          0 <= y < height && 0 <= x < width
          && 0 <= PackedIndex(pitch, height - 1 - y, x, 0) && PackedIndex(pitch, height - 1 - y, x, 2) < |d| ==>
            && d[PackedIndex(pitch, height - 1 - y, x, 2)] == PixelOut(c, src, sp, dec, y, x).y
            && d[PackedIndex(pitch, height - 1 - y, x, 1)] == PixelOut(c, src, sp, dec, y, x).u
            && d[PackedIndex(pitch, height - 1 - y, x, 0)] == PixelOut(c, src, sp, dec, y, x).v)
    && ZeroedGaps(d, pitch, width, height)
    && (forall i: int :: 0 <= i && height * pitch <= i < |d| ==> d[i] == d0[i])
  }

  /** The fourth byte of every pixel and the row padding past `4 * width` are zero. */
  ghost predicate ZeroedGaps(d: seq<byte>, pitch: int, width: nat, height: nat)
  {
    && (forall r: int, x: int :: 0 <= r < height && 0 <= x < width && 0 <= PackedIndex(pitch, r, x, 3) < |d| ==>
          d[PackedIndex(pitch, r, x, 3)] == 0)
    && (forall r: int, col: int :: 0 <= r < height && 4 * width <= col < pitch && 0 <= At(pitch, r, col) < |d| ==>
          d[At(pitch, r, col)] == 0)
  }

  /**
   The packed loop state after source rows `[0, y)` and the first `x` pixels
   of source row `y` are written over the zeroed buffer. Destination row `r`
   holds source row `height - 1 - r`.
   */
  ghost predicate PackedProgress(c: Converter, src: seq<byte>, sp: int, dec: Decoding,
                                 d0: seq<byte>, d: seq<byte>, pitch: int, width: nat, height: nat, y: int, x: int)
    requires SourceCovers(c.precision, src, sp, width, height)
  {
    && |d| == |d0|
    && (forall r: int, px: int, k: int ::
          0 <= r < height && 0 <= px < width && 0 <= k <= 2
          && 0 <= PackedIndex(pitch, r, px, k) < |d| ==>
            d[PackedIndex(pitch, r, px, k)]
            == if height - 1 - r < y || (height - 1 - r == y && px < x)
               then PackedSlot(PixelOut(c, src, sp, dec, height - 1 - r, px), k)
               else 0)
    && ZeroedGaps(d, pitch, width, height)
    && (forall i: int :: 0 <= i && height * pitch <= i < |d| ==> d[i] == d0[i])
  }

  /** `ZeroMemory(dst, pitch * height)`: the first `height` rows are cleared, the rest is kept. */
  function ZeroRows(d: seq<byte>, pitch: int, height: nat): (z: seq<byte>)
    requires 0 <= height * pitch <= |d|
    ensures |z| == |d|
    ensures forall i :: 0 <= i < height * pitch ==> z[i] == 0
    ensures forall i :: height * pitch <= i < |d| ==> z[i] == d[i]
  {
    seq(height * pitch, _ => 0) + d[height * pitch ..]
  }

  /** The zeroed buffer is the packed loop state before any pixel is written. */
  lemma PackedStart(c: Converter, src: seq<byte>, sp: int, dec: Decoding,
                    d0: seq<byte>, pitch: int, width: nat, height: nat)
    requires SourceCovers(c.precision, src, sp, width, height)
    requires 4 * width <= pitch && height * pitch <= |d0|
    ensures PackedProgress(c, src, sp, dec, d0, ZeroRows(d0, pitch, height), pitch, width, height, 0, 0)
  {
    forall r: int, col: int | 0 <= r < height && 0 <= col < pitch
      ensures 0 <= At(pitch, r, col) < height * pitch
    {
      AtInRows(pitch, height, r, col);
    }
  }

  /** Writing one of the first three bytes of a pixel keeps the alpha bytes and the padding zero. */
  lemma GapsKept(d: seq<byte>, pitch: int, width: nat, height: nat, r: int, x: int, k: int, v: byte)
    requires ZeroedGaps(d, pitch, width, height)
    requires 4 * width <= pitch && 0 <= r < height && 0 <= x < width && 0 <= k <= 2
    requires 0 <= PackedIndex(pitch, r, x, k) < |d|
    ensures ZeroedGaps(d[PackedIndex(pitch, r, x, k) := v], pitch, width, height)
  {
    AtSeparates(pitch, r, 4 * x + k);
  }

  /** Writing the three bytes of pixel `(y, x)` into destination row `height - 1 - y` advances the packed loop state. */
  lemma PackedStep(c: Converter, src: seq<byte>, sp: int, dec: Decoding,
                   d0: seq<byte>, d: seq<byte>, pitch: int, width: nat, height: nat, y: int, x: int)
    requires SourceCovers(c.precision, src, sp, width, height)
    requires 4 * width <= pitch && height * pitch <= |d0|
    requires 0 <= y < height && 0 <= x < width
    requires PackedProgress(c, src, sp, dec, d0, d, pitch, width, height, y, x)
    ensures 0 <= PackedIndex(pitch, height - 1 - y, x, 0) && PackedIndex(pitch, height - 1 - y, x, 2) < |d|
    ensures var s := PixelOut(c, src, sp, dec, y, x);
            var r := height - 1 - y;
            PackedProgress(c, src, sp, dec, d0,
                           d[PackedIndex(pitch, r, x, 2) := s.y][PackedIndex(pitch, r, x, 1) := s.u][PackedIndex(pitch, r, x, 0) := s.v],
                           pitch, width, height, y, x + 1)
  {
    var r := height - 1 - y;
    var s := PixelOut(c, src, sp, dec, y, x);
    AtInRows(pitch, height, r, 4 * x);
    AtInRows(pitch, height, r, 4 * x + 2);
    var d1 := d[PackedIndex(pitch, r, x, 2) := s.y];
    var d2 := d1[PackedIndex(pitch, r, x, 1) := s.u];
    GapsKept(d, pitch, width, height, r, x, 2, s.y);
    GapsKept(d1, pitch, width, height, r, x, 1, s.u);
    GapsKept(d2, pitch, width, height, r, x, 0, s.v);
    AtSeparates(pitch, r, 4 * x + 2);
    AtSeparates(pitch, r, 4 * x + 1);
    AtSeparates(pitch, r, 4 * x);
  }

  /** A fully written source row is the same packed state as the start of the next one. */
  lemma PackedNextRow(c: Converter, src: seq<byte>, sp: int, dec: Decoding,
                      d0: seq<byte>, d: seq<byte>, pitch: int, width: nat, height: nat, y: int)
    requires SourceCovers(c.precision, src, sp, width, height)
    requires PackedProgress(c, src, sp, dec, d0, d, pitch, width, height, y, width)
    ensures PackedProgress(c, src, sp, dec, d0, d, pitch, width, height, y + 1, 0)
  {
  }

  /** Once every source row is written, the loop state is the packed outcome. */
  lemma PackedFinish(c: Converter, src: seq<byte>, sp: int, dec: Decoding,
                     d0: seq<byte>, d: seq<byte>, pitch: int, width: nat, height: nat)
    requires SourceCovers(c.precision, src, sp, width, height)
    requires 4 * width <= pitch
    requires PackedProgress(c, src, sp, dec, d0, d, pitch, width, height, height, 0)
    ensures PackedResult(c, src, sp, dec, d0, d, pitch, width, height)
  {
  }

  /**
   The loop body of `convFloatToRGB32`: run the kernel on source pixel
   `(y, x)`, which starts at `s + (x << precisionShift)`, and store its three
   outputs at `row + 4x + 2`, `row + 4x + 1` and `row + 4x`.
   */
  method PackPixel(c: Converter, src: seq<byte>, pitchSrc: int, dec: Decoding,
                   ghost dst0: seq<byte>, dst: seq<byte>, pitchDst: int, width: nat, height: nat,
                   y: int, x: int, s: int, row: int)
    returns (dst': seq<byte>)
    requires SourceCovers(c.precision, src, pitchSrc, width, height)
    requires 4 * width <= pitchDst && height * pitchDst <= |dst0|
    requires 0 <= y < height && 0 <= x < width && s == y * pitchSrc && row == (height - 1 - y) * pitchDst
    requires PackedProgress(c, src, pitchSrc, dec, dst0, dst, pitchDst, width, height, y, x)
    ensures PackedProgress(c, src, pitchSrc, dec, dst0, dst', pitchDst, width, height, y, x + 1)
  {
    var start := s + PixelOffset(c.precision, x);
    assert start == PixelStart(c.precision, pitchSrc, y, x);
    var out := ConvFloat(c.precision, c.convertYuv, src[start .. start + 3 * c.precision], dec.half, dec.stale(y, x));
    assert out == PixelOut(c, src, pitchSrc, dec, y, x);
    PackedStep(c, src, pitchSrc, dec, dst0, dst, pitchDst, width, height, y, x);
    assert row + 4 * x == PackedIndex(pitchDst, height - 1 - y, x, 0);
    dst' := dst[row + 4 * x + 2 := out.y][row + 4 * x + 1 := out.u][row + 4 * x := out.v];
  }

  /**
   One pass of the row loop of `convFloatToRGB32`, after the destination
   pointer has stepped back one pitch to `row`, the start of destination row
   `height - 1 - y`; `s` is the start of source row `y`.
   */
  method ConvRowRGB32(c: Converter, src: seq<byte>, pitchSrc: int, dec: Decoding,
                      ghost dst0: seq<byte>, dst: seq<byte>, pitchDst: int, width: nat, height: nat,
                      y: int, s: int, row: int)
    returns (dst': seq<byte>)
    requires SourceCovers(c.precision, src, pitchSrc, width, height)
    requires 4 * width <= pitchDst && height * pitchDst <= |dst0|
    requires 0 <= y < height && s == y * pitchSrc && row == (height - 1 - y) * pitchDst
    requires PackedProgress(c, src, pitchSrc, dec, dst0, dst, pitchDst, width, height, y, 0)
    ensures PackedProgress(c, src, pitchSrc, dec, dst0, dst', pitchDst, width, height, y + 1, 0)
  {
    dst' := dst;
    for x := 0 to width
      invariant PackedProgress(c, src, pitchSrc, dec, dst0, dst', pitchDst, width, height, y, x)
    {
      dst' := PackPixel(c, src, pitchSrc, dec, dst0, dst', pitchDst, width, height, y, x, s, row);
    }
    PackedNextRow(c, src, pitchSrc, dec, dst0, dst', pitchDst, width, height, y);
  }

  /**
   `convFloatToRGB32`: zero `pitchDst * height` bytes, then walk the
   destination row index down from the end of the buffer by one pitch per
   source row while the source advances top to bottom.
   */
  method ConvFloatToRGB32(c: Converter, src: seq<byte>, dst0: seq<byte>,
                          pitchSrc: int, pitchDst: int, width: nat, height: nat, dec: Decoding)
    returns (dst: seq<byte>)
    requires SourceCovers(c.precision, src, pitchSrc, width, height)
    requires 4 * width <= pitchDst
    requires height * pitchDst <= |dst0|
    ensures PackedResult(c, src, pitchSrc, dec, dst0, dst, pitchDst, width, height)
  {
    dst := ZeroRows(dst0, pitchDst, height);
    PackedStart(c, src, pitchSrc, dec, dst0, pitchDst, width, height);
    var row := height * pitchDst;
    var s := 0;
    for y := 0 to height
      invariant s == y * pitchSrc && row == (height - y) * pitchDst
      invariant PackedProgress(c, src, pitchSrc, dec, dst0, dst, pitchDst, width, height, y, 0)
    {
      row := row - pitchDst;
      assert row == (height - 1 - y) * pitchDst;
      dst := ConvRowRGB32(c, src, pitchSrc, dec, dst0, dst, pitchDst, width, height, y, s, row);
      s := s + pitchSrc;
    }
    PackedFinish(c, src, pitchSrc, dec, dst0, dst, pitchDst, width, height);
  }

  // ---------------------------------------------------------------------
  // The outcomes restated byte by byte
  // ---------------------------------------------------------------------

  /** The planar driver writes no byte of a plane other than the samples of the frame. */
  lemma PlaneWritesOnlySamples(c: Converter, src: seq<byte>, sp: int, dec: Decoding, k: Plane,
                               p0: seq<byte>, p: seq<byte>, pitch: int, width: nat, height: nat, i: int)
    requires SourceCovers(c.precision, src, sp, width, height)
    requires PlaneResult(c, src, sp, dec, k, p0, p, pitch, width, height)
    requires width <= pitch && 0 <= i < |p|
    requires !exists y: int, x: int :: 0 <= y < height && 0 <= x < width && i == At(pitch, y, x)
    ensures p[i] == p0[i]
  {
    if 0 < pitch && i < height * pitch {
      CellOf(pitch, height, i);
      var r, col := i / pitch, i % pitch;
      assert i == At(pitch, r, col);
      if col < width {
        assert false;
      }
    }
  }

  /** Every byte of the first `height` packed rows that is not a channel byte of some pixel is zero. */
  lemma PackedGapsAreZero(c: Converter, src: seq<byte>, sp: int, dec: Decoding,
                          d0: seq<byte>, d: seq<byte>, pitch: int, width: nat, height: nat, i: int)
    requires SourceCovers(c.precision, src, sp, width, height)
    requires PackedResult(c, src, sp, dec, d0, d, pitch, width, height)
    requires 4 * width <= pitch && height * pitch <= |d| && 0 <= i < height * pitch
    requires !exists r: int, x: int, k: int ::
               0 <= r < height && 0 <= x < width && 0 <= k <= 2 && i == PackedIndex(pitch, r, x, k)
    ensures d[i] == 0
  {
    CellOf(pitch, height, i);
    var r, col := i / pitch, i % pitch;
    if col < 4 * width {
      var x, k := col / 4, col % 4;
      assert i == PackedIndex(pitch, r, x, k);
      if k != 3 {
        assert false;
      }
    }
  }
}
