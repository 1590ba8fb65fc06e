/**
 `GetFrame`: the per-frame entry point. It asks the host for a destination
 frame described by the converter's output info and runs the driver that
 matches the output pixel type chosen at construction. The host's frame
 allocation and pointer/pitch queries are modelled by the frame passed in.
 */
module Filter {
  import opened Wrappers
  import opened Pixel
  import opened Layout
  import opened Config
  import opened Drivers

  /** A destination frame as the host hands it out: one packed plane, or Y, U, V planes with U and V sharing a pitch. */
  datatype Frame =
    | PackedFrame(data: seq<byte>, pitch: int)
    | PlanarFrame(y: seq<byte>, u: seq<byte>, v: seq<byte>, pitchY: int, pitchUV: int)

  /** A frame the host could return for the converter's output info: the right layout, with room for every row. */
  ghost predicate FrameFits(c: Converter, f: Frame)
  {
    var w, h := c.output.width, c.output.height;
    && (f.PackedFrame? <==> c.IsPacked())
    && (f.PackedFrame? ==> 4 * w <= f.pitch && h * f.pitch <= |f.data|)
    && (f.PlanarFrame? ==>
          && PlaneCovers(f.pitchY, w, h, |f.y|)
          && PlaneCovers(f.pitchUV, w, h, |f.u|)
          && PlaneCovers(f.pitchUV, w, h, |f.v|))
  }

  /** Converts one source frame into `blank`, using the driver selected at construction. */
  method GetFrame(c: Converter, src: seq<byte>, srcPitch: int, blank: Frame, dec: Decoding) returns (dst: Frame)
    requires SourceCovers(c.precision, src, srcPitch, c.output.width, c.output.height)
    requires FrameFits(c, blank)
    ensures dst.PackedFrame? <==> c.IsPacked()
    ensures dst.PackedFrame? ==>
              && blank.PackedFrame? && dst.pitch == blank.pitch
              && PackedResult(c, src, srcPitch, dec, blank.data, dst.data, dst.pitch, c.output.width, c.output.height)
    ensures dst.PlanarFrame? ==>
              && blank.PlanarFrame? && dst.pitchY == blank.pitchY && dst.pitchUV == blank.pitchUV
              && PlaneResult(c, src, srcPitch, dec, PlaneY, blank.y, dst.y, dst.pitchY, c.output.width, c.output.height)
              && PlaneResult(c, src, srcPitch, dec, PlaneU, blank.u, dst.u, dst.pitchUV, c.output.width, c.output.height)
              && PlaneResult(c, src, srcPitch, dec, PlaneV, blank.v, dst.v, dst.pitchUV, c.output.width, c.output.height)
  {
    if c.IsPacked() {
      var data := ConvFloatToRGB32(c, src, blank.data, srcPitch, blank.pitch,
                                   c.output.width, c.output.height, dec);
      dst := PackedFrame(data, blank.pitch);
    } else {
      var py, pu, pv := ConvFloatToYV24(c, src, blank.y, blank.u, blank.v, srcPitch, blank.pitchY, blank.pitchUV,
                                        c.output.width, c.output.height, dec);
      dst := PlanarFrame(py, pu, pv, blank.pitchY, blank.pitchUV);
    }
  }

  /**
   The derived geometry keeps every read inside the source frame: a BGR32
   source of `vi.width` four-byte pixels per row holds every window the
   kernel reads for the output width. For precision 2 this is where halving
   the width pays off, since each output pixel reads an 8-byte slot.
   */
  lemma SourceFrameSuffices(vi: VideoInfo, format: string, convertYuv: bool, precision: int, c: Converter,
                            src: seq<byte>, pitch: int)
    requires Create(vi, format, convertYuv, precision) == Success(c)
    requires 4 * vi.width <= pitch && vi.height * pitch <= |src|
    ensures SourceCovers(c.precision, src, pitch, c.output.width, c.output.height)
  {
    OutputGeometry(vi, format, convertYuv, precision);
    forall y: int, x: int | 0 <= y < c.output.height && 0 <= x < c.output.width
      ensures 0 <= PixelStart(c.precision, pitch, y, x)
      ensures PixelStart(c.precision, pitch, y, x) + 3 * c.precision <= |src|
    {
      PixelSlot(c.precision, x);
      assert PixelOffset(c.precision, x) + 3 * c.precision <= 4 * vi.width;
      AtInRows(pitch, vi.height, y, 0);
      RowsOrdered(pitch, y, vi.height);
    }
  }
}
