/**
 The filter's constructor: validates the source clip, the destination
 format name and the precision, then derives the destination frame
 description. The host's `ThrowError` becomes a `Failure` result carrying
 the first check that failed.
 */
module Config {
  import opened Wrappers
  import opened Pixel

  /** The host pixel types this core distinguishes; any other is `OtherType`. */
  datatype PixelType = BGR32 | YV24 | OtherType

  /** The part of the host's frame description the filter reads and writes. */
  datatype VideoInfo = VideoInfo(width: nat, height: nat, pixelType: PixelType)

  datatype ConfigError = SourceNotFloatRgb | UnknownFormat | BadPrecision

  /** The converter's immutable configuration, fixed at construction. */
  datatype Converter = Converter(source: VideoInfo, convertYuv: bool, precision: Precision, output: VideoInfo)
  {
    /** The shift that turns a pixel index into a source byte offset. */
    function PrecisionShift(): nat
    {
      precision + 1
    }

    /** True when frames are produced by the packed BGR32 driver. */
    predicate IsPacked()
    {
      output.pixelType == BGR32
    }
  }

  const FormatNames: set<string> := {"YV24", "YV12", "RGB32"}

  /** `part` occurs in `m` starting at position `i`. */
  ghost predicate OccursAt(m: string, part: string, i: int)
  {
    0 <= i <= |m| - |part| && m[i .. i + |part|] == part
  }

  /** `m` contains `part` as a contiguous piece. */
  ghost predicate Mentions(m: string, part: string)
  {
    exists i :: OccursAt(m, part, i)
  }

  /** A witness position for `Mentions`. */
  lemma Found(m: string, part: string, i: int)
    requires OccursAt(m, part, i)
    ensures Mentions(m, part)
  {
  }

  /** The message the host shows for each configuration error; each names what the failed check accepts. */
  function Message(e: ConfigError): (m: string)
    ensures e == SourceNotFloatRgb ==> Mentions(m, "RGB")
    ensures e == UnknownFormat ==> Mentions(m, "YV24") && Mentions(m, "YV12") && Mentions(m, "RGB32")
    ensures e == BadPrecision ==> Mentions(m, "1") && Mentions(m, "2")
  {
    match e
    case SourceNotFloatRgb =>
      SourceMessageNamesRgb();
      SourceMessage
    case UnknownFormat =>
      FormatMessageNamesFormats();
      FormatMessage
    case BadPrecision =>
      PrecisionMessageNamesValues();
      PrecisionMessage
  }

  const SourceMessage: string := "Source must be float-precision RGB"
  const FormatMessage: string := "Destination format must be YV24, YV12 or RGB32"
  const PrecisionMessage: string := "Precision must be 1 or 2"

  // The witness positions behind `Message`'s postconditions, one message each.

  lemma SourceMessageNamesRgb()
    ensures Mentions(SourceMessage, "RGB")
  {
    Found(SourceMessage, "RGB", 31);
  }

  lemma FormatMessageNamesFormats()
    ensures Mentions(FormatMessage, "YV24") && Mentions(FormatMessage, "YV12") && Mentions(FormatMessage, "RGB32")
  {
    Found(FormatMessage, "YV24", 27);
    Found(FormatMessage, "YV12", 33);
    Found(FormatMessage, "RGB32", 41);
  }

  lemma PrecisionMessageNamesValues()
    ensures Mentions(PrecisionMessage, "1") && Mentions(PrecisionMessage, "2")
  {
    Found(PrecisionMessage, "1", 18);
    Found(PrecisionMessage, "2", 23);
  }

  /** `>>= 1` on a non-negative width. */
  function HalveWidth(w: nat): (h: nat)
    ensures 2 * h <= w < 2 * h + 2
  {
    w / 2
  }

  /** The destination description: same height, BGR32 for "RGB32" and YV24 otherwise, width halved for precision 2. */
  function OutputInfo(vi: VideoInfo, format: string, precision: Precision): (o: VideoInfo)
    ensures o.height == vi.height
    ensures o.pixelType == BGR32 <==> format == "RGB32"
    ensures o.pixelType == YV24 <==> format != "RGB32"
    ensures precision == 1 ==> o.width == vi.width
    ensures precision == 2 ==> 2 * o.width <= vi.width < 2 * o.width + 2
  {
    var pixelType := if format == "RGB32" then BGR32 else YV24;
    var width := if precision == 2 then HalveWidth(vi.width) else vi.width;
    VideoInfo(width, vi.height, pixelType)
  }

  /** The constructor: the checks run in source order and the first failure is reported. */
  function Create(vi: VideoInfo, format: string, convertYuv: bool, precision: int): (r: Result<Converter, ConfigError>)
    ensures r.Success? <==> vi.pixelType == BGR32 && format in FormatNames && (precision == 1 || precision == 2)
    ensures vi.pixelType != BGR32 ==> r == Failure(SourceNotFloatRgb)
    ensures vi.pixelType == BGR32 && format !in FormatNames ==> r == Failure(UnknownFormat)
    ensures vi.pixelType == BGR32 && format in FormatNames && precision != 1 && precision != 2
            ==> r == Failure(BadPrecision)
    ensures r.Success? ==> r.value.source == vi && r.value.precision == precision
                           && r.value.convertYuv == convertYuv
                           && r.value.PrecisionShift() == precision + 1
  {
    if vi.pixelType != BGR32 then Failure(SourceNotFloatRgb)
    else if format != "YV24" && format != "YV12" && format != "RGB32" then Failure(UnknownFormat)
    else if precision != 1 && precision != 2 then Failure(BadPrecision)
    else Success(Converter(vi, convertYuv, precision, OutputInfo(vi, format, precision)))
  }

  /** "RGB32" selects packed BGR32; "YV24" and "YV12" both select planar YV24. */
  lemma FormatSelectsOutput(vi: VideoInfo, format: string, convertYuv: bool, precision: int)
    requires Create(vi, format, convertYuv, precision).Success?
    ensures var c := Create(vi, format, convertYuv, precision).value;
            (c.IsPacked() <==> format == "RGB32")
            && (c.output.pixelType == YV24 <==> format == "YV24" || format == "YV12")
  {
  }

  /** The height is kept; the width is kept for precision 1 and halved, rounding down, for precision 2. */
  lemma OutputGeometry(vi: VideoInfo, format: string, convertYuv: bool, precision: int)
    requires Create(vi, format, convertYuv, precision).Success?
    ensures var c := Create(vi, format, convertYuv, precision).value;
            c.output.height == vi.height
            && (precision == 1 ==> c.output.width == vi.width)
            && (precision == 2 ==> 2 * c.output.width <= vi.width < 2 * c.output.width + 2)
  {
  }

  /** "YV12" is accepted but behaves exactly like "YV24". */
  lemma Yv12IsYv24(vi: VideoInfo, convertYuv: bool, precision: int)
    ensures Create(vi, "YV12", convertYuv, precision) == Create(vi, "YV24", convertYuv, precision)
  {
  }
}
