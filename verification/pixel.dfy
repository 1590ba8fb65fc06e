/**
 The per-pixel kernel of the float-to-8-bit converter (`convFloat`).

 The floating-point front end is idealised over `real`: half-float decoding
 is a parameter, the 255 scale and the Rec.601 matrix are exact real
 arithmetic. What is modelled exactly is the integer tail: round by adding
 one half and truncating toward zero, then clamp each channel to [0, 255].
 */
module Pixel {

  type byte = n: int | 0 <= n < 256

  /** Bytes per source channel; the constructor admits only 1 and 2. */
  type Precision = p: int | p == 1 || p == 2 witness 1

  /** The float channel values `r`, `g`, `b` after scaling. */
  datatype Rgb = Rgb(r: real, g: real, b: real)

  /** The pre-rounding values `y2`, `u2`, `v2`. */
  datatype Channels = Channels(y: real, u: real, v: real)

  /** The three bytes stored through `outY`, `outU` and `outV`. */
  datatype Sample = Sample(y: byte, u: byte, v: byte)

  /** C++ conversion of a float to `short`: truncation toward zero. */
  function Trunc(v: real): (n: int)
    ensures 0.0 <= v ==> n as real <= v < n as real + 1.0
    ensures v < 0.0 ==> n as real - 1.0 < v <= n as real
    ensures -1.0 < v < 1.0 ==> n == 0
  {
    if v >= 0.0 then v.Floor else -((-v).Floor)
  }

  /** The saturation applied to each `short`: above 255 first, then below 0. */
  function Clamp(n: int): (b: byte)
    ensures 0 <= n <= 255 ==> b == n
    ensures 255 < n ==> b == 255
    ensures n < 0 ==> b == 0
  {
    var hi := if n > 255 then 255 else n;
    if hi < 0 then 0 else hi
  }

  /**
   `b` is the byte nearest to `v`, a half rounding up, with everything below
   0.5 saturating to 0 and everything from 254.5 up saturating to 255.
   */
  ghost predicate NearestByte(v: real, b: byte)
  {
    if v < 0.5 then b == 0
    else if 254.5 <= v then b == 255
    else b as real - 0.5 <= v < b as real + 0.5
  }

  /** One channel of the tail: `short(v + 0.5)` clamped to [0, 255]. */
  function RoundClamp(v: real): (b: byte)
    ensures v < 0.5 ==> b == 0
    ensures 254.5 <= v ==> b == 255
    ensures 0.5 <= v < 254.5 ==> b as real - 0.5 <= v < b as real + 0.5
  {
    Clamp(Trunc(v + 0.5))
  }

  /** The Rec.601 matrix with the source's assignment of rows to `y2`, `v2`, `u2`. */
  function Rec601(c: Rgb): (t: Channels)
    ensures c.r == c.g == c.b ==> t == Channels(0.859 * c.r + 16.0, 128.0, 128.0)
    ensures 0.0 <= c.r <= 255.0 && 0.0 <= c.g <= 255.0 && 0.0 <= c.b <= 255.0 ==>
              16.0 <= t.y <= 235.045 && 16.055 <= t.u <= 239.945 && 16.055 <= t.v <= 239.945
  {
    Channels(
      0.257 * c.r + 0.504 * c.g + 0.098 * c.b + 16.0,
      -(0.148 * c.r) - 0.291 * c.g + 0.439 * c.b + 128.0,
      0.439 * c.r - 0.368 * c.g - 0.071 * c.b + 128.0)
  }

  /** With `convertYuv` the matrix; otherwise `y2 = r`, `u2 = g`, `v2 = b`. */
  function Transform(convertYuv: bool, c: Rgb): (t: Channels)
    ensures !convertYuv ==> t.y == c.r && t.u == c.g && t.v == c.b
    ensures 0.0 <= c.r <= 255.0 && 0.0 <= c.g <= 255.0 && 0.0 <= c.b <= 255.0 ==>
              0.0 <= t.y <= 255.0 && 0.0 <= t.u <= 255.0 && 0.0 <= t.v <= 255.0
  {
    if convertYuv then Rec601(c) else Channels(c.r, c.g, c.b)
  }

  /** Rounds and clamps each transformed channel on its own. */
  function Kernel(convertYuv: bool, c: Rgb): Sample
  {
    var t := Transform(convertYuv, c);
    Sample(RoundClamp(t.y), RoundClamp(t.u), RoundClamp(t.v))
  }

  /** The memory image of three half floats stored r, g, b in that order, each as its two bytes. */
  function HalfTriple(r: (byte, byte), g: (byte, byte), b: (byte, byte)): (w: seq<byte>)
    ensures |w| == 6
  {
    [r.0, r.1, g.0, g.1, b.0, b.1]
  }

  /**
   The channel values `convFloat` converts, given the `3 * p` bytes it reads
   at the pixel start. For precision 2 three two-byte half floats are read:
   r at offset 0, g at 2 and b at 4, each decoded by `half` (given the two
   bytes in memory order) and scaled by 255. For precision 1 the bytes are
   copied into variables that are never used, and the channels come from
   uninitialised half floats: `stale` stands for whatever those hold.
   */
  function ReadChannels(p: Precision, window: seq<byte>, half: (byte, byte) -> real, stale: Rgb): Rgb
    requires |window| == 3 * p
  {
    if p == 1 then stale
    else Rgb(half(window[0], window[1]) * 255.0,
             half(window[2], window[3]) * 255.0,
             half(window[4], window[5]) * 255.0)
  }

  /** The whole kernel: read, transform, round and clamp. */
  function ConvFloat(p: Precision, convertYuv: bool, window: seq<byte>,
                     half: (byte, byte) -> real, stale: Rgb): Sample
    requires |window| == 3 * p
  {
    Kernel(convertYuv, ReadChannels(p, window, half, stale))
  }

  // ---------------------------------------------------------------------
  // Properties of the rounding and clamping tail
  // ---------------------------------------------------------------------

  /** A value that is already a byte comes back unchanged. */
  lemma RoundClampFixesBytes(n: byte)
    ensures RoundClamp(n as real) == n
  {
    var b := RoundClamp(n as real);
    if 0 < n < 255 {
      assert b as real - 0.5 <= n as real < b as real + 0.5;
    }
  }

  /** Rounding and clamping never reverses the order of two values. */
  lemma RoundClampMonotone(a: real, b: real)
    requires a <= b
    ensures RoundClamp(a) <= RoundClamp(b)
  {
  }

  /** Halves round up and everything past the ends saturates. */
  lemma RoundClampCases()
    ensures RoundClamp(254.5) == 255 && RoundClamp(0.4) == 0
    ensures RoundClamp(300.0) == 255 && RoundClamp(-3.0) == 0
    ensures RoundClamp(127.5) == 128 && RoundClamp(127.49) == 127
  {
  }

  /** `NearestByte` pins its byte: two bytes nearest to the same value are equal. */
  lemma NearestByteUnique(v: real, a: byte, b: byte)
    requires NearestByte(v, a) && NearestByte(v, b)
    ensures a == b
  {
    if 0.5 <= v < 254.5 {
      assert (a as real) < (b as real) + 1.0 && (b as real) < (a as real) + 1.0;
    }
  }

  /** Every six-byte window is the image of some three half floats, so `ReadChannels` is pinned for precision 2. */
  lemma WindowIsHalfTriple(w: seq<byte>)
    requires |w| == 6
    ensures w == HalfTriple((w[0], w[1]), (w[2], w[3]), (w[4], w[5]))
  {
  }

  // ---------------------------------------------------------------------
  // Properties of the kernel
  // ---------------------------------------------------------------------

  /** Each stored byte is the byte nearest to its transformed channel, halves rounding up, saturating at 0 and 255. */
  lemma KernelRounds(convertYuv: bool, c: Rgb)
    ensures NearestByte(Transform(convertYuv, c).y, Kernel(convertYuv, c).y)
    ensures NearestByte(Transform(convertYuv, c).u, Kernel(convertYuv, c).u)
    ensures NearestByte(Transform(convertYuv, c).v, Kernel(convertYuv, c).v)
  {
  }

  /**
   The memory layout `ReadChannels` decodes: for precision 2 the window holds
   the half floats of r, g and b in that order, and each is scaled by 255;
   for precision 1 the window is not used.
   */
  lemma ReadChannelsLayout(p: Precision, r: (byte, byte), g: (byte, byte), b: (byte, byte),
                           window: seq<byte>, half: (byte, byte) -> real, stale: Rgb)
    requires |window| == 3 * p
    ensures p == 1 ==> ReadChannels(p, window, half, stale) == stale
    ensures p == 2 && window == HalfTriple(r, g, b) ==>
              ReadChannels(p, window, half, stale) == Rgb(255.0 * half(r.0, r.1), 255.0 * half(g.0, g.1), 255.0 * half(b.0, b.1))
  {
  }

  /**
   The whole kernel on the image of three half floats stored r, g, b: each is
   decoded, scaled by 255, transformed, rounded and clamped. For precision 1
   the result is the kernel on the uninitialised values whatever was read.
   */
  lemma ConvFloatReads(p: Precision, convertYuv: bool, r: (byte, byte), g: (byte, byte), b: (byte, byte),
                       window: seq<byte>, half: (byte, byte) -> real, stale: Rgb)
    requires |window| == 3 * p
    ensures p == 1 ==> ConvFloat(p, convertYuv, window, half, stale) == Kernel(convertYuv, stale)
    ensures p == 2 && window == HalfTriple(r, g, b) ==>
              ConvFloat(p, convertYuv, window, half, stale)
              == Kernel(convertYuv, Rgb(255.0 * half(r.0, r.1), 255.0 * half(g.0, g.1), 255.0 * half(b.0, b.1)))
  {
    ReadChannelsLayout(p, r, g, b, window, half, stale);
  }

  /**
   Pass-through stores r, g, b in the Y, U, V slots, each rounded and clamped
   on its own. This follows by unfolding `Kernel` and `Transform`; it is kept
   to spell out the slot assignment.
   */
  lemma PassThroughSlots(c: Rgb)
    ensures Kernel(false, c).y == RoundClamp(c.r)
    ensures Kernel(false, c).u == RoundClamp(c.g)
    ensures Kernel(false, c).v == RoundClamp(c.b)
  {
  }

  /** Pass-through of channels that are already bytes is the identity. */
  lemma PassThroughExact(r: byte, g: byte, b: byte)
    ensures Kernel(false, Rgb(r as real, g as real, b as real)) == Sample(r, g, b)
  {
    RoundClampFixesBytes(r);
    RoundClampFixesBytes(g);
    RoundClampFixesBytes(b);
  }

  /**
   Each output slot depends on its own transformed channel only, so one
   saturating channel leaves the others alone. This follows by unfolding
   `Kernel`; it is kept to spell out the independence.
   */
  lemma ChannelsIndependent(cvt: bool, c: Rgb, d: Rgb)
    ensures Transform(cvt, c).y == Transform(cvt, d).y ==> Kernel(cvt, c).y == Kernel(cvt, d).y
    ensures Transform(cvt, c).u == Transform(cvt, d).u ==> Kernel(cvt, c).u == Kernel(cvt, d).u
    ensures Transform(cvt, c).v == Transform(cvt, d).v ==> Kernel(cvt, c).v == Kernel(cvt, d).v
  {
  }

  /** Reference values: black maps to (16, 128, 128) and white to (235, 128, 128). */
  lemma Rec601BlackWhite()
    ensures Kernel(true, Rgb(0.0, 0.0, 0.0)) == Sample(16, 128, 128)
    ensures Kernel(true, Rgb(255.0, 255.0, 255.0)) == Sample(235, 128, 128)
  {
  }

  /** Display-range input yields studio-range output: Y in [16, 235], U and V in [16, 240]. */
  lemma Rec601StudioRange(c: Rgb)
    requires 0.0 <= c.r <= 255.0 && 0.0 <= c.g <= 255.0 && 0.0 <= c.b <= 255.0
    ensures 16 <= Kernel(true, c).y <= 235
    ensures 16 <= Kernel(true, c).u <= 240
    ensures 16 <= Kernel(true, c).v <= 240
  {
    var t := Rec601(c);
    RoundClampMonotone(16.0, t.y);
    RoundClampMonotone(t.y, 235.045);
    RoundClampMonotone(16.055, t.u);
    RoundClampMonotone(t.u, 239.945);
    RoundClampMonotone(16.055, t.v);
    RoundClampMonotone(t.v, 239.945);
  }

  /** Precision 1 discards the bytes it copies: the result does not depend on the source bytes at all. */
  lemma Precision1IgnoresSource(cvt: bool, w: seq<byte>, w': seq<byte>, half: (byte, byte) -> real, stale: Rgb)
    requires |w| == 3 && |w'| == 3
    ensures ConvFloat(1, cvt, w, half, stale) == ConvFloat(1, cvt, w', half, stale)
    ensures ConvFloat(1, cvt, w, half, stale) == Kernel(cvt, stale)
  {
  }
}
