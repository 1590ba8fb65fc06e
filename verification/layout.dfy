/**
 Byte-offset arithmetic shared by the two scanline drivers: the left shift
 that locates a source pixel, and the `row * pitch + column` addressing of a
 buffer whose rows are `pitch` bytes apart.
 */
module Layout {
  import opened Pixel

  function Pow2(n: nat): (r: nat)
    ensures r >= 1
  {
    if n == 0 then 1 else 2 * Pow2(n - 1)
  }

  /** `x << s` on a non-negative value, one doubling per shifted bit. */
  function Shl(x: nat, s: nat): (r: nat)
    ensures r == x * Pow2(s)
  {
    if s == 0 then x else 2 * Shl(x, s - 1)
  }

  /** Byte offset of source pixel `x` within its row: `x << precisionShift`, with `precisionShift = p + 1`. */
  function PixelOffset(p: Precision, x: nat): nat
  {
    Shl(x, p + 1)
  }

  /** Byte index of source pixel `x` of row `y`. */
  function PixelStart(p: Precision, pitch: int, y: int, x: nat): int
  {
    y * pitch + PixelOffset(p, x)
  }

  /** Byte index of column `col` of row `row` in a buffer with the given pitch. */
  function At(pitch: int, row: int, col: int): int
  {
    row * pitch + col
  }

  /**
   A source pixel occupies `2^(p+1)` bytes: 4 for precision 1 and 8 for
   precision 2, not `3 * p`. The `3 * p` bytes the kernel reads fit inside
   that slot, so distinct pixels never share a byte.
   */
  lemma PixelSlot(p: Precision, x: nat)
    ensures PixelOffset(p, x) == (if p == 1 then 4 * x else 8 * x)
    ensures PixelOffset(p, x) + 3 * p <= PixelOffset(p, x + 1)
  {
    assert Pow2(p + 1) == (if p == 1 then 4 else 8);
  }

  /** The windows read for two different pixels of a row are disjoint, in column order. */
  lemma PixelWindowsDisjoint(p: Precision, x: nat, x': nat)
    requires x < x'
    ensures PixelOffset(p, x) + 3 * p <= PixelOffset(p, x')
  {
    PixelSlot(p, x);
    PixelSlot(p, x');
  }

  /** Rows before `row` end no later than `row` begins. */
  lemma RowsOrdered(pitch: int, r: int, row: int)
    requires 0 <= pitch && r < row
    ensures At(pitch, r, pitch) <= At(pitch, row, 0)
  {
    assert (row - r - 1) * pitch >= 0;
    assert row * pitch == r * pitch + pitch + (row - r - 1) * pitch;
  }

  /** Inside the columns `[0, pitch)`, a byte index names exactly one cell. */
  lemma AtInjective(pitch: int, r: int, c: int, r': int, c': int)
    requires 0 <= c < pitch && 0 <= c' < pitch
    requires At(pitch, r, c) == At(pitch, r', c')
    ensures r == r' && c == c'
  {
    if r < r' {
      RowsOrdered(pitch, r, r');
    } else if r' < r {
      RowsOrdered(pitch, r', r);
    }
  }

  /** Every cell other than `(row, col)` has a different byte index. */
  lemma AtSeparates(pitch: int, row: int, col: int)
    requires 0 <= col < pitch
    ensures forall r, c :: 0 <= c < pitch && (r != row || c != col) ==> At(pitch, r, c) != At(pitch, row, col)
  {
    forall r, c | 0 <= c < pitch && (r != row || c != col)
      ensures At(pitch, r, c) != At(pitch, row, col)
    {
      if At(pitch, r, c) == At(pitch, row, col) {
        AtInjective(pitch, r, c, row, col);
      }
    }
  }

  /** A cell of one of the first `height` rows lies inside the first `height * pitch` bytes. */
  lemma AtInRows(pitch: int, height: int, r: int, c: int)
    requires 0 <= r < height && 0 <= c < pitch
    ensures 0 <= At(pitch, r, c) < height * pitch
  {
    assert r * pitch >= 0;
    RowsOrdered(pitch, r, height);
  }

  /** Conversely, every byte of the first `height` rows is some cell: nothing lies between the cells. */
  lemma CellOf(pitch: int, height: int, i: int)
    requires 0 < pitch && 0 <= i < height * pitch
    ensures 0 <= i / pitch < height && 0 <= i % pitch < pitch
    ensures i == At(pitch, i / pitch, i % pitch)
  {
    if i / pitch >= height {
      RowsOrdered(pitch, height - 1, i / pitch);
      assert false;
    }
  }
}
