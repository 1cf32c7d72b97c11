/**
 * The symbol encoding of a target point: its horizontal coordinate, scaled by
 * 25 / width and offset by 64, becomes a character code, the fraction being
 * dropped. The frame is thereby cut into bins a 25th of its width wide; bin 0
 * encodes '@' (64), the left edge of bin 25 (the right edge of the frame) 'Y' (89).
 */
module Encoding {
  import opened Gates

  /**
   * The character code the scripts compute for a horizontal coordinate `x`:
   * scaled by 25 / width, offset by 64 ('@') and truncated toward zero. It is
   * '@' or above exactly for targets at or right of the frame's left edge.
   */
  function Code(x: real, width: int): (r: int)
    requires width > 0
    ensures 0.0 <= x <==> '@' as int <= r
  {
    var k := 25.0 / width as real;
    ScaleFactor(width);
    if 0.0 <= x then
      ScaledNonNegative(x, k);
      Trunc(x * k + 64.0)
    else
      ScaledBelow(x, 0.0, k, 0.0);
      Trunc(x * k + 64.0)
  }

  /** The left edge of the bin whose character code is `c`. */
  function BinStart(c: int, width: int): real
    requires width > 0
  {
    (c - 64) as real * width as real / 25.0
  }

  /** Codes for which the script can produce and send a character. */
  predicate IsCharCode(n: int)
  {
    0 <= n < 0xD800 || 0xE000 <= n < 0x11_0000
  }

  /**
   * The character with code `n`; None where the script fails instead: Python's
   * chr rejects codes outside 0..0x10FFFF, and a lone surrogate cannot be
   * encoded for sending or printing.
   */
  function Chr(n: int): (r: Option<char>)
    ensures r.Some? <==> IsCharCode(n)
    ensures r.Some? ==> r.value as int == n
  {
    if IsCharCode(n) then Some(n as char) else None
  }

  /** The scale factor 25 / width is positive, and undone by width and by width / 25. */
  lemma ScaleFactor(width: int)
    requires width > 0
    ensures 0.0 < 25.0 / width as real
    ensures width as real * (25.0 / width as real) == 25.0
    ensures (width as real / 25.0) * (25.0 / width as real) == 1.0
    ensures (25.0 / width as real) * (width as real / 25.0) == 1.0
  {
  }

  /** Scaling a non-negative number by a positive factor keeps it non-negative. */
  lemma ScaledNonNegative(x: real, k: real)
    requires 0.0 <= x && 0.0 < k
    ensures 0.0 <= x * k
  {
  }

  /** Below a number that scales to `p`, scaling stays at or below `p`, strictly below if strictly below. */
  lemma ScaledBelow(x1: real, x2: real, k: real, p: real)
    requires x1 <= x2 && 0.0 < k && x2 * k == p
    ensures x1 * k <= p
    ensures x1 < x2 ==> x1 * k < p
  {
  }

  /** Above a number that scales to `p`, scaling stays strictly above `p`. */
  lemma ScaledAbove(x1: real, x2: real, k: real, p: real)
    requires x1 < x2 && 0.0 < k && x1 * k == p
    ensures p < x2 * k
  {
  }

  /** Scaling by `k` and then by its inverse `j` gives the number back. */
  lemma ScaledBack(x: real, k: real, j: real)
    requires k * j == 1.0
    ensures x * k * j == x
  {
  }

  /** A coordinate in [0, w] scales by k = 25 / w into [0, 25], and one left of w below 25. */
  lemma ScaledInFrame(x: real, w: real, k: real)
    requires 0.0 < k && w * k == 25.0 && 0.0 <= x <= w
    ensures 0.0 <= x * k <= 25.0
    ensures x < w ==> x * k < 25.0
  {
    ScaledNonNegative(x, k);
    ScaledBelow(x, w, k, 25.0);
  }

  /** The code of a coordinate is the truncation of its scaled value plus the base. */
  lemma CodeOfScaled(x: real, width: int)
    requires width > 0
    ensures Code(x, width) == Trunc(x * (25.0 / width as real) + 64.0)
  {
  }

  /** Moving the target to the right never lowers its code. */
  lemma CodeMonotone(x1: real, x2: real, width: int)
    requires width > 0 && x1 <= x2
    ensures Code(x1, width) <= Code(x2, width)
  {
    var k := 25.0 / width as real;
    ScaleFactor(width);
    ScaleMonotone(x1, x2, k);
    TruncMonotone(x1 * k + 64.0, x2 * k + 64.0);
  }

  /**
   * A target inside the frame encodes '@' to 'X'; one on the frame's right
   * edge encodes 'Y'. No target in or on the frame encodes 'Z'.
   */
  lemma CodeInFrame(x: real, width: int)
    requires width > 0 && 0.0 <= x <= width as real
    ensures x < width as real ==> '@' as int <= Code(x, width) <= 'X' as int
    ensures x == width as real ==> Code(x, width) == 'Y' as int
    ensures Code(x, width) != 'Z' as int
  {
    var w, k := width as real, 25.0 / width as real;
    ScaleFactor(width);
    ScaledInFrame(x, w, k);
    if x == w {
      assert x * k == w * k;
    }
    CodeOfScaled(x, width);
  }

  /**
   * The code identifies the bin the target lies in: the target is at or right
   * of the bin's left edge and left of the next bin's.
   */
  lemma CodeFindsBin(x: real, width: int)
    requires width > 0 && 0.0 <= x
    ensures BinStart(Code(x, width), width) <= x < BinStart(Code(x, width) + 1, width)
  {
    var w, k, j := width as real, 25.0 / width as real, width as real / 25.0;
    var c := Code(x, width);
    var b := (c - 64) as real;
    var u := x * k;
    ScaleFactor(width);
    ScaledNonNegative(x, k);
    CodeOfScaled(x, width);
    assert b <= u < b + 1.0;
    ScaledBack(x, k, j);
    assert 0.0 < j;
    ScaledBelow(b, u, j, x);
    ScaledAbove(u, b + 1.0, j, x);
    assert BinStart(c, width) == b * j;
    assert BinStart(c + 1, width) == (b + 1.0) * j;
  }

  /**
   * Every target in the leftmost 25th of the frame encodes '@', the same
   * character the start-and-stop pair sends to end the session.
   */
  lemma LeftmostBinIsAt(x: real, width: int)
    requires width > 0 && 0.0 <= x < width as real / 25.0
    ensures Chr(Code(x, width)) == Some('@')
  {
    var k, j := 25.0 / width as real, width as real / 25.0;
    ScaleFactor(width);
    ScaledNonNegative(x, k);
    ScaledBelow(x, j, k, 1.0);
    CodeOfScaled(x, width);
    var r := x * k + 64.0;
    assert 64.0 <= r < 65.0;
    var t := Trunc(r);
    assert t == 64;
    assert Code(x, width) == t;
    assert Chr(64) == Some('@');
  }
}
