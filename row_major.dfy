/** Row-major numbering of the cells of a grid, shared by the pixel buffer of
    an image and the per-framebuffer ranges of descriptor-set slots. */
module RowMajorIndex {
  /** The index of the cell in row y, column x of a grid `width` cells wide. */
  function RowMajor(width: nat, y: nat, x: nat): nat {
    y * width + x
  }

  /** Cell (y, x) of a width-by-height grid has an index below width*height. */
  lemma RowMajorBelow(width: nat, height: nat, y: nat, x: nat)
    requires y < height && x < width
    ensures RowMajor(width, y, x) < width * height
  {
    assert y * width + x < y * width + width == (y + 1) * width;
    assert (y + 1) * width <= height * width;
  }

  /** The row and column of a cell are the quotient and the remainder of its index. */
  lemma RowMajorDivMod(width: nat, y: nat, x: nat)
    requires x < width
    ensures RowMajor(width, y, x) / width == y && RowMajor(width, y, x) % width == x
  {
    var k := y * width + x;
    var q, r := k / width, k % width;
    assert k == q * width + r && r < width;
    assert (q - y) * width == x - r;
    MultipleOfWidth(q - y, width);
  }

  /** A multiple of a positive width is zero or at least the width in size. */
  lemma MultipleOfWidth(a: int, width: int)
    requires width > 0
    ensures a == 0 || a * width >= width || a * width <= -width
  {
    if a > 0 {
      MulMonotone(1, a, width);
    } else if a < 0 {
      MulMonotone(1, -a, width);
      assert a * width == -((-a) * width);
    }
  }

  lemma MulMonotone(a: nat, b: nat, c: nat)
    requires a <= b
    ensures a * c <= b * c
  {
  }

  /** Different cells have different indices. */
  lemma RowMajorInjective(width: nat, y1: nat, x1: nat, y2: nat, x2: nat)
    requires x1 < width && x2 < width
    ensures RowMajor(width, y1, x1) == RowMajor(width, y2, x2) <==> y1 == y2 && x1 == x2
  {
    RowMajorDivMod(width, y1, x1);
    RowMajorDivMod(width, y2, x2);
  }

  /** Every index below width*height is the index of a cell. */
  lemma RowMajorOnto(width: nat, height: nat, k: nat)
    requires k < width * height
    ensures width > 0 && k / width < height && k % width < width
    ensures RowMajor(width, k / width, k % width) == k
  {
  }
}
