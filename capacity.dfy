/** Row capacity, row count and the height check shared by the scripts. */
module Capacity {
  import opened Geometry

  /** Containers per row: the number of whole containers that fit end to end
      between the two margins of `span` (floor division, as in the scripts). */
  function RowCapacity(span: real): (c: int)
    ensures c as real * CONTAINER_LENGTH <= span - 2.0 * MARGIN
    ensures span - 2.0 * MARGIN < (c + 1) as real * CONTAINER_LENGTH
  {
    ((span - 2.0 * MARGIN) / CONTAINER_LENGTH).Floor
  }

  /** The ceiling of the quotient a / b, for nonzero b of either sign. */
  function CeilDiv(a: int, b: int): (q: int)
    requires b != 0
    ensures b > 0 ==> (q - 1) * b < a <= q * b
    ensures b < 0 ==> q * b <= a < (q - 1) * b
    decreases if b > 0 then 0 else 1
  {
    if b > 0 then (a + b - 1) / b else CeilDiv(-a, -b)
  }

  /** Height needed by `numRows` rows: their widths, the gaps between them
      and the two margins. Equivalently: two margins, one container width,
      and one row pitch for every row after the first. */
  function RequiredHeight(numRows: int): (h: real)
    ensures h == 2.0 * MARGIN + CONTAINER_WIDTH + (numRows - 1) as real * ROW_PITCH
  {
    numRows as real * CONTAINER_WIDTH + (numRows - 1) as real * ROW_GAP + 2.0 * MARGIN
  }

  /** At least one container fits in a row exactly when the span is 8 m or more;
      the input minimum of 10 m is therefore enough to keep the division defined. */
  lemma CapacityPositiveIff(span: real)
    ensures RowCapacity(span) >= 1 <==> span >= 8.0
    ensures span >= 10.0 ==> RowCapacity(span) >= 1
  {
  }

  /** CeilDiv(n, perRow) rows of `perRow` slots hold all `n` containers, and one row fewer would not. */
  lemma RowsHoldAll(n: int, perRow: int)
    requires perRow >= 1 && n >= 1
    ensures CeilDiv(n, perRow) >= 1
    ensures (CeilDiv(n, perRow) - 1) * perRow < n <= CeilDiv(n, perRow) * perRow
    ensures Fill(n, CeilDiv(n, perRow) * perRow) == n
  {
    var q := CeilDiv(n, perRow);
    if q < 1 {
      MulNonPositive(q, perRow);
    }
  }

  lemma MulNonPositive(a: int, b: int)
    requires a <= 0 && b >= 0
    ensures a * b <= 0
  {
  }

  lemma MulNonNegative(a: int, b: int)
    requires a >= 0 && b >= 0
    ensures a * b >= 0
  {
  }

  /** The default inputs 80 x 38 with 50 containers: 13 per row, 4 rows,
      23.6 m needed, so no warning. */
  lemma DefaultCapacity()
    ensures RowCapacity(80.0) == 13
    ensures CeilDiv(50, 13) == 4
    ensures RequiredHeight(4) == 23.6
    ensures !(RequiredHeight(4) > 38.0)
  {
  }
}
