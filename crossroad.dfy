/** The container sweep of container_yard_streamlit_FINAL_CORRECTED.py: rows
    are always horizontal, and the one row that would sit on the middle
    crossroad is lowered by one crossroad plus one container width. */
module Crossroad {
  import opened Geometry
  import opened Capacity
  import RowSweep

  /** Bottom edge of the crossroad band, centred on the plot's half height. */
  function MiddleRoadY(plotWidth: real): real {
    plotWidth / 2.0 - CROSSROAD_WIDTH / 2.0
  }

  function CrossroadBand(plotLength: real, plotWidth: real): (r: Rect)
    ensures r.kind == Crossroad && r.x == 0.0 && r.w == plotLength
    ensures r.h == CROSSROAD_WIDTH && r.y + r.h / 2.0 == plotWidth / 2.0
  {
    Rect(Crossroad, 0.0, MiddleRoadY(plotWidth), plotLength, CROSSROAD_WIDTH)
  }

  /** How far below a row's y the shift test looks for the crossroad. The
      script looks one container width down; but a row overlaps the band
      as soon as the band's bottom edge is within one crossroad width below it. */
  const WRITTEN_REACH: real := CONTAINER_WIDTH
  const INTENDED_REACH: real := CROSSROAD_WIDTH

  /** The shift test: the band's bottom edge lies strictly between `reach`
      below the row and the row's top edge. */
  predicate ShiftTest(y: real, plotWidth: real, reach: real) {
    y - reach < MiddleRoadY(plotWidth) < y + CONTAINER_WIDTH
  }

  /** The row's y when row r is reached, before the shift test. */
  function RowStart(plotWidth: real, reach: real, r: nat): real
    decreases r, 0
  {
    if r == 0 then plotWidth - MARGIN - CONTAINER_WIDTH
    else RowY(plotWidth, reach, r - 1) - (CONTAINER_WIDTH + ROW_GAP)
  }

  predicate Shifted(plotWidth: real, reach: real, r: nat)
    decreases r, 1
  {
    ShiftTest(RowStart(plotWidth, reach, r), plotWidth, reach)
  }

  /** The y at which row r's containers are drawn. */
  function RowY(plotWidth: real, reach: real, r: nat): real
    decreases r, 2
  {
    if Shifted(plotWidth, reach, r)
    then RowStart(plotWidth, reach, r) - (CROSSROAD_WIDTH + CONTAINER_WIDTH)
    else RowStart(plotWidth, reach, r)
  }

  function Slot(plotWidth: real, reach: real, row: nat, col: int): Rect {
    Rect(Container, MARGIN + col as real * CONTAINER_LENGTH, RowY(plotWidth, reach, row),
         CONTAINER_LENGTH, CONTAINER_WIDTH)
  }

  /** The first m containers of the sweep, `perRow` to a row. */
  function Grid(plotWidth: real, reach: real, perRow: int, m: nat): seq<Rect>
    requires perRow > 0 || m == 0
  {
    seq(m, k requires 0 <= k < m => Slot(plotWidth, reach, k / perRow, k % perRow))
  }

  /** One sweep step: filling slot `i` of row `row` while fewer than
      `wanted` are placed fills one more position and appends that slot. */
  lemma GridStep(plotWidth: real, reach: real, wanted: int, perRow: int, row: nat, i: int, count: int)
    requires 0 <= i < perRow
    requires count == Fill(wanted, RowSweep.SlotsBefore(perRow, row) + i) && count < wanted
    ensures count + 1 == Fill(wanted, RowSweep.SlotsBefore(perRow, row) + i + 1)
    ensures Grid(plotWidth, reach, perRow, count) + [Slot(plotWidth, reach, row, i)]
            == Grid(plotWidth, reach, perRow, count + 1)
  {
    MulNonNegative(row, perRow);
    RowSweep.DivModOf(row, perRow, i);
  }

  /** Every row is at least one pitch below the one before it. */
  lemma {:induction false} RowsDescend(plotWidth: real, reach: real, r1: nat, r2: nat)
    requires r1 < r2
    ensures RowY(plotWidth, reach, r2) + ROW_PITCH <= RowY(plotWidth, reach, r1)
    decreases r2
  {
    if r1 < r2 - 1 {
      RowsDescend(plotWidth, reach, r1, r2 - 1);
    }
  }

  /** A row is started at least two pitches below a shifted row. */
  lemma {:induction false} StartsBelowShift(plotWidth: real, reach: real, r1: nat, r2: nat)
    requires r1 < r2 && Shifted(plotWidth, reach, r1)
    ensures RowStart(plotWidth, reach, r2) + 2.0 * ROW_PITCH <= RowStart(plotWidth, reach, r1)
  {
    assert RowStart(plotWidth, reach, r1 + 1) == RowStart(plotWidth, reach, r1) - 2.0 * ROW_PITCH;
    if r1 + 1 < r2 {
      assert RowStart(plotWidth, reach, r2) == RowY(plotWidth, reach, r2 - 1) - ROW_PITCH;
      assert RowY(plotWidth, reach, r1 + 1) <= RowStart(plotWidth, reach, r1 + 1);
      if r1 + 1 < r2 - 1 {
        RowsDescend(plotWidth, reach, r1 + 1, r2 - 1);
      }
    }
  }

  /** The shift happens at most once per layout, for either reach the test may use. */
  lemma ShiftAtMostOnce(plotWidth: real, reach: real, r1: nat, r2: nat)
    requires WRITTEN_REACH <= reach <= INTENDED_REACH
    requires r1 < r2
    ensures !(Shifted(plotWidth, reach, r1) && Shifted(plotWidth, reach, r2))
  {
    if Shifted(plotWidth, reach, r1) {
      StartsBelowShift(plotWidth, reach, r1, r2);
    }
  }

  /** A shifted row lies entirely below the crossroad band. */
  lemma ShiftedRowBelowBand(plotWidth: real, reach: real, r: nat)
    requires reach <= INTENDED_REACH
    requires Shifted(plotWidth, reach, r)
    ensures RowY(plotWidth, reach, r) + CONTAINER_WIDTH < MiddleRoadY(plotWidth)
  {
  }

  /** No two containers of the sweep overlap. */
  lemma GridDisjoint(plotWidth: real, reach: real, perRow: int, m: nat)
    requires perRow > 0
    ensures |Grid(plotWidth, reach, perRow, m)| == m
    ensures forall k :: 0 <= k < m ==> Grid(plotWidth, reach, perRow, m)[k].kind == Container
    ensures forall k :: 0 <= k < m && k % perRow == 0 ==> Grid(plotWidth, reach, perRow, m)[k].x == MARGIN
    ensures PairwiseDisjoint(Grid(plotWidth, reach, perRow, m))
  {
    var g := Grid(plotWidth, reach, perRow, m);
    forall j, k | 0 <= j < k < m ensures Disjoint(g[j], g[k]) {
      RowSweep.DistinctPositions(j, k, perRow);
      SlotsDisjoint(plotWidth, reach, j / perRow, j % perRow, k / perRow, k % perRow);
    }
  }

  lemma SlotsDisjoint(plotWidth: real, reach: real, r1: nat, c1: int, r2: nat, c2: int)
    requires r1 != r2 || c1 != c2
    ensures Disjoint(Slot(plotWidth, reach, r1, c1), Slot(plotWidth, reach, r2, c2))
  {
    if r1 == r2 {
      assert c1 < c2 || c2 < c1;
    } else if r1 < r2 {
      RowsDescend(plotWidth, reach, r1, r2);
    } else {
      RowsDescend(plotWidth, reach, r2, r1);
    }
  }

  /** With the intended reach, no container overlaps the crossroad band. */
  lemma GridClearOfCrossroad(plotLength: real, plotWidth: real, perRow: int, m: nat)
    requires perRow > 0
    ensures forall k :: 0 <= k < m ==>
              Disjoint(Grid(plotWidth, INTENDED_REACH, perRow, m)[k], CrossroadBand(plotLength, plotWidth))
  {
    forall k | 0 <= k < m
      ensures Disjoint(Grid(plotWidth, INTENDED_REACH, perRow, m)[k], CrossroadBand(plotLength, plotWidth))
    {
      RowClearOfCrossroad(plotLength, plotWidth, k / perRow);
    }
  }

  /** With the intended reach, row r is either above or below the crossroad band. */
  lemma RowClearOfCrossroad(plotLength: real, plotWidth: real, r: nat)
    ensures RowY(plotWidth, INTENDED_REACH, r) + CONTAINER_WIDTH <= MiddleRoadY(plotWidth)
            || MiddleRoadY(plotWidth) + CROSSROAD_WIDTH <= RowY(plotWidth, INTENDED_REACH, r)
  {
    if Shifted(plotWidth, INTENDED_REACH, r) {
      ShiftedRowBelowBand(plotWidth, INTENDED_REACH, r);
    }
  }

  /** As written, the shift test looks only a container width below the row:
      on an 80 x 22 plot with 50 containers row 1 stays unshifted at y = 12.2,
      so its containers overlap the crossroad band from y = 9 to y = 13. */
  lemma RowOverlapsCrossroadAsWritten()
    ensures !Shifted(22.0, WRITTEN_REACH, 0) && !Shifted(22.0, WRITTEN_REACH, 1)
    ensures RowY(22.0, WRITTEN_REACH, 1) == 12.2
    ensures !Disjoint(Grid(22.0, WRITTEN_REACH, 13, 50)[13], CrossroadBand(80.0, 22.0))
  {
    assert RowStart(22.0, WRITTEN_REACH, 0) == 18.6;
    assert RowY(22.0, WRITTEN_REACH, 0) == 18.6;
    assert RowStart(22.0, WRITTEN_REACH, 1) == 12.2;
    assert 13 / 13 == 1 && 13 % 13 == 0;
  }

  /** The whole sweep, rows top to bottom; `reach` selects the shift test. */
  method Sweep(plotWidth: real, numContainers: int, perRow: int, numRows: int, reach: real)
    returns (placed: seq<Rect>)
    requires perRow >= 1
    ensures placed == Grid(plotWidth, reach, perRow, RowSweep.GridFill(numContainers, perRow, numRows))
  {
    placed := [];
    var count := 0;
    var currentY := plotWidth - MARGIN - CONTAINER_WIDTH;
    var middleRoadY := plotWidth / 2.0 - CROSSROAD_WIDTH / 2.0;
    var row := 0;
    while row < numRows
      invariant 0 <= row <= (if numRows > 0 then numRows else 0)
      invariant currentY == RowStart(plotWidth, reach, row)
      invariant middleRoadY == MiddleRoadY(plotWidth)
      invariant count == |placed| == Fill(numContainers, RowSweep.SlotsBefore(perRow, row))
      invariant placed == Grid(plotWidth, reach, perRow, count)
    {
      if currentY - reach < middleRoadY < currentY + CONTAINER_WIDTH {
        currentY := currentY - (CROSSROAD_WIDTH + CONTAINER_WIDTH);
      }
      placed, count := Row(plotWidth, numContainers, perRow, row, reach, currentY, placed, count);
      currentY := currentY - (CONTAINER_WIDTH + ROW_GAP);
      row := row + 1;
    }
    assert numRows <= 0 ==> row == 0;
  }

  method Row(plotWidth: real, numContainers: int, perRow: int, row: nat, reach: real,
             currentY: real, placed0: seq<Rect>, count0: int)
    returns (placed: seq<Rect>, count: int)
    requires perRow >= 1
    requires currentY == RowY(plotWidth, reach, row)
    requires count0 == |placed0| == Fill(numContainers, RowSweep.SlotsBefore(perRow, row))
    requires placed0 == Grid(plotWidth, reach, perRow, count0)
    ensures count == |placed| == Fill(numContainers, RowSweep.SlotsBefore(perRow, row + 1))
    ensures placed == Grid(plotWidth, reach, perRow, count)
  {
    placed, count := placed0, count0;
    ghost var slots := RowSweep.SlotsBefore(perRow, row);
    var currentX := MARGIN;
    var i := 0;
    while i < perRow
      invariant 0 <= i <= perRow
      invariant currentX == MARGIN + i as real * CONTAINER_LENGTH
      invariant count == |placed| == Fill(numContainers, slots + i)
      invariant placed == Grid(plotWidth, reach, perRow, count)
    {
      if count >= numContainers {
        RowSweep.FillSaturates(numContainers, slots + i, slots + perRow);
        break;
      }
      GridStep(plotWidth, reach, numContainers, perRow, row, i, count);
      placed := placed + [Rect(Container, currentX, currentY, CONTAINER_LENGTH, CONTAINER_WIDTH)];
      count := count + 1;
      currentX := currentX + CONTAINER_LENGTH;
      i := i + 1;
    }
  }
}
