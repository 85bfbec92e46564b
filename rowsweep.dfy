/** The container sweeps: rows laid top to bottom (horizontal) or columns laid
    left to right (vertical), each filled slot by slot until the requested
    number of containers is reached. */
module RowSweep {
  import opened Geometry
  import opened Capacity

  /** Slot `col` of horizontal row `row`: rows start one margin and one
      container width below the top edge and move down one pitch per row. */
  function HorizontalSlot(plotWidth: real, row: int, col: int): Rect {
    Rect(Container,
         MARGIN + col as real * CONTAINER_LENGTH,
         plotWidth - MARGIN - CONTAINER_WIDTH - row as real * ROW_PITCH,
         CONTAINER_LENGTH, CONTAINER_WIDTH)
  }

  /** Slot `slot` of vertical column `column`: columns start at the left
      margin and move right one pitch per column; slots go down from the top. */
  function VerticalSlot(plotWidth: real, column: int, slot: int): Rect {
    Rect(Container,
         MARGIN + column as real * ROW_PITCH,
         plotWidth - MARGIN - CONTAINER_LENGTH - slot as real * CONTAINER_LENGTH,
         CONTAINER_WIDTH, CONTAINER_LENGTH)
  }

  /** The first `m` containers of a horizontal sweep in which every slot is used. */
  function HorizontalGrid(plotWidth: real, perRow: int, m: nat): seq<Rect>
    requires perRow > 0 || m == 0
  {
    seq(m, k requires 0 <= k < m => HorizontalSlot(plotWidth, k / perRow, k % perRow))
  }

  /** The first `m` containers of a horizontal sweep that skips the first slot of every row. */
  function SkipFirstSlotGrid(plotWidth: real, perRow: int, m: nat): seq<Rect>
    requires perRow > 1 || m == 0
  {
    seq(m, k requires 0 <= k < m => HorizontalSlot(plotWidth, k / (perRow - 1), k % (perRow - 1) + 1))
  }

  /** The first `m` containers of a vertical sweep in which every slot is used. */
  function VerticalGrid(plotWidth: real, perColumn: int, m: nat): seq<Rect>
    requires perColumn > 0 || m == 0
  {
    seq(m, k requires 0 <= k < m => VerticalSlot(plotWidth, k / perColumn, k % perColumn))
  }

  /** The first `m` containers of a vertical sweep that skips the whole first column. */
  function SkipFirstColumnGrid(plotWidth: real, perColumn: int, m: nat): seq<Rect>
    requires perColumn > 0 || m == 0
  {
    seq(m, k requires 0 <= k < m => VerticalSlot(plotWidth, k / perColumn + 1, k % perColumn))
  }

  /** Containers placed by a sweep over `lines` rows of `perLine` slots that
      uses every slot and stops at `wanted`. */
  function GridFill(wanted: int, perLine: int, lines: int): nat {
    if perLine <= 0 || lines <= 0 then 0 else Fill(wanted, lines * perLine)
  }

  lemma DivModOf(q: int, d: int, m: int)
    requires 0 <= q && 0 <= m < d
    ensures (q * d + m) / d == q && (q * d + m) % d == m
  {
    var k := q * d + m;
    var q', m' := k / d, k % d;
    assert k == q' * d + m';
    if q' < q {
      MulStep(q', q - 1, d);
    } else if q' > q {
      MulStep(q, q' - 1, d);
    }
  }

  lemma MulStep(a: int, b: int, d: int)
    requires a <= b && d > 0
    ensures a * d + d <= (b + 1) * d
  {
  }

  lemma FillSaturates(wanted: int, a: int, b: int)
    requires a <= b && Fill(wanted, a) >= wanted
    ensures Fill(wanted, b) == Fill(wanted, a)
  {
  }

  /** One sweep step: filling slot `i` of row `row` while fewer than
      `wanted` are placed fills one more position and appends that slot. */
  lemma HorizontalStep(plotWidth: real, wanted: int, perRow: int, row: nat, i: int, count: int)
    requires 0 <= i < perRow
    requires count == Fill(wanted, SlotsBefore(perRow, row) + i) && count < wanted
    ensures count + 1 == Fill(wanted, SlotsBefore(perRow, row) + i + 1)
    ensures HorizontalGrid(plotWidth, perRow, count) + [HorizontalSlot(plotWidth, row, i)]
            == HorizontalGrid(plotWidth, perRow, count + 1)
  {
    MulNonNegative(row, perRow);
    DivModOf(row, perRow, i);
  }

  lemma SkipFirstSlotStep(plotWidth: real, wanted: int, perRow: int, row: nat, i: int, count: int)
    requires 1 <= i < perRow
    requires count == Fill(wanted, SlotsBefore(perRow - 1, row) + i - 1) && count < wanted
    ensures count + 1 == Fill(wanted, SlotsBefore(perRow - 1, row) + i)
    ensures SkipFirstSlotGrid(plotWidth, perRow, count) + [HorizontalSlot(plotWidth, row, i)]
            == SkipFirstSlotGrid(plotWidth, perRow, count + 1)
  {
    MulNonNegative(row, perRow - 1);
    DivModOf(row, perRow - 1, i - 1);
  }

  lemma VerticalStep(plotWidth: real, wanted: int, perColumn: int, column: nat, i: int, count: int)
    requires 0 <= i < perColumn
    requires count == Fill(wanted, SlotsBefore(perColumn, column) + i) && count < wanted
    ensures count + 1 == Fill(wanted, SlotsBefore(perColumn, column) + i + 1)
    ensures VerticalGrid(plotWidth, perColumn, count) + [VerticalSlot(plotWidth, column, i)]
            == VerticalGrid(plotWidth, perColumn, count + 1)
  {
    MulNonNegative(column, perColumn);
    DivModOf(column, perColumn, i);
  }

  lemma SkipFirstColumnStep(plotWidth: real, wanted: int, perColumn: int, column: nat, i: int, count: int)
    requires 1 <= column && 0 <= i < perColumn
    requires count == Fill(wanted, SlotsBefore(perColumn, column - 1) + i) && count < wanted
    ensures count + 1 == Fill(wanted, SlotsBefore(perColumn, column - 1) + i + 1)
    ensures SkipFirstColumnGrid(plotWidth, perColumn, count) + [VerticalSlot(plotWidth, column, i)]
            == SkipFirstColumnGrid(plotWidth, perColumn, count + 1)
  {
    MulNonNegative(column - 1, perColumn);
    DivModOf(column - 1, perColumn, i);
  }

  function SlotsBefore(perLine: int, lines: nat): int {
    if perLine > 0 then lines * perLine else 0
  }

  lemma SlotsBeforeNext(perLine: int, lines: nat)
    ensures SlotsBefore(perLine, lines + 1) == SlotsBefore(perLine, lines) + (if perLine > 0 then perLine else 0)
  {
  }

  /** Guarded horizontal sweep of container_yard_streamlit.py and
      container_yard_gui.py: rows top to bottom, `perRow` slots each. */
  method GuardedRowSweep(plotLength: real, plotWidth: real, numContainers: int, perRow: int, numRows: int)
    returns (placed: seq<Rect>)
    requires perRow <= RowCapacity(plotLength)
    ensures placed == HorizontalGrid(plotWidth, perRow, GridFill(numContainers, perRow, numRows))
  {
    placed := [];
    var currentY := plotWidth - MARGIN - CONTAINER_WIDTH;
    var count := 0;
    var row := 0;
    while row < numRows
      invariant 0 <= row <= (if numRows > 0 then numRows else 0)
      invariant currentY == plotWidth - MARGIN - CONTAINER_WIDTH - row as real * ROW_PITCH
      invariant count == |placed| == Fill(numContainers, SlotsBefore(perRow, row))
      invariant placed == HorizontalGrid(plotWidth, perRow, count)
    {
      placed, count := GuardedRow(plotLength, plotWidth, numContainers, perRow, row, currentY, placed, count);
      currentY := currentY - (CONTAINER_WIDTH + ROW_GAP);
      row := row + 1;
    }
    assert numRows <= 0 ==> row == 0;
  }

  /** One row of the guarded sweep: a slot is filled only if the container
      still ends before the right margin, x advances only when a container is
      placed, and the row stops once `numContainers` have been placed. */
  method GuardedRow(plotLength: real, plotWidth: real, numContainers: int, perRow: int, row: nat,
                    currentY: real, placed0: seq<Rect>, count0: int)
    returns (placed: seq<Rect>, count: int)
    requires perRow <= RowCapacity(plotLength)
    requires currentY == plotWidth - MARGIN - CONTAINER_WIDTH - row as real * ROW_PITCH
    requires count0 == |placed0| == Fill(numContainers, SlotsBefore(perRow, row))
    requires placed0 == HorizontalGrid(plotWidth, perRow, count0)
    ensures count == |placed| == Fill(numContainers, SlotsBefore(perRow, row + 1))
    ensures placed == HorizontalGrid(plotWidth, perRow, count)
  {
    placed, count := placed0, count0;
    ghost var slots := SlotsBefore(perRow, row);
    SlotsBeforeNext(perRow, row);
    var currentX := MARGIN;
    var i := 0;
    while i < perRow
      invariant 0 <= i <= (if perRow > 0 then perRow else 0)
      invariant currentX == MARGIN + i as real * CONTAINER_LENGTH
      invariant count == |placed| == Fill(numContainers, slots + i)
      invariant perRow > 0 || count == 0
      invariant placed == HorizontalGrid(plotWidth, perRow, count)
    {
      if count >= numContainers {
        FillSaturates(numContainers, slots + i, slots + perRow);
        break;
      }
      SlotWithinMargin(plotLength, perRow, i);
      if currentX + CONTAINER_LENGTH <= plotLength - MARGIN {
        HorizontalStep(plotWidth, numContainers, perRow, row, i, count);
        placed := placed + [Rect(Container, currentX, currentY, CONTAINER_LENGTH, CONTAINER_WIDTH)];
        count := count + 1;
        currentX := currentX + CONTAINER_LENGTH;
      }
      i := i + 1;
    }
  }

  /** Slot `i` of a row of at most `RowCapacity(plotLength)` slots ends before the right margin. */
  lemma SlotWithinMargin(plotLength: real, perRow: int, i: int)
    requires 0 <= i < perRow <= RowCapacity(plotLength)
    ensures MARGIN + i as real * CONTAINER_LENGTH + CONTAINER_LENGTH <= plotLength - MARGIN
  {
    assert (i + 1) as real <= RowCapacity(plotLength) as real;
  }

  /** Horizontal branch of container_yard_streamlit_final.py: the same rows
      as the guarded sweep, with no end-of-row check. */
  method PlainRowSweep(plotWidth: real, numContainers: int, perRow: int, numRows: int)
    returns (placed: seq<Rect>)
    requires perRow >= 1
    ensures placed == HorizontalGrid(plotWidth, perRow, GridFill(numContainers, perRow, numRows))
  {
    placed := [];
    var currentY := plotWidth - MARGIN - CONTAINER_WIDTH;
    var count := 0;
    var row := 0;
    while row < numRows
      invariant 0 <= row <= (if numRows > 0 then numRows else 0)
      invariant currentY == plotWidth - MARGIN - CONTAINER_WIDTH - row as real * ROW_PITCH
      invariant count == |placed| == Fill(numContainers, SlotsBefore(perRow, row))
      invariant placed == HorizontalGrid(plotWidth, perRow, count)
    {
      placed, count := PlainRow(plotWidth, numContainers, perRow, row, currentY, placed, count);
      currentY := currentY - (CONTAINER_WIDTH + ROW_GAP);
      row := row + 1;
    }
    assert numRows <= 0 ==> row == 0;
  }

  method PlainRow(plotWidth: real, numContainers: int, perRow: int, row: nat,
                  currentY: real, placed0: seq<Rect>, count0: int)
    returns (placed: seq<Rect>, count: int)
    requires perRow >= 1
    requires currentY == plotWidth - MARGIN - CONTAINER_WIDTH - row as real * ROW_PITCH
    requires count0 == |placed0| == Fill(numContainers, SlotsBefore(perRow, row))
    requires placed0 == HorizontalGrid(plotWidth, perRow, count0)
    ensures count == |placed| == Fill(numContainers, SlotsBefore(perRow, row + 1))
    ensures placed == HorizontalGrid(plotWidth, perRow, count)
  {
    placed, count := placed0, count0;
    ghost var slots := SlotsBefore(perRow, row);
    var currentX := MARGIN;
    var i := 0;
    while i < perRow
      invariant 0 <= i <= perRow
      invariant currentX == MARGIN + i as real * CONTAINER_LENGTH
      invariant count == |placed| == Fill(numContainers, slots + i)
      invariant placed == HorizontalGrid(plotWidth, perRow, count)
    {
      if count >= numContainers {
        FillSaturates(numContainers, slots + i, slots + perRow);
        break;
      }
      HorizontalStep(plotWidth, numContainers, perRow, row, i, count);
      placed := placed + [Rect(Container, currentX, currentY, CONTAINER_LENGTH, CONTAINER_WIDTH)];
      currentX := currentX + CONTAINER_LENGTH;
      count := count + 1;
      i := i + 1;
    }
  }

  /** Vertical branch of container_yard_streamlit_final.py: columns left to
      right, each filled from the top down. */
  method PlainColumnSweep(plotWidth: real, numContainers: int, perColumn: int, numColumns: int)
    returns (placed: seq<Rect>)
    requires perColumn >= 1
    ensures placed == VerticalGrid(plotWidth, perColumn, GridFill(numContainers, perColumn, numColumns))
  {
    placed := [];
    var currentX := MARGIN;
    var count := 0;
    var column := 0;
    while column < numColumns
      invariant 0 <= column <= (if numColumns > 0 then numColumns else 0)
      invariant currentX == MARGIN + column as real * ROW_PITCH
      invariant count == |placed| == Fill(numContainers, SlotsBefore(perColumn, column))
      invariant placed == VerticalGrid(plotWidth, perColumn, count)
    {
      placed, count := PlainColumn(plotWidth, numContainers, perColumn, column, currentX, placed, count);
      currentX := currentX + (CONTAINER_WIDTH + ROW_GAP);
      column := column + 1;
    }
    assert numColumns <= 0 ==> column == 0;
  }

  method PlainColumn(plotWidth: real, numContainers: int, perColumn: int, column: nat,
                     currentX: real, placed0: seq<Rect>, count0: int)
    returns (placed: seq<Rect>, count: int)
    requires perColumn >= 1
    requires currentX == MARGIN + column as real * ROW_PITCH
    requires count0 == |placed0| == Fill(numContainers, SlotsBefore(perColumn, column))
    requires placed0 == VerticalGrid(plotWidth, perColumn, count0)
    ensures count == |placed| == Fill(numContainers, SlotsBefore(perColumn, column + 1))
    ensures placed == VerticalGrid(plotWidth, perColumn, count)
  {
    placed, count := placed0, count0;
    ghost var slots := SlotsBefore(perColumn, column);
    var currentY := plotWidth - MARGIN - CONTAINER_LENGTH;
    var i := 0;
    while i < perColumn
      invariant 0 <= i <= perColumn
      invariant currentY == plotWidth - MARGIN - CONTAINER_LENGTH - i as real * CONTAINER_LENGTH
      invariant count == |placed| == Fill(numContainers, slots + i)
      invariant placed == VerticalGrid(plotWidth, perColumn, count)
    {
      if count >= numContainers {
        FillSaturates(numContainers, slots + i, slots + perColumn);
        break;
      }
      VerticalStep(plotWidth, numContainers, perColumn, column, i, count);
      placed := placed + [Rect(Container, currentX, currentY, CONTAINER_WIDTH, CONTAINER_LENGTH)];
      currentY := currentY - CONTAINER_LENGTH;
      count := count + 1;
      i := i + 1;
    }
  }

  /** Horizontal branch of container_yard_streamlit_FINAL_COMPLETE.py: a slot
      is filled only if it starts at or right of the driveway band; a skipped
      slot still advances x and uses up one of the row's iterations. */
  method SkipRowSweep(plotWidth: real, numContainers: int, perRow: int, numRows: int)
    returns (placed: seq<Rect>)
    requires perRow >= 1
    ensures placed == SkipFirstSlotGrid(plotWidth, perRow, GridFill(numContainers, perRow - 1, numRows))
  {
    placed := [];
    var currentY := plotWidth - MARGIN - CONTAINER_WIDTH;
    var count := 0;
    var row := 0;
    while row < numRows
      invariant 0 <= row <= (if numRows > 0 then numRows else 0)
      invariant currentY == plotWidth - MARGIN - CONTAINER_WIDTH - row as real * ROW_PITCH
      invariant count == |placed| == Fill(numContainers, SlotsBefore(perRow - 1, row))
      invariant placed == SkipFirstSlotGrid(plotWidth, perRow, count)
    {
      placed, count := SkipRow(plotWidth, numContainers, perRow, row, currentY, placed, count);
      currentY := currentY - (CONTAINER_WIDTH + ROW_GAP);
      row := row + 1;
    }
    assert numRows <= 0 ==> row == 0;
  }

  method SkipRow(plotWidth: real, numContainers: int, perRow: int, row: nat,
                 currentY: real, placed0: seq<Rect>, count0: int)
    returns (placed: seq<Rect>, count: int)
    requires perRow >= 1
    requires currentY == plotWidth - MARGIN - CONTAINER_WIDTH - row as real * ROW_PITCH
    requires count0 == |placed0| == Fill(numContainers, SlotsBefore(perRow - 1, row))
    requires placed0 == SkipFirstSlotGrid(plotWidth, perRow, count0)
    ensures count == |placed| == Fill(numContainers, SlotsBefore(perRow - 1, row + 1))
    ensures placed == SkipFirstSlotGrid(plotWidth, perRow, count)
  {
    placed, count := placed0, count0;
    ghost var slots := SlotsBefore(perRow - 1, row);
    var currentX := MARGIN;
    var i := 0;
    while i < perRow
      invariant 0 <= i <= perRow
      invariant currentX == MARGIN + i as real * CONTAINER_LENGTH
      invariant count == |placed| == Fill(numContainers, slots + (if i > 0 then i - 1 else 0))
      invariant perRow > 1 || count == 0
      invariant placed == SkipFirstSlotGrid(plotWidth, perRow, count)
    {
      if count >= numContainers {
        FillSaturates(numContainers, slots + (if i > 0 then i - 1 else 0), slots + perRow - 1);
        break;
      }
      if currentX >= ROAD_WIDTH {
        SkipFirstSlotStep(plotWidth, numContainers, perRow, row, i, count);
        placed := placed + [Rect(Container, currentX, currentY, CONTAINER_LENGTH, CONTAINER_WIDTH)];
        count := count + 1;
      }
      currentX := currentX + CONTAINER_LENGTH;
      i := i + 1;
    }
  }

  /** Vertical branch of container_yard_streamlit_FINAL_COMPLETE.py: the
      driveway test is on the column's x, so the whole first column (at the
      margin) is skipped, each of its slots using up an iteration. */
  method SkipColumnSweep(plotWidth: real, numContainers: int, perColumn: int, numColumns: int)
    returns (placed: seq<Rect>)
    requires perColumn >= 1
    ensures placed == SkipFirstColumnGrid(plotWidth, perColumn, GridFill(numContainers, perColumn, numColumns - 1))
  {
    placed := [];
    var currentX := MARGIN;
    var count := 0;
    var column := 0;
    while column < numColumns
      invariant 0 <= column <= (if numColumns > 0 then numColumns else 0)
      invariant currentX == MARGIN + column as real * ROW_PITCH
      invariant count == |placed| == Fill(numContainers, SkippedColumnSlots(perColumn, column))
      invariant placed == SkipFirstColumnGrid(plotWidth, perColumn, count)
    {
      placed, count := SkipColumn(plotWidth, numContainers, perColumn, column, currentX, placed, count);
      currentX := currentX + (CONTAINER_WIDTH + ROW_GAP);
      column := column + 1;
    }
    assert numColumns <= 0 ==> column == 0;
  }

  /** Positions usable in the first `columns` columns when the first column is skipped. */
  function SkippedColumnSlots(perColumn: int, columns: nat): int {
    if columns == 0 then 0 else SlotsBefore(perColumn, columns - 1)
  }

  method SkipColumn(plotWidth: real, numContainers: int, perColumn: int, column: nat,
                    currentX: real, placed0: seq<Rect>, count0: int)
    returns (placed: seq<Rect>, count: int)
    requires perColumn >= 1
    requires currentX == MARGIN + column as real * ROW_PITCH
    requires count0 == |placed0| == Fill(numContainers, SkippedColumnSlots(perColumn, column))
    requires placed0 == SkipFirstColumnGrid(plotWidth, perColumn, count0)
    ensures count == |placed| == Fill(numContainers, SkippedColumnSlots(perColumn, column + 1))
    ensures placed == SkipFirstColumnGrid(plotWidth, perColumn, count)
  {
    placed, count := placed0, count0;
    ghost var slots := SkippedColumnSlots(perColumn, column);
    ghost var usable := if column == 0 then 0 else perColumn;
    var currentY := plotWidth - MARGIN - CONTAINER_LENGTH;
    var i := 0;
    while i < perColumn
      invariant 0 <= i <= perColumn
      invariant currentY == plotWidth - MARGIN - CONTAINER_LENGTH - i as real * CONTAINER_LENGTH
      invariant count == |placed| == Fill(numContainers, slots + (if column == 0 then 0 else i))
      invariant placed == SkipFirstColumnGrid(plotWidth, perColumn, count)
    {
      if count >= numContainers {
        FillSaturates(numContainers, slots + (if column == 0 then 0 else i), slots + usable);
        break;
      }
      if currentX >= ROAD_WIDTH {
        SkipFirstColumnStep(plotWidth, numContainers, perColumn, column, i, count);
        placed := placed + [Rect(Container, currentX, currentY, CONTAINER_WIDTH, CONTAINER_LENGTH)];
        count := count + 1;
      }
      currentY := currentY - CONTAINER_LENGTH;
      i := i + 1;
    }
  }

  // ---------------------------------------------------------------------
  // Properties of the four grids

  /** Two different sweep positions split into different (line, slot) pairs. */
  lemma DistinctPositions(j: int, k: int, d: int)
    requires 0 <= j < k && d > 0
    ensures j / d != k / d || j % d != k % d
  {
  }

  lemma HorizontalSlotsDisjoint(plotWidth: real, r1: int, c1: int, r2: int, c2: int)
    requires r1 != r2 || c1 != c2
    ensures Disjoint(HorizontalSlot(plotWidth, r1, c1), HorizontalSlot(plotWidth, r2, c2))
  {
    if r1 == r2 {
      assert c1 < c2 || c2 < c1;
    } else {
      assert r1 < r2 || r2 < r1;
    }
  }

  lemma VerticalSlotsDisjoint(plotWidth: real, c1: int, s1: int, c2: int, s2: int)
    requires c1 != c2 || s1 != s2
    ensures Disjoint(VerticalSlot(plotWidth, c1, s1), VerticalSlot(plotWidth, c2, s2))
  {
    if c1 == c2 {
      assert s1 < s2 || s2 < s1;
    } else {
      assert c1 < c2 || c2 < c1;
    }
  }

  /** The sweep used by container_yard_streamlit.py, container_yard_gui.py and
      the horizontal branch of container_yard_streamlit_final.py: `m`
      containers, every one between the side margins, the first of every row
      on the left margin, and no two overlapping. */
  lemma HorizontalGridLaidOut(plotLength: real, plotWidth: real, perRow: int, m: nat)
    requires 1 <= perRow <= RowCapacity(plotLength)
    ensures |HorizontalGrid(plotWidth, perRow, m)| == m
    ensures forall k :: 0 <= k < m ==> HorizontalGrid(plotWidth, perRow, m)[k].kind == Container
    ensures forall k :: 0 <= k < m ==>
              HorizontalGrid(plotWidth, perRow, m)[k].w == CONTAINER_LENGTH
              && HorizontalGrid(plotWidth, perRow, m)[k].h == CONTAINER_WIDTH
    ensures forall k :: 0 <= k < m ==>
              MARGIN <= HorizontalGrid(plotWidth, perRow, m)[k].x
              && HorizontalGrid(plotWidth, perRow, m)[k].x + CONTAINER_LENGTH <= plotLength - MARGIN
    ensures forall k :: 0 <= k < m && k % perRow == 0 ==> HorizontalGrid(plotWidth, perRow, m)[k].x == MARGIN
    ensures PairwiseDisjoint(HorizontalGrid(plotWidth, perRow, m))
  {
    var g := HorizontalGrid(plotWidth, perRow, m);
    forall j, k | 0 <= j < k < m ensures Disjoint(g[j], g[k]) {
      DistinctPositions(j, k, perRow);
      HorizontalSlotsDisjoint(plotWidth, j / perRow, j % perRow, k / perRow, k % perRow);
    }
  }

  /** Vertical branch of container_yard_streamlit_final.py: every container
      lies between the top and bottom margins, and no two overlap. */
  lemma VerticalGridLaidOut(plotWidth: real, perColumn: int, m: nat)
    requires 1 <= perColumn <= RowCapacity(plotWidth)
    ensures |VerticalGrid(plotWidth, perColumn, m)| == m
    ensures forall k :: 0 <= k < m ==> VerticalGrid(plotWidth, perColumn, m)[k].kind == Container
    ensures forall k :: 0 <= k < m ==>
              VerticalGrid(plotWidth, perColumn, m)[k].w == CONTAINER_WIDTH
              && VerticalGrid(plotWidth, perColumn, m)[k].h == CONTAINER_LENGTH
    ensures forall k :: 0 <= k < m ==>
              MARGIN <= VerticalGrid(plotWidth, perColumn, m)[k].y
              && VerticalGrid(plotWidth, perColumn, m)[k].y + CONTAINER_LENGTH <= plotWidth - MARGIN
    ensures PairwiseDisjoint(VerticalGrid(plotWidth, perColumn, m))
  {
    var g := VerticalGrid(plotWidth, perColumn, m);
    forall j, k | 0 <= j < k < m ensures Disjoint(g[j], g[k]) {
      DistinctPositions(j, k, perColumn);
      VerticalSlotsDisjoint(plotWidth, j / perColumn, j % perColumn, k / perColumn, k % perColumn);
    }
  }

  /** Horizontal branch of container_yard_streamlit_FINAL_COMPLETE.py: every
      placed container starts right of the driveway band, ends before the
      right margin, and no two overlap. */
  lemma SkipFirstSlotGridLaidOut(plotLength: real, plotWidth: real, perRow: int, m: nat)
    requires 2 <= perRow <= RowCapacity(plotLength)
    ensures |SkipFirstSlotGrid(plotWidth, perRow, m)| == m
    ensures forall k :: 0 <= k < m ==> SkipFirstSlotGrid(plotWidth, perRow, m)[k].kind == Container
    ensures forall k :: 0 <= k < m ==>
              ROAD_WIDTH <= SkipFirstSlotGrid(plotWidth, perRow, m)[k].x
              && SkipFirstSlotGrid(plotWidth, perRow, m)[k].x + CONTAINER_LENGTH <= plotLength - MARGIN
    ensures PairwiseDisjoint(SkipFirstSlotGrid(plotWidth, perRow, m))
  {
    var g := SkipFirstSlotGrid(plotWidth, perRow, m);
    forall j, k | 0 <= j < k < m ensures Disjoint(g[j], g[k]) {
      DistinctPositions(j, k, perRow - 1);
      HorizontalSlotsDisjoint(plotWidth, j / (perRow - 1), j % (perRow - 1) + 1,
                              k / (perRow - 1), k % (perRow - 1) + 1);
    }
  }

  /** Vertical branch of container_yard_streamlit_FINAL_COMPLETE.py: every
      placed container lies right of the driveway band and between the top
      and bottom margins, and no two overlap. */
  lemma SkipFirstColumnGridLaidOut(plotWidth: real, perColumn: int, m: nat)
    requires 1 <= perColumn <= RowCapacity(plotWidth)
    ensures |SkipFirstColumnGrid(plotWidth, perColumn, m)| == m
    ensures forall k :: 0 <= k < m ==> SkipFirstColumnGrid(plotWidth, perColumn, m)[k].kind == Container
    ensures forall k :: 0 <= k < m ==>
              ROAD_WIDTH <= SkipFirstColumnGrid(plotWidth, perColumn, m)[k].x
              && MARGIN <= SkipFirstColumnGrid(plotWidth, perColumn, m)[k].y
              && SkipFirstColumnGrid(plotWidth, perColumn, m)[k].y + CONTAINER_LENGTH <= plotWidth - MARGIN
    ensures PairwiseDisjoint(SkipFirstColumnGrid(plotWidth, perColumn, m))
  {
    var g := SkipFirstColumnGrid(plotWidth, perColumn, m);
    forall k | 0 <= k < m ensures ROAD_WIDTH <= g[k].x {
      assert k / perColumn >= 0;
    }
    forall j, k | 0 <= j < k < m ensures Disjoint(g[j], g[k]) {
      DistinctPositions(j, k, perColumn);
      VerticalSlotsDisjoint(plotWidth, j / perColumn + 1, j % perColumn, k / perColumn + 1, k % perColumn);
    }
  }

  /** The height warning of container_yard_streamlit.py and
      container_yard_gui.py fires exactly when some container of the sweep
      reaches below the bottom margin. */
  lemma HeightWarningIffBelowMargin(plotWidth: real, perRow: int, n: int)
    requires perRow >= 1 && n >= 1
    ensures RequiredHeight(CeilDiv(n, perRow)) > plotWidth
            <==> exists k :: 0 <= k < n && HorizontalGrid(plotWidth, perRow, n)[k].y < MARGIN
  {
    var rows := CeilDiv(n, perRow);
    var g := HorizontalGrid(plotWidth, perRow, n);
    RowsHoldAll(n, perRow);
    var last := (rows - 1) * perRow;
    DivModOf(rows - 1, perRow, 0);
    assert g[last].y == plotWidth - MARGIN - CONTAINER_WIDTH - (rows - 1) as real * ROW_PITCH;
    if RequiredHeight(rows) > plotWidth {
      assert g[last].y < MARGIN;
    } else {
      forall k | 0 <= k < n ensures g[k].y >= MARGIN {
        RowOfBelowRows(k, perRow, rows);
      }
    }
  }

  /** An index below rows * perRow sits in one of the first `rows` rows. */
  lemma RowOfBelowRows(k: int, perRow: int, rows: int)
    requires perRow >= 1 && 0 <= k < rows * perRow
    ensures 0 <= k / perRow < rows
  {
    if k / perRow >= rows {
      MulStep(rows, k / perRow - 1, perRow);
    }
  }
}
