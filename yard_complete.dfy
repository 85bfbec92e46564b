/** container_yard_streamlit_FINAL_COMPLETE.py: orientation chosen by the
    entry side, container slots on the driveway skipped, washing stations
    checked against the driveway, and an entry marker. */
module YardComplete {
  import opened Geometry
  import opened Capacity
  import opened RowSweep
  import opened Wash

  /** The entry marker, centred on the top edge (short side) or on the left
      edge (long side), just outside the plot. */
  function EntryMarker(side: EntrySide, plotLength: real, plotWidth: real): (r: Rect)
    ensures r.kind == Entry
    ensures side == ShortSide ==>
              r.x + r.w / 2.0 == plotLength / 2.0 && r.w == ENTRY_WIDTH && r.y == plotWidth && r.h == 1.0
    ensures side == LongSide ==>
              r.y + r.h / 2.0 == plotWidth / 2.0 && r.h == ENTRY_WIDTH && r.x + r.w == 0.0 && r.w == 1.0
  {
    if side == ShortSide then
      Rect(Entry, (plotLength - ENTRY_WIDTH) / 2.0, plotWidth, ENTRY_WIDTH, 1.0)
    else
      Rect(Entry, -1.0, (plotWidth - ENTRY_WIDTH) / 2.0, 1.0, ENTRY_WIDTH)
  }

  /** The containers drawn, in drawing order. */
  function Containers(side: EntrySide, plotLength: real, plotWidth: real, numContainers: int): seq<Rect>
    requires plotLength >= 10.0 && plotWidth >= 10.0
  {
    if side == ShortSide then
      var perRow := RowCapacity(plotLength);
      SkipFirstSlotGrid(plotWidth, perRow, GridFill(numContainers, perRow - 1, CeilDiv(numContainers, perRow)))
    else
      var perColumn := RowCapacity(plotWidth);
      SkipFirstColumnGrid(plotWidth, perColumn,
                          GridFill(numContainers, perColumn, CeilDiv(numContainers, perColumn) - 1))
  }

  /** How many containers are drawn. Short side: at most `n`, and fewer as
      soon as the rows' slots after the first fall short of `n`. Long side:
      always fewer than `n`, the whole first column being lost, and none at
      all when one column would have held them. */
  lemma ContainerCount(side: EntrySide, plotLength: real, plotWidth: real, n: int)
    requires plotLength >= 10.0 && plotWidth >= 10.0 && n >= 1
    ensures |Containers(side, plotLength, plotWidth, n)| <= n
    ensures side == ShortSide ==>
              var perRow := RowCapacity(plotLength);
              var rows := CeilDiv(n, perRow);
              (|Containers(side, plotLength, plotWidth, n)| == n <==> n <= rows * (perRow - 1))
              && (|Containers(side, plotLength, plotWidth, n)| < n ==>
                    |Containers(side, plotLength, plotWidth, n)| == rows * (perRow - 1))
    ensures side == LongSide ==>
              var perColumn := RowCapacity(plotWidth);
              |Containers(side, plotLength, plotWidth, n)| == (CeilDiv(n, perColumn) - 1) * perColumn
              && |Containers(side, plotLength, plotWidth, n)| < n
              && (n <= perColumn ==> |Containers(side, plotLength, plotWidth, n)| == 0)
  {
    if side == ShortSide {
      var perRow := RowCapacity(plotLength);
      RowsHoldAll(n, perRow);
      var rows := CeilDiv(n, perRow);
      if perRow > 1 {
        MulNonNegative(rows, perRow - 1);
      }
    } else {
      var perColumn := RowCapacity(plotWidth);
      RowsHoldAll(n, perColumn);
      var rows := CeilDiv(n, perColumn);
      MulNonNegative(rows - 1, perColumn);
      if n <= perColumn {
        assert (rows - 1) * perColumn < perColumn;
        if rows > 1 {
          MulStep(1, rows - 2, perColumn);
        }
      }
    }
  }

  /** With the default inputs (80 x 38, 50 containers, entry on the short
      side) 4 rows of 12 usable slots give 48 containers. */
  lemma DefaultShortSideCount()
    ensures |Containers(ShortSide, 80.0, 38.0, 50)| == 48
  {
    DefaultCapacity();
    assert GridFill(50, 12, 4) == 48;
  }

  /** Every container drawn is clear of the driveway band and of every other
      container. */
  lemma ContainersLaidOut(side: EntrySide, plotLength: real, plotWidth: real, n: int)
    requires plotLength >= 10.0 && plotWidth >= 10.0
    ensures forall k :: 0 <= k < |Containers(side, plotLength, plotWidth, n)| ==>
              Containers(side, plotLength, plotWidth, n)[k].kind == Container
              && Disjoint(Containers(side, plotLength, plotWidth, n)[k], MainDriveway(plotWidth))
    ensures PairwiseDisjoint(Containers(side, plotLength, plotWidth, n))
  {
    var cs := Containers(side, plotLength, plotWidth, n);
    if side == ShortSide {
      var perRow := RowCapacity(plotLength);
      if perRow >= 2 {
        SkipFirstSlotGridLaidOut(plotLength, plotWidth, perRow, |cs|);
      }
    } else {
      SkipFirstColumnGridLaidOut(plotWidth, RowCapacity(plotWidth), |cs|);
    }
  }

  /** The container sweep: rows along the length for the short side, columns
      across the width for the long side. */
  method PlaceContainers(side: EntrySide, plotLength: real, plotWidth: real, numContainers: int)
    returns (containers: seq<Rect>)
    requires plotLength >= 10.0 && plotWidth >= 10.0
    ensures containers == Containers(side, plotLength, plotWidth, numContainers)
  {
    if side == ShortSide {
      var perRow := RowCapacity(plotLength);
      var numRows := CeilDiv(numContainers, perRow);
      containers := SkipRowSweep(plotWidth, numContainers, perRow, numRows);
    } else {
      var perColumn := RowCapacity(plotWidth);
      var numColumns := CeilDiv(numContainers, perColumn);
      containers := SkipColumnSweep(plotWidth, numContainers, perColumn, numColumns);
    }
  }

  method Generate(plotLength: real, plotWidth: real, numContainers: int, numWash: int,
                  washWidth: real, washLength: real, side: EntrySide)
    returns (layout: Layout)
    requires plotLength >= 10.0 && plotWidth >= 10.0 && numContainers >= 1 && numWash >= 1
    requires washWidth >= 1.0 && washLength >= 1.0
    ensures layout.rects
            == [PlotBorder(plotLength, plotWidth), EntryMarker(side, plotLength, plotWidth)]
               + Containers(side, plotLength, plotWidth, numContainers)
               + PlacedStations(TopClearanceOffDriveway, plotLength, plotWidth, washLength, washWidth, numWash)
               + [MainDriveway(plotWidth)]
    ensures CountKind(layout.rects, Container) == |Containers(side, plotLength, plotWidth, numContainers)|
    ensures |layout.warnings|
            == numWash - |PlacedStations(TopClearanceOffDriveway, plotLength, plotWidth, washLength, washWidth, numWash)|
    ensures forall w :: w in layout.warnings ==> w == WashStationRejected
  {
    var rects := [PlotBorder(plotLength, plotWidth)];
    rects := rects + [EntryMarker(side, plotLength, plotWidth)];

    var containers := PlaceContainers(side, plotLength, plotWidth, numContainers);
    rects := rects + containers;

    var stations, warnings := CheckedStations(plotLength, plotWidth, washLength, washWidth, numWash);
    rects := rects + stations;
    rects := rects + [MainDriveway(plotWidth)];
    layout := Layout(rects, warnings);

    ContainersLaidOut(side, plotLength, plotWidth, numContainers);
    CheckedStationsInside(plotLength, plotWidth, washLength, washWidth, numWash);
    assert rects == [PlotBorder(plotLength, plotWidth), EntryMarker(side, plotLength, plotWidth)]
                    + containers + (stations + [MainDriveway(plotWidth)]);
    CountKindFramed([PlotBorder(plotLength, plotWidth), EntryMarker(side, plotLength, plotWidth)],
                    containers, stations + [MainDriveway(plotWidth)], Container);
  }
}
