/** container_yard_streamlit_FINAL_CORRECTED.py: rows always horizontal,
    a middle crossroad the rows step over, washing stations checked against
    the driveway, and an entry marker. */
module YardCorrected {
  import opened Geometry
  import opened Capacity
  import opened Wash
  import Crossroad

  /** The entry marker, centred on the bottom edge inside the plot (short
      side) or on the right edge just outside it (long side). */
  function EntryMarker(side: EntrySide, plotLength: real, plotWidth: real): (r: Rect)
    ensures r.kind == Entry
    ensures side == ShortSide ==>
              r.x + r.w / 2.0 == plotLength / 2.0 && r.w == ENTRY_WIDTH && r.y == 0.0 && r.h == 1.0
    ensures side == LongSide ==>
              r.y + r.h / 2.0 == plotWidth / 2.0 && r.h == ENTRY_WIDTH && r.x == plotLength && r.w == 1.0
  {
    if side == ShortSide then
      Rect(Entry, (plotLength - ENTRY_WIDTH) / 2.0, 0.0, ENTRY_WIDTH, 1.0)
    else
      Rect(Entry, plotLength, (plotWidth - ENTRY_WIDTH) / 2.0, 1.0, ENTRY_WIDTH)
  }

  /** The layout. `reach` is how far below a row the crossroad shift test
      looks: Crossroad.WRITTEN_REACH gives the script as written, and
      Crossroad.INTENDED_REACH the corrected test, under which no container
      meets the crossroad (see Crossroad.RowOverlapsCrossroadAsWritten).
      The entry side moves only the entry marker. */
  method Generate(plotLength: real, plotWidth: real, numContainers: int, numWash: int,
                  washWidth: real, washLength: real, side: EntrySide, reach: real)
    returns (layout: Layout)
    requires plotLength >= 10.0 && plotWidth >= 10.0 && numContainers >= 1 && numWash >= 1
    requires washWidth >= 1.0 && washLength >= 1.0
    ensures layout.rects
            == [PlotBorder(plotLength, plotWidth), EntryMarker(side, plotLength, plotWidth)]
               + Crossroad.Grid(plotWidth, reach, RowCapacity(plotLength), numContainers)
               + PlacedStations(TopClearanceOffDriveway, plotLength, plotWidth, washLength, washWidth, numWash)
               + [MainDriveway(plotWidth), Crossroad.CrossroadBand(plotLength, plotWidth)]
    ensures CountKind(layout.rects, Container) == numContainers
    ensures |layout.warnings|
            == numWash - |PlacedStations(TopClearanceOffDriveway, plotLength, plotWidth, washLength, washWidth, numWash)|
    ensures forall w :: w in layout.warnings ==> w == WashStationRejected
    ensures reach == Crossroad.INTENDED_REACH ==>
              forall k :: 2 <= k < 2 + numContainers ==>
                Disjoint(layout.rects[k], Crossroad.CrossroadBand(plotLength, plotWidth))
  {
    var perRow := RowCapacity(plotLength);
    var numRows := CeilDiv(numContainers, perRow);
    RowsHoldAll(numContainers, perRow);

    var rects := [PlotBorder(plotLength, plotWidth)];
    rects := rects + [EntryMarker(side, plotLength, plotWidth)];
    var containers := Crossroad.Sweep(plotWidth, numContainers, perRow, numRows, reach);
    rects := rects + containers;
    var stations, warnings := CheckedStations(plotLength, plotWidth, washLength, washWidth, numWash);
    rects := rects + stations;
    rects := rects + [MainDriveway(plotWidth)];
    rects := rects + [Crossroad.CrossroadBand(plotLength, plotWidth)];
    layout := Layout(rects, warnings);

    Crossroad.GridDisjoint(plotWidth, reach, perRow, numContainers);
    CheckedStationsInside(plotLength, plotWidth, washLength, washWidth, numWash);
    var after := stations + [MainDriveway(plotWidth), Crossroad.CrossroadBand(plotLength, plotWidth)];
    assert rects == [PlotBorder(plotLength, plotWidth), EntryMarker(side, plotLength, plotWidth)]
                    + containers + after;
    if reach == Crossroad.INTENDED_REACH {
      Crossroad.GridClearOfCrossroad(plotLength, plotWidth, perRow, numContainers);
      DisjointFramed([PlotBorder(plotLength, plotWidth), EntryMarker(side, plotLength, plotWidth)],
                     containers, after, Crossroad.CrossroadBand(plotLength, plotWidth));
    }
    CountKindFramed([PlotBorder(plotLength, plotWidth), EntryMarker(side, plotLength, plotWidth)],
                    containers, after, Container);
  }
}
