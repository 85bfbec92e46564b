/** container_yard_streamlit_final.py: orientation chosen by the entry side,
    stacked washing stations. */
module YardFinal {
  import opened Geometry
  import opened Capacity
  import opened RowSweep
  import opened Wash

  /** Entry on the short side: rows across the plot length. Entry on the long
      side: columns down the plot width. The input minimum keeps it positive. */
  function PerLine(side: EntrySide, plotLength: real, plotWidth: real): (c: int)
    ensures plotLength >= 10.0 && plotWidth >= 10.0 ==> c >= 1
    ensures side == ShortSide ==> c as real * CONTAINER_LENGTH <= plotLength - 2.0 * MARGIN < (c + 1) as real * CONTAINER_LENGTH
    ensures side == LongSide ==> c as real * CONTAINER_LENGTH <= plotWidth - 2.0 * MARGIN < (c + 1) as real * CONTAINER_LENGTH
  {
    if side == ShortSide then RowCapacity(plotLength) else RowCapacity(plotWidth)
  }

  /** The containers drawn, in drawing order. */
  function Containers(side: EntrySide, plotLength: real, plotWidth: real, numContainers: nat): seq<Rect>
    requires plotLength >= 10.0 && plotWidth >= 10.0
  {
    if side == ShortSide then HorizontalGrid(plotWidth, RowCapacity(plotLength), numContainers)
    else VerticalGrid(plotWidth, RowCapacity(plotWidth), numContainers)
  }

  /** Both orientations draw every requested container, inside the margins
      across the lines, and none overlapping another. */
  lemma ContainersLaidOut(side: EntrySide, plotLength: real, plotWidth: real, numContainers: nat)
    requires plotLength >= 10.0 && plotWidth >= 10.0
    ensures |Containers(side, plotLength, plotWidth, numContainers)| == numContainers
    ensures forall k :: 0 <= k < numContainers ==>
              Containers(side, plotLength, plotWidth, numContainers)[k].kind == Container
    ensures side == ShortSide ==> forall k :: 0 <= k < numContainers ==>
              MARGIN <= Containers(side, plotLength, plotWidth, numContainers)[k].x
              && Containers(side, plotLength, plotWidth, numContainers)[k].x + CONTAINER_LENGTH
                 <= plotLength - MARGIN
    ensures side == LongSide ==> forall k :: 0 <= k < numContainers ==>
              MARGIN <= Containers(side, plotLength, plotWidth, numContainers)[k].y
              && Containers(side, plotLength, plotWidth, numContainers)[k].y + CONTAINER_LENGTH
                 <= plotWidth - MARGIN
    ensures PairwiseDisjoint(Containers(side, plotLength, plotWidth, numContainers))
  {
    if side == ShortSide {
      HorizontalGridLaidOut(plotLength, plotWidth, RowCapacity(plotLength), numContainers);
    } else {
      VerticalGridLaidOut(plotWidth, RowCapacity(plotWidth), numContainers);
    }
  }

  method Generate(plotLength: real, plotWidth: real, numContainers: int, numWash: int,
                  washWidth: real, washLength: real, side: EntrySide)
    returns (layout: Layout)
    requires plotLength >= 10.0 && plotWidth >= 10.0 && numContainers >= 1 && numWash >= 1
    requires washWidth >= 1.0 && washLength >= 1.0
    ensures layout.rects == [PlotBorder(plotLength, plotWidth)]
                            + Containers(side, plotLength, plotWidth, numContainers)
                            + PlacedStations(TopClearance, plotLength, plotWidth, washLength, washWidth, numWash)
                            + [MainDriveway(plotWidth)]
    ensures CountKind(layout.rects, Container) == numContainers
    ensures layout.warnings == []
  {
    var perRow := PerLine(side, plotLength, plotWidth);
    var numRows := CeilDiv(numContainers, perRow);
    RowsHoldAll(numContainers, perRow);

    var rects := [PlotBorder(plotLength, plotWidth)];
    var containers;
    if side == ShortSide {
      containers := PlainRowSweep(plotWidth, numContainers, perRow, numRows);
    } else {
      containers := PlainColumnSweep(plotWidth, numContainers, perRow, numRows);
    }
    rects := rects + containers;
    var stations := StackedStations(plotLength, plotWidth, washLength, washWidth, numWash);
    rects := rects + stations;
    rects := rects + [MainDriveway(plotWidth)];
    layout := Layout(rects, []);

    ContainersLaidOut(side, plotLength, plotWidth, numContainers);
    PlacedStationsArePrefix(TopClearance, plotLength, plotWidth, washLength, washWidth, numWash);
    assert forall i :: 0 <= i < |stations| ==> stations[i].kind == WashStation;
    assert rects == [PlotBorder(plotLength, plotWidth)] + containers + (stations + [MainDriveway(plotWidth)]);
    CountKindFramed([PlotBorder(plotLength, plotWidth)], containers,
                    stations + [MainDriveway(plotWidth)], Container);
  }
}
