/** container_yard_streamlit.py: the first Streamlit page. */
module YardStreamlit {
  import opened Geometry
  import opened Capacity
  import opened RowSweep
  import opened Wash

  /** The patches and the warning the page draws for the given inputs; the
      input widgets guarantee the minimums required here. */
  method Generate(plotLength: real, plotWidth: real, numContainers: int, numWash: int)
    returns (layout: Layout)
    requires plotLength >= 10.0 && plotWidth >= 10.0 && numContainers >= 1 && numWash >= 1
    ensures layout.rects == [PlotBorder(plotLength, plotWidth)]
                            + HorizontalGrid(plotWidth, RowCapacity(plotLength), numContainers)
                            + [WashBlock(plotLength, numWash), MainDriveway(plotWidth)]
    ensures CountKind(layout.rects, Container) == numContainers
    ensures layout.warnings
            == if RequiredHeight(CeilDiv(numContainers, RowCapacity(plotLength))) > plotWidth
               then [RowsExceedPlot] else []
  {
    var perRow := RowCapacity(plotLength);
    var numRows := CeilDiv(numContainers, perRow);
    var requiredHeight := RequiredHeight(numRows);

    var rects := [PlotBorder(plotLength, plotWidth)];
    var containers := GuardedRowSweep(plotLength, plotWidth, numContainers, perRow, numRows);
    RowsHoldAll(numContainers, perRow);
    rects := rects + containers;
    rects := rects + [WashBlock(plotLength, numWash)];
    rects := rects + [MainDriveway(plotWidth)];

    var warnings := [];
    if requiredHeight > plotWidth {
      warnings := warnings + [RowsExceedPlot];
    }
    layout := Layout(rects, warnings);

    HorizontalGridLaidOut(plotLength, plotWidth, perRow, numContainers);
    CountKindFramed([PlotBorder(plotLength, plotWidth)], containers,
                    [WashBlock(plotLength, numWash), MainDriveway(plotWidth)], Container);
  }
}
