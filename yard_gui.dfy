/** container_yard_gui.py: the body of `generate_layout`, run when the Tk
    button is pressed, after the five entry fields have been parsed. */
module YardGui {
  import opened Geometry
  import opened Capacity
  import opened RowSweep
  import opened Wash

  /** What pressing the button produces: the figure, or the uncaught
      ZeroDivisionError of the row-count division when no
      container fits in a row (only ValueError is caught). */
  datatype Outcome = Shown(layout: Layout) | ZeroDivisionError

  /** Containers the sweep places: all of them when a row holds at least one,
      none when the row capacity is negative or no containers are asked for. */
  lemma ContainerCount(numContainers: int, perRow: int)
    requires perRow != 0
    ensures GridFill(numContainers, perRow, CeilDiv(numContainers, perRow))
            == if perRow >= 1 && numContainers >= 1 then numContainers else 0
  {
    if perRow >= 1 && numContainers >= 1 {
      RowsHoldAll(numContainers, perRow);
    }
  }

  /** The parsed fields are any numbers: there is no input minimum. */
  method Generate(plotLength: real, plotWidth: real, numContainers: int, numWash: int)
    returns (outcome: Outcome)
    ensures RowCapacity(plotLength) == 0 ==> outcome == ZeroDivisionError
    ensures RowCapacity(plotLength) != 0 ==>
              var perRow := RowCapacity(plotLength);
              var numRows := CeilDiv(numContainers, perRow);
              outcome == Shown(Layout(
                [PlotBorder(plotLength, plotWidth)]
                + HorizontalGrid(plotWidth, perRow, GridFill(numContainers, perRow, numRows))
                + [WashBlock(plotLength, numWash), MainDriveway(plotWidth)],
                if RequiredHeight(numRows) > plotWidth then [RowsExceedPlot] else []))
    ensures outcome.Shown? ==>
              CountKind(outcome.layout.rects, Container)
              == if plotLength >= 8.0 && numContainers >= 1 then numContainers else 0
  {
    var perRow := RowCapacity(plotLength);
    if perRow == 0 {
      return ZeroDivisionError;
    }
    var numRows := CeilDiv(numContainers, perRow);
    var requiredHeight := RequiredHeight(numRows);

    var rects := [PlotBorder(plotLength, plotWidth)];
    var containers := GuardedRowSweep(plotLength, plotWidth, numContainers, perRow, numRows);
    rects := rects + containers;
    rects := rects + [WashBlock(plotLength, numWash)];
    rects := rects + [MainDriveway(plotWidth)];

    var warnings := [];
    if requiredHeight > plotWidth {
      warnings := warnings + [RowsExceedPlot];
    }
    outcome := Shown(Layout(rects, warnings));

    ContainerCount(numContainers, perRow);
    CapacityPositiveIff(plotLength);
    if perRow >= 1 {
      HorizontalGridLaidOut(plotLength, plotWidth, perRow, |containers|);
    }
    CountKindFramed([PlotBorder(plotLength, plotWidth)], containers,
                    [WashBlock(plotLength, numWash), MainDriveway(plotWidth)], Container);
  }
}
