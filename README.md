# Container yard layout, modelled in Dafny

The repository contains five scripts that draw the layout of a container
yard on a rectangular plot: a Streamlit page, a Tkinter window and three
later Streamlit versions. Each script computes how many 6 m x 2.4 m
containers fit in a row. It sweeps rows (or columns) of containers from
the top of the plot, separated by 4 m access lanes, and stops at the
requested number. It adds washing stations in the lower right corner and a
4 m driveway along the left edge. The last two versions also draw an entry
marker, and the last one a crossroad across the middle of the plot.

This project models the geometry each script produces: every rectangle it
draws, in drawing order, and every warning it raises. It proves what the
layouts guarantee, such as exact container counts, margins, no overlaps,
the washing-station rules and the crossroad shift.

Lengths are exact `real`s. Container counts are `int`s. Python's floor
division `//` is `.Floor` and `math.ceil` of an integer quotient is
`Capacity.CeilDiv`.

Modules, following the structure of the scripts:

- `Geometry`: the constants, rectangles, overlap, counting by kind, and
  `Fill`. `Fill` is the number of sweep positions filled when a sweep stops
  at the requested count.
- `Capacity`: containers per row, the ceiling row count and the required
  height.
- `RowSweep`: the nested sweep loops of the first four scripts, as methods.
  Each outer loop over rows calls a method for one row. Each method is
  proved equal to a grid specification function, and the grids' layout
  properties are proved as lemmas.
- `Wash`: the fixed washing block of the first two scripts, and the two
  stacked-station loops of the later three.
- `Crossroad`: the row sweep of FINAL_CORRECTED with its crossroad shift.
  The shift test's look-down distance `reach` is a parameter, so the same
  code gives the script as written and the corrected version.
- `YardStreamlit`, `YardGui`, `YardFinal`, `YardComplete`, `YardCorrected`:
  one `Generate` per script. Each returns the layout's rectangle sequence
  and its warnings.

`Generate` takes the widget values the script reads as parameters. Its
`requires` are the widgets' minimum values: 10 m for the plot sides, 1 for
the counts, and 1 m for the station sizes. The Tk version has no
minimums, so `YardGui.Generate` has no `requires`. Its uncaught
ZeroDivisionError, raised when no container fits in a row (plots at least
2 m and shorter than 8 m long), is an outcome of its own. Below 2 m the
capacity is negative, the division succeeds and an empty sweep is drawn.

## Model

| member | source | states |
|---|---|---|
| Capacity.RowCapacity | container_yard_streamlit.py:24 | the capacity is the largest c with c containers of 6 m fitting between the two 1 m margins |
| Capacity.CeilDiv | container_yard_streamlit.py:25 | the row count q is the ceiling of n / cpr: (q-1)·cpr < n ≤ q·cpr for cpr > 0 (and the mirrored bounds for cpr < 0) |
| Capacity.CapacityPositiveIff | container_yard_streamlit.py:11-25 | a row holds at least one container iff the span is at least 8 m, so the 10 m input minimum keeps the row-count division defined |
| Capacity.RowsHoldAll | container_yard_streamlit.py:24-25 | the rows hold all n containers and one row fewer would not: (rows-1)·cpr < n ≤ rows·cpr; a sweep over those rows fills exactly n slots |
| Capacity.RequiredHeight | container_yard_streamlit.py:26 | the required height is two margins, one container width and one 6.4 m row pitch per further row; its meaning for the layout is proved by RowSweep.HeightWarningIffBelowMargin |
| Capacity.DefaultCapacity | container_yard_streamlit.py:11-26 | default 80 x 38 plot with 50 containers: 13 per row, 4 rows, 23.6 m required, no warning |
| Geometry.PlotBorder | container_yard_streamlit.py:36-38 | the border is the whole plot, from the origin to (plot length, plot width) |
| Geometry.MainDriveway | container_yard_streamlit.py:73-76 | the driveway is the 4 m band along the left edge, full plot height, drawn the same way in every script |
| Geometry.Fill | container_yard_streamlit.py:51-53 | a sweep that stops at `wanted` fills min(wanted, slots) positions, never more than either |
| RowSweep.GuardedRowSweep | container_yard_streamlit.py:47-60 | the nested loop (the same in container_yard_gui.py) draws exactly the first GridFill(n, cpr, rows) slots of the horizontal grid, in order |
| RowSweep.GuardedRow | container_yard_streamlit.py:50-59 | one row: the right-margin guard, x advancing only after a placement, and the break at n extend the grid by this row's share of slots |
| RowSweep.SlotWithinMargin | container_yard_streamlit.py:54 | for the first cpr slots of a row the right-margin guard always holds |
| RowSweep.HorizontalGridLaidOut | container_yard_streamlit.py:47-60 | every container is 6 x 2.4, lies between the left and right margins, each row starts at x = 1, and no two containers overlap |
| RowSweep.HeightWarningIffBelowMargin | container_yard_streamlit.py:87-88 | the "not enough vertical space" warning fires iff some container's bottom edge falls below the bottom margin |
| Wash.WashBlock | container_yard_streamlit.py:63-69 | the wash block is 10 m wide, starts at x = plot length - 11 so it ends at the right margin, starts at the bottom margin and is 8 m high per station |
| YardStreamlit.Generate | container_yard_streamlit.py:24-88 | the drawn rectangles are border, the full horizontal grid of n containers, wash block and driveway; exactly n containers; the warning iff the required height exceeds the plot width |
| YardGui.ContainerCount | container_yard_gui.py:21-54 | the sweep draws all n containers when a row holds at least one and n ≥ 1, and none for a negative capacity or n < 1 |
| YardGui.Generate | container_yard_gui.py:8-86 | ZeroDivisionError exactly when the row capacity is zero (plot length from 2 m up to but not including 8 m); otherwise the same rectangles and warning as the Streamlit page, with n containers when the plot is at least 8 m long and n ≥ 1, and none otherwise |
| YardFinal.PerLine | container_yard_streamlit_final.py:33-40 | the per-line capacity comes from the plot length for the short side and from the plot width for the long side, and is positive under the input minimums |
| RowSweep.PlainRowSweep | container_yard_streamlit_final.py:55-67 | the horizontal branch draws exactly the first GridFill(n, cpr, rows) slots of the horizontal grid |
| RowSweep.PlainRow | container_yard_streamlit_final.py:58-66 | one row extends the grid by its share of slots, stopping at n |
| RowSweep.PlainColumnSweep | container_yard_streamlit_final.py:68-80 | the vertical branch draws exactly the first GridFill(n, cpr, columns) slots of the vertical grid |
| RowSweep.PlainColumn | container_yard_streamlit_final.py:71-79 | one column extends the vertical grid by its share of slots, stopping at n |
| RowSweep.VerticalGridLaidOut | container_yard_streamlit_final.py:68-80 | every vertical container is 2.4 x 6, lies between the top and bottom margins, and no two overlap |
| YardFinal.ContainersLaidOut | container_yard_streamlit_final.py:54-80 | both orientations draw exactly n containers, inside the margins across their lines, none overlapping |
| Wash.StackedStations | container_yard_streamlit_final.py:83-91 | the wash loop draws exactly the stations whose top stays a margin below the plot edge, in index order |
| Wash.PlacedStationsArePrefix | container_yard_streamlit_final.py:85-87 | the placed stations are stations 0..p-1 at their stacked positions, each fits, and every later one does not |
| Wash.PlacedStationsDisjoint | container_yard_streamlit_final.py:85-87 | placed stations do not overlap each other |
| Wash.StationYIncreasing | container_yard_streamlit_final.py:86 | a later station starts at least one station width plus the 2 m gap above an earlier one |
| YardFinal.Generate | container_yard_streamlit_final.py:33-96 | rectangles are border, the oriented grid of n containers, the fitting stations and the driveway; exactly n containers; no warnings |
| YardComplete.EntryMarker | container_yard_streamlit_FINAL_COMPLETE.py:54-64 | the 6 m entry is centred on the top edge just above the plot, or on the left edge just left of it |
| RowSweep.SkipRowSweep | container_yard_streamlit_FINAL_COMPLETE.py:67-80 | the horizontal branch draws exactly the first GridFill(n, cpr-1, rows) slots of the grid whose first slot in every row is skipped |
| RowSweep.SkipRow | container_yard_streamlit_FINAL_COMPLETE.py:71-79 | one row: the slot at x = 1 is skipped but uses an iteration, later slots are filled until n |
| RowSweep.SkipColumnSweep | container_yard_streamlit_FINAL_COMPLETE.py:81-93 | the vertical branch draws exactly the first GridFill(n, cpr, columns-1) slots, the whole first column being skipped |
| RowSweep.SkipColumn | container_yard_streamlit_FINAL_COMPLETE.py:84-92 | one column: nothing in the column at x = 1, every slot of a later column until n |
| RowSweep.SkipFirstSlotGridLaidOut | container_yard_streamlit_FINAL_COMPLETE.py:70-80 | every horizontal container starts right of the driveway and ends before the right margin, none overlapping |
| RowSweep.SkipFirstColumnGridLaidOut | container_yard_streamlit_FINAL_COMPLETE.py:82-93 | every vertical container is right of the driveway and between the top and bottom margins, none overlapping |
| YardComplete.PlaceContainers | container_yard_streamlit_FINAL_COMPLETE.py:33-93 | the entry side selects the capacity and the branch; the result is the corresponding skipping grid |
| YardComplete.ContainerCount | container_yard_streamlit_FINAL_COMPLETE.py:67-93 | at most n containers; short side: all n iff n ≤ rows·(cpr-1), otherwise exactly rows·(cpr-1); long side: exactly (columns-1)·cpr < n, and none when n ≤ cpr |
| YardComplete.DefaultShortSideCount | container_yard_streamlit_FINAL_COMPLETE.py:67-80 | the defaults 80 x 38 with 50 containers and short-side entry draw 48 containers |
| YardComplete.ContainersLaidOut | container_yard_streamlit_FINAL_COMPLETE.py:66-93 | every container is clear of the driveway and of every other container |
| Wash.CheckedStations | container_yard_streamlit_FINAL_COMPLETE.py:96-106 | exactly the stations below the top margin and off the driveway are drawn; each other station gives one warning |
| Wash.CheckedStationsInside | container_yard_streamlit_FINAL_COMPLETE.py:96-106 | every drawn station is clear of the driveway and inside the top and bottom margins |
| YardComplete.Generate | container_yard_streamlit_FINAL_COMPLETE.py:33-111 | rectangles are border, entry, the skipping grid, the checked stations and the driveway; the container count is the grid's; one warning per rejected station |
| YardCorrected.EntryMarker | container_yard_streamlit_FINAL_CORRECTED.py:49-59 | the 6 m entry is centred on the bottom edge inside the plot, or on the right edge just outside it |
| Crossroad.CrossroadBand | container_yard_streamlit_FINAL_CORRECTED.py:99-101 | the crossroad band starts at x = 0 and spans the plot length, 4 m high, centred on the plot's half width |
| Crossroad.Sweep | container_yard_streamlit_FINAL_CORRECTED.py:62-79 | the row loop with its shift test draws exactly the first GridFill(n, cpr, rows) slots of the crossroad grid |
| Crossroad.Row | container_yard_streamlit_FINAL_CORRECTED.py:72-78 | one row extends the crossroad grid by its share of slots, stopping at n |
| Crossroad.RowsDescend | container_yard_streamlit_FINAL_CORRECTED.py:66-79 | every row is at least one pitch (6.4 m) below every earlier row |
| Crossroad.ShiftAtMostOnce | container_yard_streamlit_FINAL_CORRECTED.py:68-70 | at most one row of a layout is shifted for the crossroad, with the written or the corrected test |
| Crossroad.ShiftedRowBelowBand | container_yard_streamlit_FINAL_CORRECTED.py:68-70 | a shifted row lies entirely below the crossroad band |
| Crossroad.GridDisjoint | container_yard_streamlit_FINAL_CORRECTED.py:62-79 | the sweep's containers are all containers, each row starts at x = 1, and no two overlap |
| Crossroad.RowOverlapsCrossroadAsWritten | container_yard_streamlit_FINAL_CORRECTED.py:68 | as written, an 80 x 22 plot with 50 containers keeps row 1 unshifted at y = 12.2, overlapping the crossroad band |
| Crossroad.RowClearOfCrossroad | container_yard_streamlit_FINAL_CORRECTED.py:64-70 | with the corrected test, every row lies wholly above or wholly below the band |
| Crossroad.GridClearOfCrossroad | container_yard_streamlit_FINAL_CORRECTED.py:64-79 | with the corrected test, no container overlaps the crossroad band |
| YardCorrected.Generate | container_yard_streamlit_FINAL_CORRECTED.py:33-101 | for the shift test's reach (2.4 m as written, 4 m corrected): rectangles are border, entry, the crossroad grid of n containers, the checked stations, driveway and band; exactly n containers; one warning per rejected station; with the corrected reach no container meets the band |

## Left out

- app.py is not part of this model. It is a login form, CSV storage and charts, with no layout geometry.
- Text labels, colours, line widths, axis limits, grid, legend, the logo image and the display calls (`st.pyplot`, `plt.show`) are cosmetic and are not modelled.
- The labels "ENTRY FROM SHORT/LONG SIDE" of container_yard_streamlit.py and container_yard_gui.py only change text, so those two models take no entry side.
- Widget plumbing and the Tk field parsing are not modelled. `YardGui.Generate` starts after parsing, and the ValueError dialog for unparsable fields is left out.
- IEEE floating-point rounding is not modelled; all lengths and positions are exact reals.
- The text form of the warnings and their placement on the page are not modelled. A warning is a `Warning` value in the layout.

## Findings

| source | as written | input that shows it | evidently intended | confidence | as-written member | corrected member |
|---|---|---|---|---|---|---|
| container_yard_streamlit_FINAL_CORRECTED.py:68 | the shift test looks only one container width (2.4 m) below the row's y for the crossroad band | 80 x 22 plot, 50 containers: row 1 stays at y = 12.2 and its containers cover y from 12.2 to 14.6, overlapping the band from 9 to 13 | the test looks one crossroad width (4 m) down, so every row clears the band | not executed | Crossroad.RowOverlapsCrossroadAsWritten | Crossroad.GridClearOfCrossroad |
