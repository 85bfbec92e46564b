/** Washing stations: the single block of the first two scripts and the
    per-station stacks of the later three. */
module Wash {
  import opened Geometry

  const BLOCK_WIDTH: real := 10.0
  const BLOCK_HEIGHT_PER_STATION: real := 8.0

  /** container_yard_streamlit.py and container_yard_gui.py: one block in the
      lower-right corner, 8 m high per requested station, with no fit check. */
  function WashBlock(plotLength: real, numWash: int): (r: Rect)
    ensures r.kind == WashStation && r.w == BLOCK_WIDTH && r.x + r.w == plotLength - MARGIN
    ensures r.x == plotLength - 11.0 && r.y == MARGIN
    ensures r.h == numWash as real * BLOCK_HEIGHT_PER_STATION
  {
    Rect(WashStation, plotLength - BLOCK_WIDTH - MARGIN, MARGIN, BLOCK_WIDTH,
         BLOCK_HEIGHT_PER_STATION * numWash as real)
  }

  /** Bottom edge of station i: stations are stacked upwards from the bottom
      margin, separated by WASH_GAP. */
  function StationY(washWidth: real, i: int): real {
    MARGIN + i as real * (washWidth + WASH_GAP)
  }

  /** Station i, `washLength` long, against the right margin. */
  function StationRect(plotLength: real, washLength: real, washWidth: real, i: int): Rect {
    Rect(WashStation, plotLength - washLength - MARGIN, StationY(washWidth, i), washLength, washWidth)
  }

  /** The two placement tests found in the scripts. */
  datatype WashRule =
    | TopClearance            // container_yard_streamlit_final.py: the top margin stays clear
    | TopClearanceOffDriveway // FINAL_COMPLETE / FINAL_CORRECTED: and the station starts right of the driveway

  predicate StationFits(rule: WashRule, plotLength: real, plotWidth: real,
                        washLength: real, washWidth: real, i: int)
  {
    match rule
    case TopClearance =>
      StationY(washWidth, i) + washWidth + MARGIN <= plotWidth
    case TopClearanceOffDriveway =>
      StationY(washWidth, i) + washWidth <= plotWidth - MARGIN
      && plotLength - washLength - MARGIN >= ROAD_WIDTH
  }

  /** The stations among the first `k` that pass the test, in index order. */
  function PlacedStations(rule: WashRule, plotLength: real, plotWidth: real,
                          washLength: real, washWidth: real, k: nat): seq<Rect>
  {
    if k == 0 then []
    else PlacedStations(rule, plotLength, plotWidth, washLength, washWidth, k - 1)
         + (if StationFits(rule, plotLength, plotWidth, washLength, washWidth, k - 1)
            then [StationRect(plotLength, washLength, washWidth, k - 1)] else [])
  }

  lemma StationYStep(washWidth: real, i: int)
    ensures StationY(washWidth, i + 1) == StationY(washWidth, i) + washWidth + WASH_GAP
  {
  }

  /** Stations higher up start strictly higher, at least one station plus one gap above. */
  lemma {:induction false} StationYIncreasing(washWidth: real, i: int, j: int)
    requires washWidth > 0.0 && 0 <= i < j
    ensures StationY(washWidth, i) + washWidth + WASH_GAP <= StationY(washWidth, j)
    decreases j - i
  {
    StationYStep(washWidth, j - 1);
    if i < j - 1 {
      StationYIncreasing(washWidth, i, j - 1);
    }
  }

  /** A station that fits means every lower station fits too. */
  lemma FitsDownward(rule: WashRule, plotLength: real, plotWidth: real,
                     washLength: real, washWidth: real, i: int, j: int)
    requires washWidth > 0.0 && 0 <= i < j
    requires StationFits(rule, plotLength, plotWidth, washLength, washWidth, j)
    ensures StationFits(rule, plotLength, plotWidth, washLength, washWidth, i)
  {
    StationYIncreasing(washWidth, i, j);
  }

  /** The placed stations are exactly the first p stations, p <= k, each
      of which passes the test, while every later requested station fails it. */
  lemma {:induction false} PlacedStationsArePrefix(rule: WashRule, plotLength: real, plotWidth: real,
                                                   washLength: real, washWidth: real, k: nat)
    requires washWidth > 0.0
    ensures |PlacedStations(rule, plotLength, plotWidth, washLength, washWidth, k)| <= k
    ensures forall j :: 0 <= j < |PlacedStations(rule, plotLength, plotWidth, washLength, washWidth, k)| ==>
              PlacedStations(rule, plotLength, plotWidth, washLength, washWidth, k)[j]
                == StationRect(plotLength, washLength, washWidth, j)
              && StationFits(rule, plotLength, plotWidth, washLength, washWidth, j)
    ensures forall j :: |PlacedStations(rule, plotLength, plotWidth, washLength, washWidth, k)| <= j < k ==>
              !StationFits(rule, plotLength, plotWidth, washLength, washWidth, j)
  {
    if k > 0 {
      var prev := PlacedStations(rule, plotLength, plotWidth, washLength, washWidth, k - 1);
      PlacedStationsArePrefix(rule, plotLength, plotWidth, washLength, washWidth, k - 1);
      if StationFits(rule, plotLength, plotWidth, washLength, washWidth, k - 1) {
        if |prev| < k - 1 {
          FitsDownward(rule, plotLength, plotWidth, washLength, washWidth, |prev|, k - 1);
        }
      }
    }
  }

  /** Placed stations never overlap one another. */
  lemma PlacedStationsDisjoint(rule: WashRule, plotLength: real, plotWidth: real,
                               washLength: real, washWidth: real, k: nat)
    requires washWidth > 0.0
    ensures PairwiseDisjoint(PlacedStations(rule, plotLength, plotWidth, washLength, washWidth, k))
  {
    var ps := PlacedStations(rule, plotLength, plotWidth, washLength, washWidth, k);
    PlacedStationsArePrefix(rule, plotLength, plotWidth, washLength, washWidth, k);
    forall i, j | 0 <= i < j < |ps| ensures Disjoint(ps[i], ps[j]) {
      StationYIncreasing(washWidth, i, j);
    }
  }

  /** Under the FINAL_COMPLETE / FINAL_CORRECTED rule every placed station is
      right of the driveway band and below the top margin. */
  lemma CheckedStationsInside(plotLength: real, plotWidth: real, washLength: real, washWidth: real, k: nat)
    requires washWidth > 0.0
    ensures forall j :: 0 <= j < |PlacedStations(TopClearanceOffDriveway, plotLength, plotWidth, washLength, washWidth, k)| ==>
              var s := PlacedStations(TopClearanceOffDriveway, plotLength, plotWidth, washLength, washWidth, k)[j];
              s.kind == WashStation && Disjoint(s, MainDriveway(plotWidth))
              && MARGIN <= s.y && s.y + s.h <= plotWidth - MARGIN
  {
    PlacedStationsArePrefix(TopClearanceOffDriveway, plotLength, plotWidth, washLength, washWidth, k);
    var ps := PlacedStations(TopClearanceOffDriveway, plotLength, plotWidth, washLength, washWidth, k);
    forall j | 0 <= j < |ps| ensures MARGIN <= ps[j].y {
      if j > 0 {
        StationYIncreasing(washWidth, 0, j);
      }
    }
  }

  /** Wash loop of container_yard_streamlit_final.py: a station that does not
      fit under the top margin is silently left out. */
  method StackedStations(plotLength: real, plotWidth: real, washLength: real, washWidth: real, numWash: nat)
    returns (stations: seq<Rect>)
    ensures stations == PlacedStations(TopClearance, plotLength, plotWidth, washLength, washWidth, numWash)
  {
    stations := [];
    var washX := plotLength - washLength - MARGIN;
    var washStartY := MARGIN;
    var i := 0;
    while i < numWash
      invariant 0 <= i <= numWash
      invariant stations == PlacedStations(TopClearance, plotLength, plotWidth, washLength, washWidth, i)
    {
      var wy := washStartY + i as real * (washWidth + WASH_GAP);
      if wy + washWidth + MARGIN <= plotWidth {
        stations := stations + [Rect(WashStation, washX, wy, washLength, washWidth)];
      }
      i := i + 1;
    }
  }

  /** Wash loop of FINAL_COMPLETE and FINAL_CORRECTED: a station that does not
      fit under the top margin, or would start on the driveway, is replaced by
      one warning. */
  method CheckedStations(plotLength: real, plotWidth: real, washLength: real, washWidth: real, numWash: nat)
    returns (stations: seq<Rect>, warnings: seq<Warning>)
    ensures stations == PlacedStations(TopClearanceOffDriveway, plotLength, plotWidth, washLength, washWidth, numWash)
    ensures |stations| + |warnings| == numWash
    ensures forall w :: w in warnings ==> w == WashStationRejected
  {
    stations, warnings := [], [];
    var washX := plotLength - washLength - MARGIN;
    var washYStart := MARGIN;
    var i := 0;
    while i < numWash
      invariant 0 <= i <= numWash
      invariant stations == PlacedStations(TopClearanceOffDriveway, plotLength, plotWidth, washLength, washWidth, i)
      invariant |stations| + |warnings| == i
      invariant forall w :: w in warnings ==> w == WashStationRejected
    {
      var wy := washYStart + i as real * (washWidth + WASH_GAP);
      if wy + washWidth <= plotWidth - MARGIN && washX >= ROAD_WIDTH {
        stations := stations + [Rect(WashStation, washX, wy, washLength, washWidth)];
      } else {
        warnings := warnings + [WashStationRejected];
      }
      i := i + 1;
    }
  }
}
