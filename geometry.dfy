/** Shared vocabulary of the container-yard layout scripts: the fixed
    dimensions, the rectangles a layout is drawn from, and the layout
    itself (rectangles in drawing order plus the diagnostics shown). */
module Geometry {

  // Dimensions fixed in every script (metres).
  const CONTAINER_LENGTH: real := 6.0
  const CONTAINER_WIDTH: real := 2.4
  const MARGIN: real := 1.0
  /** Gap between two rows of containers. */
  const ROW_GAP: real := 4.0
  /** Width of the driveway band along the left edge. */
  const ROAD_WIDTH: real := 4.0
  const WASH_GAP: real := 2.0
  const ENTRY_WIDTH: real := 6.0
  const CROSSROAD_WIDTH: real := 4.0

  /** Distance between the starts of two consecutive rows (or columns). */
  const ROW_PITCH: real := CONTAINER_WIDTH + ROW_GAP

  datatype Kind = Container | WashStation | Driveway | Crossroad | Entry | Border

  /** An axis-aligned rectangle with its lower-left corner at (x, y). */
  datatype Rect = Rect(kind: Kind, x: real, y: real, w: real, h: real)

  datatype Warning =
    | RowsExceedPlot       // "Not enough vertical space for all rows!"
    | WashStationRejected  // "Not enough vertical space or wash station conflicts with driveway."

  datatype EntrySide = ShortSide | LongSide

  /** The patches added to the axes, in order, and the warnings raised. */
  datatype Layout = Layout(rects: seq<Rect>, warnings: seq<Warning>)

  /** The interiors of a and b do not intersect (touching edges is allowed). */
  predicate Disjoint(a: Rect, b: Rect) {
    a.x + a.w <= b.x || b.x + b.w <= a.x || a.y + a.h <= b.y || b.y + b.h <= a.y
  }

  /** No two rectangles of rs overlap. */
  predicate PairwiseDisjoint(rs: seq<Rect>) {
    forall i, j :: 0 <= i < j < |rs| ==> Disjoint(rs[i], rs[j])
  }

  /** The plot outline, drawn first in every script. */
  function PlotBorder(plotLength: real, plotWidth: real): (r: Rect)
    ensures r.kind == Border && r.x == 0.0 && r.y == 0.0
    ensures r.x + r.w == plotLength && r.y + r.h == plotWidth
  {
    Rect(Border, 0.0, 0.0, plotLength, plotWidth)
  }

  /** The driveway band along the left edge, drawn full height in every script. */
  function MainDriveway(plotWidth: real): (r: Rect)
    ensures r.kind == Driveway && r.x == 0.0 && r.y == 0.0
    ensures r.w == ROAD_WIDTH && r.y + r.h == plotWidth
  {
    Rect(Driveway, 0.0, 0.0, ROAD_WIDTH, plotWidth)
  }

  /** Number of rectangles of the given kind. */
  function CountKind(rs: seq<Rect>, kind: Kind): (c: nat)
    ensures c <= |rs|
  {
    if rs == [] then 0
    else CountKind(rs[..|rs| - 1], kind) + (if rs[|rs| - 1].kind == kind then 1 else 0)
  }

  lemma {:induction false} CountKindConcat(a: seq<Rect>, b: seq<Rect>, kind: Kind)
    ensures CountKind(a + b, kind) == CountKind(a, kind) + CountKind(b, kind)
    decreases |b|
  {
    if b == [] {
      assert a + b == a;
    } else {
      assert (a + b)[..|a + b| - 1] == a + b[..|b| - 1];
      CountKindConcat(a, b[..|b| - 1], kind);
    }
  }

  lemma {:induction false} CountKindUniform(rs: seq<Rect>, kind: Kind)
    requires forall i :: 0 <= i < |rs| ==> rs[i].kind == kind
    ensures CountKind(rs, kind) == |rs|
    decreases |rs|
  {
    if rs != [] {
      CountKindUniform(rs[..|rs| - 1], kind);
    }
  }

  /** A run of rectangles of one kind, framed by rectangles of other kinds,
      contributes exactly its length to the count of that kind. */
  lemma CountKindFramed(before: seq<Rect>, run: seq<Rect>, after: seq<Rect>, kind: Kind)
    requires forall i :: 0 <= i < |before| ==> before[i].kind != kind
    requires forall i :: 0 <= i < |run| ==> run[i].kind == kind
    requires forall i :: 0 <= i < |after| ==> after[i].kind != kind
    ensures CountKind(before + run + after, kind) == |run|
  {
    CountKindNone(before, kind);
    CountKindNone(after, kind);
    CountKindUniform(run, kind);
    CountKindConcat(before, run, kind);
    CountKindConcat(before + run, after, kind);
  }

  lemma {:induction false} CountKindNone(rs: seq<Rect>, kind: Kind)
    requires forall i :: 0 <= i < |rs| ==> rs[i].kind != kind
    ensures CountKind(rs, kind) == 0
    decreases |rs|
  {
    if rs != [] {
      CountKindNone(rs[..|rs| - 1], kind);
    }
  }

  /** A run whose members all avoid `other` still does once framed. */
  lemma DisjointFramed(before: seq<Rect>, run: seq<Rect>, after: seq<Rect>, other: Rect)
    requires forall k :: 0 <= k < |run| ==> Disjoint(run[k], other)
    ensures forall k :: |before| <= k < |before| + |run| ==> Disjoint((before + run + after)[k], other)
  {
    forall k | |before| <= k < |before| + |run|
      ensures Disjoint((before + run + after)[k], other)
    {
      assert (before + run + after)[k] == run[k - |before|];
    }
  }

  /** How many of `slots` sweep positions receive a container when the sweep
      stops as soon as `wanted` containers are placed. */
  function Fill(wanted: int, slots: int): (placed: nat)
    ensures placed <= wanted || placed == 0
    ensures placed <= slots || placed == 0
    ensures 0 < wanted <= slots ==> placed == wanted
    ensures 0 < slots <= wanted ==> placed == slots
  {
    if wanted <= 0 || slots <= 0 then 0
    else if wanted <= slots then wanted
    else slots
  }
}
