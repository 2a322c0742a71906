/** The two SVG charts: the line chart's geometry (points, the smoothed path, the
    area under it, the axis labels) and its hover state, and the donut's arc
    arithmetic. Coordinates are exact reals; the text of the SVG `d` attribute is
    not modelled, only the drawing commands it encodes. */
module SVGCharts {
  import opened JsCore

  // ---------------------------------------------------------------------------
  // Line chart frame
  // ---------------------------------------------------------------------------

  const WIDTH: real := 1000.0
  const HEIGHT: real := 600.0
  const PADDING: real := 35.0
  const BOTTOM_PADDING: real := 100.0
  const CHART_WIDTH: real := WIDTH - 2.0 * PADDING
  const CHART_HEIGHT: real := HEIGHT - BOTTOM_PADDING - PADDING
  /** The y of the x-axis, where the area path closes. */
  const BASELINE: real := HEIGHT - BOTTOM_PADDING

  /** `Math.max(...data)`. */
  function MaxOf(data: seq<real>): (m: real)
    requires |data| >= 1
    ensures forall i :: 0 <= i < |data| ==> data[i] <= m
    ensures m in data
  {
    if |data| == 1 then data[0]
    else
      var rest := MaxOf(data[..|data| - 1]);
      if data[|data| - 1] > rest then data[|data| - 1] else rest
  }

  /** The x of point i of n: `(i / (n - 1)) * chartWidth + padding`. */
  function PointX(i: nat, n: nat): real
    requires n >= 2
  {
    (i as real / (n - 1) as real) * CHART_WIDTH + PADDING
  }

  /** The points spread evenly from the left padding to the right one. */
  lemma PointXSpread(n: nat, i: nat, j: nat)
    requires n >= 2 && i < j < n
    ensures PointX(0, n) == PADDING && PointX(n - 1, n) == WIDTH - PADDING
    ensures PADDING <= PointX(i, n) < PointX(j, n) <= WIDTH - PADDING
  {
    var d := (n - 1) as real;
    assert i as real / d < j as real / d;
    assert j as real / d <= 1.0;
  }

  /** A y for value `val` under vertical scale `max`:
      `(height - bottomPadding) - ((val / max) * chartHeight + padding)`. */
  function YFor(val: real, max: real): real
    requires max != 0.0
  {
    BASELINE - ((val / max) * CHART_HEIGHT + PADDING)
  }

  /** A coordinate as JavaScript computes it, where dividing by zero gives no number. */
  datatype Coord = Finite(v: real) | NotFinite

  /** The y of point i with the scale as written, `Math.max(...data) * 1.05`:
      a zero scale divides by zero. */
  function PointYAsWritten(data: seq<real>, i: nat): (y: Coord)
    requires i < |data|
    ensures y == NotFinite <==> MaxOf(data) == 0.0
  {
    var max := MaxOf(data) * 1.05;
    if max == 0.0 then NotFinite else Finite(YFor(data[i], max))
  }

  /** An all-zero series has zero as its maximum, so no point of it gets a y. */
  lemma ZeroSeriesHasNoY(n: nat, i: nat)
    requires i < n
    ensures PointYAsWritten(seq(n, _ => 0.0), i) == NotFinite
  {
    var zeros := seq(n, _ => 0.0);
    assert zeros[i] == 0.0;
    assert MaxOf(zeros) in zeros;
  }

  /** The vertical scale with the zero maximum guarded: 5% headroom over the largest
      value, or 1 when that is zero. */
  function Scale(data: seq<real>): (s: real)
    requires |data| >= 1
    ensures s != 0.0
    ensures MaxOf(data) != 0.0 ==> s == MaxOf(data) * 1.05
  {
    var max := MaxOf(data) * 1.05;
    if max == 0.0 then 1.0 else max
  }

  /** Wherever the written scale gives a y, the guarded scale gives the same one. */
  lemma ScaleAgreesWhenDefined(data: seq<real>, i: nat)
    requires i < |data|
    ensures PointYAsWritten(data, i).Finite? ==> PointYAsWritten(data, i).v == YFor(data[i], Scale(data))
  {
  }

  /** The y of point i with the guarded scale `Scale` in place of the source's
      `Math.max(...data) * 1.05`: the source's y wherever that is finite, and the zero
      line for an all-zero series, where the source divides 0 by 0. */
  function PointY(data: seq<real>, i: nat): real
    requires i < |data|
  {
    YFor(data[i], Scale(data))
  }

  /** For non-negative data every point lies inside the frame: zero on the zero
      line 465, the largest value highest, and a larger value always higher. */
  lemma PointYBounds(data: seq<real>, i: nat, j: nat)
    requires i < |data| && j < |data|
    requires forall k :: 0 <= k < |data| ==> data[k] >= 0.0
    ensures 0.0 < PointY(data, i) <= BASELINE - PADDING
    ensures PointY(data, i) == BASELINE - PADDING <==> data[i] == 0.0
    ensures data[i] < data[j] ==> PointY(data, j) < PointY(data, i)
  {
    var m := MaxOf(data);
    var s := Scale(data);
    if m == 0.0 {
      assert data[i] == 0.0 && data[j] == 0.0;
    } else {
      assert s > 0.0;
      QuotientBelowOne(data[i], s);
      DivideByPositive(0.0, data[i], s);
      if data[i] < data[j] {
        DivideByPositive(data[i], data[j], s);
      }
    }
  }

  lemma DivideByPositive(a: real, b: real, s: real)
    requires s > 0.0 && a <= b
    ensures a / s <= b / s
    ensures a < b ==> a / s < b / s
  {
    assert b / s - a / s == (b - a) / s;
  }

  lemma QuotientBelowOne(a: real, s: real)
    requires s > 0.0 && a < s
    ensures a / s < 1.0
  {
    assert (a / s) * s == a;
  }

  datatype Point = Point(x: real, y: real, val: real)

  /** `data.map((val, i) => ({ x, y, val }))`, with y from the guarded scale: each point
      carries its value at the source's x, and at the source's y wherever that is finite. */
  function Points(data: seq<real>): (pts: seq<Point>)
    requires |data| >= 2
    ensures |pts| == |data|
    ensures forall i :: 0 <= i < |pts| ==> pts[i] == Point(PointX(i, |data|), PointY(data, i), data[i])
    ensures forall i :: 0 <= i < |pts| && PointYAsWritten(data, i).Finite? ==> pts[i].y == PointYAsWritten(data, i).v
  {
    forall i | 0 <= i < |data| ensures PointYAsWritten(data, i).Finite? ==> PointY(data, i) == PointYAsWritten(data, i).v {
      ScaleAgreesWhenDefined(data, i);
    }
    seq(|data|, i requires 0 <= i < |data| => Point(PointX(i, |data|), PointY(data, i), data[i]))
  }

  // ---------------------------------------------------------------------------
  // Paths
  // ---------------------------------------------------------------------------

  /** The commands an SVG path string is made of. */
  datatype PathCmd =
    | MoveTo(x: real, y: real)
    | CurveTo(c1x: real, c1y: real, c2x: real, c2y: real, x: real, y: real)
    | LineTo(x: real, y: real)
    | ClosePath

  /** The cubic segment from `prev` to `p`: control points 35% of the way in from each
      end horizontally, at the height of their own end. */
  function Segment(prev: Point, p: Point): PathCmd {
    CurveTo(prev.x + (p.x - prev.x) * 0.35, prev.y, p.x - (p.x - prev.x) * 0.35, p.y, p.x, p.y)
  }

  /** `pathD`: the `reduce` that starts with a move to the first point and appends one
      segment per later point. */
  function PathOf(pts: seq<Point>): seq<PathCmd> {
    if pts == [] then []
    else if |pts| == 1 then [MoveTo(pts[0].x, pts[0].y)]
    else PathOf(pts[..|pts| - 1]) + [Segment(pts[|pts| - 2], pts[|pts| - 1])]
  }

  /** The path is one move to the first point and then one cubic segment per later
      point, segment k ending at point k and starting its curve from point k-1. */
  lemma {:induction false} PathShape(pts: seq<Point>)
    requires |pts| >= 1
    ensures |PathOf(pts)| == |pts|
    ensures PathOf(pts)[0] == MoveTo(pts[0].x, pts[0].y)
    ensures forall k :: 1 <= k < |pts| ==>
      PathOf(pts)[k].CurveTo? && PathOf(pts)[k].x == pts[k].x && PathOf(pts)[k].y == pts[k].y
      && PathOf(pts)[k].c1y == pts[k - 1].y && PathOf(pts)[k].c2y == pts[k].y
    ensures forall k :: 1 <= k < |pts| ==> PathOf(pts)[k] == Segment(pts[k - 1], pts[k])
  {
    if |pts| > 1 {
      var init := pts[..|pts| - 1];
      PathShape(init);
      forall k | 1 <= k < |pts| ensures PathOf(pts)[k] == Segment(pts[k - 1], pts[k]) {
        if k < |pts| - 1 {
          assert PathOf(pts)[k] == PathOf(init)[k];
          assert init[k - 1] == pts[k - 1] && init[k] == pts[k];
        }
      }
    }
  }

  /** Between points whose x grows, both control points lie between the two ends,
      the first before the second, so the curve never runs backwards. */
  lemma SegmentControlsBetween(prev: Point, p: Point)
    requires prev.x <= p.x
    ensures var s := Segment(prev, p);
      prev.x <= s.c1x <= s.c2x <= p.x
  {
  }

  /** The chart's own path: its control points all lie between the neighbouring
      points' x's. */
  lemma ChartPathControls(data: seq<real>, k: nat)
    requires |data| >= 2 && 1 <= k < |data|
    ensures var pts := Points(data);
      k < |PathOf(pts)| && PathOf(pts)[k].CurveTo?
      && pts[k - 1].x <= PathOf(pts)[k].c1x <= PathOf(pts)[k].c2x <= pts[k].x
  {
    var pts := Points(data);
    PathShape(pts);
    PointXSpread(|data|, k - 1, k);
    SegmentControlsBetween(pts[k - 1], pts[k]);
  }

  /** `areaD`: the line path, then down to the baseline under the last point, back
      along the baseline under the first point, and closed. */
  function AreaOf(pts: seq<Point>): (area: seq<PathCmd>)
    requires |pts| >= 1
    ensures |area| == |PathOf(pts)| + 3
    ensures area[..|PathOf(pts)|] == PathOf(pts)
    ensures area[|area| - 1] == ClosePath
  {
    PathOf(pts) + [LineTo(pts[|pts| - 1].x, BASELINE), LineTo(pts[0].x, BASELINE), ClosePath]
  }

  /** The area's two added lines lie on the baseline, spanning exactly the chart's
      horizontal extent, from the last point's x to the first's. */
  lemma AreaClosesOnBaseline(data: seq<real>)
    requires |data| >= 2
    ensures var area := AreaOf(Points(data));
      var n := |area|;
      area[n - 3] == LineTo(WIDTH - PADDING, BASELINE)
      && area[n - 2] == LineTo(PADDING, BASELINE)
      && area[0] == MoveTo(PADDING, PointY(data, 0))
  {
    var pts := Points(data);
    PathShape(pts);
    PointXSpread(|data|, 0, |data| - 1);
    assert AreaOf(pts)[0] == PathOf(pts)[0];
  }

  // ---------------------------------------------------------------------------
  // Axis labels
  // ---------------------------------------------------------------------------

  /** A `<text>` element of the axis: which label, where. */
  datatype Text = Text(index: nat, x: real, caption: string)

  /** The x of label i of n: `(i / (n - 1)) * (width - 2 * padding) + padding`. */
  function LabelX(i: nat, n: nat): real
    requires n >= 2
  {
    (i as real / (n - 1) as real) * (WIDTH - 2.0 * PADDING) + PADDING
  }

  /** `labels.map(...)` for the first k labels, empty ones rendering nothing. */
  function TextsUpTo(labels: seq<string>, k: nat): seq<Text>
    requires |labels| >= 2 && k <= |labels|
  {
    if k == 0 then []
    else
      var before := TextsUpTo(labels, k - 1);
      if labels[k - 1] == [] then before else before + [Text(k - 1, LabelX(k - 1, |labels|), labels[k - 1])]
  }

  function Texts(labels: seq<string>): seq<Text>
    requires |labels| >= 2
  {
    TextsUpTo(labels, |labels|)
  }

  /** Every text stands for a non-empty label before k, shows that label and sits at
      the label's own x. */
  lemma {:induction false} TextsSound(labels: seq<string>, k: nat)
    requires |labels| >= 2 && k <= |labels|
    ensures forall t :: t in TextsUpTo(labels, k) ==>
      t.index < k && t.caption == labels[t.index] && t.caption != [] && t.x == LabelX(t.index, |labels|)
  {
    if k > 0 {
      TextsSound(labels, k - 1);
    }
  }

  /** Every non-empty label before k has its text. */
  lemma {:induction false} TextsComplete(labels: seq<string>, k: nat)
    requires |labels| >= 2 && k <= |labels|
    ensures forall i :: 0 <= i < k && labels[i] != [] ==> exists t :: t in TextsUpTo(labels, k) && t.index == i
  {
    if k > 0 {
      TextsComplete(labels, k - 1);
      var before := TextsUpTo(labels, k - 1);
      forall i | 0 <= i < k && labels[i] != [] ensures exists u :: u in TextsUpTo(labels, k) && u.index == i {
        if i < k - 1 {
          var u :| u in before && u.index == i;
          assert u in TextsUpTo(labels, k);
        } else {
          assert Text(k - 1, LabelX(k - 1, |labels|), labels[k - 1]) in TextsUpTo(labels, k);
        }
      }
    }
  }

  /** Texts come in label order. */
  lemma {:induction false} TextsOrdered(labels: seq<string>, k: nat)
    requires |labels| >= 2 && k <= |labels|
    ensures forall p, q :: 0 <= p < q < |TextsUpTo(labels, k)| ==>
      TextsUpTo(labels, k)[p].index < TextsUpTo(labels, k)[q].index
  {
    if k > 0 {
      TextsOrdered(labels, k - 1);
      TextsSound(labels, k - 1);
      var before := TextsUpTo(labels, k - 1);
      forall p | 0 <= p < |before| ensures before[p].index < k - 1 {
        assert before[p] in before;
      }
    }
  }

  /** One text per non-empty label and none for an empty one, in label order, each
      at the x of its own label. */
  lemma TextsSpec(labels: seq<string>)
    requires |labels| >= 2
    ensures forall t :: t in Texts(labels) ==>
      t.index < |labels| && t.caption == labels[t.index] && t.caption != [] && t.x == LabelX(t.index, |labels|)
    ensures forall i :: 0 <= i < |labels| && labels[i] != [] ==> exists t :: t in Texts(labels) && t.index == i
    ensures forall p, q :: 0 <= p < q < |Texts(labels)| ==> Texts(labels)[p].index < Texts(labels)[q].index
  {
    TextsSound(labels, |labels|);
    TextsComplete(labels, |labels|);
    TextsOrdered(labels, |labels|);
  }

  // ---------------------------------------------------------------------------
  // Hover state
  // ---------------------------------------------------------------------------

  /** What the `onHover` callback receives. */
  datatype HoverEvent = Hovered(value: real, index: nat) | Cleared

  /** `handleInteraction` once the cursor position has become an index: the new active index
      and the callback it fires, if any. */
  function Interact(data: seq<real>, active: Option<nat>, index: int): (r: (Option<nat>, Option<HoverEvent>))
  {
    if 0 <= index < |data| && active != Some(index as nat) then (Some(index as nat), Some(Hovered(data[index], index as nat)))
    else (active, None)
  }

  /** An index outside the data, or the one already active, changes nothing and fires
      nothing; any other index becomes active and reports its own value. */
  lemma InteractSpec(data: seq<real>, active: Option<nat>, index: int)
    ensures var (next, event) := Interact(data, active, index);
      (event.None? <==> (index < 0 || index >= |data| || active == Some(index as nat)))
      && (event.None? ==> next == active)
      && (event.Some? ==> (0 <= index < |data| && next == Some(index as nat)
          && event.value == Hovered(data[index], index as nat)))
  {
  }

  /** Staying on the same index fires the callback at most once. */
  lemma InteractTwice(data: seq<real>, active: Option<nat>, index: int)
    ensures var (next, _) := Interact(data, active, index);
      Interact(data, next, index) == (next, None)
  {
  }

  /** An active index set by the chart always names one of its points. */
  lemma InteractKeepsIndexInRange(data: seq<real>, active: Option<nat>, index: int)
    requires active.Some? ==> active.value < |data|
    ensures var (next, _) := Interact(data, active, index);
      next.Some? ==> next.value < |data|
  {
  }

  /** The line chart's state: the data it was last rendered with, the active index,
      whether an `onHover` callback was passed, and every call made to it. */
  class LineChart {
    var data: seq<real>
    var activeIndex: Option<nat>
    const hasOnHover: bool
    var calls: seq<HoverEvent>

    constructor (data: seq<real>, hasOnHover: bool)
      ensures this.data == data && activeIndex == None
      ensures this.hasOnHover == hasOnHover && calls == []
    {
      this.data := data;
      activeIndex := None;
      this.hasOnHover := hasOnHover;
      calls := [];
    }

    /** A re-render with new data keeps the active index, which may then be past the
        end (the crosshair is then not drawn, see `ActivePoint`). */
    method SetData(newData: seq<real>)
      modifies this`data
      ensures data == newData
    {
      data := newData;
    }

    /** `handleInteraction` for an index already computed from the cursor position. */
    method HandleInteraction(index: int)
      modifies this`activeIndex, this`calls
      ensures activeIndex == Interact(data, old(activeIndex), index).0
      ensures var event := Interact(data, old(activeIndex), index).1;
        calls == old(calls) + (if event.Some? && hasOnHover then [event.value] else [])
    {
      if 0 <= index < |data| {
        if Some(index as nat) != activeIndex {
          activeIndex := Some(index as nat);
          if hasOnHover {
            calls := calls + [Hovered(data[index], index as nat)];
          }
        }
      }
    }

    /** `clearActive`: leaving the chart always clears the index and reports nulls. */
    method ClearActive()
      modifies this`activeIndex, this`calls
      ensures activeIndex == None
      ensures calls == old(calls) + (if hasOnHover then [Cleared] else [])
    {
      activeIndex := None;
      if hasOnHover {
        calls := calls + [Cleared];
      }
    }

    /** `activePoint`: the highlighted point, absent when nothing is active or the
        index no longer names a point. */
    function ActivePoint(): (p: Option<Point>)
      reads this
      requires |data| >= 2
      ensures p.Some? <==> activeIndex.Some? && activeIndex.value < |data|
      ensures p.Some? ==> (p.value.val == data[activeIndex.value]
        && p.value.x == PointX(activeIndex.value, |data|))
    {
      if activeIndex.Some? && activeIndex.value < |data| then Some(Points(data)[activeIndex.value]) else None
    }
  }

  // ---------------------------------------------------------------------------
  // Donut chart
  // ---------------------------------------------------------------------------

  /** `Math.PI` to the digits JavaScript prints. */
  const PI: real := 3.141592653589793

  /** `size = 200` when no size is passed. */
  function DonutSize(size: Option<real>): real {
    if size.Some? then size.value else 200.0
  }

  function StrokeWidth(size: real): real { size * 0.12 }

  /** The ring runs through the middle of the stroke: 44% of the size. */
  function Radius(size: real): (r: real)
    ensures r == size * 0.44
  {
    (size - StrokeWidth(size)) / 2.0
  }

  function Circumference(size: real): (c: real)
    ensures size > 0.0 ==> c > 0.0
  {
    2.0 * PI * Radius(size)
  }

  /** `strokeDashoffset`: the part of the ring left undrawn. */
  function DashOffset(percentage: real, size: real): real {
    Circumference(size) - (percentage / 100.0) * Circumference(size)
  }

  /** The drawn arc is the percentage's share of the ring: the whole ring hidden at 0,
      all of it drawn at 100, the offset within [0, circumference] in between and
      shrinking as the percentage grows. */
  lemma DashOffsetSpec(p: real, q: real, size: real)
    requires size > 0.0
    ensures Circumference(size) - DashOffset(p, size) == (p / 100.0) * Circumference(size)
    ensures DashOffset(0.0, size) == Circumference(size)
    ensures DashOffset(100.0, size) == 0.0
    ensures 0.0 <= p <= 100.0 ==> 0.0 <= DashOffset(p, size) <= Circumference(size)
    ensures p < q ==> DashOffset(q, size) < DashOffset(p, size)
  {
    RingShare(p, q, Circumference(size));
  }

  /** The offset arithmetic for any positive circumference c. */
  lemma RingShare(p: real, q: real, c: real)
    requires c > 0.0
    ensures c - (c - (p / 100.0) * c) == (p / 100.0) * c
    ensures c - (0.0 / 100.0) * c == c && c - (100.0 / 100.0) * c == 0.0
    ensures 0.0 <= p <= 100.0 ==> 0.0 <= c - (p / 100.0) * c <= c
    ensures p < q ==> c - (q / 100.0) * c < c - (p / 100.0) * c
  {
    if 0.0 <= p <= 100.0 {
      ProductAtMost(p / 100.0, c);
      assert (p / 100.0) * c >= 0.0;
    }
    if p < q {
      assert (q / 100.0) * c - (p / 100.0) * c == ((q - p) / 100.0) * c;
      assert ((q - p) / 100.0) * c > 0.0;
    }
  }

  lemma ProductAtMost(f: real, c: real)
    requires 0.0 <= f <= 1.0 && c >= 0.0
    ensures f * c <= c
  {
  }

  /** The occupancy donut (size 180): an occupancy of 65..94% leaves between 6% and
      35% of the ring undrawn. */
  lemma OccupancyDonut(occupancy: int)
    requires 65 <= occupancy <= 94
    ensures var size := DonutSize(Some(180.0));
      0.06 * Circumference(size) <= DashOffset(occupancy as real, size) <= 0.35 * Circumference(size)
  {
    assert DonutSize(Some(180.0)) == 180.0;
    var c := Circumference(180.0);
    var f := occupancy as real / 100.0;
    assert 0.65 <= f <= 0.94;
    assert DashOffset(occupancy as real, 180.0) == (1.0 - f) * c;
  }
}
