/** Geometry of the threat-statistics card: the heights of the bar chart,
    the vertices and date labels of the line chart, and the angles, arc
    flags and colours of the pie chart with its legend.

    Every quantity is a JavaScript number in the component; here it is an
    exact `real`, so the affine maps and prefix sums hold without rounding. */
module ThreatStats {

  // ---------------------------------------------------------------------
  // Data model
  // ---------------------------------------------------------------------

  /** A threat category with its incident count (one bar). */
  datatype Threat = Threat(category: string, count: real)

  /** One day of the timeline (one vertex of the line chart). */
  datatype TimelinePoint = TimelinePoint(date: string, count: real)

  /** One risk class of the distribution (one pie slice). The component
      calls the label `type`, which is a reserved word in Dafny. */
  datatype Segment = Segment(kind: string, percentage: real)

  /** The `data` prop of the card. */
  datatype ThreatData = ThreatData(
    threats: seq<Threat>,
    timeline: seq<TimelinePoint>,
    distribution: seq<Segment>)

  /** The data shown when no `data` prop is passed. */
  const DefaultData := ThreatData(
    [ Threat("Cyberbullying", 12.0),
      Threat("Inappropriate Content", 8.0),
      Threat("Suspicious Contact", 5.0),
      Threat("Privacy Concerns", 7.0) ],
    [ TimelinePoint("Mon", 3.0),
      TimelinePoint("Tue", 5.0),
      TimelinePoint("Wed", 2.0),
      TimelinePoint("Thu", 7.0),
      TimelinePoint("Fri", 4.0),
      TimelinePoint("Sat", 3.0),
      TimelinePoint("Sun", 6.0) ],
    [ Segment("High Risk", 15.0),
      Segment("Medium Risk", 35.0),
      Segment("Low Risk", 50.0) ])

  /** A point in SVG user coordinates. */
  datatype Point = Point(x: real, y: real)

  // ---------------------------------------------------------------------
  // Bar chart
  // ---------------------------------------------------------------------

  /** Pixel height of a bar: a count of 15 fills 200 px. Nothing clamps it. */
  function BarHeight(count: real): (height: real)
    ensures height == 0.0 <==> count == 0.0
    ensures height > 0.0 <==> count > 0.0
    ensures count == 15.0 ==> height == 200.0
  {
    count / 15.0 * 200.0
  }

  /** A rendered bar: its label and its height in pixels. */
  datatype Bar = Bar(category: string, height: real)

  /** `threats.map(...)`: one bar per threat, in input order. */
  function Bars(threats: seq<Threat>): (bars: seq<Bar>)
    ensures |bars| == |threats|
    ensures forall i :: 0 <= i < |threats| ==>
      bars[i] == Bar(threats[i].category, BarHeight(threats[i].count))
  {
    if threats == [] then []
    else [Bar(threats[0].category, BarHeight(threats[0].count))] + Bars(threats[1..])
  }

  /** The bar scale is anchored at 0 and 15 and goes on linearly past 15. */
  lemma BarHeightAnchors()
    ensures BarHeight(0.0) == 0.0
    ensures BarHeight(15.0) == 200.0
    ensures BarHeight(30.0) == 400.0
  {
  }

  /** A larger count always gives a taller bar. */
  lemma BarHeightStrictlyIncreasing(c1: real, c2: real)
    requires c1 < c2
    ensures BarHeight(c1) < BarHeight(c2)
  {
  }

  /** The default bars, height by height. */
  lemma DefaultBars()
    ensures Bars(DefaultData.threats) ==
      [ Bar("Cyberbullying", 160.0),
        Bar("Inappropriate Content", 320.0 / 3.0),
        Bar("Suspicious Contact", 200.0 / 3.0),
        Bar("Privacy Concerns", 280.0 / 3.0) ]
  {
    var bars := Bars(DefaultData.threats);
    assert |bars| == 4;
  }

  // ---------------------------------------------------------------------
  // Line chart
  // ---------------------------------------------------------------------

  /** x of the i-th vertex and of the i-th date label. The divisor is the
      literal 6, whatever the length of the timeline. */
  function VertexX(i: nat): (x: real)
    ensures x == 0.0 <==> i == 0
    ensures i == 6 ==> x == 400.0
    ensures i > 6 ==> x > 400.0
  {
    (i as real) * 400.0 / 6.0
  }

  /** y of a vertex: a count of 0 sits on the bottom edge (y = 200) and a
      count of 10 on the top edge (y = 0) of the 400 x 200 view box. */
  function VertexY(count: real): (y: real)
    ensures y == 200.0 <==> count == 0.0
    ensures y == 0.0 <==> count == 10.0
    ensures y <= 200.0 <==> count >= 0.0
  {
    200.0 - count / 10.0 * 200.0
  }

  /** The vertices of `timeline`, numbered from `first`. */
  function VerticesFrom(timeline: seq<TimelinePoint>, first: nat): (vs: seq<Point>)
    ensures |vs| == |timeline|
    ensures forall k :: 0 <= k < |timeline| ==>
      vs[k] == Point(VertexX(first + k), VertexY(timeline[k].count))
  {
    if timeline == [] then []
    else [Point(VertexX(first), VertexY(timeline[0].count))] + VerticesFrom(timeline[1..], first + 1)
  }

  /** The `points` of the polyline: one vertex per timeline point, in order. */
  function Polyline(timeline: seq<TimelinePoint>): (vs: seq<Point>)
    ensures |vs| == |timeline|
    ensures forall i :: 0 <= i < |timeline| ==>
      vs[i] == Point(VertexX(i), VertexY(timeline[i].count))
  {
    VerticesFrom(timeline, 0)
  }

  /** A date label and the point its group is translated to. */
  datatype DateLabel = DateLabel(text: string, at: Point)

  /** The date labels of `timeline`, numbered from `first`. */
  function DateLabelsFrom(timeline: seq<TimelinePoint>, first: nat): (ls: seq<DateLabel>)
    ensures |ls| == |timeline|
    ensures forall k :: 0 <= k < |timeline| ==>
      ls[k] == DateLabel(timeline[k].date, Point(VertexX(first + k), 220.0))
  {
    if timeline == [] then []
    else [DateLabel(timeline[0].date, Point(VertexX(first), 220.0))] + DateLabelsFrom(timeline[1..], first + 1)
  }

  /** The `<g transform="translate(x, 220)">` label groups, one per point. */
  function DateLabels(timeline: seq<TimelinePoint>): (ls: seq<DateLabel>)
    ensures |ls| == |timeline|
    ensures forall i :: 0 <= i < |timeline| ==> ls[i].text == timeline[i].date
  {
    DateLabelsFrom(timeline, 0)
  }

  /** Each date label stands below its own vertex, on the line y = 220. */
  lemma LabelsSitUnderVertices(timeline: seq<TimelinePoint>, i: nat)
    requires i < |timeline|
    ensures DateLabels(timeline)[i].at.x == Polyline(timeline)[i].x
    ensures DateLabels(timeline)[i].at.y == 220.0
  {
  }

  /** x runs from 0 at the first point to 400 at the seventh, evenly. */
  lemma VertexXAnchors()
    ensures VertexX(0) == 0.0
    ensures VertexX(3) == 200.0
    ensures VertexX(6) == 400.0
  {
  }

  /** Later points lie further right. */
  lemma VertexXStrictlyIncreasing(i: nat, j: nat)
    requires i < j
    ensures VertexX(i) < VertexX(j)
  {
  }

  /** The y scale is anchored at 0 and 10, and a larger count plots higher. */
  lemma VertexYAnchors(c1: real, c2: real)
    requires c1 < c2
    ensures VertexY(0.0) == 200.0
    ensures VertexY(10.0) == 0.0
    ensures VertexY(c2) < VertexY(c1)
  {
  }

  /** The default timeline (Mon..Sun) spans the full width. */
  lemma DefaultPolyline()
    ensures Polyline(DefaultData.timeline) ==
      [ Point(0.0, 140.0),
        Point(200.0 / 3.0, 100.0),
        Point(400.0 / 3.0, 160.0),
        Point(200.0, 60.0),
        Point(800.0 / 3.0, 120.0),
        Point(1000.0 / 3.0, 140.0),
        Point(400.0, 80.0) ]
  {
    var vs := Polyline(DefaultData.timeline);
    assert |vs| == 7;
  }

  /** A three-point timeline does not stretch to the right edge: because the
      divisor is fixed at 6, Mon/Tue/Wed end at x = 400/3, not at 400. */
  lemma ShortTimelineUsesFixedSpacing()
    ensures Polyline([TimelinePoint("Mon", 3.0), TimelinePoint("Tue", 5.0), TimelinePoint("Wed", 2.0)]) ==
      [Point(0.0, 140.0), Point(200.0 / 3.0, 100.0), Point(400.0 / 3.0, 160.0)]
  {
    var vs := Polyline([TimelinePoint("Mon", 3.0), TimelinePoint("Tue", 5.0), TimelinePoint("Wed", 2.0)]);
    assert |vs| == 3;
  }

  // ---------------------------------------------------------------------
  // Pie chart
  // ---------------------------------------------------------------------

  /** `distribution.slice(0, i).reduce((sum, s) => sum + s.percentage, 0)`:
      the left fold of the first i percentages. */
  function PrefixSum(distribution: seq<Segment>, i: nat): (sum: real)
    requires i <= |distribution|
    ensures NonNegative(distribution) ==> sum >= 0.0
  {
    if i == 0 then 0.0 else PrefixSum(distribution, i - 1) + distribution[i - 1].percentage
  }

  /** The sum of all percentages (not normalised to 100 anywhere). */
  function Total(distribution: seq<Segment>): real
  {
    PrefixSum(distribution, |distribution|)
  }

  /** The SVG large-arc flag: 1 exactly when the slice is strictly more than half. */
  function LargeArcFlag(percentage: real): (flag: nat)
    ensures flag <= 1
  {
    if percentage > 50.0 then 1 else 0
  }

  const Red: string := "#ef4444"
  const Amber: string := "#f59e0b"
  const Green: string := "#22c55e"

  /** The `fill` of the i-th slice: by position only. */
  function SliceFill(i: nat): (fill: string)
    ensures fill == Red <==> i == 0
    ensures fill == Amber <==> i == 1
    ensures fill == Green <==> i >= 2
  {
    if i == 0 then Red else if i == 1 then Amber else Green
  }

  /** What the component computes for one slice before formatting its path. */
  datatype PieSlice = PieSlice(startAngle: real, endAngle: real, largeArcFlag: nat, fill: string)

  /** The slice at position i, computed as the map callback does. */
  function SliceAt(distribution: seq<Segment>, i: nat): (slice: PieSlice)
    requires i < |distribution|
    ensures slice.endAngle - slice.startAngle == 3.6 * distribution[i].percentage
    ensures slice.largeArcFlag == 1 <==> distribution[i].percentage > 50.0
    ensures slice.largeArcFlag == 0 <==> distribution[i].percentage <= 50.0
  {
    var startAngle := PrefixSum(distribution, i) * 3.6;
    var endAngle := startAngle + distribution[i].percentage * 3.6;
    PieSlice(startAngle, endAngle, LargeArcFlag(distribution[i].percentage), SliceFill(i))
  }

  /** The slices at positions first, first + 1, ... */
  function SlicesFrom(distribution: seq<Segment>, first: nat): (slices: seq<PieSlice>)
    requires first <= |distribution|
    ensures |slices| == |distribution| - first
    ensures forall k :: 0 <= k < |slices| ==> slices[k] == SliceAt(distribution, first + k)
    decreases |distribution| - first
  {
    if first == |distribution| then []
    else [SliceAt(distribution, first)] + SlicesFrom(distribution, first + 1)
  }

  /** `distribution.map(...)`: one slice per segment, in input order. */
  function Slices(distribution: seq<Segment>): (slices: seq<PieSlice>)
    ensures |slices| == |distribution|
    ensures forall i :: 0 <= i < |distribution| ==>
      slices[i].startAngle == PrefixSum(distribution, i) * 3.6 &&
      slices[i].endAngle == slices[i].startAngle + distribution[i].percentage * 3.6 &&
      (slices[i].largeArcFlag == 1 <==> distribution[i].percentage > 50.0) &&
      slices[i].fill == SliceFill(i)
  {
    SlicesFrom(distribution, 0)
  }

  /** The first slice starts at 12 o'clock (angle 0). */
  lemma FirstSliceStartsAtZero(distribution: seq<Segment>)
    requires |distribution| > 0
    ensures Slices(distribution)[0].startAngle == 0.0
  {
  }

  /** Neighbouring slices meet: each slice ends where the next one starts. */
  lemma SlicesAreContiguous(distribution: seq<Segment>, i: nat)
    requires i + 1 < |distribution|
    ensures Slices(distribution)[i].endAngle == Slices(distribution)[i + 1].startAngle
  {
  }

  /** Slice i ends at 3.6 times the sum of the first i + 1 percentages. */
  lemma EndAngleIsScaledPrefixSum(distribution: seq<Segment>, i: nat)
    requires i < |distribution|
    ensures Slices(distribution)[i].endAngle == PrefixSum(distribution, i + 1) * 3.6
  {
  }

  /** The last slice ends at 3.6 times the total; a total other than 100
      leaves the pie short of, or beyond, a full turn. */
  lemma LastSliceEndsAtScaledTotal(distribution: seq<Segment>)
    requires |distribution| > 0
    ensures Slices(distribution)[|distribution| - 1].endAngle == Total(distribution) * 3.6
    ensures Slices(distribution)[|distribution| - 1].endAngle == 360.0 <==> Total(distribution) == 100.0
  {
    EndAngleIsScaledPrefixSum(distribution, |distribution| - 1);
  }

  /** Every percentage is non-negative. */
  predicate NonNegative(distribution: seq<Segment>)
  {
    forall i :: 0 <= i < |distribution| ==> distribution[i].percentage >= 0.0
  }

  /** With non-negative percentages the prefix sums never decrease. */
  lemma {:induction false} PrefixSumMonotone(distribution: seq<Segment>, i: nat, j: nat)
    requires NonNegative(distribution)
    requires i <= j <= |distribution|
    ensures PrefixSum(distribution, i) <= PrefixSum(distribution, j)
    decreases j - i
  {
    if i < j {
      PrefixSumMonotone(distribution, i, j - 1);
    }
  }

  /** With non-negative percentages every slice, the last one included,
      ends at or after its start. */
  lemma SliceSpanNonNegative(distribution: seq<Segment>, i: nat)
    requires NonNegative(distribution)
    requires i < |distribution|
    ensures Slices(distribution)[i].startAngle <= Slices(distribution)[i].endAngle
  {
  }

  /** With non-negative percentages the angles never decrease: every later
      slice starts at or after the end of an earlier one. */
  lemma {:induction false} AnglesNonDecreasing(distribution: seq<Segment>, i: nat, j: nat)
    requires NonNegative(distribution)
    requires i < j < |distribution|
    ensures Slices(distribution)[i].endAngle <= Slices(distribution)[j].startAngle
  {
    SliceIsSliceAt(distribution, i);
    SliceIsSliceAt(distribution, j);
    SliceAtAnglesNonDecreasing(distribution, i, j);
  }

  /** `AnglesNonDecreasing` for the slices as the map callback computes them. */
  lemma {:induction false} SliceAtAnglesNonDecreasing(distribution: seq<Segment>, i: nat, j: nat)
    requires NonNegative(distribution)
    requires i < j < |distribution|
    ensures SliceAt(distribution, i).endAngle <= SliceAt(distribution, j).startAngle
  {
    PrefixSumMonotone(distribution, i + 1, j);
  }

  /** The slice at position i of the pie is the one the callback computes for i. */
  lemma SliceIsSliceAt(distribution: seq<Segment>, i: nat)
    requires i < |distribution|
    ensures |Slices(distribution)| == |distribution|
    ensures Slices(distribution)[i] == SliceAt(distribution, i)
  {
  }

  /** The flag from the percentage is the flag from the angular span: a slice
      gets the large arc exactly when it spans more than 180 degrees. */
  lemma LargeArcIffSpanOverHalfTurn(distribution: seq<Segment>, i: nat)
    requires i < |distribution|
    ensures Slices(distribution)[i].largeArcFlag == 1 <==>
      Slices(distribution)[i].endAngle - Slices(distribution)[i].startAngle > 180.0
  {
  }

  /** Fill colours: red, then amber, then green for every later slice. */
  lemma FillByPosition(distribution: seq<Segment>, i: nat)
    requires i < |distribution|
    ensures i == 0 ==> Slices(distribution)[i].fill == Red
    ensures i == 1 ==> Slices(distribution)[i].fill == Amber
    ensures i >= 2 ==> Slices(distribution)[i].fill == Green
  {
  }

  /** The default pie: [0, 54], [54, 180] and [180, 360], none with the large arc. */
  lemma DefaultSlices()
    ensures Slices(DefaultData.distribution) ==
      [ PieSlice(0.0, 54.0, 0, Red),
        PieSlice(54.0, 180.0, 0, Amber),
        PieSlice(180.0, 360.0, 0, Green) ]
  {
    var d := DefaultData.distribution;
    ThreeSlices(d);
    assert PrefixSum(d, 1) == 15.0;
    assert SliceAt(d, 0) == PieSlice(0.0, 54.0, 0, Red);
    assert PrefixSum(d, 2) == 50.0;
    assert SliceAt(d, 1) == PieSlice(54.0, 180.0, 0, Amber);
    assert SliceAt(d, 2) == PieSlice(180.0, 360.0, 0, Green);
  }

  /** A three-segment pie is its three slices, in order. */
  lemma ThreeSlices(distribution: seq<Segment>)
    requires |distribution| == 3
    ensures Slices(distribution) ==
      [SliceAt(distribution, 0), SliceAt(distribution, 1), SliceAt(distribution, 2)]
  {
  }

  /** A slice of exactly half the pie keeps the small-arc flag: for
      [50, 30, 20] the first slice spans [0, 180] with flag 0. */
  lemma HalfSliceKeepsSmallArc()
    ensures Slices([Segment("a", 50.0), Segment("b", 30.0), Segment("c", 20.0)]) ==
      [ PieSlice(0.0, 180.0, 0, Red),
        PieSlice(180.0, 288.0, 0, Amber),
        PieSlice(288.0, 360.0, 0, Green) ]
  {
    var d := [Segment("a", 50.0), Segment("b", 30.0), Segment("c", 20.0)];
    ThreeSlices(d);
    assert PrefixSum(d, 1) == 50.0;
    assert SliceAt(d, 0) == PieSlice(0.0, 180.0, 0, Red);
    assert PrefixSum(d, 2) == 80.0;
    assert SliceAt(d, 1) == PieSlice(180.0, 288.0, 0, Amber);
    assert SliceAt(d, 2) == PieSlice(288.0, 360.0, 0, Green);
  }

  // ---------------------------------------------------------------------
  // Arc endpoints
  // ---------------------------------------------------------------------

  /** The endpoint on the circle of centre (50, 50) and radius 40 for an
      angle measured clockwise from 12 o'clock. `cosDeg` and `sinDeg` stand
      for `Math.cos` and `Math.sin` composed with the degree-to-radian
      conversion, which the model does not compute. */
  function ArcPoint(angle: real, cosDeg: real -> real, sinDeg: real -> real): (p: Point)
    ensures var c, s := cosDeg(angle - 90.0), sinDeg(angle - 90.0);
      c * c + s * s == 1.0 ==> (p.x - 50.0) * (p.x - 50.0) + (p.y - 50.0) * (p.y - 50.0) == 1600.0
  {
    Point(50.0 + 40.0 * cosDeg(angle - 90.0), 50.0 + 40.0 * sinDeg(angle - 90.0))
  }

  /** Angle 0 is the top of the circle, given cos(-90) = 0 and sin(-90) = -1. */
  lemma AngleZeroIsTwelveOClock(cosDeg: real -> real, sinDeg: real -> real)
    requires cosDeg(-90.0) == 0.0 && sinDeg(-90.0) == -1.0
    ensures ArcPoint(0.0, cosDeg, sinDeg) == Point(50.0, 10.0)
  {
  }

  /** The end point of slice i is the start point of slice i + 1. */
  lemma SliceEndpointsMeet(distribution: seq<Segment>, i: nat, cosDeg: real -> real, sinDeg: real -> real)
    requires i + 1 < |distribution|
    ensures ArcPoint(Slices(distribution)[i].endAngle, cosDeg, sinDeg) ==
            ArcPoint(Slices(distribution)[i + 1].startAngle, cosDeg, sinDeg)
  {
    SlicesAreContiguous(distribution, i);
  }

  /** When the percentages add up to 100 and the trigonometry has period 360
      at the top of the circle, the last slice closes the pie at its start. */
  lemma FullPieCloses(distribution: seq<Segment>, cosDeg: real -> real, sinDeg: real -> real)
    requires |distribution| > 0 && Total(distribution) == 100.0
    requires cosDeg(270.0) == cosDeg(-90.0) && sinDeg(270.0) == sinDeg(-90.0)
    ensures ArcPoint(Slices(distribution)[|distribution| - 1].endAngle, cosDeg, sinDeg) ==
            ArcPoint(Slices(distribution)[0].startAngle, cosDeg, sinDeg)
  {
    LastSliceEndsAtScaledTotal(distribution);
    FirstSliceStartsAtZero(distribution);
    assert Slices(distribution)[|distribution| - 1].endAngle == 360.0;
    FullTurnReturnsToStart(cosDeg, sinDeg);
  }

  /** A full turn lands where angle 0 does, given the trigonometry agrees at
      270 and -90 degrees. */
  lemma FullTurnReturnsToStart(cosDeg: real -> real, sinDeg: real -> real)
    requires cosDeg(270.0) == cosDeg(-90.0) && sinDeg(270.0) == sinDeg(-90.0)
    ensures ArcPoint(360.0, cosDeg, sinDeg) == ArcPoint(0.0, cosDeg, sinDeg)
  {
    assert 360.0 - 90.0 == 270.0 && 0.0 - 90.0 == -90.0;
  }

  // ---------------------------------------------------------------------
  // Pie legend
  // ---------------------------------------------------------------------

  /** One legend row: the swatch colour, then "type (percentage%)". */
  datatype LegendEntry = LegendEntry(kind: string, percentage: real, swatch: string)

  /** The legend's swatch colour, written out separately in the legend. */
  function LegendSwatch(i: nat): (swatch: string)
    ensures swatch == Red <==> i == 0
    ensures swatch == Amber <==> i == 1
    ensures swatch == Green <==> i >= 2
  {
    if i == 0 then Red else if i == 1 then Amber else Green
  }

  /** The legend rows for the segments at positions first, first + 1, ... */
  function LegendFrom(distribution: seq<Segment>, first: nat): (rows: seq<LegendEntry>)
    requires first <= |distribution|
    ensures |rows| == |distribution| - first
    ensures forall k :: 0 <= k < |rows| ==>
      rows[k] == LegendEntry(distribution[first + k].kind, distribution[first + k].percentage, LegendSwatch(first + k))
    decreases |distribution| - first
  {
    if first == |distribution| then []
    else
      var s := distribution[first];
      [LegendEntry(s.kind, s.percentage, LegendSwatch(first))] + LegendFrom(distribution, first + 1)
  }

  /** The legend: one row per segment, in input order. */
  function Legend(distribution: seq<Segment>): (rows: seq<LegendEntry>)
    ensures |rows| == |distribution|
    ensures forall i :: 0 <= i < |distribution| ==>
      rows[i].kind == distribution[i].kind && rows[i].percentage == distribution[i].percentage
  {
    LegendFrom(distribution, 0)
  }

  /** Each legend swatch has the colour of the slice at the same position. */
  lemma LegendMatchesSlices(distribution: seq<Segment>, i: nat)
    requires i < |distribution|
    ensures Legend(distribution)[i].swatch == Slices(distribution)[i].fill
  {
  }
}
