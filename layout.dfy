/** The layout engine: the arc builder, the region assemblers, one layout per set count
    and the dispatch on the set count. Every function is pure; the geometry primitives
    come in as a `MathLib` record and stay uninterpreted. */
module Layout {
  import opened Interfaces
  import opened Geometry

  /** `Math.min` of two finite numbers. */
  function Min(a: real, b: real): (m: real)
    ensures m <= a && m <= b
    ensures m == a || m == b
  {
    if a <= b then a else b
  }

  /** `Math.floor` of a finite number: the greatest integer not above `x`. */
  function Floor(x: real): (f: real)
    ensures f == f.Floor as real
    ensures f <= x < f + 1.0
  {
    x.Floor as real
  }

  /** `r` is `Math.floor(Math.min(a, b))`: an integer bounded by both `a` and `b`,
      and the largest such integer. */
  predicate FloorOfMin(r: real, a: real, b: real)
  {
    r == r.Floor as real && r <= a && r <= b && (a < r + 1.0 || b < r + 1.0)
  }

  // ---------------------------------------------------------------------------
  // Arc builder
  // ---------------------------------------------------------------------------

  /** `arc(p, r, largeArcFlag = false, sweepFlag = false)`: a circular arc of radius `r`
      that ends at `p` and carries the given flags. */
  function ArcTo(p: Coord, r: real, largeArcFlag: bool := false, sweepFlag: bool := false): (a: Arc)
    ensures Circular(a) && a.rx == r
    ensures EndOf(a) == p
    ensures a.largeArcFlag == largeArcFlag && a.sweepFlag == sweepFlag
  {
    Arc(r, r, 0.0, largeArcFlag, sweepFlag, p.cx, p.cy)
  }

  // ---------------------------------------------------------------------------
  // Region assemblers
  // ---------------------------------------------------------------------------

  /** A left-to-right sum, as `reduce((acc, v) => acc + v, 0)` computes it. */
  function Sum(xs: seq<real>): real
  {
    if xs == [] then 0.0 else Sum(xs[..|xs| - 1]) + xs[|xs| - 1]
  }

  /** The `x2` of every arc, in chain order. */
  function EndXs(arcs: seq<Arc>): seq<real>
  {
    seq(|arcs|, j requires 0 <= j < |arcs| => arcs[j].x2)
  }

  /** The `y2` of every arc, in chain order. */
  function EndYs(arcs: seq<Arc>): seq<real>
  {
    seq(|arcs|, j requires 0 <= j < |arcs| => arcs[j].y2)
  }

  /** The label of a region is the arithmetic mean of its arc endpoints. */
  predicate LabelIsEndpointMean(s: ArcSlice)
  {
    && s.text.x * (|s.arcs| as real) == Sum(EndXs(s.arcs))
    && s.text.y * (|s.arcs| as real) == Sum(EndYs(s.arcs))
  }

  /** `computeCenter(arcs)`: the mean of the arc endpoints. The source divides by
      `arcs.length`; every caller passes a non-empty chain. */
  function ComputeCenter(arcs: seq<Arc>): (c: Coord)
    requires |arcs| > 0
    ensures c.cx * (|arcs| as real) == Sum(EndXs(arcs))
    ensures c.cy * (|arcs| as real) == Sum(EndYs(arcs))
  {
    Coord(Sum(EndXs(arcs)) / (|arcs| as real), Sum(EndYs(arcs)) / (|arcs| as real))
  }

  /** The sum of two values, unfolded. */
  lemma SumOfTwo(xs: seq<real>)
    requires |xs| == 2
    ensures Sum(xs) == xs[0] + xs[1]
  {
    assert xs[..|xs| - 1] == xs[..1] && xs[..1][..0] == [];
    assert Sum(xs[..1]) == xs[0];
  }

  /** The sum of three values, unfolded. */
  lemma SumOfThree(xs: seq<real>)
    requires |xs| == 3
    ensures Sum(xs) == xs[0] + xs[1] + xs[2]
  {
    SumOfTwo(xs[..2]);
    assert xs[..|xs| - 1] == xs[..2];
  }

  /** A sum of `n` values that all lie in `[lo, hi]` lies in `[n·lo, n·hi]`. */
  lemma {:induction false} SumBounds(xs: seq<real>, lo: real, hi: real)
    requires forall j :: 0 <= j < |xs| ==> lo <= xs[j] <= hi
    ensures (|xs| as real) * lo <= Sum(xs) <= (|xs| as real) * hi
  {
    if xs != [] {
      SumBounds(xs[..|xs| - 1], lo, hi);
    }
  }

  /** A real whose product with a positive number is non-negative is non-negative. */
  lemma NonNegativeFactor(x: real, n: real)
    requires n > 0.0 && x * n >= 0.0
    ensures x >= 0.0
  {
  }

  /** A value whose `n`-fold is the sum of `n` values that all lie in `[lo, hi]` lies in
      `[lo, hi]` itself. */
  lemma MeanWithin(v: real, xs: seq<real>, lo: real, hi: real)
    requires |xs| > 0 && v * (|xs| as real) == Sum(xs)
    requires forall j :: 0 <= j < |xs| ==> lo <= xs[j] <= hi
    ensures lo <= v <= hi
  {
    var n := |xs| as real;
    SumBounds(xs, lo, hi);
    assert (v - lo) * n == v * n - n * lo;
    assert (hi - v) * n == n * hi - v * n;
    NonNegativeFactor(v - lo, n);
    NonNegativeFactor(hi - v, n);
  }

  /** A label placed at the endpoint mean lies in every box that holds all the endpoints;
      in particular, when all endpoints coincide, the label is that point. */
  lemma MeanLabelWithinEndpoints(s: ArcSlice, xlo: real, xhi: real, ylo: real, yhi: real)
    requires |s.arcs| > 0 && LabelIsEndpointMean(s)
    requires forall j :: 0 <= j < |s.arcs| ==> xlo <= s.arcs[j].x2 <= xhi && ylo <= s.arcs[j].y2 <= yhi
    ensures xlo <= s.text.x <= xhi && ylo <= s.text.y <= yhi
  {
    var xs, ys := EndXs(s.arcs), EndYs(s.arcs);
    assert forall j :: 0 <= j < |xs| ==> xlo <= xs[j] <= xhi;
    assert forall j :: 0 <= j < |ys| ==> ylo <= ys[j] <= yhi;
    MeanWithin(s.text.x, xs, xlo, xhi);
    MeanWithin(s.text.y, ys, ylo, yhi);
  }

  /** `arcSlice(p0, p1, r)`: the lens between two crossing circles of radius `r`, from
      `p0` to `p1` and back, labelled at the midpoint of the two points. */
  function LensSlice(p0: Coord, p1: Coord, r: real): (s: ArcSlice)
    ensures s.x1 == p0.cx && s.y1 == p0.cy
    ensures |s.arcs| == 2 && EndOf(s.arcs[0]) == p1 && EndOf(s.arcs[1]) == p0
    ensures SliceCloses(s) && ArcsOfRadius(s.arcs, r) && ArcsWithFlags(s.arcs, false, false)
    ensures LabelIsEndpointMean(s)
    ensures s.text == Point((p0.cx + p1.cx) / 2.0, (p0.cy + p1.cy) / 2.0)
  {
    var arcs := [ArcTo(p1, r), ArcTo(p0, r)];
    SumOfTwo(EndXs(arcs));
    SumOfTwo(EndYs(arcs));
    var center := ComputeCenter(arcs);
    ArcSlice(p0.cx, p0.cy, arcs, Point(center.cx, center.cy))
  }

  /** `arcCenter(p1, arcs)`: a region made of a ready-made chain that starts at `p1`,
      labelled at the mean of the chain's endpoints. */
  function CenteredSlice(p1: Coord, arcs: seq<Arc>): (s: ArcSlice)
    requires |arcs| > 0
    ensures s.x1 == p1.cx && s.y1 == p1.cy && s.arcs == arcs
    ensures LabelIsEndpointMean(s)
    ensures SliceCloses(s) <==> EndOf(arcs[|arcs| - 1]) == p1
  {
    var center := ComputeCenter(arcs);
    ArcSlice(p1.cx, p1.cy, arcs, Point(center.cx, center.cy))
  }

  /** The endpoint mean of a three-arc chain, unfolded. */
  lemma MeanOfThree(s: ArcSlice)
    requires |s.arcs| == 3 && LabelIsEndpointMean(s)
    ensures s.text.x * 3.0 == s.arcs[0].x2 + s.arcs[1].x2 + s.arcs[2].x2
    ensures s.text.y * 3.0 == s.arcs[0].y2 + s.arcs[1].y2 + s.arcs[2].y2
  {
    SumOfThree(EndXs(s.arcs));
    SumOfThree(EndYs(s.arcs));
  }

  // ---------------------------------------------------------------------------
  // One set
  // ---------------------------------------------------------------------------

  /** `one(size)`: a single circle of the chart's base radius at the chart center. The
      universe cuts it out with two half circles: down to the bottom point, then back up
      to the top point where the chain starts. */
  function One(size: ChartArea): (l: DiagramLayout)
    ensures l.sets == [Circle(size.r, size.cx, size.cy, 0.0, Point(size.cx, size.cy))]
    ensures l.intersections == []
    ensures l.universe.width == size.w && l.universe.height == size.h
    ensures l.universe.x1 == size.cx && l.universe.y1 == size.cy - size.r
    ensures |l.universe.arcs| == 2
    ensures EndOf(l.universe.arcs[0]) == Coord(size.cx, size.cy + size.r)
    ensures (l.universe.x1 + l.universe.arcs[0].x2) / 2.0 == size.cx && (l.universe.y1 + l.universe.arcs[0].y2) / 2.0 == size.cy
    ensures !l.universe.arcs[0].largeArcFlag && !l.universe.arcs[0].sweepFlag
    ensures !l.universe.arcs[1].largeArcFlag && l.universe.arcs[1].sweepFlag
    ensures forall j :: 0 <= j < |l.universe.arcs| ==> OnCircle(EndOf(l.universe.arcs[j]), size.cx, size.cy, size.r)
    ensures l.universe.text == Point(size.w / 2.0 - size.r, size.h / 2.0 + size.r)
    ensures l.universe.angle == 90.0
    ensures WellFormed(l) && AllArcsOfRadius(l, size.r)
  {
    DiagramLayout(
      [Circle(size.r, size.cx, size.cy, 0.0, Point(size.cx, size.cy))],
      UniverseSet(
        size.w, size.h, size.cx, size.cy - size.r, 90.0,
        Point((size.w - size.r * 2.0) / 2.0, size.h - (size.h - size.r * 2.0) / 2.0),
        [ Arc(size.r, size.r, 0.0, false, false, size.cx, size.cy + size.r),
          Arc(size.r, size.r, 0.0, false, true, size.cx, size.cy - size.r) ]),
      [])
  }

  // ---------------------------------------------------------------------------
  // Two sets
  // ---------------------------------------------------------------------------

  /** `two(size, radiOverlap)`: two circles of one integral radius, mirrored about the
      chart center and `2·r·(1 − overlap)` apart; the universe cuts both out with two large
      arcs, and every region runs from the first crossing point `p0` to the second `p1`
      and back. */
  function Two(m: MathLib, size: ChartArea, radiOverlap: real): (l: DiagramLayout)
    requires radiOverlap != 4.0
    ensures |l.sets| == 2 && |l.intersections| == 3
    ensures l.sets[0].r == l.sets[1].r
    ensures FloorOfMin(l.sets[0].r, size.h / 2.0, size.w / (4.0 - radiOverlap))
    ensures l.sets[0].cy == size.cy && l.sets[1].cy == size.cy
    ensures l.sets[0].cx + l.sets[1].cx == 2.0 * size.cx
    ensures l.sets[1].cx - l.sets[0].cx == 2.0 * l.sets[0].r * (1.0 - radiOverlap)
    ensures l.universe.width == size.w && l.universe.height == size.h
    ensures |l.universe.arcs| == 2 && ArcsWithFlags(l.universe.arcs, true, false)
    ensures WellFormed(l) && AllArcsOfRadius(l, l.sets[0].r)
    ensures var (p0, p1) := m.circleIntersectionPoints(l.sets[0], l.sets[1]);
      && l.universe.x1 == p0.cx && l.universe.y1 == p0.cy
      && EndOf(l.universe.arcs[0]) == p1
      && (forall i :: 0 <= i < 3 ==>
            && l.intersections[i].x1 == p0.cx && l.intersections[i].y1 == p0.cy
            && |l.intersections[i].arcs| == 2 && EndOf(l.intersections[i].arcs[0]) == p1)
      && l.intersections[2] == LensSlice(p0, p1, l.sets[0].r)
    ensures forall i :: 0 <= i < 2 ==> l.intersections[i].text == Point(l.sets[i].cx, l.sets[i].cy)
    ensures var a, b := l.intersections[0].arcs, l.intersections[1].arcs;
      && !a[0].largeArcFlag && a[0].sweepFlag && a[1].largeArcFlag && !a[1].sweepFlag
      && b[0].largeArcFlag && !b[0].sweepFlag && !b[1].largeArcFlag && !b[1].sweepFlag
    ensures l.sets[0].angle == 270.0 && l.sets[1].angle == 90.0 && l.universe.angle == 90.0
    ensures l.sets[0].text == m.pointAtCircle(l.sets[0].cx, size.cy, l.sets[0].r * 1.1, 210.0)
    ensures l.sets[1].text == m.pointAtCircle(l.sets[1].cx, size.cy, l.sets[0].r * 1.1, -30.0)
  {
    var r := Floor(Min(size.h / 2.0, size.w / (4.0 - radiOverlap)));
    var wRest := size.w - r * 3.5;
    var c0x := size.cx - r * (1.0 - radiOverlap);
    var c0 := Circle(r, c0x, size.cy, 270.0, m.pointAtCircle(c0x, size.cy, r * 1.1, 300.0 - 90.0));
    var c1x := size.cx + r * (1.0 - radiOverlap);
    var c1 := Circle(r, c1x, size.cy, 90.0, m.pointAtCircle(c1x, size.cy, r * 1.1, 60.0 - 90.0));
    var (p0, p1) := m.circleIntersectionPoints(c0, c1);
    DiagramLayout(
      [c0, c1],
      UniverseSet(
        size.w, size.h, p0.cx, p0.cy, 90.0,
        Point(wRest / 2.0, size.h - (size.h - size.r * 2.0) / 2.0),
        [ArcTo(p1, r, true), ArcTo(p0, r, true)]),
      [ ArcSlice(p0.cx, p0.cy, [ArcTo(p1, r, false, true), ArcTo(p0, r, true)], Point(c0x, size.cy)),
        ArcSlice(p0.cx, p0.cy, [ArcTo(p1, r, true, false), ArcTo(p0, r, false, false)], Point(c1x, size.cy)),
        LensSlice(p0, p1, r) ])
  }

  // ---------------------------------------------------------------------------
  // Three sets
  // ---------------------------------------------------------------------------

  /** The radius divisor of the 3-set layout, `1 + (2 − 2·overlap)·cos(30°) + 1`. */
  function ThreeFactor(m: MathLib, radiOverlap: real): real
  {
    1.0 + (2.0 - radiOverlap * 2.0) * m.cos(30.0 * m.deg2rad) + 1.0
  }

  /** The two divisions of the 3-set layout have non-zero divisors. */
  predicate ThreeDefined(m: MathLib, radiOverlap: real)
  {
    ThreeFactor(m, radiOverlap) != 0.0 && m.sqrt(3.0) != 0.0
  }

  /** The circles of the 3-set layout face 180°, 300° and 60°, and each is labelled at the
      point `pointAtCircle` gives at 1.1 times the radius `r` and at 30°, 210° and −30°. */
  predicate ThreeCircleLabels(m: MathLib, c: seq<Circle>, r: real)
    requires |c| == 3
  {
    && c[0].angle == 180.0 && c[1].angle == 300.0 && c[2].angle == 60.0
    && c[0].text == m.pointAtCircle(c[0].cx, c[0].cy, r * 1.1, 30.0)
    && c[1].text == m.pointAtCircle(c[1].cx, c[1].cy, r * 1.1, 210.0)
    && c[2].text == m.pointAtCircle(c[2].cx, c[2].cy, r * 1.1, -30.0)
  }

  /** The three circles of the 3-set layout, all of radius `r`, centered `offset` away from
      `(cx, cy)` at the angles −90°, 30° and 150°, each with its label point just outside
      the circle. */
  function PlaceThree(m: MathLib, r: real, cx: real, cy: real, offset: real): (c: seq<Circle>)
    ensures |c| == 3
    ensures forall i :: 0 <= i < 3 ==> c[i].r == r
    ensures ThreeCircleLabels(m, c, r)
  {
    var c0x := cx + offset * m.cos(-90.0 * m.deg2rad);
    var c0y := cy - offset * m.sin(-90.0 * m.deg2rad);
    var c0 := Circle(r, c0x, c0y, 180.0, m.pointAtCircle(c0x, c0y, r * 1.1, 120.0 - 90.0));

    var c1x := cx - offset * m.cos(30.0 * m.deg2rad);
    var c1y := cy - offset * m.sin(30.0 * m.deg2rad);
    var c1 := Circle(r, c1x, c1y, 300.0, m.pointAtCircle(c1x, c1y, r * 1.1, 300.0 - 90.0));

    var c2x := cx - offset * m.cos(150.0 * m.deg2rad);
    var c2y := cy - offset * m.sin(150.0 * m.deg2rad);
    var c2 := Circle(r, c2x, c2y, 60.0, m.pointAtCircle(c2x, c2y, r * 1.1, 60.0 - 90.0));
    [c0, c1, c2]
  }

  /** The common radius of the 3-set circles, `floor(min(h/factor, w/factor))`. */
  function ThreeRadius(m: MathLib, size: ChartArea, radiOverlap: real): (r: real)
    requires ThreeDefined(m, radiOverlap)
    ensures FloorOfMin(r, size.h / ThreeFactor(m, radiOverlap), size.w / ThreeFactor(m, radiOverlap))
  {
    var factor := ThreeFactor(m, radiOverlap);
    Floor(Min(size.h / factor, size.w / factor))
  }

  /** The distance of each 3-set circle center from the triangle center: the circumradius
      `outerRadius = a/√3` of the triangle of side `a = r·(2 − 2·overlap)`. */
  function ThreeOffset(m: MathLib, size: ChartArea, radiOverlap: real): real
    requires ThreeDefined(m, radiOverlap)
  {
    var a := ThreeRadius(m, size, radiOverlap) * (2.0 - radiOverlap * 2.0);
    a / m.sqrt(3.0)
  }

  /** The three circles of the 3-set layout: one integral radius `r`, and centers at the
      angles −90°, 30° and 150° around a triangle center that lies `outerRadius` above the
      bottom margin of `r`, horizontally at the chart center. */
  function ThreeCircles(m: MathLib, size: ChartArea, radiOverlap: real): (c: seq<Circle>)
    requires ThreeDefined(m, radiOverlap)
    ensures |c| == 3
    ensures forall i :: 0 <= i < 3 ==> c[i].r == c[0].r
    ensures FloorOfMin(c[0].r, size.h / ThreeFactor(m, radiOverlap), size.w / ThreeFactor(m, radiOverlap))
    ensures ThreeCircleLabels(m, c, c[0].r)
  {
    var r := ThreeRadius(m, size, radiOverlap);
    var outerRadius := ThreeOffset(m, size, radiOverlap);
    PlaceThree(m, r, size.cx, size.h - r - outerRadius, outerRadius)
  }

  /** The six crossing points of the 3-set layout, as `[p12_0, p12_1, p20_0, p20_1, p01_0, p01_1]`:
      the primitive applied to circles 1 and 2, 2 and 0, 0 and 1. */
  function CrossingPoints(m: MathLib, c: seq<Circle>): (ps: seq<Coord>)
    requires |c| == 3
    ensures |ps| == 6
    ensures (ps[0], ps[1]) == m.circleIntersectionPoints(c[1], c[2])
    ensures (ps[2], ps[3]) == m.circleIntersectionPoints(c[2], c[0])
    ensures (ps[4], ps[5]) == m.circleIntersectionPoints(c[0], c[1])
  {
    var (p12_0, p12_1) := m.circleIntersectionPoints(c[1], c[2]);
    var (p20_0, p20_1) := m.circleIntersectionPoints(c[2], c[0]);
    var (p01_0, p01_1) := m.circleIntersectionPoints(c[0], c[1]);
    [p12_0, p12_1, p20_0, p20_1, p01_0, p01_1]
  }

  /** Region `s` starts at `start` and its arcs end, in order, at the points `ends`. */
  predicate SliceVisits(s: ArcSlice, start: Coord, ends: seq<Coord>)
  {
    && s.x1 == start.cx && s.y1 == start.cy
    && |s.arcs| == |ends|
    && forall j :: 0 <= j < |ends| ==> EndOf(s.arcs[j]) == ends[j]
  }

  /** Every region is a closed chain of circular arcs of radius `r`. */
  predicate ClosedRegionsOfRadius(regions: seq<ArcSlice>, r: real)
  {
    forall i :: 0 <= i < |regions| ==> SliceCloses(regions[i]) && ArcsOfRadius(regions[i].arcs, r)
  }

  /** Two lists of closed radius-`r` regions make one. */
  lemma ClosedRegionsAppend(a: seq<ArcSlice>, b: seq<ArcSlice>, r: real)
    requires ClosedRegionsOfRadius(a, r) && ClosedRegionsOfRadius(b, r)
    ensures ClosedRegionsOfRadius(a + b, r)
  {
    forall i | 0 <= i < |a + b|
      ensures SliceCloses((a + b)[i]) && ArcsOfRadius((a + b)[i].arcs, r)
    {
      if i >= |a| {
        assert (a + b)[i] == b[i - |a|];
      }
    }
  }

  /** The three circle-only regions of the 3-set layout, each labelled at its circle's center:
      two small arcs through crossing points of the other circles, then the large sweeping arc
      of its own circle back to the start. */
  function ThreeCircleOnlyRegions(c: seq<Circle>, ps: seq<Coord>): (s: seq<ArcSlice>)
    requires |c| == 3 && |ps| == 6
    ensures |s| == 3 && ClosedRegionsOfRadius(s, c[0].r)
    ensures SliceVisits(s[0], ps[5], [ps[0], ps[3], ps[5]])
    ensures SliceVisits(s[1], ps[1], [ps[2], ps[5], ps[1]])
    ensures SliceVisits(s[2], ps[3], [ps[4], ps[1], ps[3]])
    ensures forall i :: 0 <= i < 3 ==> s[i].text == Point(c[i].cx, c[i].cy)
  {
    var r := c[0].r;
    var p12_0, p12_1, p20_0, p20_1, p01_0, p01_1 := ps[0], ps[1], ps[2], ps[3], ps[4], ps[5];
    [ ArcSlice(p01_1.cx, p01_1.cy, [ArcTo(p12_0, r), ArcTo(p20_1, r), ArcTo(p01_1, r, true, true)], Point(c[0].cx, c[0].cy)),
      ArcSlice(p12_1.cx, p12_1.cy, [ArcTo(p20_0, r), ArcTo(p01_1, r), ArcTo(p12_1, r, true, true)], Point(c[1].cx, c[1].cy)),
      ArcSlice(p20_1.cx, p20_1.cy, [ArcTo(p01_0, r), ArcTo(p12_1, r), ArcTo(p20_1, r, true, true)], Point(c[2].cx, c[2].cy)) ]
  }

  /** The three pair regions and the central region of the 3-set layout, each labelled at
      the mean of its arc endpoints. */
  function ThreeInnerRegions(r: real, ps: seq<Coord>): (s: seq<ArcSlice>)
    requires |ps| == 6
    ensures |s| == 4 && ClosedRegionsOfRadius(s, r)
    ensures SliceVisits(s[0], ps[2], [ps[5], ps[0], ps[2]])
    ensures SliceVisits(s[1], ps[0], [ps[3], ps[4], ps[0]])
    ensures SliceVisits(s[2], ps[4], [ps[1], ps[2], ps[4]])
    ensures SliceVisits(s[3], ps[0], [ps[2], ps[4], ps[0]])
    ensures forall i :: 0 <= i < 4 ==> LabelIsEndpointMean(s[i])
  {
    var p12_0, p12_1, p20_0, p20_1, p01_0, p01_1 := ps[0], ps[1], ps[2], ps[3], ps[4], ps[5];
    [ CenteredSlice(p20_0, [ArcTo(p01_1, r), ArcTo(p12_0, r), ArcTo(p20_0, r, false, true)]),
      CenteredSlice(p12_0, [ArcTo(p20_1, r), ArcTo(p01_0, r), ArcTo(p12_0, r, false, true)]),
      CenteredSlice(p01_0, [ArcTo(p12_1, r), ArcTo(p20_0, r), ArcTo(p01_0, r, false, true)]),
      CenteredSlice(p12_0, [ArcTo(p20_0, r, false, true), ArcTo(p01_0, r, false, true), ArcTo(p12_0, r, false, true)]) ]
  }

  /** `three(size, radiOverlap)`: three circles of one radius `r`, and seven regions (three
      circle-only regions, three pair regions, one central region), every one a closed
      chain of radius-`r` arcs; the universe cuts the three circles out with three arcs. */
  function Three(m: MathLib, size: ChartArea, radiOverlap: real): (l: DiagramLayout)
    requires ThreeDefined(m, radiOverlap)
    ensures l.sets == ThreeCircles(m, size, radiOverlap)
    ensures |l.intersections| == 7 && |l.universe.arcs| == 3
    ensures l.universe.angle == 90.0
    ensures l.universe.width == size.w && l.universe.height == size.h
    ensures WellFormed(l) && AllArcsOfRadius(l, l.sets[0].r)
  {
    var c := ThreeCircles(m, size, radiOverlap);
    var r := c[0].r;
    var ps := CrossingPoints(m, c);
    var p12_0, p20_0, p01_0 := ps[0], ps[2], ps[4];
    var regions := ThreeCircleOnlyRegions(c, ps) + ThreeInnerRegions(r, ps);
    ClosedRegionsAppend(ThreeCircleOnlyRegions(c, ps), ThreeInnerRegions(r, ps), r);
    DiagramLayout(
      c,
      UniverseSet(
        size.w, size.h, p12_0.cx, p12_0.cy, 90.0,
        Point((size.cx - r) / 2.0, size.h - (size.cy - r) / 2.0),
        [ArcTo(p20_0, r, true), ArcTo(p01_0, r, true), ArcTo(p12_0, r, true)]),
      regions)
  }

  /** The flags of the 3-set regions: the universe takes the large arc of every circle
      without sweep; every circle-only region (0–2) and pair region (3–5) takes two small
      arcs without sweep and closes with a sweeping arc, large for a circle-only region and
      small for a pair region; the central region (6) takes three small sweeping arcs. */
  lemma ThreeFlags(m: MathLib, size: ChartArea, radiOverlap: real)
    requires ThreeDefined(m, radiOverlap)
    ensures var l := Three(m, size, radiOverlap);
      && ArcsWithFlags(l.universe.arcs, true, false)
      && (forall i :: 0 <= i < 6 ==>
            && |l.intersections[i].arcs| == 3
            && ArcsWithFlags(l.intersections[i].arcs[..2], false, false)
            && l.intersections[i].arcs[2].largeArcFlag == (i < 3)
            && l.intersections[i].arcs[2].sweepFlag)
      && ArcsWithFlags(l.intersections[6].arcs, false, true)
  {
  }

  /** The labels of the 3-set regions: a circle-only region is labelled at its circle's
      center; a pair region and the central region at the mean of their three endpoints. */
  lemma ThreeLabels(m: MathLib, size: ChartArea, radiOverlap: real)
    requires ThreeDefined(m, radiOverlap)
    ensures var l := Three(m, size, radiOverlap);
      && (forall i :: 0 <= i < 3 ==> l.intersections[i].text == Point(l.sets[i].cx, l.sets[i].cy))
      && (forall i :: 3 <= i < 7 ==>
            && |l.intersections[i].arcs| == 3
            && LabelIsEndpointMean(l.intersections[i])
            && l.intersections[i].text.x * 3.0 == l.intersections[i].arcs[0].x2 + l.intersections[i].arcs[1].x2 + l.intersections[i].arcs[2].x2
            && l.intersections[i].text.y * 3.0 == l.intersections[i].arcs[0].y2 + l.intersections[i].arcs[1].y2 + l.intersections[i].arcs[2].y2)
  {
    var l := Three(m, size, radiOverlap);
    forall i | 3 <= i < 7
      ensures l.intersections[i].text.x * 3.0 == l.intersections[i].arcs[0].x2 + l.intersections[i].arcs[1].x2 + l.intersections[i].arcs[2].x2
      ensures l.intersections[i].text.y * 3.0 == l.intersections[i].arcs[0].y2 + l.intersections[i].arcs[1].y2 + l.intersections[i].arcs[2].y2
    {
      MeanOfThree(l.intersections[i]);
    }
  }

  /** Every region of the 3-set layout starts at a crossing point and runs through
      crossing points only, as `[p12_0, p12_1, p20_0, p20_1, p01_0, p01_1]` names them:
      the circle-only regions from `p01_1`, `p12_1`, `p20_1`; the pair regions from `p20_0`,
      `p12_0`, `p01_0`; the central region from `p12_0`. */
  lemma ThreeRegionVertices(m: MathLib, size: ChartArea, radiOverlap: real)
    requires ThreeDefined(m, radiOverlap)
    ensures var l := Three(m, size, radiOverlap);
      var ps := CrossingPoints(m, l.sets);
      && SliceVisits(l.intersections[0], ps[5], [ps[0], ps[3], ps[5]])
      && SliceVisits(l.intersections[1], ps[1], [ps[2], ps[5], ps[1]])
      && SliceVisits(l.intersections[2], ps[3], [ps[4], ps[1], ps[3]])
      && SliceVisits(l.intersections[3], ps[2], [ps[5], ps[0], ps[2]])
      && SliceVisits(l.intersections[4], ps[0], [ps[3], ps[4], ps[0]])
      && SliceVisits(l.intersections[5], ps[4], [ps[1], ps[2], ps[4]])
      && SliceVisits(l.intersections[6], ps[0], [ps[2], ps[4], ps[0]])
  {
  }

  /** The universe outline and the central region of the 3-set layout start at the same
      crossing point `p12_0` and visit the same crossing points `p20_0`, `p01_0`, `p12_0`
      in the same order; they differ only in their flags. */
  lemma ThreeOutlineSharesCenterVertices(m: MathLib, size: ChartArea, radiOverlap: real)
    requires ThreeDefined(m, radiOverlap)
    ensures var l := Three(m, size, radiOverlap);
      var ps := CrossingPoints(m, l.sets);
      && l.universe.x1 == ps[0].cx && l.universe.y1 == ps[0].cy
      && l.intersections[6].x1 == ps[0].cx && l.intersections[6].y1 == ps[0].cy
      && |l.intersections[6].arcs| == 3
      && [EndOf(l.universe.arcs[0]), EndOf(l.universe.arcs[1]), EndOf(l.universe.arcs[2])] == [ps[2], ps[4], ps[0]]
      && [EndOf(l.intersections[6].arcs[0]), EndOf(l.intersections[6].arcs[1]), EndOf(l.intersections[6].arcs[2])] == [ps[2], ps[4], ps[0]]
  {
  }

  // ---------------------------------------------------------------------------
  // Dispatch
  // ---------------------------------------------------------------------------

  /** The number of circles a layout for `sets` sets has. */
  function CircleCount(sets: int): nat
  {
    if 0 <= sets <= 2 then sets else 3
  }

  /** The number of regions a layout for `sets` sets has. */
  function RegionCount(sets: int): nat
  {
    if sets == 0 || sets == 1 then 0 else if sets == 2 then 3 else 7
  }

  /** The number of arcs in the universe outline of a layout for `sets` sets. */
  function UniverseArcCount(sets: int): nat
  {
    if sets == 0 then 0 else if sets == 1 || sets == 2 then 2 else 3
  }

  /** The divisions the layout for `sets` sets performs have non-zero divisors. */
  predicate LayoutDefined(m: MathLib, sets: int, radiOverlap: real)
  {
    && (sets == 2 ==> radiOverlap != 4.0)
    && (sets != 0 && sets != 1 && sets != 2 ==> ThreeDefined(m, radiOverlap))
  }

  /** `vennDiagramLayout(sets, size, radiOverlap = 0.25)`: the layout for 0, 1 or 2 sets,
      and the 3-set layout for every other count. */
  function VennDiagramLayout(m: MathLib, sets: int, size: ChartArea, radiOverlap: real := 0.25): (l: DiagramLayout)
    requires LayoutDefined(m, sets, radiOverlap)
    ensures |l.sets| == CircleCount(sets)
    ensures |l.intersections| == RegionCount(sets)
    ensures |l.universe.arcs| == UniverseArcCount(sets)
    ensures l.universe.width == size.w && l.universe.height == size.h
    ensures WellFormed(l)
    ensures forall i :: 0 <= i < |l.sets| ==> l.sets[i].r == l.sets[0].r && AllArcsOfRadius(l, l.sets[i].r)
    ensures sets == 0 ==> l.universe == UniverseSet(size.w, size.h, 0.0, 0.0, 0.0, Point(size.cx, size.cy), [])
    ensures sets != 0 ==> l.universe.angle == 90.0
  {
    match sets
    case 0 =>
      DiagramLayout([], UniverseSet(size.w, size.h, 0.0, 0.0, 0.0, Point(size.cx, size.cy), []), [])
    case 1 => One(size)
    case 2 => Two(m, size, radiOverlap)
    case _ => Three(m, size, radiOverlap)
  }

  // ---------------------------------------------------------------------------
  // Properties relating several calls
  // ---------------------------------------------------------------------------

  /** Every count other than 0, 1 and 2 (four or more, and negative counts too) yields
      exactly the 3-set layout. */
  lemma FallbackIsThree(m: MathLib, sets: int, size: ChartArea, radiOverlap: real)
    requires sets != 0 && sets != 1 && sets != 2
    requires ThreeDefined(m, radiOverlap)
    ensures VennDiagramLayout(m, sets, size, radiOverlap) == VennDiagramLayout(m, 3, size, radiOverlap)
    ensures VennDiagramLayout(m, sets, size, radiOverlap) == Three(m, size, radiOverlap)
  {
  }

  /** One set yields exactly the 1-set layout. */
  lemma SingleIsOne(m: MathLib, size: ChartArea, radiOverlap: real)
    ensures VennDiagramLayout(m, 1, size, radiOverlap) == One(size)
  {
  }

  /** Two sets yield exactly the 2-set layout. */
  lemma PairIsTwo(m: MathLib, size: ChartArea, radiOverlap: real)
    requires radiOverlap != 4.0
    ensures VennDiagramLayout(m, 2, size, radiOverlap) == Two(m, size, radiOverlap)
  {
  }

  /** When the trigonometric primitive is exact at the three placement angles, the top
      circle sits on the vertical through the chart center and the two lower circles are
      mirror images about it. */
  lemma ThreeSymmetric(m: MathLib, size: ChartArea, radiOverlap: real)
    requires ThreeDefined(m, radiOverlap)
    requires m.cos(-90.0 * m.deg2rad) == 0.0
    requires m.cos(150.0 * m.deg2rad) == -m.cos(30.0 * m.deg2rad)
    requires m.sin(150.0 * m.deg2rad) == m.sin(30.0 * m.deg2rad)
    ensures var c := Three(m, size, radiOverlap).sets;
      && c[0].cx == size.cx
      && c[1].cx + c[2].cx == 2.0 * size.cx
      && c[1].cy == c[2].cy
  {
    var r, offset := ThreeRadius(m, size, radiOverlap), ThreeOffset(m, size, radiOverlap);
    PlaceThreeSymmetric(m, r, size.cx, size.h - r - offset, offset);
  }

  /** Placed with exact trigonometry at the three angles, the first circle sits on the
      vertical through `cx`, and the other two are mirror images about it at equal height. */
  lemma PlaceThreeSymmetric(m: MathLib, r: real, cx: real, cy: real, offset: real)
    requires m.cos(-90.0 * m.deg2rad) == 0.0
    requires m.cos(150.0 * m.deg2rad) == -m.cos(30.0 * m.deg2rad)
    requires m.sin(150.0 * m.deg2rad) == m.sin(30.0 * m.deg2rad)
    ensures var c := PlaceThree(m, r, cx, cy, offset);
      && c[0].cx == cx
      && c[1].cx + c[2].cx == 2.0 * cx
      && c[1].cy == c[2].cy
  {
    var cos30 := m.cos(30.0 * m.deg2rad);
    assert offset * m.cos(150.0 * m.deg2rad) == -(offset * cos30);
  }

  /** `p` lies in the chart rectangle `[0, w] × [0, h]`. */
  predicate InChart(p: Coord, size: ChartArea)
  {
    0.0 <= p.cx <= size.w && 0.0 <= p.cy <= size.h
  }

  /** If the crossing points of the two circles lie in the chart, so does the lens label. */
  lemma TwoLensLabelInChart(m: MathLib, size: ChartArea, radiOverlap: real)
    requires radiOverlap != 4.0
    requires var l := Two(m, size, radiOverlap);
      var (p0, p1) := m.circleIntersectionPoints(l.sets[0], l.sets[1]);
      InChart(p0, size) && InChart(p1, size)
    ensures var t := Two(m, size, radiOverlap).intersections[2].text;
      0.0 <= t.x <= size.w && 0.0 <= t.y <= size.h
  {
    var l := Two(m, size, radiOverlap);
    MeanLabelWithinEndpoints(l.intersections[2], 0.0, size.w, 0.0, size.h);
  }

  /** If the six crossing points lie in the chart, so do the labels of the three pair
      regions and of the central region of the 3-set layout. */
  lemma ThreeInnerLabelsInChart(m: MathLib, size: ChartArea, radiOverlap: real)
    requires ThreeDefined(m, radiOverlap)
    requires var ps := CrossingPoints(m, Three(m, size, radiOverlap).sets);
      forall k :: 0 <= k < 6 ==> InChart(ps[k], size)
    ensures var l := Three(m, size, radiOverlap);
      forall i :: 3 <= i < 7 ==> 0.0 <= l.intersections[i].text.x <= size.w && 0.0 <= l.intersections[i].text.y <= size.h
  {
    var l := Three(m, size, radiOverlap);
    var ps := CrossingPoints(m, l.sets);
    forall i | 3 <= i < 7
      ensures 0.0 <= l.intersections[i].text.x <= size.w && 0.0 <= l.intersections[i].text.y <= size.h
    {
      var s := l.intersections[i];
      assert forall j :: 0 <= j < 3 ==> EndOf(s.arcs[j]) in ps;
      MeanLabelWithinEndpoints(s, 0.0, size.w, 0.0, size.h);
    }
  }
}
