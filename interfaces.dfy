/** The record shapes that the Venn layout engine builds and returns.
    Coordinates are reals: the model makes no claim about floating-point rounding. */
module Interfaces {

  /** A label position `{ x, y }`, as stored in every `text` field. */
  datatype Point = Point(x: real, y: real)

  /** A position `{ cx, cy }`: a circle center or a point where two circles cross. */
  datatype Coord = Coord(cx: real, cy: real)

  /** One set of the diagram: a circle with a label angle and a label position. */
  datatype Circle = Circle(r: real, cx: real, cy: real, angle: real, text: Point)

  /** One elliptical-arc segment from the current point to `(x2, y2)`. */
  datatype Arc = Arc(rx: real, ry: real, rotation: real, largeArcFlag: bool, sweepFlag: bool, x2: real, y2: real)

  /** One region of the diagram: a start point, an arc chain and a label position. */
  datatype ArcSlice = ArcSlice(x1: real, y1: real, arcs: seq<Arc>, text: Point)

  /** The outline of the background region: the chart rectangle with the circles cut out
      along the arc chain that starts at `(x1, y1)`. */
  datatype UniverseSet = UniverseSet(width: real, height: real, x1: real, y1: real, angle: real, text: Point, arcs: seq<Arc>)

  /** The chart area handed to the layout: its center, width, height and a base radius. */
  datatype ChartArea = ChartArea(cx: real, cy: real, w: real, h: real, r: real)

  /** The complete result of one layout call. */
  datatype DiagramLayout = DiagramLayout(sets: seq<Circle>, universe: UniverseSet, intersections: seq<ArcSlice>)

  /** The point an arc ends at. */
  function EndOf(a: Arc): Coord
  {
    Coord(a.x2, a.y2)
  }

  /** An arc is circular when both radii agree and the ellipse is not rotated. */
  predicate Circular(a: Arc)
  {
    a.rx == a.ry && a.rotation == 0.0
  }

  /** Every arc of the chain is circular with radius `r`. */
  predicate ArcsOfRadius(arcs: seq<Arc>, r: real)
  {
    forall j :: 0 <= j < |arcs| ==> Circular(arcs[j]) && arcs[j].rx == r
  }

  /** Every arc of the chain carries the given large-arc and sweep flags. */
  predicate ArcsWithFlags(arcs: seq<Arc>, largeArcFlag: bool, sweepFlag: bool)
  {
    forall j :: 0 <= j < |arcs| ==> arcs[j].largeArcFlag == largeArcFlag && arcs[j].sweepFlag == sweepFlag
  }

  /** A chain closes when it has an arc and its last arc ends where the chain started. */
  predicate ChainCloses(x1: real, y1: real, arcs: seq<Arc>)
  {
    |arcs| > 0 && arcs[|arcs| - 1].x2 == x1 && arcs[|arcs| - 1].y2 == y1
  }

  predicate SliceCloses(s: ArcSlice)
  {
    ChainCloses(s.x1, s.y1, s.arcs)
  }

  /** Every arc of the chain is circular. */
  predicate ArcsCircular(arcs: seq<Arc>)
  {
    forall j :: 0 <= j < |arcs| ==> Circular(arcs[j])
  }

  /** Every region and the universe outline are chains of circular arcs, every region
      closes, and so does the universe outline unless it is the plain rectangle (no arcs). */
  predicate WellFormed(l: DiagramLayout)
  {
    && (forall i :: 0 <= i < |l.intersections| ==> SliceCloses(l.intersections[i]) && ArcsCircular(l.intersections[i].arcs))
    && ArcsCircular(l.universe.arcs)
    && (|l.universe.arcs| > 0 ==> ChainCloses(l.universe.x1, l.universe.y1, l.universe.arcs))
  }

  /** Every arc of the layout, in the universe and in every region, has radius `r`. */
  predicate AllArcsOfRadius(l: DiagramLayout, r: real)
  {
    && ArcsOfRadius(l.universe.arcs, r)
    && forall i :: 0 <= i < |l.intersections| ==> ArcsOfRadius(l.intersections[i].arcs, r)
  }

  /** `p` lies on the circle of radius `r` around `(cx, cy)`. */
  predicate OnCircle(p: Coord, cx: real, cy: real, r: real)
  {
    (p.cx - cx) * (p.cx - cx) + (p.cy - cy) * (p.cy - cy) == r * r
  }
}
