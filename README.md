# Venn diagram layout, modelled in Dafny

This project models the layout engine of a Venn-diagram chart, `src/model/layout.ts`.
Given a number of sets (0, 1, 2, or 3 and more) and a chart area (center `cx, cy`, size `w × h`,
base radius `r`), the engine produces three things:

- the circles of the sets;
- the regions ("intersections"), each a start point, a chain of SVG elliptical arcs and a label point;
- the "universe": the chart rectangle minus the circles, described by a start point and an arc chain.

A separate emitter turns the universe into one SVG path command string.

Coordinates are `real`. The geometry primitives the engine imports from its math module are
uninterpreted fields of a `MathLib` record (module `Geometry`) that every layout function takes as a
parameter:

- `circleIntersectionPoints`;
- `pointAtCircle`;
- `DEG2RAD`;
- `Math.cos`, `Math.sin` and `Math.sqrt`.

JavaScript's number-to-string conversion is a `num: real -> string` parameter of the emitter.

Modules:

- `Interfaces`: the record shapes (`Arc`, `Circle`, `ArcSlice`, `UniverseSet`, `DiagramLayout`, `ChartArea`). It also holds the shape predicates used in the contracts:
  - `Circular`;
  - `ChainCloses` and `SliceCloses`: the last arc ends at the start point;
  - `ArcsOfRadius` and `ArcsWithFlags`;
  - `WellFormed`: every region and every non-empty universe outline is a closed chain of circular arcs.
- `Geometry`: the opaque primitives.
- `Layout`:
  - `arc` as `ArcTo`;
  - `computeCenter`, `arcSlice` as `LensSlice`, and `arcCenter` as `CenteredSlice`;
  - `one`, `two` and `three`;
  - the dispatch `vennDiagramLayout`;
  - the lemmas relating them.
- `PathEmitter`: `generateUniverseSetPath` and the lemmas about the command string.

## Model

| member | source | states |
|---|---|---|
| Layout.Min | src/model/layout.ts:130 | `Math.min` of two numbers is one of them and bounded by both |
| Layout.Floor | src/model/layout.ts:130 | `Math.floor` gives an integer `f` with `f <= x < f + 1` |
| Layout.ArcTo | src/model/layout.ts:82-92 | a built arc is circular (`rx == ry == r`, rotation 0), ends at the given point and carries the given flags (false by default) |
| Layout.ComputeCenter | src/model/layout.ts:94-101 | for a non-empty chain, the center times the number of arcs equals the left-to-right sum of the arc endpoints' `x2` (and of their `y2`), i.e. the center is the endpoint mean |
| Layout.Sum | src/model/layout.ts:95-96 | the left-to-right `reduce` sum; Layout.SumBounds bounds it and Layout.ComputeCenter divides it |
| Layout.SumBounds | src/model/layout.ts:95-96 | the `reduce` sum of `n` values that all lie in `[lo, hi]` lies in `[n·lo, n·hi]` (by induction on the fold) |
| Layout.MeanWithin | src/model/layout.ts:94-101 | a value whose `n`-fold is the sum of `n` values in `[lo, hi]` (a mean as `computeCenter` forms it) lies in `[lo, hi]` |
| Layout.MeanLabelWithinEndpoints | src/model/layout.ts:94-101 | a label placed at the endpoint mean lies in every box that contains all arc endpoints |
| Layout.LensSlice | src/model/layout.ts:103-112 | the lens starts at `p0`; its two arcs end at `p1`, then `p0`; it closes; it uses radius `r` and both flags false; its label is the endpoint mean, i.e. the midpoint of `p0` and `p1` |
| Layout.CenteredSlice | src/model/layout.ts:114-125 | the region starts at `p1` and keeps its arc chain unchanged; its label is the endpoint mean; it closes exactly when the last arc ends at `p1` |
| Layout.One | src/model/layout.ts:33-80 | exactly one circle, of radius `size.r`, at the chart center; no regions. The universe starts at the top point `(cx, cy−r)`. Its first arc goes to the diametrically opposite bottom point `(cx, cy+r)` without sweep; its second arc returns with sweep; both are small arcs. Both endpoints lie on the circle. The universe label is at `(w/2 − r, h/2 + r)` and its angle is 90. The layout is well formed, with every arc of radius `size.r` |
| Layout.Two | src/model/layout.ts:127-185 | two circles and three regions. The circles share one radius `r = floor(min(h/2, w/(4−o)))` and share `cy = size.cy`. They face 270° and 90°, and are labelled at `pointAtCircle(cx, cy, 1.1·r, 210°)` and `pointAtCircle(cx, cy, 1.1·r, −30°)`. The universe angle is 90. They are mirror images about `size.cx` and `2·r·(1−o)` apart. The universe makes two large arcs without sweep. Every region and the universe start at the first crossing point `p0` and go first to `p1`. The lens is `arcSlice(p0, p1, r)`. The circle-only regions are labelled at their circle's center. The left one goes to `p1` by a small sweeping arc and returns by a large arc without sweep. The right one goes by a large arc without sweep and returns by a small arc without sweep. The layout is well formed, with every arc of radius `r` |
| Layout.ThreeRadius | src/model/layout.ts:191-192 | the 3-set radius is `floor(min(h/factor, w/factor))` with `factor = 2 + (2 − 2o)·cos 30°`: integral, bounded by both quotients, and the largest such integer |
| Layout.PlaceThree | src/model/layout.ts:199-229 | the placement makes three circles, all of the given radius. They face 180°, 300° and 60°, and each is labelled at `pointAtCircle(cx, cy, 1.1·r, …)` at 30°, 210° and −30° |
| Layout.ThreeCircles | src/model/layout.ts:187-229 | the three circles share one radius `r = floor(min(h/factor, w/factor))`, and carry the angles and label points `PlaceThree` states |
| Layout.ThreeFactor | src/model/layout.ts:191 | the radius divisor `1 + (2 − 2o)·cos 30° + 1`; Layout.ThreeRadius states the radius it yields |
| Layout.ThreeOffset | src/model/layout.ts:195-196 | the circumradius `r·(2 − 2o)/√3` of the center triangle; Layout.ThreeSymmetric states the placement it drives |
| Layout.CrossingPoints | src/model/layout.ts:231-233 | `p12` comes from circles 1 and 2, `p20` from circles 2 and 0, `p01` from circles 0 and 1, each pair in the primitive's order |
| Layout.ThreeCircleOnlyRegions | src/model/layout.ts:250-276 | the three circle-only regions are closed chains of arcs of radius `r`. Region 0 starts at `p01_1` and visits `p12_0`, `p20_1`, `p01_1`. Region 1 starts at `p12_1` and visits `p20_0`, `p01_1`, `p12_1`. Region 2 starts at `p20_1` and visits `p01_0`, `p12_1`, `p20_1`. Each is labelled at its circle's center |
| Layout.ThreeInnerRegions | src/model/layout.ts:277-280 | the three pair regions and the central region are closed chains of arcs of radius `r`, labelled at their endpoint mean. The pair regions start at `p20_0`, `p12_0`, `p01_0` and visit `p01_1, p12_0, p20_0`, then `p20_1, p01_0, p12_0`, then `p12_1, p20_0, p01_0`. The central region starts at `p12_0` and visits `p20_0`, `p01_0`, `p12_0` |
| Layout.Three | src/model/layout.ts:231-283 | the 3-set layout has those three circles, seven regions and a three-arc universe outline of angle 90; every region and the outline are closed chains of arcs of radius `r` |
| Layout.ThreeFlags | src/model/layout.ts:247-280 | the universe uses large arcs without sweep. Each circle-only region and pair region takes two small non-sweeping arcs and closes with a sweeping arc, large exactly for the circle-only regions. The central region takes three small sweeping arcs |
| Layout.ThreeLabels | src/model/layout.ts:249-281 | circle-only regions are labelled at their circle's center; the pair regions and the central region at the mean of their three arc endpoints: three times the label is the sum of the three endpoints |
| Layout.ThreeRegionVertices | src/model/layout.ts:249-280 | each of the seven 3-set regions starts at, and visits, exactly the crossing points the code names, in the code's order |
| Layout.ThreeOutlineSharesCenterVertices | src/model/layout.ts:245-280 | the universe outline and the central region both start at `p12_0` and visit `p20_0`, `p01_0`, `p12_0` in that order |
| Layout.PlaceThreeSymmetric | src/model/layout.ts:199-229 | if cos and sin are exact at −90°, 30° and 150°, the first placed circle is centered on the vertical through the triangle center, and the other two are mirror images about it at equal height |
| Layout.ThreeSymmetric | src/model/layout.ts:194-229 | under the same exactness, the first circle of the 3-set layout is centered on `x = size.cx`, and the other two are mirror images about that line at equal height |
| Layout.ThreeInnerLabelsInChart | src/model/layout.ts:277-280 | if the six crossing points lie in the chart, so do the labels of the pair regions and the central region |
| Layout.TwoLensLabelInChart | src/model/layout.ts:182 | if both crossing points lie in the chart, so does the lens label |
| Layout.VennDiagramLayout | src/model/layout.ts:285-311 | for 0, 1, 2 and any other count, the layout has 0/1/2/3 circles, 0/0/3/7 regions and 0/2/2/3 universe arcs. It always spans the chart and is well formed, with all radii equal. For any count but 0 the universe angle is 90. For 0 sets the universe has no arcs, starts at `(0, 0)` and is labelled at the chart center |
| Layout.SingleIsOne | src/model/layout.ts:304-305 | one set yields exactly `one(size)` |
| Layout.PairIsTwo | src/model/layout.ts:306-307 | two sets yield exactly `two(size, radiOverlap)` |
| Layout.FallbackIsThree | src/model/layout.ts:308-310 | every count other than 0, 1 and 2 (negative ones included) yields exactly the 3-set layout |
| PathEmitter.GenerateUniverseSetPath | src/model/layout.ts:6-17 | the emitter; PathEmitter.PathShape and PathEmitter.PathArcLetters state its properties |
| PathEmitter.ArcCommand | src/model/layout.ts:9-11 | one arc as its `A` command; PathEmitter.ArcCommandLetters states that it holds exactly one `A` |
| PathEmitter.Join | src/model/layout.ts:13 | `join(' ')`; PathEmitter.JoinLetters states that the separator adds no `A` |
| PathEmitter.PathShape | src/model/layout.ts:6-17 | the path starts with `M ` and ends with `Z`. It starts with `M 0 0 L x1 0 L x1 y1 ` when `y1 < h/2`, and with `M w h L x1 h L x1 y1 ` otherwise |
| PathEmitter.ArcCommandLetters | src/model/layout.ts:9-11 | an arc command holds exactly one `A`, its leading command letter, when the number printer prints none |
| PathEmitter.JoinLetters | src/model/layout.ts:13 | joining commands with one `A` each gives one `A` per command; the separator adds none |
| PathEmitter.JoinedArcLetters | src/model/layout.ts:8-13 | the joined arc commands of a chain hold one `A` per arc |
| PathEmitter.TemplateLetters | src/model/layout.ts:14-16 | in either template, the parts before and after the arc chain hold no `A` |
| PathEmitter.PathArcLetters | src/model/layout.ts:6-17 | the path holds exactly one arc command per outline arc, so the chain is spliced in exactly once |
| PathEmitter.LayoutPathArcCount | src/model/layout.ts:6-17 | the universe path of a layout for `n` sets holds 0, 2, 2 or 3 arc commands (for 0, 1, 2 and any other count) |

## Left out

- The math module (`circleIntersectionPoints`, `pointAtCircle`, `DEG2RAD`) is not part of this model. Its functions and `Math.cos`, `Math.sin`, `Math.sqrt` are uninterpreted parameters. So nothing is claimed about crossing points lying on the circles, or about numeric accuracy of the trigonometric placement.
- IEEE-754 arithmetic is not modelled: coordinates are exact reals, and NaN and Infinity do not exist. The model does not capture how NaN propagates from a degenerate primitive result.
- JavaScript's number-to-string formatting is the parameter `num`. The arc-count lemmas assume only that it never prints the letter `A`, as JavaScript's conversion never does.
- PathEmitter.PathArcLetters: counts only the arc commands of the path. The numbers of move-to, line-to and close-path commands are not stated; PathEmitter.PathShape states the first and last command.
- The set count is an `int`. A fractional count, which JavaScript also routes to the 3-set layout, is not modelled.
- Layout.ComputeCenter: requires a non-empty chain, where JavaScript would divide by zero and produce NaN. Every caller passes a non-empty chain.
- Layout.Two: requires `radiOverlap != 4`, because real division by zero has no value. In JavaScript `w/0` is Infinity (NaN for `w = 0`).
- Layout.Three: requires the radius divisor and `Math.sqrt(3)` to be non-zero, for the same reason. The same holds for Layout.ThreeCircles.
- Layout.VennDiagramLayout: inherits those two requirements for the counts that reach `two` and `three`.
- The code does not detect or validate a degenerate overlap. The model likewise passes whatever the crossing-point primitive returns straight into the regions.
- `src/model/interfaces.ts` declares `cx`/`cy` on a region and no label on circles. The model follows the fields `layout.ts` actually builds: circles carry `text`, and regions carry `x1`, `y1`, `arcs`, `text`.
- In the 3-set layout, the universe outline runs through the same crossing points `p20_0`, `p01_0`, `p12_0` as the central region (Layout.ThreeOutlineSharesCenterVertices). The model follows the code. It does not invent an outline through the other three crossing points.
- The universe labels of `two` and `three` (including the otherwise unused `wRest`) are modelled as computed. No geometric property is claimed for them.
