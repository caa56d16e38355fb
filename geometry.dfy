/** Per-zone contour analysis (utils/image_processing.py, `analyze_contours`).

    OpenCV stays outside the model: the contours found in a zone arrive as
    records of their area and first moments, the annotated image is a canvas
    that records the drawing calls made on it, and the numeric routines the
    code calls (np.sqrt, round, cv2.matchShapes) arrive as a `Numerics` value. */
module Geometry {
  import opened Values

  datatype Point = Point(x: int, y: int)

  /** An RGB triple, as OpenCV receives it. */
  datatype Color = Rgb(r: int, g: int, b: int)

  const MarkerColor: Color := Rgb(255, 0, 0)
  const LineColor: Color := Rgb(0, 255, 0)
  const OutlineColor: Color := Rgb(0, 0, 0)
  const FillColor: Color := Rgb(255, 255, 255)
  const BoxColor: Color := Rgb(0, 255, 0)

  /** One drawing call on an image. A caption stands for the text
      `f"{shiftMm:.2f} mm"` in the simplex font at scale 0.6. */
  datatype DrawOp =
    | Circle(center: Point, radius: int, color: Color, thickness: int)
    | Segment(from: Point, to: Point, color: Color, thickness: int)
    | Caption(origin: Point, shiftMm: real, color: Color, thickness: int)
    | Rectangle(corner: Point, opposite: Point, color: Color, thickness: int)

  /** An image being annotated: what matters about it here is the sequence of
      drawing calls made on it, in order. */
  class Canvas {
    var ops: seq<DrawOp>

    constructor ()
      ensures ops == []
    {
      ops := [];
    }

    method Draw(op: DrawOp)
      modifies this
      ensures ops == old(ops) + [op]
    {
      ops := ops + [op];
    }
  }

  /** A contour as `cv2.contourArea` and `cv2.moments` see it. */
  datatype Contour = Contour(area: real, m00: real, m10: real, m01: real)

  /** The numeric library routines the analysis calls: `np.sqrt`,
      Python's `round(x, digits)` and `cv2.matchShapes(a, b, CONTOURS_MATCH_I1, 0)`. */
  datatype Numerics = Numerics(
    sqrt: real -> real,
    round: (real, nat) -> real,
    matchShapes: (Contour, Contour) -> real)

  /** Python's `int(x)` on a float: truncation toward zero. */
  function Trunc(r: real): (n: int)
    ensures 0.0 <= r ==> 0 <= n && n as real <= r < n as real + 1.0
    ensures r < 0.0 ==> n <= 0 && n as real - 1.0 < r <= n as real
  {
    if r >= 0.0 then r.Floor else -((-r).Floor)
  }

  // ---------------------------------------------------------------------
  // Choosing the two largest contours

  /** How many of the indices below n differ from skip. */
  function Others(skip: int, n: nat): nat {
    if 0 <= skip < n then n - 1 else n
  }

  /** The first index below n, other than skip, whose contour has the largest
      area. This is the element a stable sort by descending area puts first. */
  function FirstLargest(cs: seq<Contour>, skip: int, n: nat): (i: nat)
    requires n <= |cs| && Others(skip, n) > 0
    ensures i < n && i != skip
    ensures forall k :: 0 <= k < n && k != skip ==> cs[k].area <= cs[i].area
    ensures forall k :: 0 <= k < i && k != skip ==> cs[k].area < cs[i].area
    decreases n
  {
    if n - 1 == skip then FirstLargest(cs, skip, n - 1)
    else if Others(skip, n - 1) == 0 then n - 1
    else
      var best := FirstLargest(cs, skip, n - 1);
      if cs[best].area < cs[n - 1].area then n - 1 else best
  }

  /** `sorted(contours, key=cv2.contourArea, reverse=True)[:2]`, as indices. */
  function TopTwo(cs: seq<Contour>): (pair: (nat, nat))
    requires |cs| >= 2
  {
    var first := FirstLargest(cs, -1, |cs|);
    (first, FirstLargest(cs, first, |cs|))
  }

  // ---------------------------------------------------------------------
  // Centroids and distances

  /** The centroid of a contour of non-zero area, shifted into image
      coordinates by the zone's origin. */
  function Centroid(c: Contour, x1: int, y1: int): Point
    requires c.m00 != 0.0
  {
    Point(Trunc(c.m10 / c.m00) + x1, Trunc(c.m01 / c.m00) + y1)
  }

  /** The centroids of the contours in order, skipping those with m00 == 0. */
  function Centroids(cs: seq<Contour>, x1: int, y1: int): seq<Point>
  {
    if cs == [] then []
    else
      var last := cs[|cs| - 1];
      Centroids(cs[..|cs| - 1], x1, y1) + (if last.m00 != 0.0 then [Centroid(last, x1, y1)] else [])
  }

  /** The filled marker drawn at a centroid. */
  function Marker(p: Point): DrawOp {
    Circle(p, 6, MarkerColor, -1)
  }

  /** One marker per point, in the same order. */
  function Markers(ps: seq<Point>): (ops: seq<DrawOp>)
    ensures |ops| == |ps|
    ensures forall k :: 0 <= k < |ps| ==> ops[k] == Marker(ps[k])
  {
    if ps == [] then [] else Markers(ps[..|ps| - 1]) + [Marker(ps[|ps| - 1])]
  }

  /** `dx ** 2 + dy ** 2`: zero exactly for the zero offset. */
  function SquaredLength(dx: int, dy: int): (d: nat)
    ensures d == 0 <==> dx == 0 && dy == 0
  {
    assert dx != 0 ==> dx * dx > 0;
    assert dy != 0 ==> dy * dy > 0;
    dx * dx + dy * dy
  }

  /** The square of the Euclidean distance between two points. */
  function DistSq(a: Point, b: Point): (d: nat)
    ensures d == 0 <==> a == b
  {
    SquaredLength(b.x - a.x, b.y - a.y)
  }

  /** A length in pixels converted with the millimetres-per-pixel factor. */
  function ToMillimetres(px: real, pxToMm: real): real {
    px * pxToMm
  }

  // ---------------------------------------------------------------------
  // The analysis

  /** What one call of the analysis produces: the three fields it sets, the
      drawing calls it makes on the detailed image, and the square of the
      unrounded shift in pixels when it computes one. */
  datatype Analysis = Analysis(entry: Entry, draws: seq<DrawOp>, shiftSq: Option<nat>)

  const NoShift: Entry := map[ShiftPxKey := Null, ShiftMmKey := Null, ShapeDiffKey := Null]

  /** The fields set from one unrounded shift value: both come from the same
      `shift`, the millimetre one is not the rounded pixel one scaled. */
  function ShiftFields(shift: real, pxToMm: real, num: Numerics): Entry {
    map[ShiftPxKey := Num(num.round(shift, 2)), ShiftMmKey := Num(num.round(ToMillimetres(shift, pxToMm), 2))]
  }

  /** Two entries with the analysis's three fields are equal when the fields are. */
  lemma SameFields(e: Entry, f: Entry)
    requires e.Keys == f.Keys == {ShiftPxKey, ShiftMmKey, ShapeDiffKey}
    requires e[ShiftPxKey] == f[ShiftPxKey] && e[ShiftMmKey] == f[ShiftMmKey] && e[ShapeDiffKey] == f[ShapeDiffKey]
    ensures e == f
  {
  }

  /** The fallback offsets: `int((x2-x1)*0.8)` and `int((y1-y2)*0.8)`. */
  function FallbackDelta(x1: int, y1: int, x2: int, y2: int): (int, int) {
    (Trunc((x2 - x1) as real * 0.8), Trunc((y1 - y2) as real * 0.8))
  }

  /** The results once two centroids p and q exist: `shift` is the unrounded
      distance, `diff` the rounded shape difference. */
  function ShiftResult(p: Point, q: Point, shift: real, diff: real, pxToMm: real, num: Numerics): (a: Analysis)
  {
    Analysis(
      ShiftEntry(shift, diff, pxToMm, num),
      Markers([p, q]) + ShiftLine(p, q, num.round(ToMillimetres(shift, pxToMm), 2)),
      Some(DistSq(p, q)))
  }

  /** The fields once two centroids exist: both shift fields and the shape difference. */
  function ShiftEntry(shift: real, diff: real, pxToMm: real, num: Numerics): Entry {
    ShiftFields(shift, pxToMm, num)[ShapeDiffKey := Num(diff)]
  }

  /** The line between the two centroids, then the millimetre label 10 pixels
      above its midpoint, drawn as a black outline and then filled in white. */
  function ShiftLine(p: Point, q: Point, shiftMm: real): seq<DrawOp> {
    var mid := Point((p.x + q.x) / 2, (p.y + q.y) / 2 - 10);
    [Segment(p, q, LineColor, 2), Caption(mid, shiftMm, OutlineColor, 4), Caption(mid, shiftMm, FillColor, 2)]
  }


  /** The branch for two contours or more, given the two largest in order. */
  function PairAnalysis(pair: seq<Contour>, x1: int, y1: int, pxToMm: real, num: Numerics): (a: Analysis)
    requires |pair| == 2
  {
    var cents := Centroids(pair, x1, y1);
    if |cents| == 2 then
      ShiftResult(cents[0], cents[1], num.sqrt(DistSq(cents[0], cents[1]) as real),
                  num.round(num.matchShapes(pair[0], pair[1]), 3), pxToMm, num)
    else
      Analysis(NoShift, Markers(cents), None)
  }

  /** The branch for fewer than two contours: a heuristic on the box itself. */
  function FallbackAnalysis(x1: int, y1: int, x2: int, y2: int, pxToMm: real, num: Numerics): (a: Analysis)
  {
    var (dx, dy) := FallbackDelta(x1, y1, x2, y2);
    Analysis(ShiftFields(num.sqrt(SquaredLength(dx, dy) as real), pxToMm, num)[ShapeDiffKey := NotApplicable], [],
             Some(SquaredLength(dx, dy)))
  }

  /** `analyze_contours` for the contours found in the zone (x1, y1, x2, y2). */
  function Analyze(cs: seq<Contour>, x1: int, y1: int, x2: int, y2: int, pxToMm: real, num: Numerics): (a: Analysis)
    ensures a.entry.Keys == {ShiftPxKey, ShiftMmKey, ShapeDiffKey}
    ensures !a.entry[ShiftMmKey].Str?
  {
    if |cs| >= 2 then
      var (i1, i2) := TopTwo(cs);
      PairAnalysis([cs[i1], cs[i2]], x1, y1, pxToMm, num)
    else
      FallbackAnalysis(x1, y1, x2, y2, pxToMm, num)
  }

  /** The loop of `analyze_contours` over the two chosen contours: each one
      with non-zero m00 yields a centroid and a filled circle, in order. */
  method MarkCentroids(pair: seq<Contour>, x1: int, y1: int, detailed: Canvas) returns (centroids: seq<Point>)
    modifies detailed
    ensures centroids == Centroids(pair, x1, y1)
    ensures detailed.ops == old(detailed.ops) + Markers(centroids)
  {
    centroids := [];
    for k := 0 to |pair|
      invariant centroids == Centroids(pair[..k], x1, y1)
      invariant detailed.ops == old(detailed.ops) + Markers(centroids)
    {
      assert pair[..k + 1][..k] == pair[..k];
      var cnt := pair[k];
      if cnt.m00 != 0.0 {
        var c := Centroid(cnt, x1, y1);
        centroids := centroids + [c];
        detailed.Draw(Circle(c, 6, MarkerColor, -1));
        assert centroids[..|centroids| - 1] == Centroids(pair[..k], x1, y1);
      }
    }
    assert pair[..|pair|] == pair;
  }

  /** Draws the line between the centroids and its label, a black outline
      under white text, 10 pixels above the midpoint. */
  method DrawShiftLine(p: Point, q: Point, shiftMm: real, detailed: Canvas)
    modifies detailed
    ensures detailed.ops == old(detailed.ops) + ShiftLine(p, q, shiftMm)
  {
    var (xA, yA) := (p.x, p.y);
    var (xB, yB) := (q.x, q.y);
    detailed.Draw(Segment(Point(xA, yA), Point(xB, yB), LineColor, 2));
    var mid := Point((xA + xB) / 2, (yA + yB) / 2 - 10);
    detailed.Draw(Caption(mid, shiftMm, OutlineColor, 4));
    detailed.Draw(Caption(mid, shiftMm, FillColor, 2));
  }

  /** The two-centroid part of `analyze_contours`: the shift between the
      centroids p and q fills the two shift fields, the line and its label are
      drawn, and the shape difference of the pair is filled in last. */
  method MeasureShift(p: Point, q: Point, cnt1: Contour, cnt2: Contour, entry0: Entry,
                      detailed: Canvas, pxToMm: real, num: Numerics) returns (entry: Entry)
    requires entry0.Keys == {ShiftPxKey, ShiftMmKey, ShapeDiffKey}
    modifies detailed
    ensures entry == ShiftEntry(num.sqrt(DistSq(p, q) as real), num.round(num.matchShapes(cnt1, cnt2), 3), pxToMm, num)
    ensures detailed.ops == old(detailed.ops) + ShiftLine(p, q, num.round(ToMillimetres(num.sqrt(DistSq(p, q) as real), pxToMm), 2))
  {
    KeysDistinct();
    var (xA, yA) := (p.x, p.y);
    var (xB, yB) := (q.x, q.y);
    var shift := num.sqrt(SquaredLength(xB - xA, yB - yA) as real);
    entry := entry0[ShiftPxKey := Num(num.round(shift, 2))];
    entry := entry[ShiftMmKey := Num(num.round(ToMillimetres(shift, pxToMm), 2))];
    DrawShiftLine(p, q, entry[ShiftMmKey].x, detailed);
    entry := entry[ShapeDiffKey := Num(num.round(num.matchShapes(cnt1, cnt2), 3))];
    SameFields(entry, ShiftEntry(shift, num.round(num.matchShapes(cnt1, cnt2), 3), pxToMm, num));
  }

  /** The branch of `analyze_contours` for two contours or more, given the
      two largest in order: mark their centroids and, when both exist,
      measure the shift between them. */
  method AnalyzePair(cnt1: Contour, cnt2: Contour, x1: int, y1: int, entry0: Entry,
                     detailed: Canvas, pxToMm: real, num: Numerics) returns (entry: Entry)
    requires entry0 == NoShift
    modifies detailed
    ensures entry == PairAnalysis([cnt1, cnt2], x1, y1, pxToMm, num).entry
    ensures detailed.ops == old(detailed.ops) + PairAnalysis([cnt1, cnt2], x1, y1, pxToMm, num).draws
  {
    KeysDistinct();
    entry := entry0;
    var centroids := MarkCentroids([cnt1, cnt2], x1, y1, detailed);
    if |centroids| == 2 {
      assert centroids == [centroids[0], centroids[1]];
      entry := MeasureShift(centroids[0], centroids[1], cnt1, cnt2, entry, detailed, pxToMm, num);
    }
  }

  /** The branch of `analyze_contours` for fewer than two contours: a shift
      of 80% of the box's width and height, and no shape difference. */
  method AnalyzeBox(x1: int, y1: int, x2: int, y2: int, entry0: Entry, pxToMm: real, num: Numerics)
      returns (entry: Entry)
    requires entry0.Keys == {ShiftPxKey, ShiftMmKey, ShapeDiffKey}
    ensures entry == FallbackAnalysis(x1, y1, x2, y2, pxToMm, num).entry
  {
    KeysDistinct();
    var dx := Trunc((x2 - x1) as real * 0.8);
    var dy := Trunc((y1 - y2) as real * 0.8);
    var shift := num.sqrt(SquaredLength(dx, dy) as real);
    entry := entry0[ShiftPxKey := Num(num.round(shift, 2))];
    entry := entry[ShiftMmKey := Num(num.round(ToMillimetres(shift, pxToMm), 2))];
    entry := entry[ShapeDiffKey := NotApplicable];
    SameFields(entry, FallbackAnalysis(x1, y1, x2, y2, pxToMm, num).entry);
  }

  /** `analyze_contours(roi, x1, y1, x2, y2, img_detailed, px_to_mm)`: fills the
      entry field by field and draws on the detailed image as it goes. */
  method AnalyzeContours(contours: seq<Contour>, x1: int, y1: int, x2: int, y2: int,
                         detailed: Canvas, pxToMm: real, num: Numerics) returns (entry: Entry)
    modifies detailed
    ensures entry == Analyze(contours, x1, y1, x2, y2, pxToMm, num).entry
    ensures detailed.ops == old(detailed.ops) + Analyze(contours, x1, y1, x2, y2, pxToMm, num).draws
  {
    entry := map[ShiftPxKey := Null, ShiftMmKey := Null, ShapeDiffKey := Null];
    if |contours| >= 2 {
      var (i1, i2) := TopTwo(contours);
      var cnt1, cnt2 := contours[i1], contours[i2];
      entry := AnalyzePair(cnt1, cnt2, x1, y1, entry, detailed, pxToMm, num);
    } else {
      entry := AnalyzeBox(x1, y1, x2, y2, entry, pxToMm, num);
    }
  }

  // ---------------------------------------------------------------------
  // Properties of the analysis

  /** Fewer than two contours: all three fields are set, the shape difference
      is "N/A", and nothing is drawn on the detailed image. */
  lemma FallbackFields(cs: seq<Contour>, x1: int, y1: int, x2: int, y2: int, pxToMm: real, num: Numerics)
    requires |cs| < 2
    ensures var a := Analyze(cs, x1, y1, x2, y2, pxToMm, num);
      && a.draws == []
      && a.entry[ShapeDiffKey] == NotApplicable
      && a.entry[ShiftPxKey].Num? && a.entry[ShiftMmKey].Num?
  {
    KeysDistinct();
  }

  /** `int(n * 0.8)` of a non-negative width n is floor(4n / 5). */
  lemma TruncFourFifths(n: int)
    requires n >= 0
    ensures Trunc(n as real * 0.8) == (4 * n) / 5
  {
    var q, r := (4 * n) / 5, (4 * n) % 5;
    assert 4 * n == 5 * q + r && 0 <= r < 5;
    assert n as real * 0.8 == q as real + r as real / 5.0;
  }

  /** Truncation toward zero commutes with negation. */
  lemma TruncNegate(r: real)
    ensures Trunc(-r) == -Trunc(r)
  {
    if r < 0.0 {
      assert -r > 0.0;
    }
  }

  /** The fallback's squared shift for a box with x1 <= x2 and y1 <= y2:
      dx = floor(4w/5) and dy = -floor(4h/5), and the sign of dy is lost in the square. */
  lemma FallbackShiftSquared(cs: seq<Contour>, x1: int, y1: int, x2: int, y2: int, pxToMm: real, num: Numerics)
    requires |cs| < 2 && x1 <= x2 && y1 <= y2
    ensures FallbackDelta(x1, y1, x2, y2) == ((4 * (x2 - x1)) / 5, -((4 * (y2 - y1)) / 5))
    ensures Analyze(cs, x1, y1, x2, y2, pxToMm, num).shiftSq
            == Some(SquaredLength((4 * (x2 - x1)) / 5, (4 * (y2 - y1)) / 5))
  {
    var w, h := (4 * (x2 - x1)) / 5, (4 * (y2 - y1)) / 5;
    TruncFourFifths(x2 - x1);
    TruncFourFifths(y2 - y1);
    assert (y1 - y2) as real * 0.8 == -((y2 - y1) as real * 0.8);
    TruncNegate((y2 - y1) as real * 0.8);
    assert (-h) * (-h) == h * h;
  }

  /** The box (0, 0, 68, 39) with no usable contours: dx = int(54.4) = 54,
      dy = int(-31.2) = -31, so the shift is the square root of 3877. */
  lemma FallbackExample(pxToMm: real, num: Numerics)
    ensures FallbackDelta(0, 0, 68, 39) == (54, -31)
    ensures Analyze([], 0, 0, 68, 39, pxToMm, num).shiftSq == Some(3877)
  {
    FallbackShiftSquared([], 0, 0, 68, 39, pxToMm, num);
  }

  /** The square box (0, 0, 100, 100) with no usable contours: dx = 80,
      dy = -80, so the shift is the square root of 12800, about 113.14. */
  lemma FallbackSquareBox(pxToMm: real, num: Numerics, r: real)
    requires r >= 0.0 && r * r == 12800.0
    ensures FallbackDelta(0, 0, 100, 100) == (80, -80)
    ensures Analyze([], 0, 0, 100, 100, pxToMm, num).shiftSq == Some(12800)
    ensures 113.137 < r < 113.138
  {
    FallbackShiftSquared([], 0, 0, 100, 100, pxToMm, num);
    SmallerSquare(113.137, r);
    SmallerSquare(r, 113.138);
  }

  /** Of two non-negative numbers, the one with the smaller square is the smaller. */
  lemma SmallerSquare(a: real, b: real)
    requires 0.0 <= a && 0.0 <= b && a * a < b * b
    ensures a < b
  {
    assert (b - a) * (b + a) == b * b - a * a;
  }

  /** The square root of 3877 lies strictly between 62.2655 and 62.2656. */
  lemma RootOf3877(r: real)
    requires r >= 0.0 && r * r == 3877.0
    ensures 62.2655 < r < 62.2656
  {
    SmallerSquare(62.2655, r);
    SmallerSquare(r, 62.2656);
  }

  /** Rounding to two decimals, half up. It stands in for Python's
      `round(x, 2)` only away from exact ties, where the two agree; the
      worked example below involves no tie. */
  function RoundHalfUp2(x: real): real {
    (x * 100.0 + 0.5).Floor as real / 100.0
  }

  /** Rounding then scaling is not scaling then rounding: on the fallback box
      (0, 0, 68, 39) the pixel shift shows as 62.27 and the millimetre shift
      as 16.47, while scaling the shown 62.27 would have given 16.48. */
  lemma MillimetresFromUnroundedShift(r: real)
    requires r >= 0.0 && r * r == 3877.0
    ensures RoundHalfUp2(r) == 62.27
    ensures RoundHalfUp2(ToMillimetres(r, 0.2645833333)) == 16.47
    ensures RoundHalfUp2(ToMillimetres(RoundHalfUp2(r), 0.2645833333)) == 16.48
  {
    RootOf3877(r);
    assert 6227.0 <= r * 100.0 + 0.5 < 6228.0;
    assert (r * 100.0 + 0.5).Floor == 6227;
    var mm := r * 0.2645833333;
    assert 62.2655 * 0.2645833333 < mm < 62.2656 * 0.2645833333;
    assert 1647.0 <= mm * 100.0 + 0.5 < 1648.0;
    assert (mm * 100.0 + 0.5).Floor == 1647;
    var shown := 62.27 * 0.2645833333 * 100.0 + 0.5;
    assert 1648.0 <= shown < 1649.0;
    assert shown.Floor == 1648;
  }

  /** With two contours or more, the two used are the largest by area:
      area(first) >= area(second) >= every other area, ties going to the
      earlier contour as in a stable sort. */
  lemma TopTwoLargest(cs: seq<Contour>)
    requires |cs| >= 2
    ensures var (i, j) := TopTwo(cs);
      && i < |cs| && j < |cs| && i != j
      && cs[j].area <= cs[i].area
      && (forall k :: 0 <= k < |cs| && k != i && k != j ==> cs[k].area <= cs[j].area)
      && (forall k :: 0 <= k < i ==> cs[k].area < cs[i].area)
      && (forall k :: 0 <= k < j && k != i ==> cs[k].area < cs[j].area)
  {
  }

  /** The centroids of the chosen pair: one for each contour with m00 != 0, in order. */
  lemma CentroidsOfPair(c1: Contour, c2: Contour, x1: int, y1: int)
    ensures Centroids([c1, c2], x1, y1)
            == (if c1.m00 != 0.0 then [Centroid(c1, x1, y1)] else [])
             + (if c2.m00 != 0.0 then [Centroid(c2, x1, y1)] else [])
  {
    assert [c1, c2][..1] == [c1];
    assert [c1][..0] == [];
    assert Centroids([c1], x1, y1) == (if c1.m00 != 0.0 then [Centroid(c1, x1, y1)] else []);
  }

  /** With two contours or more, the drawing starts with one filled circle per
      chosen contour with m00 != 0, at its centroid; no other circle is drawn. */
  lemma CirclesAtCentroids(cs: seq<Contour>, x1: int, y1: int, x2: int, y2: int, pxToMm: real, num: Numerics)
    requires |cs| >= 2
    ensures var (i, j) := TopTwo(cs);
      var cents := Centroids([cs[i], cs[j]], x1, y1);
      var a := Analyze(cs, x1, y1, x2, y2, pxToMm, num);
      && |cents| == (if cs[i].m00 != 0.0 then 1 else 0) + (if cs[j].m00 != 0.0 then 1 else 0)
      && |cents| <= |a.draws|
      && (forall k :: 0 <= k < |cents| ==> a.draws[k] == Circle(cents[k], 6, MarkerColor, -1))
      && (forall k :: |cents| <= k < |a.draws| ==> !a.draws[k].Circle?)
  {
    var (i, j) := TopTwo(cs);
    CentroidsOfPair(cs[i], cs[j], x1, y1);
  }

  /** Two or more contours but fewer than two usable centroids: the three
      fields stay None and only the circles are drawn, no line and no label. */
  lemma DegenerateCentroids(cs: seq<Contour>, x1: int, y1: int, x2: int, y2: int, pxToMm: real, num: Numerics)
    requires |cs| >= 2
    requires var (i, j) := TopTwo(cs); cs[i].m00 == 0.0 || cs[j].m00 == 0.0
    ensures var a := Analyze(cs, x1, y1, x2, y2, pxToMm, num);
      && a.entry[ShiftPxKey] == Null && a.entry[ShiftMmKey] == Null && a.entry[ShapeDiffKey] == Null
      && a.shiftSq == None
      && |a.draws| <= 1
      && (forall k :: 0 <= k < |a.draws| ==> a.draws[k].Circle?)
  {
    var (i, j) := TopTwo(cs);
    CentroidsOfPair(cs[i], cs[j], x1, y1);
  }

  /** Two usable centroids p and q: the canvas gains the two circles, then the
      line from p to q, then the outlined and the filled label, both at the
      same point 10 pixels above the midpoint and both showing the millimetre
      field; the shape difference is the rounded matchShapes of the pair. */
  lemma TwoCentroidDrawing(cs: seq<Contour>, x1: int, y1: int, x2: int, y2: int, pxToMm: real, num: Numerics)
    requires |cs| >= 2
    requires var (i, j) := TopTwo(cs); cs[i].m00 != 0.0 && cs[j].m00 != 0.0
    ensures var (i, j) := TopTwo(cs);
      var p, q := Centroid(cs[i], x1, y1), Centroid(cs[j], x1, y1);
      var mid := Point((p.x + q.x) / 2, (p.y + q.y) / 2 - 10);
      var a := Analyze(cs, x1, y1, x2, y2, pxToMm, num);
      && a.entry[ShiftMmKey].Num?
      && a.draws == [Circle(p, 6, MarkerColor, -1), Circle(q, 6, MarkerColor, -1), Segment(p, q, LineColor, 2),
                     Caption(mid, a.entry[ShiftMmKey].x, OutlineColor, 4),
                     Caption(mid, a.entry[ShiftMmKey].x, FillColor, 2)]
      && a.shiftSq == Some(DistSq(p, q))
      && a.entry[ShapeDiffKey] == Num(num.round(num.matchShapes(cs[i], cs[j]), 3))
  {
    var (i, j) := TopTwo(cs);
    CentroidsOfPair(cs[i], cs[j], x1, y1);
    KeysDistinct();
  }

  /** The two-centroid shift is zero exactly when the integer centroids coincide. */
  lemma TwoCentroidShiftVanishes(cs: seq<Contour>, x1: int, y1: int, x2: int, y2: int, pxToMm: real, num: Numerics)
    requires |cs| >= 2
    requires var (i, j) := TopTwo(cs); cs[i].m00 != 0.0 && cs[j].m00 != 0.0
    ensures var (i, j) := TopTwo(cs);
      var a := Analyze(cs, x1, y1, x2, y2, pxToMm, num);
      && a.shiftSq.Some?
      && (a.shiftSq.value == 0 <==> Centroid(cs[i], x1, y1) == Centroid(cs[j], x1, y1))
  {
    TwoCentroidDrawing(cs, x1, y1, x2, y2, pxToMm, num);
  }

  /** Whenever a shift is computed, the pixel and millimetre fields come from
      the same unrounded value: px = round(shift, 2) and
      mm = round(shift * px_to_mm, 2); otherwise both stay None. */
  lemma ShiftFieldsAgree(cs: seq<Contour>, x1: int, y1: int, x2: int, y2: int, pxToMm: real, num: Numerics)
    ensures var a := Analyze(cs, x1, y1, x2, y2, pxToMm, num);
      match a.shiftSq
      case None => a.entry[ShiftPxKey] == Null && a.entry[ShiftMmKey] == Null
      case Some(sq) =>
        && a.entry[ShiftPxKey] == Num(num.round(num.sqrt(sq as real), 2))
        && a.entry[ShiftMmKey] == Num(num.round(ToMillimetres(num.sqrt(sq as real), pxToMm), 2))
  {
    KeysDistinct();
    if |cs| >= 2 {
      var (i, j) := TopTwo(cs);
      CentroidsOfPair(cs[i], cs[j], x1, y1);
      var cents := Centroids([cs[i], cs[j]], x1, y1);
      if |cents| == 2 {
        PairedShiftFields(cents[0], cents[1], num.round(num.matchShapes(cs[i], cs[j]), 3), pxToMm, num);
      }
    } else {
      var (dx, dy) := FallbackDelta(x1, y1, x2, y2);
      ShiftFieldsOf(num.sqrt(SquaredLength(dx, dy) as real), pxToMm, num);
    }
  }

  /** The two shift fields of `ShiftFields`. */
  lemma ShiftFieldsOf(shift: real, pxToMm: real, num: Numerics)
    ensures ShiftFields(shift, pxToMm, num)[ShiftPxKey] == Num(num.round(shift, 2))
    ensures ShiftFields(shift, pxToMm, num)[ShiftMmKey] == Num(num.round(ToMillimetres(shift, pxToMm), 2))
  {
    KeysDistinct();
  }

  /** The shift fields of the two-centroid result. */
  lemma PairedShiftFields(p: Point, q: Point, diff: real, pxToMm: real, num: Numerics)
    ensures var a := ShiftResult(p, q, num.sqrt(DistSq(p, q) as real), diff, pxToMm, num);
      && a.shiftSq == Some(DistSq(p, q))
      && a.entry[ShiftPxKey] == Num(num.round(num.sqrt(DistSq(p, q) as real), 2))
      && a.entry[ShiftMmKey] == Num(num.round(ToMillimetres(num.sqrt(DistSq(p, q) as real), pxToMm), 2))
  {
    KeysDistinct();
  }
}
