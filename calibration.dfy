/** Automatic calibration: every pixel of the frame is tested, and the bounding box of the
    ball-coloured pixels is taken to span the ball's real diameter. */
module Calibration {
  import opened Wrappers
  import opened Color
  import opened Pixels
  import Detection

  /** The ball's real diameter in metres. */
  const RealDiamM: real := 0.15
  /** Fewer candidate pixels than this is no calibration. */
  const MinPixelsForCalib: nat := 200
  /** A bounding box no larger than this many pixels is no calibration. */
  const MinDiamPx: int := 2

  /** A pixel position (column, row). */
  type Point = (int, int)

  /** Which coordinate of a point a bounding-box bound is about. */
  datatype Axis = X | Y

  function Coord(p: Point, a: Axis): int
  {
    match a
    case X => p.0
    case Y => p.1
  }

  /** Calibration's test on pixel (x, y). */
  predicate CalibAt(img: Image, x: nat, y: nat)
    requires ValidImage(img) && x < img.width && y < img.height
  {
    var c := PixelAt(img, x, y);
    IsBallColourStrict(c.r, c.g, c.b)
  }

  /** The candidate pixels of row y from column x on, left to right. */
  function RowPoints(img: Image, y: nat, x: nat): seq<Point>
    requires ValidImage(img) && y < img.height
    decreases img.width - x
  {
    if x >= img.width then []
    else (if CalibAt(img, x, y) then [(x, y)] else []) + RowPoints(img, y, x + 1)
  }

  /** The candidate pixels from row y on, in row-major order. */
  function Points(img: Image, y: nat): seq<Point>
    requires ValidImage(img)
    decreases img.height - y
  {
    if y >= img.height then []
    else RowPoints(img, y, 0) + Points(img, y + 1)
  }

  /** The smallest coordinate along an axis of a non-empty list of points. */
  function Lo(pts: seq<Point>, a: Axis): int
    requires |pts| > 0
  {
    if |pts| == 1 then Coord(pts[0], a)
    else
      var m := Lo(pts[..|pts| - 1], a);
      var c := Coord(pts[|pts| - 1], a);
      if c < m then c else m
  }

  /** The largest coordinate along an axis of a non-empty list of points. */
  function Hi(pts: seq<Point>, a: Axis): int
    requires |pts| > 0
  {
    if |pts| == 1 then Coord(pts[0], a)
    else
      var m := Hi(pts[..|pts| - 1], a);
      var c := Coord(pts[|pts| - 1], a);
      if c > m then c else m
  }

  /** The larger side of the bounding box, in pixels. */
  function Diameter(pts: seq<Point>): int
    requires |pts| > 0
  {
    var dx := Hi(pts, X) - Lo(pts, X);
    var dy := Hi(pts, Y) - Lo(pts, Y);
    if dx >= dy then dx else dy
  }

  /** Metres per pixel from a list of candidate pixels: none below 200 candidates or for a
      bounding box of at most 2 pixels, else the ball's diameter over the box's larger side. */
  function ScaleOf(pts: seq<Point>): (scale: Option<real>)
    ensures scale.Some? <==> |pts| >= MinPixelsForCalib && Diameter(pts) > MinDiamPx
    ensures scale.Some? ==> scale.value * Diameter(pts) as real == RealDiamM
  {
    if |pts| < MinPixelsForCalib then None
    else if Diameter(pts) <= MinDiamPx then None
    else Some(RealDiamM / Diameter(pts) as real)
  }

  /** The loop body of the first pass of `estimatePxToMeter` for pixel (x, y). */
  method CalibPixel(img: Image, x: nat, y: nat) returns (hit: bool)
    requires ValidImage(img) && x < img.width && y < img.height
    ensures hit == CalibAt(img, x, y)
  {
    var i := (y * img.width + x) * 4;
    PixelAtBytes(img, x, y);
    var r, g, b := img.data[i], img.data[i + 1], img.data[i + 2];
    var hsv := RgbToHsv(r, g, b);
    hit := hsv.h >= HueMin && hsv.h <= HueMax && hsv.s >= SatMin && hsv.v >= ValMin && r + g + b > MinChannelSum;
  }

  /** The first pass: every pixel, row by row, collecting the candidates. */
  method CollectPoints(img: Image) returns (found: seq<Point>)
    requires ValidImage(img)
    ensures found == Points(img, 0)
  {
    var w, h := img.width, img.height;
    found := [];
    var y: nat := 0;
    while y < h
      invariant found + Points(img, y) == Points(img, 0)
      decreases h - y
    {
      assert Points(img, y) == RowPoints(img, y, 0) + Points(img, y + 1);
      var x: nat := 0;
      while x < w
        invariant found + RowPoints(img, y, x) + Points(img, y + 1) == Points(img, 0)
        decreases w - x
      {
        var hit := CalibPixel(img, x, y);
        RowPointsStep(img, y, x);
        if hit {
          Associate(found, [(x, y)], RowPoints(img, y, x + 1), Points(img, y + 1));
          found := found + [(x, y)];
        } else {
          assert RowPoints(img, y, x) == RowPoints(img, y, x + 1);
        }
        x := x + 1;
      }
      assert RowPoints(img, y, x) == [];
      assert found + [] == found;
      y := y + 1;
    }
  }

  lemma RowPointsStep(img: Image, y: nat, x: nat)
    requires ValidImage(img) && y < img.height && x < img.width
    ensures RowPoints(img, y, x) == (if CalibAt(img, x, y) then [(x, y)] else []) + RowPoints(img, y, x + 1)
  {
  }

  lemma Associate<T>(a: seq<T>, b: seq<T>, c: seq<T>, d: seq<T>)
    ensures a + (b + c) + d == (a + b) + c + d
  {
  }

  /** The second pass: the bounding box of the candidates. The infinite starting bounds of
      the source are out-of-frame values here (width, -1, height, -1), which every in-frame
      point replaces exactly as it would replace an infinity. */
  method BoundingBox(found: seq<Point>, width: nat, height: nat) returns (minX: int, maxX: int, minY: int, maxY: int)
    requires |found| > 0
    requires forall k :: 0 <= k < |found| ==> 0 <= found[k].0 < width && 0 <= found[k].1 < height
    ensures minX == Lo(found, X) && maxX == Hi(found, X)
    ensures minY == Lo(found, Y) && maxY == Hi(found, Y)
  {
    minX, maxX, minY, maxY := width, -1, height, -1;
    var i := 0;
    while i < |found|
      invariant 0 <= i <= |found|
      invariant i == 0 ==> minX == width && maxX == -1 && minY == height && maxY == -1
      invariant i > 0 ==> minX == Lo(found[..i], X) && maxX == Hi(found[..i], X)
      invariant i > 0 ==> minY == Lo(found[..i], Y) && maxY == Hi(found[..i], Y)
    {
      var p := found[i];
      assert found[..i + 1][..i] == found[..i];
      if p.0 < minX { minX := p.0; }
      if p.0 > maxX { maxX := p.0; }
      if p.1 < minY { minY := p.1; }
      if p.1 > maxY { maxY := p.1; }
      i := i + 1;
    }
    assert found[..i] == found;
  }

  /** `estimatePxToMeter`: metres per pixel, or none. */
  method EstimatePxToMeter(img: Image) returns (scale: Option<real>)
    requires ValidImage(img)
    ensures scale == ScaleOf(Points(img, 0))
  {
    var found := CollectPoints(img);
    if |found| < MinPixelsForCalib {
      return None;
    }
    PointsInFrame(img, 0);
    var minX, maxX, minY, maxY := BoundingBox(found, img.width, img.height);
    var diamPx := if maxX - minX >= maxY - minY then maxX - minX else maxY - minY;
    if diamPx <= MinDiamPx {
      return None;
    }
    scale := Some(RealDiamM / diamPx as real);
  }

  /** Every collected point lies in the frame. */
  lemma {:induction false} RowPointsInFrame(img: Image, y: nat, x: nat)
    requires ValidImage(img) && y < img.height
    ensures forall k :: 0 <= k < |RowPoints(img, y, x)| ==>
              0 <= RowPoints(img, y, x)[k].0 < img.width && RowPoints(img, y, x)[k].1 == y
    decreases img.width - x
  {
    if x < img.width {
      RowPointsInFrame(img, y, x + 1);
    }
  }

  lemma {:induction false} PointsInFrame(img: Image, y: nat)
    requires ValidImage(img)
    ensures forall k :: 0 <= k < |Points(img, y)| ==>
              0 <= Points(img, y)[k].0 < img.width && y <= Points(img, y)[k].1 < img.height
    decreases img.height - y
  {
    if y < img.height {
      RowPointsInFrame(img, y, 0);
      PointsInFrame(img, y + 1);
    }
  }

  /** Lo and Hi bound every point's coordinate and are each attained by some point. */
  lemma {:induction false} LoHiBounds(pts: seq<Point>, a: Axis)
    requires |pts| > 0
    ensures forall k :: 0 <= k < |pts| ==> Lo(pts, a) <= Coord(pts[k], a) <= Hi(pts, a)
    ensures exists k :: 0 <= k < |pts| && Coord(pts[k], a) == Lo(pts, a)
    ensures exists k :: 0 <= k < |pts| && Coord(pts[k], a) == Hi(pts, a)
    decreases |pts|
  {
    if |pts| > 1 {
      var init := pts[..|pts| - 1];
      LoHiBounds(init, a);
      forall k | 0 <= k < |pts| ensures Lo(pts, a) <= Coord(pts[k], a) <= Hi(pts, a) {
        if k < |pts| - 1 {
          assert pts[k] == init[k];
        }
      }
      var i :| 0 <= i < |init| && Coord(init[i], a) == Lo(init, a);
      var j :| 0 <= j < |init| && Coord(init[j], a) == Hi(init, a);
      assert pts[i] == init[i] && pts[j] == init[j];
    } else {
      assert Coord(pts[0], a) == Lo(pts, a) == Hi(pts, a);
    }
  }

  /** The row's candidates are exactly the qualifying pixels of the row from column x on. */
  lemma {:induction false} RowPointsExact(img: Image, y: nat, x: nat, p: Point)
    requires ValidImage(img) && y < img.height
    ensures p in RowPoints(img, y, x) <==> x <= p.0 < img.width && p.1 == y && CalibAt(img, p.0, y)
    decreases img.width - x
  {
    if x < img.width {
      RowPointsExact(img, y, x + 1, p);
    }
  }

  lemma {:induction false} PointsExact(img: Image, y: nat, p: Point)
    requires ValidImage(img)
    ensures p in Points(img, y) <==> 0 <= p.0 < img.width && y <= p.1 < img.height && CalibAt(img, p.0, p.1)
    decreases img.height - y
  {
    if y < img.height {
      RowPointsExact(img, y, 0, p);
      PointsExact(img, y + 1, p);
    }
  }

  /** The first pass is sound and complete: a pixel is collected exactly when it is in the
      frame and passes calibration's colour test. */
  lemma CollectedAreCandidates(img: Image, p: Point)
    requires ValidImage(img)
    ensures p in Points(img, 0) <==> 0 <= p.0 < img.width && 0 <= p.1 < img.height && CalibAt(img, p.0, p.1)
  {
    PointsExact(img, 0, p);
  }

  /** p comes strictly before q in row-major order. */
  predicate Before(p: Point, q: Point)
  {
    p.1 < q.1 || (p.1 == q.1 && p.0 < q.0)
  }

  predicate RowMajor(pts: seq<Point>)
  {
    forall i, j :: 0 <= i < j < |pts| ==> Before(pts[i], pts[j])
  }

  lemma ConcatRowMajor(a: seq<Point>, b: seq<Point>)
    requires RowMajor(a) && RowMajor(b)
    requires forall i, j :: 0 <= i < |a| && 0 <= j < |b| ==> Before(a[i], b[j])
    ensures RowMajor(a + b)
  {
    forall i, j | 0 <= i < j < |a + b| ensures Before((a + b)[i], (a + b)[j]) {
      if j < |a| {
        assert Before(a[i], a[j]);
      } else if i < |a| {
        assert Before(a[i], b[j - |a|]);
      } else {
        assert Before(b[i - |a|], b[j - |a|]);
      }
    }
  }

  lemma {:induction false} RowPointsRowMajor(img: Image, y: nat, x: nat)
    requires ValidImage(img) && y < img.height
    ensures RowMajor(RowPoints(img, y, x))
    ensures forall k :: 0 <= k < |RowPoints(img, y, x)| ==> RowPoints(img, y, x)[k].1 == y && RowPoints(img, y, x)[k].0 >= x
    decreases img.width - x
  {
    if x < img.width {
      RowPointsRowMajor(img, y, x + 1);
      var head: seq<Point> := if CalibAt(img, x, y) then [(x, y)] else [];
      ConcatRowMajor(head, RowPoints(img, y, x + 1));
    }
  }

  lemma {:induction false} PointsRowMajor(img: Image, y: nat)
    requires ValidImage(img)
    ensures RowMajor(Points(img, y))
    ensures forall k :: 0 <= k < |Points(img, y)| ==> Points(img, y)[k].1 >= y
    decreases img.height - y
  {
    if y < img.height {
      RowPointsRowMajor(img, y, 0);
      PointsRowMajor(img, y + 1);
      ConcatRowMajor(RowPoints(img, y, 0), Points(img, y + 1));
    }
  }

  /** The candidates are listed in scan order, each once. */
  lemma CollectedInScanOrder(img: Image)
    requires ValidImage(img)
    ensures RowMajor(Points(img, 0))
    ensures forall i, j :: 0 <= i < j < |Points(img, 0)| ==> Points(img, 0)[i] != Points(img, 0)[j]
  {
    PointsRowMajor(img, 0);
  }

  /** Calibration's strict channel-sum test and detection's non-strict one select the same
      pixels. */
  lemma CalibMatchesDetection(img: Image, x: nat, y: nat)
    requires ValidImage(img) && x < img.width && y < img.height
    ensures CalibAt(img, x, y) <==> Detection.BallAt(img, x, y)
  {
    var c := PixelAt(img, x, y);
    TestsAgreeOnBytes(c.r, c.g, c.b);
  }

  /** At scale s, p and q are no further apart than the ball's diameter along either axis. */
  predicate WithinDiameter(p: Point, q: Point, s: real)
  {
    (p.0 as real - q.0 as real) * s <= RealDiamM && (p.1 as real - q.1 as real) * s <= RealDiamM
  }

  /** At scale s, p and q are exactly the ball's diameter apart along one axis. */
  predicate SpansDiameter(p: Point, q: Point, s: real)
  {
    (p.0 as real - q.0 as real) * s == RealDiamM || (p.1 as real - q.1 as real) * s == RealDiamM
  }

  /** A calibration maps the larger side of the candidates' bounding box to the ball's
      diameter: no two candidates are further apart than 0.15 m along either axis, some pair
      is exactly 0.15 m apart along one of them, and the scale is at most 0.05 m per pixel. */
  lemma ScaleSpansBall(pts: seq<Point>, s: real)
    requires ScaleOf(pts) == Some(s)
    ensures 0.0 < s <= RealDiamM / 3.0
    ensures forall i, j :: 0 <= i < |pts| && 0 <= j < |pts| ==> WithinDiameter(pts[i], pts[j], s)
    ensures exists i, j :: 0 <= i < |pts| && 0 <= j < |pts| && SpansDiameter(pts[i], pts[j], s)
  {
    var d := Diameter(pts);
    BoxSpan(pts);
    ScaleBounds(d, 0, d, s);
    forall i, j | 0 <= i < |pts| && 0 <= j < |pts| ensures WithinDiameter(pts[i], pts[j], s) {
      ScaledPair(pts[i], pts[j], d, s);
    }
    var i, j :| 0 <= i < |pts| && 0 <= j < |pts| && (pts[i].0 - pts[j].0 == d || pts[i].1 - pts[j].1 == d);
    ScaledPair(pts[i], pts[j], d, s);
  }

  lemma ScaledPair(p: Point, q: Point, d: int, s: real)
    requires d >= 3 && s == RealDiamM / d as real
    requires p.0 - q.0 <= d && p.1 - q.1 <= d
    ensures WithinDiameter(p, q, s)
    ensures p.0 - q.0 == d || p.1 - q.1 == d ==> SpansDiameter(p, q, s)
  {
    ScaleBounds(p.0, q.0, d, s);
    ScaleBounds(p.1, q.1, d, s);
  }

  /** No two points differ by more than the diameter along either axis, and some pair differs
      by exactly the diameter along one of them. */
  lemma BoxSpan(pts: seq<Point>)
    requires |pts| > 0
    ensures forall i, j :: 0 <= i < |pts| && 0 <= j < |pts| ==>
              pts[i].0 - pts[j].0 <= Diameter(pts) && pts[i].1 - pts[j].1 <= Diameter(pts)
    ensures exists i, j :: 0 <= i < |pts| && 0 <= j < |pts| &&
              (pts[i].0 - pts[j].0 == Diameter(pts) || pts[i].1 - pts[j].1 == Diameter(pts))
  {
    LoHiBounds(pts, X);
    LoHiBounds(pts, Y);
    forall i, j | 0 <= i < |pts| && 0 <= j < |pts|
      ensures pts[i].0 - pts[j].0 <= Diameter(pts) && pts[i].1 - pts[j].1 <= Diameter(pts)
    {
      assert Coord(pts[i], X) == pts[i].0 && Coord(pts[j], X) == pts[j].0;
      assert Coord(pts[i], Y) == pts[i].1 && Coord(pts[j], Y) == pts[j].1;
    }
    var a: Axis := if Hi(pts, X) - Lo(pts, X) >= Hi(pts, Y) - Lo(pts, Y) then X else Y;
    var i :| 0 <= i < |pts| && Coord(pts[i], a) == Hi(pts, a);
    var j :| 0 <= j < |pts| && Coord(pts[j], a) == Lo(pts, a);
    assert Coord(pts[i], a) - Coord(pts[j], a) == Diameter(pts);
  }

  lemma ScaleBounds(a: int, b: int, d: int, s: real)
    requires d >= 3 && s == RealDiamM / d as real && a - b <= d
    ensures 0.0 < s <= RealDiamM / 3.0
    ensures (a as real - b as real) * s <= RealDiamM
    ensures a - b == d ==> (a as real - b as real) * s == RealDiamM
  {
    assert s * d as real == RealDiamM;
    assert (a as real - b as real) * s <= d as real * s;
  }
}
