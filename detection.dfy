/** Ball detection: a strided scan of the image that averages the coordinates of the
    ball-coloured pixels it visits. */
module Detection {
  import opened Wrappers
  import opened Color
  import opened Pixels

  /** Fewer qualifying pixels than this is a missed frame. */
  const MinPixelsForDetect: nat := 40

  /** A detection: centroid in pixel coordinates and the number of supporting pixels. */
  datatype Blob = Blob(x: real, y: real, count: nat)

  /** Running sums of the scan: number of qualifying pixels and the sums of their coordinates. */
  datatype Tally = Tally(count: nat, sumX: int, sumY: int)

  /** Which of the three running sums of the scan a recursive definition adds up. */
  datatype Sum = Count | SumX | SumY

  /** Detection's test on pixel (x, y). */
  predicate BallAt(img: Image, x: nat, y: nat)
    requires ValidImage(img) && x < img.width && y < img.height
  {
    var c := PixelAt(img, x, y);
    IsBallColour(c.r, c.g, c.b)
  }

  /** What pixel (x, y) adds to the chosen sum: 1, x or y when it qualifies, else 0. */
  function PixelWeight(img: Image, k: Sum, x: nat, y: nat): nat
    requires ValidImage(img) && x < img.width && y < img.height
  {
    if !BallAt(img, x, y) then 0
    else match k
      case Count => 1
      case SumX => x
      case SumY => y
  }

  /** The chosen sum over row y from column x on, visiting x, x + stride, ... */
  function RowSum(img: Image, stride: nat, k: Sum, y: nat, x: nat): nat
    requires ValidImage(img) && stride > 0 && y < img.height
    decreases img.width - x
  {
    if x >= img.width then 0
    else PixelWeight(img, k, x, y) + RowSum(img, stride, k, y, x + stride)
  }

  /** The chosen sum from row y on, visiting rows y, y + stride, ... */
  function GridSum(img: Image, stride: nat, k: Sum, y: nat): nat
    requires ValidImage(img) && stride > 0
    decreases img.height - y
  {
    if y >= img.height then 0
    else RowSum(img, stride, k, y, 0) + GridSum(img, stride, k, y + stride)
  }

  /** The three sums of the whole strided scan. */
  function ScanTally(img: Image, stride: nat): Tally
    requires ValidImage(img) && stride > 0
  {
    Tally(GridSum(img, stride, Count, 0), GridSum(img, stride, SumX, 0), GridSum(img, stride, SumY, 0))
  }

  /** The outcome of a finished scan: no blob below the pixel threshold, else the mean
      coordinates of the qualifying pixels. */
  function BlobOf(t: Tally): (b: Option<Blob>)
    ensures b.None? <==> t.count < MinPixelsForDetect
    ensures b.Some? ==> b.value.count == t.count && b.value.x * t.count as real == t.sumX as real
                        && b.value.y * t.count as real == t.sumY as real
  {
    if t.count < MinPixelsForDetect then None
    else Some(Blob(t.sumX as real / t.count as real, t.sumY as real / t.count as real, t.count))
  }

  /** The loop body of `detectBall` for pixel (x, y): read its bytes at (y * width + x) * 4,
      convert to HSV, test the HSV window, then skip dark pixels. */
  method ScanPixel(img: Image, x: nat, y: nat) returns (hit: bool)
    requires ValidImage(img) && x < img.width && y < img.height
    ensures hit == BallAt(img, x, y)
  {
    var i := (y * img.width + x) * 4;
    PixelAtBytes(img, x, y);
    var r, g, b := img.data[i], img.data[i + 1], img.data[i + 2];
    var hsv := RgbToHsv(r, g, b);
    var ok := hsv.h >= HueMin && hsv.h <= HueMax && hsv.s >= SatMin && hsv.v >= ValMin;
    if !ok {
      return false;
    }
    if r + g + b < MinChannelSum {
      return false;
    }
    return true;
  }

  /** The scan of `detectBall`: every stride-th column of every stride-th row. */
  method DetectBall(img: Image, stride: nat) returns (blob: Option<Blob>)
    requires ValidImage(img) && stride > 0
    ensures blob == BlobOf(ScanTally(img, stride))
  {
    var w, h := img.width, img.height;
    var sumX: nat, sumY: nat, count: nat := 0, 0, 0;
    var y: nat := 0;
    while y < h
      invariant count + GridSum(img, stride, Count, y) == GridSum(img, stride, Count, 0)
      invariant sumX + GridSum(img, stride, SumX, y) == GridSum(img, stride, SumX, 0)
      invariant sumY + GridSum(img, stride, SumY, y) == GridSum(img, stride, SumY, 0)
      decreases h - y
    {
      var x: nat := 0;
      while x < w
        invariant count + RowSum(img, stride, Count, y, x) + GridSum(img, stride, Count, y + stride)
               == GridSum(img, stride, Count, 0)
        invariant sumX + RowSum(img, stride, SumX, y, x) + GridSum(img, stride, SumX, y + stride)
               == GridSum(img, stride, SumX, 0)
        invariant sumY + RowSum(img, stride, SumY, y, x) + GridSum(img, stride, SumY, y + stride)
               == GridSum(img, stride, SumY, 0)
        decreases w - x
      {
        var hit := ScanPixel(img, x, y);
        if hit {
          sumX, sumY, count := sumX + x, sumY + y, count + 1;
        }
        x := x + stride;
      }
      y := y + stride;
    }
    if count < MinPixelsForDetect {
      return None;
    }
    blob := Some(Blob(sumX as real / count as real, sumY as real / count as real, count));
  }

  lemma Distrib(a: int, b: int, c: int)
    ensures (a + b) * c == a * c + b * c
  {
  }

  /** What one pixel adds: an x of at most width - 1 per counted pixel, and exactly y. */
  lemma PixelWeightBounds(img: Image, x: nat, y: nat)
    requires ValidImage(img) && x < img.width && y < img.height
    ensures PixelWeight(img, SumX, x, y) <= PixelWeight(img, Count, x, y) * (img.width - 1)
    ensures PixelWeight(img, SumY, x, y) == PixelWeight(img, Count, x, y) * y
  {
  }

  lemma {:induction false} RowSumBounds(img: Image, stride: nat, y: nat, x: nat)
    requires ValidImage(img) && stride > 0 && y < img.height
    ensures RowSum(img, stride, SumX, y, x) <= RowSum(img, stride, Count, y, x) * (img.width - 1)
    ensures RowSum(img, stride, SumY, y, x) == RowSum(img, stride, Count, y, x) * y
    decreases img.width - x
  {
    if x < img.width {
      RowSumBounds(img, stride, y, x + stride);
      PixelWeightBounds(img, x, y);
      var here, rest := PixelWeight(img, Count, x, y), RowSum(img, stride, Count, y, x + stride);
      assert RowSum(img, stride, Count, y, x) == here + rest;
      Distrib(here, rest, img.width - 1);
      Distrib(here, rest, y);
    }
  }

  lemma {:induction false} GridSumBounds(img: Image, stride: nat, y: nat)
    requires ValidImage(img) && stride > 0
    ensures GridSum(img, stride, SumX, y) <= GridSum(img, stride, Count, y) * (img.width - 1)
    ensures GridSum(img, stride, SumY, y) <= GridSum(img, stride, Count, y) * (img.height - 1)
    decreases img.height - y
  {
    if y < img.height {
      RowSumBounds(img, stride, y, 0);
      GridSumBounds(img, stride, y + stride);
      var row := RowSum(img, stride, Count, y, 0);
      var rest := GridSum(img, stride, Count, y + stride);
      MulMono(row, y, img.height - 1);
      Distrib(row, rest, img.width - 1);
      Distrib(row, rest, img.height - 1);
    }
  }

  lemma MulMono(c: nat, a: int, b: int)
    requires a <= b
    ensures c * a <= c * b
  {
  }

  lemma MeanBetween(sum: int, count: nat, hi: int)
    requires count > 0 && 0 <= sum <= count * hi
    ensures 0.0 <= sum as real / count as real <= hi as real
  {
    assert (count * hi) as real == count as real * hi as real;
  }

  /** A detection rests on at least 40 pixels and its centroid lies inside the frame:
      0 <= x <= width - 1 and 0 <= y <= height - 1. */
  lemma DetectionInFrame(img: Image, stride: nat)
    requires ValidImage(img) && stride > 0
    ensures var r := BlobOf(ScanTally(img, stride));
      && (r.None? <==> ScanTally(img, stride).count < MinPixelsForDetect)
      && (r.Some? ==> r.value.count >= MinPixelsForDetect
                      && 0.0 <= r.value.x <= (img.width - 1) as real
                      && 0.0 <= r.value.y <= (img.height - 1) as real)
  {
    var t := ScanTally(img, stride);
    GridSumBounds(img, stride, 0);
    if t.count >= MinPixelsForDetect {
      MeanBetween(t.sumX, t.count, img.width - 1);
      MeanBetween(t.sumY, t.count, img.height - 1);
    }
  }

  /** Coordinate v is one of from, from + stride, from + 2 * stride, ... */
  predicate Visits(stride: nat, from: nat, v: nat)
    requires stride > 0
    decreases v - from
  {
    from <= v && (v == from || Visits(stride, from + stride, v))
  }

  lemma {:induction false} VisitsStep(stride: nat, from: nat, v: nat)
    requires stride > 0 && Visits(stride, from, v)
    ensures Visits(stride, from, v + stride)
    decreases v - from
  {
    if v != from {
      VisitsStep(stride, from + stride, v);
    }
  }

  /** Two equally sized images that agree on the test at every pixel whose coordinates are
      both multiples of the stride. */
  ghost predicate AgreeOnGrid(a: Image, b: Image, stride: nat)
    requires ValidImage(a) && ValidImage(b) && stride > 0
  {
    a.width == b.width && a.height == b.height &&
    forall x: nat, y: nat :: x < a.width && y < a.height && Visits(stride, 0, x) && Visits(stride, 0, y) ==>
      BallAt(a, x, y) == BallAt(b, x, y)
  }

  lemma {:induction false} RowSumOnGrid(a: Image, b: Image, stride: nat, k: Sum, y: nat, x: nat)
    requires ValidImage(a) && ValidImage(b) && stride > 0 && AgreeOnGrid(a, b, stride)
    requires y < a.height && Visits(stride, 0, y) && Visits(stride, 0, x)
    ensures RowSum(a, stride, k, y, x) == RowSum(b, stride, k, y, x)
    decreases a.width - x
  {
    if x < a.width {
      VisitsStep(stride, 0, x);
      RowSumOnGrid(a, b, stride, k, y, x + stride);
    }
  }

  lemma {:induction false} GridSumOnGrid(a: Image, b: Image, stride: nat, k: Sum, y: nat)
    requires ValidImage(a) && ValidImage(b) && stride > 0 && AgreeOnGrid(a, b, stride)
    requires Visits(stride, 0, y)
    ensures GridSum(a, stride, k, y) == GridSum(b, stride, k, y)
    decreases a.height - y
  {
    if y < a.height {
      assert Visits(stride, 0, 0);
      RowSumOnGrid(a, b, stride, k, y, 0);
      VisitsStep(stride, 0, y);
      GridSumOnGrid(a, b, stride, k, y + stride);
    }
  }

  /** The scan visits only pixels whose coordinates are both multiples of the stride:
      images that agree there give the same detection, whatever the other pixels hold. */
  lemma DetectionSeesOnlyGrid(a: Image, b: Image, stride: nat)
    requires ValidImage(a) && ValidImage(b) && stride > 0 && AgreeOnGrid(a, b, stride)
    ensures BlobOf(ScanTally(a, stride)) == BlobOf(ScanTally(b, stride))
  {
    GridSumOnGrid(a, b, stride, Count, 0);
    GridSumOnGrid(a, b, stride, SumX, 0);
    GridSumOnGrid(a, b, stride, SumY, 0);
  }

  lemma DisjointUnionSize<T>(a: set<T>, b: set<T>)
    requires a * b == {}
    ensures |a + b| == |a| + |b|
  {
    assert |a + b| + |a * b| == |a| + |b|;
  }

  /** The qualifying pixels of row y among columns x, x + stride, ... */
  ghost function RowHits(img: Image, stride: nat, y: nat, x: nat): set<(nat, nat)>
    requires ValidImage(img) && stride > 0 && y < img.height
  {
    set c: nat | x <= c < img.width && Visits(stride, x, c) && BallAt(img, c, y) :: (c, y)
  }

  /** The qualifying pixels among rows y, y + stride, ... and columns 0, stride, ... */
  ghost function GridHits(img: Image, stride: nat, y: nat): set<(nat, nat)>
    requires ValidImage(img) && stride > 0
  {
    set c: nat, r: nat | c < img.width && y <= r < img.height && Visits(stride, 0, c) && Visits(stride, y, r)
                         && BallAt(img, c, r) :: (c, r)
  }

  lemma {:induction false} RowCountIsHits(img: Image, stride: nat, y: nat, x: nat)
    requires ValidImage(img) && stride > 0 && y < img.height
    ensures RowSum(img, stride, Count, y, x) == |RowHits(img, stride, y, x)|
    decreases img.width - x
  {
    if x >= img.width {
      assert RowHits(img, stride, y, x) == {};
    } else {
      RowCountIsHits(img, stride, y, x + stride);
      var here: set<(nat, nat)> := if BallAt(img, x, y) then {(x, y)} else {};
      var all, rest := RowHits(img, stride, y, x), RowHits(img, stride, y, x + stride);
      forall p | p in all ensures p in here + rest {
        var c: nat :| x <= c < img.width && Visits(stride, x, c) && BallAt(img, c, y) && p == (c, y);
        if c != x {
          assert Visits(stride, x + stride, c);
        }
      }
      forall p | p in rest ensures p in all {
        var c: nat :| x + stride <= c < img.width && Visits(stride, x + stride, c) && BallAt(img, c, y) && p == (c, y);
        assert Visits(stride, x, c);
      }
      assert all == here + rest;
      assert (x, y) !in rest;
    }
  }

  lemma GridHitsSplit(img: Image, stride: nat, y: nat)
    requires ValidImage(img) && stride > 0 && y < img.height
    ensures GridHits(img, stride, y) == RowHits(img, stride, y, 0) + GridHits(img, stride, y + stride)
    ensures RowHits(img, stride, y, 0) * GridHits(img, stride, y + stride) == {}
  {
    var row := RowHits(img, stride, y, 0);
    var rest := GridHits(img, stride, y + stride);
    var all := GridHits(img, stride, y);
    forall p | p in all ensures p in row + rest {
      var c: nat, r: nat :| c < img.width && y <= r < img.height && Visits(stride, 0, c) && Visits(stride, y, r)
                            && BallAt(img, c, r) && p == (c, r);
      if r != y {
        assert Visits(stride, y + stride, r);
      }
    }
    forall p | p in row + rest ensures p in all {
      if p in rest {
        var c: nat, r: nat :| c < img.width && y + stride <= r < img.height && Visits(stride, 0, c)
                              && Visits(stride, y + stride, r) && BallAt(img, c, r) && p == (c, r);
        assert Visits(stride, y, r);
      }
    }
  }

  lemma {:induction false} GridCountIsHits(img: Image, stride: nat, y: nat)
    requires ValidImage(img) && stride > 0
    ensures GridSum(img, stride, Count, y) == |GridHits(img, stride, y)|
    decreases img.height - y
  {
    if y >= img.height {
      assert GridHits(img, stride, y) == {};
    } else {
      GridCountIsHits(img, stride, y + stride);
      GridCountStep(img, stride, y);
    }
  }

  /** One row of the induction: the row's count plus the count of the rows below. */
  lemma GridCountStep(img: Image, stride: nat, y: nat)
    requires ValidImage(img) && stride > 0 && y < img.height
    requires GridSum(img, stride, Count, y + stride) == |GridHits(img, stride, y + stride)|
    ensures GridSum(img, stride, Count, y) == |GridHits(img, stride, y)|
  {
    RowCountIsHits(img, stride, y, 0);
    GridHitsSplit(img, stride, y);
    GridSumStep(img, stride, Count, y);
    CountDisjointUnion(GridHits(img, stride, y), RowHits(img, stride, y, 0), GridHits(img, stride, y + stride),
                       RowSum(img, stride, Count, y, 0), GridSum(img, stride, Count, y + stride));
  }

  lemma CountDisjointUnion<T>(all: set<T>, a: set<T>, b: set<T>, na: int, nb: int)
    requires all == a + b && a * b == {} && na == |a| && nb == |b|
    ensures |all| == na + nb
  {
    DisjointUnionSize(a, b);
  }

  lemma GridSumStep(img: Image, stride: nat, k: Sum, y: nat)
    requires ValidImage(img) && stride > 0 && y < img.height
    ensures GridSum(img, stride, k, y) == RowSum(img, stride, k, y, 0) + GridSum(img, stride, k, y + stride)
  {
  }

  /** The scan visits every pixel of the stride grid exactly once: the detection count is the
      number of qualifying pixels whose coordinates are both reached from 0 in stride steps. */
  lemma DetectionCountsGridHits(img: Image, stride: nat)
    requires ValidImage(img) && stride > 0
    ensures ScanTally(img, stride).count == |GridHits(img, stride, 0)|
  {
    GridCountIsHits(img, stride, 0);
  }
}
