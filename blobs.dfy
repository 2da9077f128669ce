/**
 * Blobs: a bounding box with the planar points it was built from, the
 * containment and corner-check distance between boxes, and the centroid.
 * The functions work on `BlobValue`; the class `Blob` is the mutable
 * struct of the source and is proved against them.
 */
module Blobs {

  datatype Point2D = Point2D(x: real, y: real)

  /**
   * The value of a blob: its box and its member points in insertion order.
   * A region built from bounds alone (the crop area) has no points.
   */
  datatype BlobValue = BlobValue(minX: real, minY: real, maxX: real, maxY: real, laserPoints: seq<Point2D>)

  /** `blobContains`: inclusive on all four bounds, so only an ordered box contains anything. */
  predicate Contains(b: BlobValue, x: real, y: real)
    ensures Contains(b, x, y) ==> b.minX <= b.maxX && b.minY <= b.maxY
  {
    x >= b.minX && x <= b.maxX && y >= b.minY && y <= b.maxY
  }

  /** The blob invariant: an ordered box that contains every member point. */
  predicate Valid(b: BlobValue)
  {
    && b.minX <= b.maxX
    && b.minY <= b.maxY
    && forall p | p in b.laserPoints :: Contains(b, p.x, p.y)
  }

  /** The blob a single sample starts as: a degenerate box around one point. */
  function Singleton(p: Point2D): (b: BlobValue)
    ensures Valid(b) && b.laserPoints == [p]
    ensures forall x, y :: Contains(b, x, y) <==> Point2D(x, y) == p
  {
    BlobValue(p.x, p.y, p.x, p.y, [p])
  }

  /** `expand`: `a` grown by `other`; `other`'s points follow `a`'s, duplicates kept. */
  function Expanded(a: BlobValue, other: BlobValue): BlobValue
  {
    BlobValue(
      if other.minX < a.minX then other.minX else a.minX,
      if other.minY < a.minY then other.minY else a.minY,
      if other.maxX > a.maxX then other.maxX else a.maxX,
      if other.maxY > a.maxY then other.maxY else a.maxY,
      a.laserPoints + other.laserPoints)
  }

  /**
   * The expanded box is the least box covering both boxes, and the point
   * list is the concatenation, in order.
   */
  lemma ExpandedIsUnion(a: BlobValue, other: BlobValue)
    ensures var r := Expanded(a, other);
      && r.laserPoints == a.laserPoints + other.laserPoints
      && r.minX <= a.minX && r.minX <= other.minX && (r.minX == a.minX || r.minX == other.minX)
      && r.minY <= a.minY && r.minY <= other.minY && (r.minY == a.minY || r.minY == other.minY)
      && r.maxX >= a.maxX && r.maxX >= other.maxX && (r.maxX == a.maxX || r.maxX == other.maxX)
      && r.maxY >= a.maxY && r.maxY >= other.maxY && (r.maxY == a.maxY || r.maxY == other.maxY)
      && forall x, y :: Contains(a, x, y) || Contains(other, x, y) ==> Contains(r, x, y)
  {
  }

  /** Expansion keeps the blob invariant. */
  lemma ExpandedValid(a: BlobValue, other: BlobValue)
    requires Valid(a) && Valid(other)
    ensures Valid(Expanded(a, other))
  {
    var r := Expanded(a, other);
    forall p | p in r.laserPoints
      ensures Contains(r, p.x, p.y)
    {
      if p in a.laserPoints {
        assert Contains(a, p.x, p.y);
      } else {
        assert p in other.laserPoints;
        assert Contains(other, p.x, p.y);
      }
    }
  }

  /** Whether one of `b`'s four corners lies in `a` (the only overlap `blobDistance` tests). */
  predicate CornerIn(a: BlobValue, b: BlobValue)
  {
    || Contains(a, b.minX, b.minY)
    || Contains(a, b.maxX, b.minY)
    || Contains(a, b.minX, b.maxY)
    || Contains(a, b.maxX, b.maxY)
  }

  /**
   * The square of `blobDistance(a, b)`: 0 when a corner of `b` lies in `a`,
   * otherwise the squared length of the vector of per-axis gaps. The source
   * takes `sqrtf` of this value; comparing the square with the squared
   * threshold is equivalent because both sides are non-negative.
   */
  function BlobDistanceSquared(a: BlobValue, b: BlobValue): (d: real)
    ensures d >= 0.0
    ensures CornerIn(a, b) ==> d == 0.0
  {
    if Contains(a, b.minX, b.minY) then 0.0
    else if Contains(a, b.maxX, b.minY) then 0.0
    else if Contains(a, b.minX, b.maxY) then 0.0
    else if Contains(a, b.maxX, b.maxY) then 0.0
    else
      var xDistance := AxisGap(a.minX, a.maxX, b.minX, b.maxX);
      var yDistance := AxisGap(a.minY, a.maxY, b.minY, b.maxY);
      SquareSign(xDistance);
      SquareSign(yDistance);
      Square(xDistance) + Square(yDistance)
  }

  function Square(v: real): real
  {
    v * v
  }

  lemma SquareSign(v: real)
    ensures Square(v) >= 0.0
    ensures v != 0.0 ==> Square(v) > 0.0
  {
    if v > 0.0 {
      calc {
        Square(v);
      ==
        v * v;
      >
        0.0;
      }
    } else if v < 0.0 {
      calc {
        Square(v);
      ==
        (-v) * (-v);
      >
        0.0;
      }
    }
  }

  /** The gap `blobDistance` uses along one axis (negative when the extents overlap). */
  function AxisGap(aMin: real, aMax: real, bMin: real, bMax: real): real
  {
    if aMax < bMin then bMin - aMax else aMin - bMax
  }

  /** For an ordered box `a`, the distance is zero exactly when a corner of `b` lies in `a`. */
  lemma DistanceZeroIffCorner(a: BlobValue, b: BlobValue)
    requires a.minX <= a.maxX && a.minY <= a.maxY
    ensures BlobDistanceSquared(a, b) == 0.0 <==> CornerIn(a, b)
  {
    if !CornerIn(a, b) {
      var xDistance := AxisGap(a.minX, a.maxX, b.minX, b.maxX);
      var yDistance := AxisGap(a.minY, a.maxY, b.minY, b.maxY);
      if xDistance == 0.0 && yDistance == 0.0 {
        // then b's top-right corner is a's bottom-left corner
        assert false;
      }
      SquareSign(xDistance);
      SquareSign(yDistance);
    }
  }

  /** Every ordered box is at distance zero from itself. */
  lemma DistanceToSelf(a: BlobValue)
    requires a.minX <= a.maxX && a.minY <= a.maxY
    ensures BlobDistanceSquared(a, a) == 0.0
  {
    assert Contains(a, a.minX, a.minY);
  }

  /** Between two single-point blobs the distance is the Euclidean distance of the points. */
  lemma SingletonDistance(p: Point2D, q: Point2D)
    ensures BlobDistanceSquared(Singleton(p), Singleton(q))
      == Square(p.x - q.x) + Square(p.y - q.y)
  {
    if p == q {
      assert Contains(Singleton(p), q.x, q.y);
    }
  }

  /**
   * Only `b`'s corners are tested, so the measure is not symmetric: a box
   * inside a larger one is at distance zero from the large box's point of
   * view, yet far from it the other way round.
   */
  lemma DistanceNotSymmetric()
    ensures var small := BlobValue(0.0, 0.0, 1.0, 1.0, []);
      var large := BlobValue(-10.0, -10.0, 10.0, 10.0, []);
      BlobDistanceSquared(large, small) == 0.0 && BlobDistanceSquared(small, large) == 200.0
  {
    var small := BlobValue(0.0, 0.0, 1.0, 1.0, []);
    var large := BlobValue(-10.0, -10.0, 10.0, 10.0, []);
    assert Contains(large, small.minX, small.minY);
    assert !CornerIn(small, large);
  }

  /** Sum of the x (resp. y) coordinates of a point list. */
  function SumX(ps: seq<Point2D>): real
  {
    if ps == [] then 0.0 else SumX(ps[..|ps| - 1]) + ps[|ps| - 1].x
  }

  function SumY(ps: seq<Point2D>): real
  {
    if ps == [] then 0.0 else SumY(ps[..|ps| - 1]) + ps[|ps| - 1].y
  }

  /**
   * `massCenter`: the mean of the member points, the point itself for a
   * one-point blob, and for a blob without points the value
   * ((minX + minY) / 2, (maxX + maxY) / 2), which mixes the axes.
   */
  function Centroid(b: BlobValue): Point2D
  {
    var n := |b.laserPoints|;
    if n == 0 then Point2D((b.minX + b.minY) / 2.0, (b.maxX + b.maxY) / 2.0)
    else if n == 1 then b.laserPoints[0]
    else Point2D(SumX(b.laserPoints) / n as real, SumY(b.laserPoints) / n as real)
  }

  /** With at least one point the centroid is the arithmetic mean of the points. */
  lemma CentroidIsMean(b: BlobValue)
    requires |b.laserPoints| >= 1
    ensures var n := |b.laserPoints| as real;
      Centroid(b).x * n == SumX(b.laserPoints) && Centroid(b).y * n == SumY(b.laserPoints)
  {
    if |b.laserPoints| == 1 {
      assert b.laserPoints[..0] == [];
    }
  }

  lemma {:induction false} SumBounds(ps: seq<Point2D>, lo: real, hi: real, axisX: bool)
    requires forall p | p in ps :: lo <= (if axisX then p.x else p.y) <= hi
    ensures var s := if axisX then SumX(ps) else SumY(ps);
      |ps| as real * lo <= s <= |ps| as real * hi
  {
    if ps != [] {
      var init := ps[..|ps| - 1];
      forall p | p in init ensures lo <= (if axisX then p.x else p.y) <= hi {
        assert p in ps;
      }
      SumBounds(init, lo, hi, axisX);
      var last := ps[|ps| - 1];
      assert last in ps;
      if axisX {
        BoundsStep(|init| as real, |ps| as real, SumX(init), last.x, lo, hi);
      } else {
        BoundsStep(|init| as real, |ps| as real, SumY(init), last.y, lo, hi);
      }
    }
  }

  /** Adding one more value within [lo, hi] to a sum of `m` such values. */
  lemma BoundsStep(m: real, n: real, s: real, v: real, lo: real, hi: real)
    requires n == m + 1.0 && m * lo <= s <= m * hi && lo <= v <= hi
    ensures n * lo <= s + v <= n * hi
  {
    assert n * lo == m * lo + lo && n * hi == m * hi + hi;
  }

  lemma MeanBetween(s: real, n: real, lo: real, hi: real)
    requires n > 0.0 && n * lo <= s <= n * hi
    ensures lo <= s / n <= hi
  {
    assert s / n * n == s;
  }

  /** The centroid of a valid blob with points lies inside its box. */
  lemma CentroidInBox(b: BlobValue)
    requires Valid(b) && |b.laserPoints| >= 1
    ensures Contains(b, Centroid(b).x, Centroid(b).y)
  {
    var ps := b.laserPoints;
    var n := |ps| as real;
    if |ps| == 1 {
      assert ps[0] in ps;
    } else {
      SumBounds(ps, b.minX, b.maxX, true);
      SumBounds(ps, b.minY, b.maxY, false);
      MeanBetween(SumX(ps), n, b.minX, b.maxX);
      MeanBetween(SumY(ps), n, b.minY, b.maxY);
    }
  }

  /**
   * The fallback for a pointless blob is the centre of its box only in the
   * special case maxX == minY.
   */
  lemma EmptyCentroidMixesAxes(b: BlobValue)
    requires b.laserPoints == []
    ensures Centroid(b) == Point2D((b.minX + b.maxX) / 2.0, (b.minY + b.maxY) / 2.0) <==> b.maxX == b.minY
  {
  }

  /** `Blob`: the mutable struct the clustering passes grow in place. */
  class Blob {
    var minX: real
    var minY: real
    var maxX: real
    var maxY: real
    var laserPoints: seq<Point2D>

    function Value(): BlobValue
      reads this
    {
      BlobValue(minX, minY, maxX, maxY, laserPoints)
    }

    /** `Blob(x, y)`: a blob of the single point (x, y). */
    constructor (x: real, y: real)
      ensures Value() == Singleton(Point2D(x, y))
    {
      minX, minY, maxX, maxY := x, y, x, y;
      laserPoints := [Point2D(x, y)];
    }

    /** The implicit copy made when a blob is pushed into a list by value. */
    constructor Copy(other: Blob)
      ensures Value() == other.Value()
    {
      minX, minY, maxX, maxY := other.minX, other.minY, other.maxX, other.maxY;
      laserPoints := other.laserPoints;
    }

    /** `expand`: grows this blob's box by `other`'s and appends `other`'s points. */
    method Expand(other: Blob)
      requires other != this
      modifies this
      ensures Value() == Expanded(old(Value()), other.Value())
    {
      ghost var target := Expanded(Value(), other.Value());
      if other.minX < minX {
        minX := other.minX;
      }
      if other.maxX > maxX {
        maxX := other.maxX;
      }
      if other.minY < minY {
        minY := other.minY;
      }
      if other.maxY > maxY {
        maxY := other.maxY;
      }
      var i := 0;
      while i < |other.laserPoints|
        invariant 0 <= i <= |other.laserPoints|
        invariant minX == target.minX && minY == target.minY && maxX == target.maxX && maxY == target.maxY
        invariant laserPoints == old(laserPoints) + other.laserPoints[..i]
      {
        laserPoints := laserPoints + [other.laserPoints[i]];
        i := i + 1;
      }
    }

    /** `massCenter`, computed with a running sum over the points. */
    method MassCenter() returns (c: Point2D)
      ensures c == Centroid(Value())
    {
      if |laserPoints| == 0 {
        return Point2D((minX + minY) / 2.0, (maxX + maxY) / 2.0);
      }
      if |laserPoints| == 1 {
        return laserPoints[0];
      }
      var sumX, sumY := 0.0, 0.0;
      var i := 0;
      while i < |laserPoints|
        invariant 0 <= i <= |laserPoints|
        invariant sumX == SumX(laserPoints[..i]) && sumY == SumY(laserPoints[..i])
      {
        assert laserPoints[..i + 1][..i] == laserPoints[..i];
        sumX := sumX + laserPoints[i].x;
        sumY := sumY + laserPoints[i].y;
        i := i + 1;
      }
      assert laserPoints[..i] == laserPoints;
      c := Point2D(sumX / |laserPoints| as real, sumY / |laserPoints| as real);
    }
  }

  /** The values of a list of blobs, in order. */
  function Values(bs: seq<Blob>): (r: seq<BlobValue>)
    reads bs
    ensures |r| == |bs|
  {
    seq(|bs|, i reads bs requires 0 <= i < |bs| => bs[i].Value())
  }
}
