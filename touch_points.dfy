/**
 * Touch-point extraction: the crop-area-to-screen projection
 * `physical2screen` and the anchor/radius formula applied to every final
 * blob. Coordinates are exact reals; each float-to-int assignment of the
 * source is an explicit truncation toward zero.
 */
module TouchPoints {
  import opened Numeric
  import opened Blobs
  import opened LidarScan
  import opened Clustering

  /** `TouchPointStruct`: a screen position and a radius. */
  datatype TouchPoint = TouchPoint(x: int, y: int, radius: real)

  /** A pixel position on the screen. */
  datatype ScreenPoint = ScreenPoint(x: int, y: int)

  /** The crop area's height, which scales both axes. */
  function CropHeight(crop: BlobValue): real
  {
    crop.maxY - crop.minY
  }

  /**
   * The screen column of physical `x` before truncation: the crop area is
   * scaled by screen height over crop height and centred horizontally.
   */
  function ProjectX(x: real, crop: BlobValue, screenWidth: int, screenHeight: int): real
    requires CropHeight(crop) != 0.0
  {
    var xp := (x - crop.minX) / CropHeight(crop);
    xp * screenHeight as real
      + (screenWidth as real - screenHeight as real * (crop.maxX - crop.minX) / CropHeight(crop)) / 2.0
  }

  /** The screen row of physical `y` before truncation. */
  function ProjectY(y: real, crop: BlobValue, screenHeight: int): real
    requires CropHeight(crop) != 0.0
  {
    var yp := (y - crop.minY) / CropHeight(crop);
    yp * screenHeight as real
  }

  /**
   * `physical2screen`: both projections truncated toward zero. With a crop
   * area of positive height, a point between its bottom and top edges lands
   * on a screen row between 0 and `screenHeight`.
   */
  function Physical2Screen(x: real, y: real, crop: BlobValue, screenWidth: int, screenHeight: int): (r: ScreenPoint)
    requires CropHeight(crop) != 0.0
    ensures CropHeight(crop) > 0.0 && screenHeight >= 0 && crop.minY <= y <= crop.maxY ==> 0 <= r.y <= screenHeight
  {
    RowInRange(y, crop, screenHeight);
    ScreenPoint(Trunc(ProjectX(x, crop, screenWidth, screenHeight)), Trunc(ProjectY(y, crop, screenHeight)))
  }

  lemma RowInRange(y: real, crop: BlobValue, screenHeight: int)
    requires CropHeight(crop) != 0.0
    ensures CropHeight(crop) > 0.0 && screenHeight >= 0 && crop.minY <= y <= crop.maxY ==>
      0.0 <= ProjectY(y, crop, screenHeight) <= screenHeight as real
  {
    if CropHeight(crop) > 0.0 && screenHeight >= 0 && crop.minY <= y <= crop.maxY {
      var yp := (y - crop.minY) / CropHeight(crop);
      assert 0.0 <= yp <= 1.0;
      ScaledNonNegative(yp, screenHeight as real);
      ScaledNonNegative(1.0 - yp, screenHeight as real);
    }
  }

  /**
   * Both axes share one scale, screen height over crop height, and the
   * horizontal offset centres the crop area on the screen.
   */
  lemma ProjectionIsAffine(x: real, y: real, crop: BlobValue, screenWidth: int, screenHeight: int)
    requires CropHeight(crop) != 0.0
    ensures var k := screenHeight as real / CropHeight(crop);
      && ProjectY(y, crop, screenHeight) == (y - crop.minY) * k
      && ProjectX(x, crop, screenWidth, screenHeight)
        == (x - crop.minX) * k + (screenWidth as real - (crop.maxX - crop.minX) * k) / 2.0
  {
    var h := CropHeight(crop);
    var sh := screenHeight as real;
    var k := sh / h;
    calc {
      (y - crop.minY) / h * sh;
      (y - crop.minY) * (sh / h);
    }
    calc {
      (x - crop.minX) / h * sh;
      (x - crop.minX) * (sh / h);
    }
    calc {
      sh * (crop.maxX - crop.minX) / h;
      (crop.maxX - crop.minX) * (sh / h);
    }
  }

  /**
   * The centre of the crop area lands on the centre of the screen, its
   * bottom edge on row 0 and its top edge on row `screenHeight`.
   */
  lemma CropAreaFillsScreenHeight(crop: BlobValue, screenWidth: int, screenHeight: int)
    requires CropHeight(crop) != 0.0
    ensures ProjectX((crop.minX + crop.maxX) / 2.0, crop, screenWidth, screenHeight) == screenWidth as real / 2.0
    ensures ProjectY((crop.minY + crop.maxY) / 2.0, crop, screenHeight) == screenHeight as real / 2.0
    ensures Physical2Screen(crop.minX, crop.minY, crop, screenWidth, screenHeight).y == 0
    ensures Physical2Screen(crop.minX, crop.maxY, crop, screenWidth, screenHeight).y == screenHeight
  {
    var k := screenHeight as real / CropHeight(crop);
    ProjectionIsAffine((crop.minX + crop.maxX) / 2.0, (crop.minY + crop.maxY) / 2.0, crop, screenWidth, screenHeight);
    ProjectionIsAffine(crop.minX, crop.maxY, crop, screenWidth, screenHeight);
    assert ((crop.minX + crop.maxX) / 2.0 - crop.minX) * k == (crop.maxX - crop.minX) * k / 2.0;
    assert ((crop.minY + crop.maxY) / 2.0 - crop.minY) * k == CropHeight(crop) * k / 2.0;
    assert CropHeight(crop) * k == screenHeight as real;
  }

  /**
   * Equal physical steps give equal screen steps on both axes (the crop
   * area's width plays no part in the scale), and with a crop area of
   * positive height the projection keeps order on each axis.
   */
  lemma ProjectionScale(x1: real, x2: real, y1: real, y2: real, crop: BlobValue, screenWidth: int, screenHeight: int)
    requires CropHeight(crop) != 0.0
    ensures var k := screenHeight as real / CropHeight(crop);
      && ProjectX(x2, crop, screenWidth, screenHeight) - ProjectX(x1, crop, screenWidth, screenHeight) == (x2 - x1) * k
      && ProjectY(y2, crop, screenHeight) - ProjectY(y1, crop, screenHeight) == (y2 - y1) * k
    ensures CropHeight(crop) > 0.0 && screenHeight >= 0 && x1 <= x2 ==>
      Physical2Screen(x1, y1, crop, screenWidth, screenHeight).x <= Physical2Screen(x2, y1, crop, screenWidth, screenHeight).x
    ensures CropHeight(crop) > 0.0 && screenHeight >= 0 && y1 <= y2 ==>
      Physical2Screen(x1, y1, crop, screenWidth, screenHeight).y <= Physical2Screen(x1, y2, crop, screenWidth, screenHeight).y
  {
    var k := screenHeight as real / CropHeight(crop);
    ProjectionIsAffine(x1, y1, crop, screenWidth, screenHeight);
    ProjectionIsAffine(x2, y2, crop, screenWidth, screenHeight);
    assert (x2 - crop.minX) * k - (x1 - crop.minX) * k == (x2 - x1) * k;
    assert (y2 - crop.minY) * k - (y1 - crop.minY) * k == (y2 - y1) * k;
    if CropHeight(crop) > 0.0 && screenHeight >= 0 {
      assert k >= 0.0;
      if x1 <= x2 {
        ScaledNonNegative(x2 - x1, k);
        TruncMonotonic(ProjectX(x1, crop, screenWidth, screenHeight), ProjectX(x2, crop, screenWidth, screenHeight));
      }
      if y1 <= y2 {
        ScaledNonNegative(y2 - y1, k);
        TruncMonotonic(ProjectY(y1, crop, screenHeight), ProjectY(y2, crop, screenHeight));
      }
    }
  }

  lemma ScaledNonNegative(d: real, k: real)
    requires d >= 0.0 && k >= 0.0
    ensures d * k >= 0.0
  {
  }

  /** The two screen coordinates whose difference gives the radius, before division by 5. */
  function RadiusSpan(b: BlobValue, crop: BlobValue, screenWidth: int, screenHeight: int): (int, int)
    requires CropHeight(crop) != 0.0
  {
    if b.maxX - b.minX > b.maxY - b.minY then
      (Trunc(ProjectX(b.minX, crop, screenWidth, screenHeight)), Trunc(ProjectX(b.maxX, crop, screenWidth, screenHeight)))
    else
      (Trunc(ProjectY(b.minY, crop, screenHeight)), Trunc(ProjectY(b.maxY, crop, screenHeight)))
  }

  /**
   * The touch point of one blob: anchored at the projection of
   * ((min_x+max_x)/2, (max_y+max_y)/2), with radius the integer fifth of the
   * blob's pixel span along its wider axis (the y axis on a tie).
   */
  function TouchPointOf(b: BlobValue, crop: BlobValue, screenWidth: int, screenHeight: int): (t: TouchPoint)
    requires CropHeight(crop) != 0.0
    ensures CropHeight(crop) > 0.0 && screenHeight >= 0 && b.minX <= b.maxX && b.minY <= b.maxY ==> t.radius >= 0.0
  {
    ProjectionScale(b.minX, b.maxX, b.minY, b.maxY, crop, screenWidth, screenHeight);
    var anchor := Physical2Screen((b.minX + b.maxX) / 2.0, (b.maxY + b.maxY) / 2.0, crop, screenWidth, screenHeight);
    var span := RadiusSpan(b, crop, screenWidth, screenHeight);
    TouchPoint(anchor.x, anchor.y, CDiv5(span.1 - span.0) as real)
  }

  /**
   * The anchor's row is the row of the blob's top edge, not of its centre:
   * for a valid blob it is never below the centre's row.
   */
  lemma AnchorRowIsTopEdge(b: BlobValue, crop: BlobValue, screenWidth: int, screenHeight: int)
    requires CropHeight(crop) > 0.0 && screenHeight >= 0
    ensures TouchPointOf(b, crop, screenWidth, screenHeight).y == Trunc(ProjectY(b.maxY, crop, screenHeight))
    ensures b.minY <= b.maxY ==>
      Physical2Screen((b.minX + b.maxX) / 2.0, (b.minY + b.maxY) / 2.0, crop, screenWidth, screenHeight).y
        <= TouchPointOf(b, crop, screenWidth, screenHeight).y
    ensures TouchPointOf(b, crop, screenWidth, screenHeight).x
      == Physical2Screen((b.minX + b.maxX) / 2.0, (b.minY + b.maxY) / 2.0, crop, screenWidth, screenHeight).x
  {
    assert (b.maxY + b.maxY) / 2.0 == b.maxY;
    var cx := (b.minX + b.maxX) / 2.0;
    ProjectionScale(cx, cx, (b.minY + b.maxY) / 2.0, b.maxY, crop, screenWidth, screenHeight);
  }

  /**
   * The radius of a valid blob is never negative, and it is a fifth of the
   * pixel span of the wider axis, rounded toward zero.
   */
  lemma RadiusNonNegative(b: BlobValue, crop: BlobValue, screenWidth: int, screenHeight: int)
    requires CropHeight(crop) > 0.0 && screenHeight >= 0
    requires b.minX <= b.maxX && b.minY <= b.maxY
    ensures var span := RadiusSpan(b, crop, screenWidth, screenHeight);
      && span.0 <= span.1
      && TouchPointOf(b, crop, screenWidth, screenHeight).radius >= 0.0
      && 5 * TouchPointOf(b, crop, screenWidth, screenHeight).radius as int <= span.1 - span.0
        < 5 * TouchPointOf(b, crop, screenWidth, screenHeight).radius as int + 5
  {
    ProjectionScale(b.minX, b.maxX, b.minY, b.maxY, crop, screenWidth, screenHeight);
  }

  /** A blob of one point touches with radius 0, anchored at the point's pixel. */
  lemma SingletonTouchPoint(p: Point2D, crop: BlobValue, screenWidth: int, screenHeight: int)
    requires CropHeight(crop) != 0.0
    ensures var t := TouchPointOf(Singleton(p), crop, screenWidth, screenHeight);
      var s := Physical2Screen(p.x, p.y, crop, screenWidth, screenHeight);
      t == TouchPoint(s.x, s.y, 0.0)
  {
    assert (p.x + p.x) / 2.0 == p.x;
    assert (p.y + p.y) / 2.0 == p.y;
  }

  /** One touch point per blob, in blob order. */
  function TouchPointsOf(blobs: seq<BlobValue>, crop: BlobValue, screenWidth: int, screenHeight: int): (r: seq<TouchPoint>)
    requires CropHeight(crop) != 0.0
    ensures |r| == |blobs|
  {
    seq(|blobs|, i requires 0 <= i < |blobs| => TouchPointOf(blobs[i], crop, screenWidth, screenHeight))
  }

  /** The whole pipeline for one scan: seed, cluster to a fixpoint, extract. */
  function ScanToTouchPoints(scan: seq<LidarScanPoint>, toPlanar: LidarScanPoint -> Point2D, crop: BlobValue, filter: bool,
                             threshold: real, screenWidth: int, screenHeight: int): seq<TouchPoint>
    requires CropHeight(crop) != 0.0
  {
    TouchPointsOf(Cluster(Seeds(scan, toPlanar, crop, filter), threshold), crop, screenWidth, screenHeight)
  }

  /** Number of samples a scan has that seed a blob. */
  function CountAccepted(scan: seq<LidarScanPoint>, toPlanar: LidarScanPoint -> Point2D, crop: BlobValue, filter: bool): nat
  {
    if scan == [] then 0
    else CountAccepted(scan[..|scan| - 1], toPlanar, crop, filter) + (if Accepted(scan[|scan| - 1], toPlanar, crop, filter) then 1 else 0)
  }

  lemma {:induction false} SeedsCount(scan: seq<LidarScanPoint>, toPlanar: LidarScanPoint -> Point2D, crop: BlobValue, filter: bool)
    ensures |Seeds(scan, toPlanar, crop, filter)| == CountAccepted(scan, toPlanar, crop, filter) <= |scan|
  {
    if scan != [] {
      SeedsCount(scan[..|scan| - 1], toPlanar, crop, filter);
    }
  }

  /**
   * There are never more touch points than accepted samples, and there
   * are none exactly when no sample is accepted.
   */
  lemma TouchPointsBounded(scan: seq<LidarScanPoint>, toPlanar: LidarScanPoint -> Point2D, crop: BlobValue, filter: bool,
                           threshold: real, screenWidth: int, screenHeight: int)
    requires CropHeight(crop) != 0.0
    ensures |ScanToTouchPoints(scan, toPlanar, crop, filter, threshold, screenWidth, screenHeight)| <= CountAccepted(scan, toPlanar, crop, filter)
    ensures ScanToTouchPoints(scan, toPlanar, crop, filter, threshold, screenWidth, screenHeight) == []
      <==> CountAccepted(scan, toPlanar, crop, filter) == 0
  {
    var seeds := Seeds(scan, toPlanar, crop, filter);
    SeedsCount(scan, toPlanar, crop, filter);
    ClusterCovers(seeds, threshold);
    if seeds != [] {
      ClusterNonEmpty(seeds, threshold);
    } else {
      assert Cluster(seeds, threshold) == [];
    }
  }

  /** Builds the touch-point list from the final blobs, in blob order. */
  method BuildTouchPoints(blobs: seq<Blob>, crop: BlobValue, screenWidth: int, screenHeight: int) returns (list: seq<TouchPoint>)
    requires CropHeight(crop) != 0.0
    ensures list == TouchPointsOf(Values(blobs), crop, screenWidth, screenHeight)
  {
    list := [];
    var i := 0;
    while i < |blobs|
      invariant 0 <= i <= |blobs|
      invariant list == TouchPointsOf(Values(blobs[..i]), crop, screenWidth, screenHeight)
    {
      var blob := blobs[i];
      var anchor := Physical2Screen((blob.minX + blob.maxX) / 2.0, (blob.maxY + blob.maxY) / 2.0, crop, screenWidth, screenHeight);
      var len1, len2;
      if blob.maxX - blob.minX > blob.maxY - blob.minY {
        len1 := Trunc(ProjectX(blob.minX, crop, screenWidth, screenHeight));
        len2 := Trunc(ProjectX(blob.maxX, crop, screenWidth, screenHeight));
      } else {
        len1 := Trunc(ProjectY(blob.minY, crop, screenHeight));
        len2 := Trunc(ProjectY(blob.maxY, crop, screenHeight));
      }
      var radius := CDiv5(len2 - len1);
      list := list + [TouchPoint(anchor.x, anchor.y, radius as real)];
      assert Values(blobs[..i + 1]) == Values(blobs[..i]) + [blob.Value()];
      i := i + 1;
    }
    assert blobs[..i] == blobs;
  }
}
