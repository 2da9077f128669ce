/**
 * The application's device (`LidarDevice`): the same pipeline on samples
 * in millimetres, with a 50 mm merge threshold, no crop-area filter, and
 * no grace period (an empty scan clears the touch points at once).
 */
module AppLidar {
  import opened Blobs
  import opened LidarScan
  import opened Clustering
  import opened TouchPoints

  /** `0.05f * 1000`: blobs nearer than 50 mm are merged. */
  const BlobCombinationThreshold: real := 50.0

  /** The file-static `CropArea`; only the projection uses it. */
  const CropArea: BlobValue := BlobValue(-0.75, -0.6, 0.75, 0.6, [])

  /** `LidarDevice` with the scan buffer its driver fills and the retained list. */
  class LidarDevice {
    /** `scanData`, the latest scan as the driver's `update` leaves it. */
    var scanData: seq<LidarScanPoint>
    var screenWidth: int
    var screenHeight: int
    /** `polar2cartesian` under `BASE_ANGLE`. */
    const toPlanar: LidarScanPoint -> Point2D
    /** `s_touchPointList`. */
    var touchPointList: seq<TouchPoint>

    /** A device with no scan and no touch points, projecting to the given screen size. */
    constructor (width: int, height: int, toPlanar: LidarScanPoint -> Point2D)
      ensures scanData == [] && touchPointList == []
      ensures screenWidth == width && screenHeight == height && this.toPlanar == toPlanar
    {
      scanData := [];
      screenWidth, screenHeight := width, height;
      this.toPlanar := toPlanar;
      touchPointList := [];
    }

    /**
     * `getTouchPoints`: a non-empty scan replaces the retained list by one
     * touch point per final blob of all its valid samples; an empty scan
     * clears it.
     */
    method GetTouchPoints() returns (result: seq<TouchPoint>)
      modifies this`touchPointList
      ensures scanData != [] ==>
        touchPointList == ScanToTouchPoints(scanData, toPlanar, CropArea, false, BlobCombinationThreshold, screenWidth, screenHeight)
      ensures scanData == [] ==> touchPointList == []
      ensures result == touchPointList
    {
      if scanData != [] {
        var blobs := LookupBlobs(scanData, toPlanar, CropArea, false, BlobCombinationThreshold);
        touchPointList := BuildTouchPoints(blobs, CropArea, screenWidth, screenHeight);
      } else {
        touchPointList := [];
      }
      result := touchPointList;
    }
  }

  /**
   * Two single-point blobs, `p` first: one pass merges them into `p`'s blob
   * exactly when they are less than 50 mm apart, and keeps both otherwise.
   */
  lemma ThresholdBoundary(p: Point2D, q: Point2D)
    ensures var d2 := Square(p.x - q.x) + Square(p.y - q.y);
      MergePass([Singleton(p), Singleton(q)], BlobCombinationThreshold)
        == if d2 < 2500.0 then Pass([Expanded(Singleton(p), Singleton(q))], 1) else Pass([Singleton(p), Singleton(q)], 0)
  {
    SingletonsNear(p, q, BlobCombinationThreshold);
    MergePassPair(Singleton(p), Singleton(q), BlobCombinationThreshold);
  }

  /** Samples exactly 50 mm apart stay two blobs; 40 mm apart they become one. */
  lemma ThresholdIsStrict()
    ensures Cluster([Singleton(Point2D(0.0, 0.0)), Singleton(Point2D(30.0, 40.0))], BlobCombinationThreshold)
      == [Singleton(Point2D(0.0, 0.0)), Singleton(Point2D(30.0, 40.0))]
    ensures |Cluster([Singleton(Point2D(0.0, 0.0)), Singleton(Point2D(0.0, 40.0))], BlobCombinationThreshold)| == 1
  {
    var a, b, c := Point2D(0.0, 0.0), Point2D(30.0, 40.0), Point2D(0.0, 40.0);
    assert Cluster([Singleton(a), Singleton(b)], BlobCombinationThreshold) == [Singleton(a), Singleton(b)] by {
      ThresholdBoundary(a, b);
      assert Square(a.x - b.x) + Square(a.y - b.y) == 2500.0;
    }
    var merged := Expanded(Singleton(a), Singleton(c));
    assert MergePass([Singleton(a), Singleton(c)], BlobCombinationThreshold) == Pass([merged], 1) by {
      ThresholdBoundary(a, c);
      assert Square(a.x - c.x) + Square(a.y - c.y) == 1600.0;
    }
    MergePassSingle(merged, BlobCombinationThreshold);
  }
}
