/**
 * The reference device (`NodeProcessDevice`): per cycle it decodes a
 * grabbed scan, clusters the samples that fall in the crop area with a
 * 0.05 m merge threshold and rebuilds the retained touch-point list; when
 * no scan is grabbed it keeps the retained list for a 1000 ms grace period
 * after the last scan and then clears it.
 */
module NodeProcess {
  import opened Wrappers
  import opened Numeric
  import opened LidarScan
  import opened Blobs
  import opened Clustering
  import opened TouchPoints

  /** Blobs nearer than this many metres are merged. */
  const BlobCombinationThreshold: real := 0.05

  /** Grace period, in milliseconds, before a scan-less device drops its touch points. */
  const TimeLimit: int := 1000

  const DefaultScreenWidth: int := 1920
  const DefaultScreenHeight: int := 1080

  /** The crop area before configuration: 1.5 m wide, 1.2 m high, centred on the device. */
  const DefaultCropArea: BlobValue := BlobValue(-0.75, -0.6, 0.75, 0.6, [])

  /**
   * On the default 1920 x 1080 screen the default crop area is scaled by
   * 900 pixels per metre and centred: its corners land 285 pixels in from
   * either side, on the bottom and top rows.
   */
  lemma DefaultCropAreaOnDefaultScreen()
    ensures Physical2Screen(DefaultCropArea.minX, DefaultCropArea.minY, DefaultCropArea, DefaultScreenWidth, DefaultScreenHeight)
      == ScreenPoint(285, 0)
    ensures Physical2Screen(DefaultCropArea.maxX, DefaultCropArea.maxY, DefaultCropArea, DefaultScreenWidth, DefaultScreenHeight)
      == ScreenPoint(1635, 1080)
  {
    ProjectionIsAffine(DefaultCropArea.minX, DefaultCropArea.minY, DefaultCropArea, DefaultScreenWidth, DefaultScreenHeight);
    ProjectionIsAffine(DefaultCropArea.maxX, DefaultCropArea.maxY, DefaultCropArea, DefaultScreenWidth, DefaultScreenHeight);
    assert 1080.0 / 1.2 == 900.0;
  }

  /**
   * The staleness rule of a cycle without a scan: the retained list is
   * cleared once more than `TimeLimit` ms have passed since the last scan,
   * and kept as it is before that.
   */
  function StaleStep(list: seq<TouchPoint>, lastTimeHasScan: int, now: int): (r: seq<TouchPoint>)
    ensures r == list || r == []
    ensures r == [] <==> list == [] || now - lastTimeHasScan > TimeLimit
  {
    if now - lastTimeHasScan > TimeLimit then [] else list
  }

  /** Several cycles in a row without a scan, at the times in `nows`. */
  function StaleRun(list: seq<TouchPoint>, lastTimeHasScan: int, nows: seq<int>): seq<TouchPoint>
  {
    if nows == [] then list
    else StaleStep(StaleRun(list, lastTimeHasScan, nows[..|nows| - 1]), lastTimeHasScan, nows[|nows| - 1])
  }

  /**
   * After any run of scan-less cycles the list is empty if one of them came
   * more than the grace period after the last scan, and is the last fresh
   * list, unchanged, otherwise.
   */
  lemma {:induction false} StaleRunClearsAfterGrace(list: seq<TouchPoint>, lastTimeHasScan: int, nows: seq<int>)
    ensures (exists i :: 0 <= i < |nows| && nows[i] - lastTimeHasScan > TimeLimit) ==> StaleRun(list, lastTimeHasScan, nows) == []
    ensures (forall i :: 0 <= i < |nows| ==> nows[i] - lastTimeHasScan <= TimeLimit) ==> StaleRun(list, lastTimeHasScan, nows) == list
  {
    if nows != [] {
      var init := nows[..|nows| - 1];
      StaleRunClearsAfterGrace(list, lastTimeHasScan, init);
      if exists i :: 0 <= i < |nows| && nows[i] - lastTimeHasScan > TimeLimit {
        var i :| 0 <= i < |nows| && nows[i] - lastTimeHasScan > TimeLimit;
        if i < |init| {
          assert init[i] == nows[i];
        }
      }
      if forall i :: 0 <= i < |nows| ==> nows[i] - lastTimeHasScan <= TimeLimit {
        assert forall i :: 0 <= i < |init| ==> init[i] == nows[i];
      }
    }
  }

  /** `NodeProcessDevice` with the file-level state its `getTouchPoints` keeps. */
  class NodeProcessDevice {
    /** `CropArea`, set from the configured touch area at start-up. */
    var cropArea: BlobValue
    var screenWidth: int
    var screenHeight: int
    /** `polar2cartesian` under the configured angle offset. */
    const toPlanar: LidarScanPoint -> Point2D
    /** `s_touchPointList`, the list returned and retained across cycles. */
    var touchPointList: seq<TouchPoint>
    /** The function-static `lastTimeHasScan`; `None` until the first call initialises it. */
    var lastTimeHasScan: Option<int>
    /** The file-static `lastScan`. */
    var lastScan: ScanMessage

    /** The crop area must have a height: the projection divides by it. */
    predicate Valid()
      reads this
    {
      CropHeight(cropArea) != 0.0
    }

    /** Construction followed by `startUp` with the configured touch area and `setScreenSize`. */
    constructor (touchArea: BlobValue, width: int, height: int, toPlanar: LidarScanPoint -> Point2D)
      requires CropHeight(touchArea) != 0.0
      ensures Valid()
      ensures cropArea == BlobValue(touchArea.minX, touchArea.minY, touchArea.maxX, touchArea.maxY, [])
      ensures screenWidth == width && screenHeight == height && this.toPlanar == toPlanar
      ensures touchPointList == [] && lastTimeHasScan == None && lastScan == ScanMessage(0, [])
    {
      cropArea := BlobValue(touchArea.minX, touchArea.minY, touchArea.maxX, touchArea.maxY, []);
      screenWidth, screenHeight := width, height;
      this.toPlanar := toPlanar;
      touchPointList := [];
      lastTimeHasScan := None;
      lastScan := ScanMessage(0, []);
    }

    /** The screen size `getTouchPoints` projects to. */
    function ScreenSize(useDefaultScreenSize: bool): (int, int)
      reads this
    {
      if useDefaultScreenSize then (DefaultScreenWidth, DefaultScreenHeight) else (screenWidth, screenHeight)
    }

    /**
     * `getTouchPoints` for one cycle at time `now`; `grabbed` is the node
     * array the driver returned, or `None` when grabbing failed. A grabbed
     * scan replaces the retained list by one touch point per final blob of
     * its in-crop samples; otherwise the staleness rule applies.
     */
    method GetTouchPoints(grabbed: Option<seq<MeasurementNode>>, now: int, useDefaultScreenSize: bool) returns (result: seq<TouchPoint>)
      requires Valid()
      modifies this
      ensures Valid() && cropArea == old(cropArea) && screenWidth == old(screenWidth) && screenHeight == old(screenHeight)
      ensures result == touchPointList
      ensures grabbed.Some? ==>
        && lastTimeHasScan == Some(now)
        && lastScan == ScanMessage(Trunc(ScanStartTime(now, |grabbed.value|)), DecodeScan(grabbed.value))
        && touchPointList == ScanToTouchPoints(DecodeScan(grabbed.value), toPlanar, cropArea, true, BlobCombinationThreshold,
                                               ScreenSize(useDefaultScreenSize).0, ScreenSize(useDefaultScreenSize).1)
      ensures grabbed.None? ==>
        && lastTimeHasScan == Some(old(lastTimeHasScan).GetOr(now))
        && lastScan == old(lastScan)
        && touchPointList == StaleStep(old(touchPointList), old(lastTimeHasScan).GetOr(now), now)
    {
      if lastTimeHasScan.None? {
        lastTimeHasScan := Some(now);
      }
      var width, height := screenWidth, screenHeight;
      if useDefaultScreenSize {
        width, height := DefaultScreenWidth, DefaultScreenHeight;
      }
      if grabbed.Some? {
        var scan := ProcessScan(grabbed.value, now);
        assert scan.scan == DecodeScan(grabbed.value);
        lastTimeHasScan := Some(now);
        lastScan := scan;
        var blobs := LookupBlobs(scan.scan, toPlanar, cropArea, true, BlobCombinationThreshold);
        touchPointList := BuildTouchPoints(blobs, cropArea, width, height);
      } else if now - lastTimeHasScan.value > TimeLimit {
        touchPointList := [];
      }
      result := touchPointList;
    }
  }
}
