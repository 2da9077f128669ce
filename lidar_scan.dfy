/**
 * Scan samples and their decoding from the fields of an RPLIDAR
 * measurement node (the two `processScan` overloads of the reference device).
 */
module LidarScan {
  import opened Numeric

  type U16 = x: int | 0 <= x < 0x1_0000

  /** The two fields of `rplidar_response_measurement_node_t` the decoder reads. */
  datatype MeasurementNode = MeasurementNode(distanceQ2: U16, angleQ6Checkbit: U16)

  /** One sample: distance in metres, bearing in degrees, and whether an obstacle was seen. */
  datatype LidarScanPoint = LidarScanPoint(dist: real, angle: real, valid: bool)

  /** A decoded scan together with the timestamp of its first sample. */
  datatype ScanMessage = ScanMessage(timestamp: int, scan: seq<LidarScanPoint>)

  /** Distance reported for a sample without a return. */
  const NoReturnDistance: real := 100000.0

  /** Time one sample takes, in microseconds. */
  const SampleDurationUs: real := 476.4

  /**
   * Decodes one node. A zero quarter-millimetre distance marks "no return".
   * The angle field holds the angle in 1/64 degree above a check bit; the
   * vendor's RPLIDAR_RESP_MEASUREMENT_ANGLE_SHIFT (one bit) drops that bit.
   */
  function DecodeSample(n: MeasurementNode): (s: LidarScanPoint)
    ensures s.valid <==> n.distanceQ2 != 0
    ensures s.valid ==> 0.0 < s.dist < 16.384 && s.dist * 4000.0 == n.distanceQ2 as real
    ensures !s.valid ==> s.dist == NoReturnDistance
    ensures 0.0 <= s.angle < 512.0 && s.angle * 64.0 == (n.angleQ6Checkbit / 2) as real
  {
    LidarScanPoint(
      if n.distanceQ2 == 0 then NoReturnDistance else n.distanceQ2 as real / 4000.0,
      (n.angleQ6Checkbit / 2) as real / 64.0,
      n.distanceQ2 != 0)
  }

  /** Quantises a sample back into node fields (with a clear check bit). */
  function EncodeSample(s: LidarScanPoint): (n: MeasurementNode)
    requires s.valid ==> 1.0 <= s.dist * 4000.0 < 65536.0
    requires 0.0 <= s.angle * 64.0 < 32768.0
    ensures n.angleQ6Checkbit % 2 == 0
    ensures (n.distanceQ2 == 0) <==> !s.valid
  {
    MeasurementNode(
      if s.valid then (s.dist * 4000.0).Floor else 0,
      (s.angle * 64.0).Floor * 2)
  }

  /** Decoding loses only the check bit: re-encoding gives the node back without it. */
  lemma DecodeThenEncode(n: MeasurementNode)
    ensures EncodeSample(DecodeSample(n)) == MeasurementNode(n.distanceQ2, n.angleQ6Checkbit / 2 * 2)
  {
    var s := DecodeSample(n);
    if n.distanceQ2 != 0 {
      assert s.dist * 4000.0 == n.distanceQ2 as real;
    }
    assert s.angle * 64.0 == (n.angleQ6Checkbit / 2) as real;
  }

  /** The samples of a whole node array, in order. */
  function DecodeScan(input: seq<MeasurementNode>): (r: seq<LidarScanPoint>)
    ensures |r| == |input|
    ensures forall i :: 0 <= i < |input| ==>
      (r[i].valid ==> 1.0 <= r[i].dist * 4000.0 < 65536.0) && 0.0 <= r[i].angle * 64.0 < 32768.0
    ensures forall i :: 0 <= i < |input| ==>
      EncodeSample(r[i]) == MeasurementNode(input[i].distanceQ2, input[i].angleQ6Checkbit / 2 * 2)
  {
    EachDecodeThenEncode(input);
    seq(|input|, i requires 0 <= i < |input| => DecodeSample(input[i]))
  }

  lemma EachDecodeThenEncode(input: seq<MeasurementNode>)
    ensures forall i :: 0 <= i < |input| ==>
      EncodeSample(DecodeSample(input[i])) == MeasurementNode(input[i].distanceQ2, input[i].angleQ6Checkbit / 2 * 2)
  {
    forall i | 0 <= i < |input| {
      DecodeThenEncode(input[i]);
    }
  }

  /** Start time of a scan of `size` samples that ended at `endTime` (milliseconds). */
  function ScanStartTime(endTime: int, size: nat): real
  {
    endTime as real - size as real * SampleDurationUs / 1000.0
  }

  /**
   * Fills a scan buffer of exactly `|input|` samples, the i-th decoded
   * from the i-th node, stamped with the time of the first sample.
   */
  method ProcessScan(input: seq<MeasurementNode>, endTime: int) returns (output: ScanMessage)
    ensures |output.scan| == |input|
    ensures forall i :: 0 <= i < |input| ==> output.scan[i] == DecodeSample(input[i])
    ensures output.timestamp == Trunc(ScanStartTime(endTime, |input|))
    ensures ScanStartTime(endTime, |input|) <= endTime as real
  {
    var startTime := endTime as real - |input| as real * SampleDurationUs / 1000.0;
    var samples := new LidarScanPoint[|input|](_ => LidarScanPoint(0.0, 0.0, false));
    for i := 0 to |input|
      invariant forall j :: 0 <= j < i ==> samples[j] == DecodeSample(input[j])
    {
      samples[i] := DecodeSample(input[i]);
    }
    output := ScanMessage(Trunc(startTime), samples[..]);
  }
}
