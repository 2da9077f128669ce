/**
 * Fixpoint clustering: `mergeBlobs` runs one greedy pass that folds every
 * input blob into each earlier output blob near it, and `lookupBlobs`
 * seeds one single-point blob per accepted sample and repeats passes until
 * one makes no merge. The specification works on blob values; the methods
 * run on `Blob` objects and are proved against it.
 */
module Clustering {
  import opened Blobs
  import opened LidarScan

  /**
   * The merge test `blobDistance(a, b) < threshold`, stated on squares:
   * for a non-negative threshold the two are equivalent.
   */
  predicate Near(a: BlobValue, b: BlobValue, threshold: real)
  {
    BlobDistanceSquared(a, b) < threshold * threshold
  }

  /** How many blobs of `out` the input blob `b` is near. */
  function Hits(out: seq<BlobValue>, b: BlobValue, threshold: real): nat
  {
    if out == [] then 0
    else Hits(out[..|out| - 1], b, threshold) + (if Near(b, out[|out| - 1], threshold) then 1 else 0)
  }

  /** `out` after every blob that `b` is near has been expanded by `b`. */
  function Absorb(out: seq<BlobValue>, b: BlobValue, threshold: real): seq<BlobValue>
  {
    seq(|out|, j requires 0 <= j < |out| => if Near(b, out[j], threshold) then Expanded(out[j], b) else out[j])
  }

  /** The result of one merge pass: the output list and the number of merges. */
  datatype Pass = Pass(blobs: seq<BlobValue>, count: nat)

  /** One outer step of a pass: `b` is absorbed by the blobs it is near, or appended when there is none. */
  function Step(prev: Pass, b: BlobValue, threshold: real): Pass
  {
    var h := Hits(prev.blobs, b, threshold);
    if h == 0 then Pass(prev.blobs + [b], prev.count)
    else Pass(Absorb(prev.blobs, b, threshold), prev.count + h)
  }

  /**
   * One pass of `mergeBlobs` over `input`, in order. The pass never grows
   * the list, and a pass that merges anything shrinks it.
   */
  function MergePass(input: seq<BlobValue>, threshold: real): (r: Pass)
    ensures |r.blobs| <= |input|
    ensures r.count > 0 ==> |r.blobs| < |input|
    decreases |input|
  {
    if input == [] then Pass([], 0)
    else Step(MergePass(input[..|input| - 1], threshold), input[|input| - 1], threshold)
  }

  /** `b` hits no blob of `out` exactly when it is near none of them. */
  lemma {:induction false} HitsZeroIffFar(out: seq<BlobValue>, b: BlobValue, threshold: real)
    ensures Hits(out, b, threshold) == 0 <==> forall j :: 0 <= j < |out| ==> !Near(b, out[j], threshold)
  {
    if out != [] {
      var init := out[..|out| - 1];
      HitsZeroIffFar(init, b, threshold);
      assert forall j :: 0 <= j < |init| ==> init[j] == out[j];
    }
  }

  /** A pass returns 0 exactly when its output is its input, blob for blob and in order. */
  lemma {:induction false} ZeroMergeIsIdentity(input: seq<BlobValue>, threshold: real)
    ensures MergePass(input, threshold).count == 0 <==> MergePass(input, threshold).blobs == input
  {
    if input != [] {
      var init := input[..|input| - 1];
      ZeroMergeIsIdentity(init, threshold);
      assert init + [input[|input| - 1]] == input;
    }
  }

  /** Two single-point blobs are near exactly when their points are closer than the threshold. */
  lemma SingletonsNear(p: Point2D, q: Point2D, threshold: real)
    ensures Near(Singleton(q), Singleton(p), threshold)
      <==> Square(p.x - q.x) + Square(p.y - q.y) < threshold * threshold
  {
    SingletonDistance(q, p);
    assert Square(q.x - p.x) == Square(p.x - q.x) && Square(q.y - p.y) == Square(p.y - q.y);
  }

  /** A pass over a single blob keeps it and merges nothing. */
  lemma MergePassSingle(a: BlobValue, threshold: real)
    ensures MergePass([a], threshold) == Pass([a], 0)
  {
    assert [a][..0] == [];
  }

  /** The second blob of a pair is absorbed by the first exactly when it is near it. */
  lemma MergePassPair(a: BlobValue, b: BlobValue, threshold: real)
    ensures MergePass([a, b], threshold)
      == if Near(b, a, threshold) then Pass([Expanded(a, b)], 1) else Pass([a, b], 0)
  {
    MergePassSingle(a, threshold);
    MergePassSnoc([a], b, threshold);
    assert [a] + [b] == [a, b];
    assert [a][..0] == [];
    assert Hits([a], b, threshold) == if Near(b, a, threshold) then 1 else 0;
  }

  /**
   * A blob near two output blobs is absorbed by both in the same pass, so
   * its point ends up in both: (0.04, 0) lies between (0, 0) and (0.08, 0).
   */
  lemma AbsorbedTwice()
    ensures var a, b, c := Singleton(Point2D(0.0, 0.0)), Singleton(Point2D(0.08, 0.0)), Singleton(Point2D(0.04, 0.0));
      MergePass([a, b, c], 0.05) == Pass([Expanded(a, c), Expanded(b, c)], 2)
  {
    var pa, pb, pc := Point2D(0.0, 0.0), Point2D(0.08, 0.0), Point2D(0.04, 0.0);
    var a, b, c := Singleton(pa), Singleton(pb), Singleton(pc);
    SingletonsNear(pa, pb, 0.05);
    SingletonsNear(pa, pc, 0.05);
    SingletonsNear(pb, pc, 0.05);
    MergePassPair(a, b, 0.05);
    MergePassSnoc([a, b], c, 0.05);
    assert [a, b] + [c] == [a, b, c];
    assert [a, b][..1] == [a] && [a][..0] == [];
    assert Hits([a], c, 0.05) == 1;
    assert Hits([a, b], c, 0.05) == 2;
    assert Absorb([a, b], c, 0.05) == [Expanded(a, c), Expanded(b, c)];
  }

  /** Whether point `p` belongs to some blob of `bs`. */
  ghost predicate HasPoint(bs: seq<BlobValue>, p: Point2D)
  {
    exists j :: 0 <= j < |bs| && p in bs[j].laserPoints
  }

  /** Every point of every input blob is in some output blob of the pass. */
  lemma {:induction false} MergePassCovers(input: seq<BlobValue>, threshold: real)
    ensures forall i, p :: 0 <= i < |input| && p in input[i].laserPoints ==> HasPoint(MergePass(input, threshold).blobs, p)
  {
    if input != [] {
      var init := input[..|input| - 1];
      var b := input[|input| - 1];
      var prev := MergePass(init, threshold);
      var out := MergePass(input, threshold).blobs;
      MergePassCovers(init, threshold);
      // every output blob keeps the points it had before this input blob
      assert forall j :: 0 <= j < |prev.blobs| ==> j < |out| && forall q | q in prev.blobs[j].laserPoints :: q in out[j].laserPoints;
      forall i, p | 0 <= i < |input| && p in input[i].laserPoints
        ensures HasPoint(out, p)
      {
        if i < |init| {
          assert init[i] == input[i];
          assert p in init[i].laserPoints;
          assert HasPoint(prev.blobs, p);
          var j :| 0 <= j < |prev.blobs| && p in prev.blobs[j].laserPoints;
          assert p in out[j].laserPoints;
        } else if Hits(prev.blobs, b, threshold) == 0 {
          assert out[|out| - 1] == b;
        } else {
          HitsZeroIffFar(prev.blobs, b, threshold);
          var j :| 0 <= j < |prev.blobs| && Near(b, prev.blobs[j], threshold);
          assert out[j] == Expanded(prev.blobs[j], b);
        }
      }
    }
  }

  /** A pass over valid blobs yields valid blobs. */
  lemma {:induction false} MergePassKeepsValid(input: seq<BlobValue>, threshold: real)
    requires forall i :: 0 <= i < |input| ==> Valid(input[i])
    ensures forall j :: 0 <= j < |MergePass(input, threshold).blobs| ==> Valid(MergePass(input, threshold).blobs[j])
  {
    if input != [] {
      var init := input[..|input| - 1];
      var b := input[|input| - 1];
      MergePassKeepsValid(init, threshold);
      var prev := MergePass(init, threshold);
      forall j | 0 <= j < |prev.blobs| {
        ExpandedValid(prev.blobs[j], b);
      }
    }
  }

  /** A pass without merges made no merge on its prefix and none for its last blob. */
  lemma ZeroMergeStep(input: seq<BlobValue>, threshold: real)
    requires input != [] && MergePass(input, threshold).count == 0
    ensures MergePass(input[..|input| - 1], threshold).count == 0
    ensures Hits(input[..|input| - 1], input[|input| - 1], threshold) == 0
  {
    var init := input[..|input| - 1];
    ZeroMergeIsIdentity(init, threshold);
  }

  /**
   * After a pass without merges, every blob is at least the threshold
   * away from every earlier one, measured from the later blob.
   */
  lemma {:induction false} ZeroMergeSeparated(input: seq<BlobValue>, threshold: real)
    requires MergePass(input, threshold).count == 0
    ensures forall i, j :: 0 <= i < j < |input| ==> !Near(input[j], input[i], threshold)
  {
    if input != [] {
      var init := input[..|input| - 1];
      var b := input[|input| - 1];
      ZeroMergeStep(input, threshold);
      ZeroMergeSeparated(init, threshold);
      HitsZeroIffFar(init, b, threshold);
      forall i, j | 0 <= i < j < |input|
        ensures !Near(input[j], input[i], threshold)
      {
        assert input[i] == init[i];
        if j < |init| {
          assert input[j] == init[j];
        }
      }
    }
  }

  /** `lookupBlobs`' loop: merge passes until a pass makes no merge. */
  function Cluster(blobs: seq<BlobValue>, threshold: real): (r: seq<BlobValue>)
    ensures |r| <= |blobs|
    decreases |blobs|
  {
    var pass := MergePass(blobs, threshold);
    if pass.count == 0 then pass.blobs else Cluster(pass.blobs, threshold)
  }

  /**
   * The final list is a fixpoint: one more pass merges nothing and
   * returns it unchanged, so clustering it again changes nothing.
   */
  lemma {:induction false} ClusterIsFixpoint(blobs: seq<BlobValue>, threshold: real)
    ensures MergePass(Cluster(blobs, threshold), threshold) == Pass(Cluster(blobs, threshold), 0)
    ensures Cluster(Cluster(blobs, threshold), threshold) == Cluster(blobs, threshold)
    decreases |blobs|
  {
    var pass := MergePass(blobs, threshold);
    if pass.count == 0 {
      ZeroMergeIsIdentity(blobs, threshold);
    } else {
      ClusterIsFixpoint(pass.blobs, threshold);
    }
  }

  /**
   * In the final list every blob is at least the threshold away from every
   * earlier blob (`blobDistance(blobs[j], blobs[i]) >= threshold` for i < j).
   */
  lemma ClusterSeparated(blobs: seq<BlobValue>, threshold: real)
    ensures var r := Cluster(blobs, threshold);
      forall i, j :: 0 <= i < j < |r| ==> !Near(r[j], r[i], threshold)
  {
    ClusterIsFixpoint(blobs, threshold);
    ZeroMergeSeparated(Cluster(blobs, threshold), threshold);
  }

  /** Clustering loses no point and never adds blobs. */
  lemma {:induction false} ClusterCovers(blobs: seq<BlobValue>, threshold: real)
    ensures |Cluster(blobs, threshold)| <= |blobs|
    ensures forall i, p :: 0 <= i < |blobs| && p in blobs[i].laserPoints ==> HasPoint(Cluster(blobs, threshold), p)
    decreases |blobs|
  {
    var pass := MergePass(blobs, threshold);
    MergePassCovers(blobs, threshold);
    if pass.count != 0 {
      ClusterCovers(pass.blobs, threshold);
      forall i, p | 0 <= i < |blobs| && p in blobs[i].laserPoints
        ensures HasPoint(Cluster(blobs, threshold), p)
      {
        assert HasPoint(pass.blobs, p);
        var j :| 0 <= j < |pass.blobs| && p in pass.blobs[j].laserPoints;
        assert p in pass.blobs[j].laserPoints;
      }
    }
  }

  /** Clustering valid blobs yields valid blobs. */
  lemma {:induction false} ClusterKeepsValid(blobs: seq<BlobValue>, threshold: real)
    requires forall i :: 0 <= i < |blobs| ==> Valid(blobs[i])
    ensures forall j :: 0 <= j < |Cluster(blobs, threshold)| ==> Valid(Cluster(blobs, threshold)[j])
    decreases |blobs|
  {
    MergePassKeepsValid(blobs, threshold);
    var pass := MergePass(blobs, threshold);
    if pass.count != 0 {
      ClusterKeepsValid(pass.blobs, threshold);
    }
  }

  /** A non-empty list never clusters to nothing: the first blob of a pass is always kept. */
  lemma {:induction false} ClusterNonEmpty(blobs: seq<BlobValue>, threshold: real)
    requires blobs != []
    ensures Cluster(blobs, threshold) != []
    decreases |blobs|
  {
    var pass := MergePass(blobs, threshold);
    PassNonEmpty(blobs, threshold);
    if pass.count != 0 {
      ClusterNonEmpty(pass.blobs, threshold);
    }
  }

  lemma {:induction false} PassNonEmpty(input: seq<BlobValue>, threshold: real)
    requires input != []
    ensures MergePass(input, threshold).blobs != []
  {
    var init := input[..|input| - 1];
    if init != [] {
      PassNonEmpty(init, threshold);
    }
  }

  /** Whether `lookupBlobs` turns a sample into a seed blob. */
  predicate Accepted(s: LidarScanPoint, toPlanar: LidarScanPoint -> Point2D, crop: BlobValue, filter: bool)
  {
    s.valid && (!filter || Contains(crop, toPlanar(s).x, toPlanar(s).y))
  }

  /**
   * The seed list of `lookupBlobs`: one single-point blob per valid sample
   * (and, when `filter` is set, whose planar point lies in the crop area).
   */
  function Seeds(scan: seq<LidarScanPoint>, toPlanar: LidarScanPoint -> Point2D, crop: BlobValue, filter: bool): (r: seq<BlobValue>)
    ensures |r| <= |scan|
    ensures forall i :: 0 <= i < |r| ==> Valid(r[i]) && |r[i].laserPoints| == 1
  {
    if scan == [] then []
    else
      var rest := Seeds(scan[..|scan| - 1], toPlanar, crop, filter);
      var s := scan[|scan| - 1];
      if Accepted(s, toPlanar, crop, filter) then rest + [Singleton(toPlanar(s))] else rest
  }

  /**
   * Seeding keeps scan order: the seeds of a scan are the seeds of its
   * first part followed by those of the rest, and a single sample seeds
   * its own single-point blob exactly when it is accepted.
   */
  lemma {:induction false} SeedsInScanOrder(a: seq<LidarScanPoint>, b: seq<LidarScanPoint>, toPlanar: LidarScanPoint -> Point2D, crop: BlobValue, filter: bool)
    ensures Seeds(a + b, toPlanar, crop, filter) == Seeds(a, toPlanar, crop, filter) + Seeds(b, toPlanar, crop, filter)
    ensures |b| == 1 ==>
      Seeds(b, toPlanar, crop, filter) == if Accepted(b[0], toPlanar, crop, filter) then [Singleton(toPlanar(b[0]))] else []
    decreases |b|
  {
    if b == [] {
      assert a + b == a;
    } else {
      var bInit := b[..|b| - 1];
      SeedsInScanOrder(a, bInit, toPlanar, crop, filter);
      assert (a + b)[..|a + b| - 1] == a + bInit;
      if |b| == 1 {
        assert bInit == [];
      }
    }
  }

  /** Whether `seed` is the single-point blob of some accepted sample of `scan`. */
  ghost predicate Seeded(scan: seq<LidarScanPoint>, seed: BlobValue, toPlanar: LidarScanPoint -> Point2D, crop: BlobValue, filter: bool)
  {
    exists i :: 0 <= i < |scan| && Accepted(scan[i], toPlanar, crop, filter) && seed == Singleton(toPlanar(scan[i]))
  }

  /** Every seed is the single-point blob of an accepted sample. */
  lemma {:induction false} SeedsAccepted(scan: seq<LidarScanPoint>, toPlanar: LidarScanPoint -> Point2D, crop: BlobValue, filter: bool)
    ensures forall k :: 0 <= k < |Seeds(scan, toPlanar, crop, filter)| ==> Seeded(scan, Seeds(scan, toPlanar, crop, filter)[k], toPlanar, crop, filter)
  {
    if scan != [] {
      var init := scan[..|scan| - 1];
      var last := |scan| - 1;
      SeedsAccepted(init, toPlanar, crop, filter);
      var rest := Seeds(init, toPlanar, crop, filter);
      var seeds := Seeds(scan, toPlanar, crop, filter);
      forall k | 0 <= k < |seeds|
        ensures Seeded(scan, seeds[k], toPlanar, crop, filter)
      {
        if k < |rest| {
          assert seeds[k] == rest[k];
          assert Seeded(init, rest[k], toPlanar, crop, filter);
          var i :| 0 <= i < |init| && Accepted(init[i], toPlanar, crop, filter) && rest[k] == Singleton(toPlanar(init[i]));
          assert scan[i] == init[i];
        } else {
          assert Accepted(scan[last], toPlanar, crop, filter) && seeds[k] == Singleton(toPlanar(scan[last]));
        }
      }
    }
  }

  /** Every accepted sample has its seed; in particular an invalid sample never does. */
  lemma {:induction false} SeedsComplete(scan: seq<LidarScanPoint>, toPlanar: LidarScanPoint -> Point2D, crop: BlobValue, filter: bool)
    ensures forall i :: 0 <= i < |scan| && Accepted(scan[i], toPlanar, crop, filter) ==>
      Singleton(toPlanar(scan[i])) in Seeds(scan, toPlanar, crop, filter)
  {
    if scan != [] {
      var init := scan[..|scan| - 1];
      SeedsComplete(init, toPlanar, crop, filter);
      forall i | 0 <= i < |init| ensures scan[i] == init[i] { }
    }
  }

  /** Number of valid samples in a scan. */
  function CountValid(scan: seq<LidarScanPoint>): nat
  {
    if scan == [] then 0 else CountValid(scan[..|scan| - 1]) + (if scan[|scan| - 1].valid then 1 else 0)
  }

  /**
   * Without the crop filter the crop area plays no part: every valid
   * sample seeds a blob, whatever the area.
   */
  lemma {:induction false} UnfilteredSeeds(scan: seq<LidarScanPoint>, toPlanar: LidarScanPoint -> Point2D, crop: BlobValue, other: BlobValue)
    ensures Seeds(scan, toPlanar, crop, false) == Seeds(scan, toPlanar, other, false)
    ensures |Seeds(scan, toPlanar, crop, false)| == CountValid(scan)
  {
    if scan != [] {
      UnfilteredSeeds(scan[..|scan| - 1], toPlanar, crop, other);
    }
  }

  /** No blob object occurs twice in `bs`. */
  predicate Distinct(bs: seq<Blob>)
  {
    forall j, k :: 0 <= j < k < |bs| ==> bs[j] != bs[k]
  }

  lemma DistinctAppend(bs: seq<Blob>, b: Blob)
    requires Distinct(bs) && b !in bs
    ensures Distinct(bs + [b])
  {
  }

  /** One more input blob extends a pass by one step. */
  lemma MergePassSnoc(prefix: seq<BlobValue>, b: BlobValue, threshold: real)
    ensures MergePass(prefix + [b], threshold) == Step(MergePass(prefix, threshold), b, threshold)
  {
    assert (prefix + [b])[..|prefix|] == prefix;
  }

  /**
   * The inner loop of `mergeBlobs`: every blob of `output` that `inputBlob`
   * is near is expanded by it; returns whether any was, and how many.
   */
  method AbsorbInto(output: seq<Blob>, inputBlob: Blob, threshold: real) returns (merged: bool, hits: nat)
    requires Distinct(output)
    requires inputBlob !in output
    modifies output
    ensures inputBlob.Value() == old(inputBlob.Value())
    ensures Values(output) == Absorb(old(Values(output)), inputBlob.Value(), threshold)
    ensures hits == Hits(old(Values(output)), inputBlob.Value(), threshold)
    ensures merged <==> hits > 0
  {
    ghost var before := Values(output);
    ghost var b := inputBlob.Value();
    merged := false;
    hits := 0;
    var k := 0;
    while k < |output|
      invariant 0 <= k <= |output| == |before|
      invariant inputBlob.Value() == b
      invariant forall j :: 0 <= j < k ==> output[j].Value() == Absorb(before, b, threshold)[j]
      invariant forall j :: k <= j < |output| ==> output[j].Value() == before[j]
      invariant hits == Hits(before[..k], b, threshold)
      invariant merged <==> hits > 0
    {
      assert before[..k + 1][..k] == before[..k];
      label Inner:
      if Near(inputBlob.Value(), output[k].Value(), threshold) {
        merged := true;
        output[k].Expand(inputBlob);
        hits := hits + 1;
      }
      forall j | 0 <= j < |output| && j != k
        ensures output[j].Value() == old@Inner(output[j].Value())
      {
        assert output[j] != output[k];
      }
      assert output[k].Value() == Absorb(before, b, threshold)[k];
      k := k + 1;
    }
    assert before[..k] == before;
  }

  /**
   * One step of the outer loop of `mergeBlobs`: `inputBlob` is absorbed by
   * the output blobs near it, or appended as a copy when there is none.
   */
  method MergeInputBlob(output: seq<Blob>, inputBlob: Blob, threshold: real, ghost prev: Pass) returns (next: seq<Blob>, hits: nat)
    requires Distinct(output) && inputBlob !in output
    requires Values(output) == prev.blobs
    modifies output
    ensures Distinct(next)
    ensures |output| <= |next| && next[..|output|] == output
    ensures forall j :: |output| <= j < |next| ==> fresh(next[j])
    ensures Values(next) == Step(prev, old(inputBlob.Value()), threshold).blobs
    ensures Step(prev, old(inputBlob.Value()), threshold).count == prev.count + hits
  {
    var merged;
    merged, hits := AbsorbInto(output, inputBlob, threshold);
    next := output;
    if !merged {
      HitsZeroIffFar(old(Values(output)), inputBlob.Value(), threshold);
      assert Values(output) == old(Values(output));
      var copy := new Blob.Copy(inputBlob);
      DistinctAppend(output, copy);
      next := output + [copy];
      assert Values(next) == Values(output) + [copy.Value()];
    }
  }

  /** `mergeBlobs`: one pass over `input` into a freshly cleared output list. */
  method MergeBlobs(input: seq<Blob>, threshold: real) returns (output: seq<Blob>, mergedBlobs: nat)
    ensures Values(output) == MergePass(Values(input), threshold).blobs
    ensures mergedBlobs == MergePass(Values(input), threshold).count
    ensures forall j :: 0 <= j < |output| ==> fresh(output[j])
  {
    ghost var inputValues := Values(input);
    ghost var pass := Pass([], 0);
    output := [];
    mergedBlobs := 0;
    var i := 0;
    while i < |input|
      invariant 0 <= i <= |input|
      invariant Values(input) == inputValues
      invariant forall j :: 0 <= j < |output| ==> fresh(output[j])
      invariant Distinct(output)
      invariant pass == MergePass(inputValues[..i], threshold)
      invariant Values(output) == pass.blobs && mergedBlobs == pass.count
    {
      assert inputValues[..i + 1] == inputValues[..i] + [inputValues[i]];
      MergePassSnoc(inputValues[..i], inputValues[i], threshold);
      var hits;
      ghost var before := output;
      output, hits := MergeInputBlob(output, input[i], threshold, pass);
      forall j | 0 <= j < |output|
        ensures fresh(output[j])
      {
        if j < |before| {
          assert output[j] == before[j];
        }
      }
      pass := Step(pass, inputValues[i], threshold);
      mergedBlobs := mergedBlobs + hits;
      i := i + 1;
    }
    assert inputValues[..i] == inputValues;
  }

  /**
   * `lookupBlobs`: seeds the list from the scan, then runs merge passes
   * until one returns 0; the result is the clustered seed list.
   */
  method LookupBlobs(scan: seq<LidarScanPoint>, toPlanar: LidarScanPoint -> Point2D, crop: BlobValue, filter: bool, threshold: real)
    returns (blobs: seq<Blob>)
    ensures Values(blobs) == Cluster(Seeds(scan, toPlanar, crop, filter), threshold)
  {
    var tmp: seq<Blob> := [];
    var i := 0;
    while i < |scan|
      invariant 0 <= i <= |scan|
      invariant forall j :: 0 <= j < |tmp| ==> fresh(tmp[j])
      invariant Values(tmp) == Seeds(scan[..i], toPlanar, crop, filter)
    {
      assert scan[..i + 1][..i] == scan[..i];
      var laserPoint := scan[i];
      if laserPoint.valid {
        var p := toPlanar(laserPoint);
        if !filter || Contains(crop, p.x, p.y) {
          var b := new Blob(p.x, p.y);
          tmp := tmp + [b];
        }
      }
      i := i + 1;
    }
    assert scan[..i] == scan;
    while true
      invariant Cluster(Values(tmp), threshold) == Cluster(Seeds(scan, toPlanar, crop, filter), threshold)
      decreases |tmp|
    {
      var merged;
      blobs, merged := MergeBlobs(tmp, threshold);
      if merged == 0 {
        return;
      }
      tmp := blobs;
    }
  }
}
