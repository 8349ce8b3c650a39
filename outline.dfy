/**
  The face-outline polygon of main.py: one pixel point per entry of the fixed
  index list FACE_OVAL, taken from the detected landmarks in list order.
 */
module Outline {
  import opened Wrappers

  /** The silhouette's landmark indices, in the order the polygon visits them. */
  const FaceOval: seq<nat> := [
    10, 338, 297, 332, 284, 251, 389, 356, 454, 323, 361, 288, 397, 365, 379, 378, 400,
    377, 152, 148, 176, 149, 150, 136, 172, 58, 132, 93, 234, 127, 162, 21, 54, 103, 67, 109
  ]

  /** A landmark in coordinates normalised to the frame's width and height. */
  datatype Landmark = Landmark(x: real, y: real)

  /** A point in pixel coordinates. */
  datatype Point = Point(x: int, y: int)

  /** Conversion of a number to an integer by dropping its fraction (toward zero). */
  function Truncate(r: real): (n: int)
    ensures 0.0 <= r ==> 0 <= n && n as real <= r < n as real + 1.0
    ensures r < 0.0 ==> n <= 0 && n as real - 1.0 < r <= n as real
  {
    if r >= 0.0 then r.Floor else -((-r).Floor)
  }

  /**
    One landmark scaled to the frame, x by its width and y by its height, each
    product cut to an integer toward zero.
   */
  function Denormalize(lm: Landmark, width: nat, height: nat): (p: Point)
    ensures var sx := lm.x * width as real; var sy := lm.y * height as real;
      (sx >= 0.0 ==> p.x as real <= sx < p.x as real + 1.0)
      && (sx < 0.0 ==> p.x as real - 1.0 < sx <= p.x as real)
      && (sy >= 0.0 ==> p.y as real <= sy < p.y as real + 1.0)
      && (sy < 0.0 ==> p.y as real - 1.0 < sy <= p.y as real)
  {
    Point(Truncate(lm.x * width as real), Truncate(lm.y * height as real))
  }

  predicate InRange(indices: seq<nat>, count: nat) {
    forall k :: 0 <= k < |indices| ==> indices[k] < count
  }

  /** Position k holds the first index that is not a valid landmark index. */
  predicate IsFirstOutOfRange(indices: seq<nat>, count: nat, k: int) {
    0 <= k < |indices| && indices[k] >= count
    && forall j :: 0 <= j < k ==> indices[j] < count
  }

  /**
    The points of `indices`, in order; indexing past the end of the landmark list
    fails with the offending landmark index.
   */
  function OutlinePoints(indices: seq<nat>, landmarks: seq<Landmark>, width: nat, height: nat)
    : Result<seq<Point>, nat>
  {
    if indices == [] then Success([])
    else if indices[0] >= |landmarks| then Failure(indices[0])
    else
      match OutlinePoints(indices[1..], landmarks, width, height)
      case Success(rest) =>
        Success([Denormalize(landmarks[indices[0]], width, height)] + rest)
      case Failure(index) => Failure(index)
  }

  /**
    The outline succeeds exactly when every index is a landmark index; it then
    has one point per index, point k coming from landmark indices[k]; otherwise
    it reports the first index that is out of range.
   */
  lemma {:induction false} OutlineShape(indices: seq<nat>, landmarks: seq<Landmark>, width: nat, height: nat)
    ensures OutlinePoints(indices, landmarks, width, height).Success? <==> InRange(indices, |landmarks|)
    ensures OutlinePoints(indices, landmarks, width, height).Success? ==>
      var points := OutlinePoints(indices, landmarks, width, height).value;
      |points| == |indices|
      && forall k :: 0 <= k < |indices| ==>
           points[k] == Denormalize(landmarks[indices[k]], width, height)
    ensures forall k :: IsFirstOutOfRange(indices, |landmarks|, k) ==>
      OutlinePoints(indices, landmarks, width, height) == Failure(indices[k])
  {
    if indices != [] {
      var tail := indices[1..];
      OutlineShape(tail, landmarks, width, height);
      assert InRange(indices, |landmarks|) <==> indices[0] < |landmarks| && InRange(tail, |landmarks|);
      forall k | IsFirstOutOfRange(indices, |landmarks|, k)
        ensures OutlinePoints(indices, landmarks, width, height) == Failure(indices[k])
      {
        if k > 0 {
          assert IsFirstOutOfRange(tail, |landmarks|, k - 1);
        }
      }
    }
  }

  /**
    Every silhouette index is below 455, so any landmark list of at least 455
    entries (the landmark engine reports 478) covers it.
   */
  lemma FaceOvalBound()
    ensures forall k :: 0 <= k < |FaceOval| ==> FaceOval[k] < 455
  {
  }

  /** The silhouette has 36 points, so a successful outline is never empty. */
  lemma FaceOvalLength()
    ensures |FaceOval| == 36
  {
  }

  /**
    The loop that collects the polygon's points from the first face's landmarks,
    visiting `indices` in order (main.py passes FaceOval).
   */
  method CollectPoints(indices: seq<nat>, landmarks: seq<Landmark>, width: nat, height: nat)
    returns (r: Result<seq<Point>, nat>)
    ensures r == OutlinePoints(indices, landmarks, width, height)
    ensures r.Success? <==> InRange(indices, |landmarks|)
    ensures r.Success? ==>
      |r.value| == |indices|
      && forall k :: 0 <= k < |indices| ==>
           r.value[k] == Denormalize(landmarks[indices[k]], width, height)
    ensures forall k :: IsFirstOutOfRange(indices, |landmarks|, k) ==> r == Failure(indices[k])
  {
    OutlineShape(indices, landmarks, width, height);
    var points: seq<Point> := [];
    var k := 0;
    while k < |indices|
      invariant 0 <= k <= |indices|
      invariant forall j :: 0 <= j < k ==> indices[j] < |landmarks|
      invariant |points| == k
      invariant forall j :: 0 <= j < k ==>
        points[j] == Denormalize(landmarks[indices[j]], width, height)
    {
      var index := indices[k];
      if index >= |landmarks| {
        assert IsFirstOutOfRange(indices, |landmarks|, k);
        assert OutlinePoints(indices, landmarks, width, height) == Failure(index);
        return Failure(index);
      }
      points := points + [Denormalize(landmarks[index], width, height)];
      k := k + 1;
    }
    ghost var spec := OutlinePoints(indices, landmarks, width, height);
    assert spec.Success? && |spec.value| == |points|;
    assert forall j :: 0 <= j < |points| ==> spec.value[j] == points[j];
    assert spec.value == points;
    r := Success(points);
  }
}
