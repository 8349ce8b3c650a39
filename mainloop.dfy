/**
  The capture loop of main.py: per frame, hand the current timestamp to the
  landmark engine, advance the timestamp by one frame duration, annotate the
  frame from the engine's result, write it out, and stop on a failed read or
  on the `q` key.

  The camera, the landmark engine and the key poll are outside the model: a
  run is given the sequence of what they deliver, one `Capture` per loop
  iteration, and the end of that sequence stands for the camera closing.
 */
module MainLoop {
  import opened Wrappers
  import opened Expression
  import opened Blendshapes
  import opened Outline

  /** The frame rate the script assumes for its timestamps and its output video. */
  const Fps: nat := 30

  /** Integer milliseconds per frame at `fps` frames per second, rounded down. */
  function FrameDuration(fps: nat): (d: nat)
    requires fps > 0
    ensures d * fps <= 1000 < (d + 1) * fps
  {
    1000 / fps
  }

  /** The timestamp increment of every loop iteration. */
  const FrameTimeMs: nat := FrameDuration(Fps)

  lemma FrameTimeIs33()
    ensures FrameTimeMs == 33
  {
  }

  /**
    Whether the key code read after showing a frame asks to quit: its low byte is
    the character `q`. The key poll reports -1 when no key was pressed.
   */
  function QuitPressed(key: int): (quit: bool)
    ensures key == -1 ==> !quit
    ensures 0 <= key < 256 ==> (quit <==> key == 'q' as int)
  {
    key % 256 == 'q' as int
  }

  /** What the landmark engine returns for one frame: per face, landmarks and blendshapes. */
  datatype Detection = Detection(faceLandmarks: seq<seq<Landmark>>, faceBlendshapes: seq<seq<Category>>)

  /**
    What is drawn on a frame, each part possibly absent: the outline polygon, and
    the expression whose caption is written at the top left.
   */
  datatype Annotation = Annotation(polygon: Option<seq<Point>>, expression: Option<Label>)

  const Bare: Annotation := Annotation(None, None)

  /** The text drawn on an annotated frame, if any. */
  function CaptionText(a: Annotation): Option<string> {
    match a.expression
    case None => None
    case Some(l) => Some(Caption(l))
  }

  /**
    One read from the camera: a frame with its size, the engine's result for it
    and the key code polled after it was shown; or a failed read.
   */
  datatype Capture<Image> =
    | Captured(image: Image, width: nat, height: nat, detection: Detection, key: int)
    | ReadFailed

  /** A frame as it is written to the output video. */
  datatype Written<Image> = Written(image: Image, annotation: Annotation)

  /** Why the loop ended; an out-of-range landmark index ends the script with an error. */
  datatype StopReason = StreamClosed | ReadError | QuitKey | IndexError(index: nat)

  /**
    The observable effect of a run: the frames written, the timestamps handed to
    the landmark engine, the final timestamp and why it stopped.
   */
  datatype Session<Image> =
    Session(written: seq<Written<Image>>, detectCalls: seq<int>, timestampMs: int, stop: StopReason)

  /**
    The annotation of one frame. Without a face the frame is left bare; with one,
    the outline of the first face is drawn when it has points, and the caption of
    the first face's expression is added when blendshapes came with it.
   */
  function Annotate(d: Detection, width: nat, height: nat): Result<Annotation, nat> {
    if |d.faceLandmarks| == 0 then Success(Bare)
    else
      match OutlinePoints(FaceOval, d.faceLandmarks[0], width, height)
      case Failure(index) => Failure(index)
      case Success(points) =>
        var polygon := if |points| > 0 then Some(points) else None;
        var expression :=
          if |d.faceBlendshapes| > 0 then Some(Classify(ExtractScores(d.faceBlendshapes[0]))) else None;
        Success(Annotation(polygon, expression))
  }

  /**
    The per-frame decision: no face gives a bare frame; a face whose landmarks
    cover FaceOval always gets its 36-point polygon (the emptiness guard never
    fails); a caption is drawn exactly when a face came with blendshapes, and it
    names the classified expression.
   */
  lemma AnnotateCases(d: Detection, width: nat, height: nat)
    ensures |d.faceLandmarks| == 0 ==> Annotate(d, width, height) == Success(Bare)
    ensures |d.faceLandmarks| > 0 ==>
      (Annotate(d, width, height).Success? <==> InRange(FaceOval, |d.faceLandmarks[0]|))
    ensures Annotate(d, width, height).Success? && |d.faceLandmarks| > 0 ==>
      var a := Annotate(d, width, height).value;
      a.polygon.Some? && |a.polygon.value| == 36
      && forall k :: 0 <= k < 36 ==>
           a.polygon.value[k] == Denormalize(d.faceLandmarks[0][FaceOval[k]], width, height)
    ensures Annotate(d, width, height).Success? ==>
      var a := Annotate(d, width, height).value;
      (CaptionText(a).Some? <==> |d.faceLandmarks| > 0 && |d.faceBlendshapes| > 0)
      && (CaptionText(a).Some? ==>
            CaptionText(a).value == Caption(Classify(ExtractScores(d.faceBlendshapes[0]))))
  {
    if |d.faceLandmarks| > 0 {
      OutlineShape(FaceOval, d.faceLandmarks[0], width, height);
      FaceOvalLength();
    }
  }

  /**
    The loop resumed at read `i` of `stream`, with the frames written, the
    engine calls made and the timestamp reached by the first `i` iterations.
   */
  function Resume<Image>(stream: seq<Capture<Image>>, i: nat, written: seq<Written<Image>>,
                         calls: seq<int>, timestampMs: int): Session<Image>
    decreases |stream| - i
  {
    if i >= |stream| then Session(written, calls, timestampMs, StreamClosed)
    else
      match stream[i]
      case ReadFailed => Session(written, calls, timestampMs, ReadError)
      case Captured(image, width, height, detection, key) =>
        var calls' := calls + [timestampMs];
        var next := timestampMs + FrameTimeMs;
        match Annotate(detection, width, height)
        case Failure(index) => Session(written, calls', next, IndexError(index))
        case Success(annotation) =>
          var written' := written + [Written(image, annotation)];
          if QuitPressed(key) then Session(written', calls', next, QuitKey)
          else Resume(stream, i + 1, written', calls', next)
  }

  /** The whole run of the loop over `stream`: nothing written yet, timestamp 0. */
  function RunOf<Image>(stream: seq<Capture<Image>>): Session<Image> {
    Resume(stream, 0, [], [], 0)
  }

  /**
    The timestamp bookkeeping: if the k-th engine call so far got k frame
    durations, so does every later one, detections or not; the timestamp is
    always one duration past the last call; and every frame the loop processes
    makes exactly one call: each written frame, plus the frame whose outline
    raised the index error, and no failed read.
   */
  lemma {:induction false} ResumeTimestamps<Image>(stream: seq<Capture<Image>>, i: nat,
      written: seq<Written<Image>>, calls: seq<int>, timestampMs: int)
    requires |written| == |calls| == i <= |stream|
    requires forall k :: 0 <= k < |calls| ==> calls[k] == k * FrameTimeMs
    requires timestampMs == |calls| * FrameTimeMs
    ensures var s := Resume(stream, i, written, calls, timestampMs);
      |s.detectCalls| == |s.written| + (if s.stop.IndexError? then 1 else 0) <= |stream|
      && s.timestampMs == |s.detectCalls| * FrameTimeMs
      && forall k :: 0 <= k < |s.detectCalls| ==> s.detectCalls[k] == k * FrameTimeMs
    decreases |stream| - i
  {
    if i < |stream| && stream[i].Captured? {
      var c := stream[i];
      var calls' := calls + [timestampMs];
      assert forall k :: 0 <= k < |calls'| ==> calls'[k] == k * FrameTimeMs;
      match Annotate(c.detection, c.width, c.height)
      case Failure(_) =>
      case Success(annotation) =>
        if !QuitPressed(c.key) {
          ResumeTimestamps(stream, i + 1, written + [Written(c.image, annotation)], calls',
                           timestampMs + FrameTimeMs);
        }
    }
  }

  /**
    The engine is called once per processed frame: once per written frame, and
    once more when the run stops on an index error. After N engine calls the
    timestamp is N * 33, and the values handed to the
    landmark engine are 0, 33, 66, ..., so each is strictly greater than the one
    before.
   */
  lemma RunTimestamps<Image>(stream: seq<Capture<Image>>)
    ensures var s := RunOf(stream);
      |s.detectCalls| == |s.written| + (if s.stop.IndexError? then 1 else 0) <= |stream|
      && s.timestampMs == |s.detectCalls| * 33
      && (forall k :: 0 <= k < |s.detectCalls| ==> s.detectCalls[k] == k * 33)
      && forall j, k :: 0 <= j < k < |s.detectCalls| ==> s.detectCalls[j] < s.detectCalls[k]
  {
    ResumeTimestamps(stream, 0, [], [], 0);
    FrameTimeIs33();
  }

  /** Frame k of `written` is read k of `stream`, with its own annotation. */
  ghost predicate WrittenInOrder<Image>(stream: seq<Capture<Image>>, written: seq<Written<Image>>) {
    |written| <= |stream|
    && forall k :: 0 <= k < |written| ==>
         stream[k].Captured? && written[k].image == stream[k].image
         && Annotate(stream[k].detection, stream[k].width, stream[k].height)
            == Success(written[k].annotation)
  }

  /** Reads before `n` were all frames without the quit key. */
  predicate RanOn<Image>(stream: seq<Capture<Image>>, n: int) {
    forall k :: 0 <= k < n && k < |stream| ==> stream[k].Captured? && !QuitPressed(stream[k].key)
  }

  /** Writing the next read's frame with its annotation keeps the order. */
  lemma WrittenExtends<Image>(stream: seq<Capture<Image>>, written: seq<Written<Image>>, annotation: Annotation)
    requires WrittenInOrder(stream, written) && |written| < |stream|
    requires stream[|written|].Captured?
    requires Annotate(stream[|written|].detection, stream[|written|].width, stream[|written|].height)
             == Success(annotation)
    ensures WrittenInOrder(stream, written + [Written(stream[|written|].image, annotation)])
  {
    var written' := written + [Written(stream[|written|].image, annotation)];
    forall k | 0 <= k < |written'|
      ensures stream[k].Captured? && written'[k].image == stream[k].image
        && Annotate(stream[k].detection, stream[k].width, stream[k].height)
           == Success(written'[k].annotation)
    {
      if k < |written| { assert written'[k] == written[k]; }
    }
  }

  /** Each written frame is the frame read at the same position, with its own annotation. */
  lemma {:induction false} ResumeInOrder<Image>(stream: seq<Capture<Image>>, i: nat,
      written: seq<Written<Image>>, calls: seq<int>, timestampMs: int)
    requires |written| == i <= |stream|
    requires WrittenInOrder(stream, written)
    ensures WrittenInOrder(stream, Resume(stream, i, written, calls, timestampMs).written)
    decreases |stream| - i
  {
    if i < |stream| && stream[i].Captured? {
      var c := stream[i];
      match Annotate(c.detection, c.width, c.height)
      case Failure(_) =>
      case Success(annotation) =>
        WrittenExtends(stream, written, annotation);
        if !QuitPressed(c.key) {
          ResumeInOrder(stream, i + 1, written + [Written(c.image, annotation)],
                        calls + [timestampMs], timestampMs + FrameTimeMs);
        }
    }
  }

  /**
    The reason the loop stopped can be read off the frames: a failed read right
    after the last written frame, an out-of-range landmark index on the frame
    after it, the quit key on the last written frame, or the end of the stream
    with every frame written; every read before that was a frame without the
    quit key.
   */
  lemma {:induction false} ResumeStops<Image>(stream: seq<Capture<Image>>, i: nat,
      written: seq<Written<Image>>, calls: seq<int>, timestampMs: int)
    requires |written| == i <= |stream|
    requires RanOn(stream, i)
    ensures var s := Resume(stream, i, written, calls, timestampMs); var n := |s.written|;
      n <= |stream|
      && (s.stop == ReadError ==> n < |stream| && stream[n].ReadFailed? && RanOn(stream, n))
      && (s.stop.IndexError? ==>
            n < |stream| && stream[n].Captured? && RanOn(stream, n)
            && Annotate(stream[n].detection, stream[n].width, stream[n].height)
               == Failure(s.stop.index))
      && (s.stop == QuitKey ==> 0 < n && stream[n - 1].Captured? && QuitPressed(stream[n - 1].key) && RanOn(stream, n - 1))
      && (s.stop == StreamClosed ==> n == |stream| && RanOn(stream, n))
    decreases |stream| - i
  {
    if i < |stream| && stream[i].Captured? {
      var c := stream[i];
      match Annotate(c.detection, c.width, c.height)
      case Failure(_) =>
      case Success(annotation) =>
        if !QuitPressed(c.key) {
          ResumeStops(stream, i + 1, written + [Written(c.image, annotation)],
                      calls + [timestampMs], timestampMs + FrameTimeMs);
        }
    }
  }

  /** The order and stop-reason properties of a whole run. */
  lemma RunWrites<Image>(stream: seq<Capture<Image>>)
    ensures var s := RunOf(stream); var n := |s.written|;
      WrittenInOrder(stream, s.written)
      && (s.stop == ReadError ==> n < |stream| && stream[n].ReadFailed? && RanOn(stream, n))
      && (s.stop.IndexError? ==>
            n < |stream| && stream[n].Captured? && RanOn(stream, n)
            && Annotate(stream[n].detection, stream[n].width, stream[n].height)
               == Failure(s.stop.index))
      && (s.stop == QuitKey ==> 0 < n && stream[n - 1].Captured? && QuitPressed(stream[n - 1].key) && RanOn(stream, n - 1))
      && (s.stop == StreamClosed ==> n == |stream| && RanOn(stream, n))
  {
    ResumeInOrder(stream, 0, [], [], 0);
    ResumeStops(stream, 0, [], [], 0);
  }

  /** A face of 478 landmarks smiling on both sides, as an example detection. */
  const SmilingFace: Detection :=
    Detection([seq(478, _ => Landmark(0.5, 0.5))],
              [[Category(MouthSmileLeftName, 0.8), Category(MouthSmileRightName, 0.8)]])

  /** An example stream of five 640x480 frames; only the third shows a face. */
  const FiveFrames: seq<Capture<int>> := [
    Captured(1, 640, 480, Detection([], []), -1), Captured(2, 640, 480, Detection([], []), -1),
    Captured(3, 640, 480, SmilingFace, -1),
    Captured(4, 640, 480, Detection([], []), -1), Captured(5, 640, 480, Detection([], []), -1)
  ]

  /** The smiling face gets its 36-point outline and is read as Happy. */
  lemma SmilingFaceIsHappy()
    ensures Annotate(SmilingFace, 640, 480).Success?
    ensures var a := Annotate(SmilingFace, 640, 480).value;
      a.polygon.Some? && |a.polygon.value| == 36 && a.expression == Some(Happy)
  {
    var smile := SmilingFace.faceBlendshapes[0];
    AnnotateCases(SmilingFace, 640, 480);
    FaceOvalBound();
    assert InRange(FaceOval, |SmilingFace.faceLandmarks[0]|);
    assert |MouthSmileLeftName| != |MouthSmileRightName|;
    assert smile[1..] == [Category(MouthSmileRightName, 0.8)];
    assert Lookup(smile, MouthSmileRightName) == 0.8;
    assert Classify(ExtractScores(smile)) == Happy;
  }

  /**
    A five-frame run in which only the third frame shows a face, smiling on both
    sides: every frame is written in order, only the third carries the outline
    and the caption "You seem Happy!", and the engine sees timestamps 0 to 132.
   */
  lemma FiveFrameRun()
    ensures var s := RunOf(FiveFrames);
      s.stop == StreamClosed && |s.written| == 5
      && (forall k :: 0 <= k < 5 ==> s.written[k].image == k + 1)
      && CaptionText(s.written[2].annotation) == Some("You seem Happy!")
      && s.written[2].annotation.polygon.Some? && |s.written[2].annotation.polygon.value| == 36
      && (forall k :: 0 <= k < 5 && k != 2 ==> s.written[k].annotation == Bare)
      && s.detectCalls == [0, 33, 66, 99, 132]
  {
    var s := RunOf(FiveFrames);
    AnnotateCases(Detection([], []), 640, 480);
    SmilingFaceIsHappy();
    RunWrites(FiveFrames);
    RunTimestamps(FiveFrames);
    assert |s.written| == 5;
    assert s.written[2].annotation == Annotate(SmilingFace, 640, 480).value;
    assert Caption(Happy) == "You seem Happy!";
    assert s.detectCalls == [0, 33, 66, 99, 132];
  }

  /**
    The body of one iteration after the engine call: collect the outline's points
    from the first face, then classify its blendshapes if there are any.
   */
  method AnnotateFrame(detection: Detection, width: nat, height: nat)
    returns (r: Result<Annotation, nat>)
    ensures r == Annotate(detection, width, height)
  {
    if |detection.faceLandmarks| == 0 {
      return Success(Bare);
    }
    var points := CollectPoints(FaceOval, detection.faceLandmarks[0], width, height);
    if points.Failure? {
      return Failure(points.error);
    }
    var polygon := if |points.value| > 0 then Some(points.value) else None;
    var expression := None;
    if |detection.faceBlendshapes| > 0 {
      var scores := ExtractScores(detection.faceBlendshapes[0]);
      expression := Some(Classify(scores));
    }
    r := Success(Annotation(polygon, expression));
  }

  /**
    The loop of main.py over the reads `stream`, starting from timestamp 0.
   */
  method Run<Image>(stream: seq<Capture<Image>>) returns (session: Session<Image>)
    ensures session == RunOf(stream)
    ensures |session.written| <= |session.detectCalls| <= |stream|
    ensures forall k :: 0 <= k < |session.detectCalls| ==> session.detectCalls[k] == k * FrameTimeMs
    ensures session.timestampMs == |session.detectCalls| * FrameTimeMs
  {
    var written: seq<Written<Image>> := [];
    var calls: seq<int> := [];
    var timestampMs := 0;
    var i := 0;
    while i < |stream|
      invariant 0 <= i <= |stream|
      invariant |written| == |calls| == i
      invariant timestampMs == i * FrameTimeMs
      invariant forall k :: 0 <= k < i ==> calls[k] == k * FrameTimeMs
      invariant Resume(stream, i, written, calls, timestampMs) == RunOf(stream)
    {
      var capture := stream[i];
      if capture.ReadFailed? {
        return Session(written, calls, timestampMs, ReadError);
      }
      // The landmark engine is called with the current timestamp, which then advances.
      calls := calls + [timestampMs];
      timestampMs := timestampMs + FrameTimeMs;
      var annotated := AnnotateFrame(capture.detection, capture.width, capture.height);
      if annotated.Failure? {
        return Session(written, calls, timestampMs, IndexError(annotated.error));
      }
      written := written + [Written(capture.image, annotated.value)];
      if QuitPressed(capture.key) {
        return Session(written, calls, timestampMs, QuitKey);
      }
      i := i + 1;
    }
    session := Session(written, calls, timestampMs, StreamClosed);
  }
}
