# Face expression webcam script: a Dafny model

The repository is one Python script, `main.py`. It reads webcam frames and passes each one,
with a manually kept timestamp, to a face-landmark engine. For every detected face it draws the
face-oval outline, and it classifies a coarse expression from six blendshape scores
(Neutral, Happy, Sad, Angry or Surprised). Each frame is written to a video file and shown
on screen, and the loop ends on a failed read or on the `q` key.

This project models the script's own logic and proves properties of it:

- `expression.dfy` (module `Expression`): the first-match-wins cascade of strict `> 0.5`
  tests. It is characterised label by label and checked against an independent ordered
  rule table. It also holds the caption `"You seem " + label + "!"` and the function that
  reads a label back from a caption.
- `blendshapes.dfy` (module `Blendshapes`): the `next(...)` lookups. Each returns the score
  of the first category with a given name, or 0 when no category has it. The six lookups
  combine into the classifier's input.
- `outline.dfy` (module `Outline`): the constant `FACE_OVAL` index list, Python's `int()`
  truncation toward zero, and the loop that collects one pixel point per index, in order.
  The loop is modelled as an imperative method.
- `mainloop.dfy` (module `MainLoop`): the frame duration `int(1000 / 30)`, the quit-key test
  `waitKey(1) & 0xFF == ord('q')`, and the per-frame annotation. It also holds the capture
  loop as an imperative method, proved equal to a specification function. The lemmas over
  that function cover the timestamps (N calls give N × 33, strictly increasing), that
  frames are written in read order, and why a run stops.
- `wrappers.dfy` (module `Wrappers`): the `Option` and `Result` datatypes.

The camera, the landmark engine and the key poll are not visible in the source. A run
therefore takes the sequence of what they deliver as its input, one `Capture` per loop
iteration: the frame and its size, the engine's detection result, and the key code polled
after the frame was shown. A capture can also be a failed read. The end of that sequence
stands for `cap.isOpened()` becoming false. For every frame, the run records the timestamp
it handed to the engine.

An out-of-range landmark index is an error, not an empty outline: at `main.py:67`,
`face_landmarks[idx]` with an index past the end of the landmark list raises `IndexError`,
which ends the script. The model returns `Failure(index)`, and the run stops with
`IndexError` without writing that frame. The `if points` guard can never be false:
`FACE_OVAL` has 36 entries, so a collection that succeeds always has 36 points.

## Model

| member | source | states |
|---|---|---|
| `Expression.Classify` | main.py:87-96 | Happy exactly when both smile scores exceed 0.5, whatever the other four are. Sad exactly when the smile test fails and frown > 0.5. Angry exactly when smile and frown fail and brow > 0.5. Surprised exactly when the first three fail and both jaw and eye exceed 0.5. Neutral exactly when none of the four tests holds. |
| `Expression.ClassifyIsFirstMatch` | main.py:88-96 | The cascade equals the first-match evaluation of the ordered rule table (smile L+R → Happy, frown → Sad, brow → Angry, jaw+eye → Surprised, otherwise Neutral). |
| `Expression.AtMostThresholdIsNeutral` | main.py:88-96 | The thresholds are strict: when all six scores are ≤ 0.5 (all exactly 0.5, or all zero) the label is Neutral. |
| `Expression.Caption` | main.py:99 | The caption text: "You seem ", the label's name, then "!". Its contract lives in `ParseCaptionRoundTrip` and `CaptionInjective`. |
| `Expression.ParseCaptionRoundTrip` | main.py:99 | The caption "You seem <label>!" parses back to its label. |
| `Expression.CaptionInjective` | main.py:99 | Different labels give different captions. |
| `Blendshapes.Lookup` | main.py:80-85 | One `next(...)` lookup: a scan for a category name, with default 0. Its contract is `LookupFirstNamed`, `LookupIgnoresLater` and `LookupSkipsOthers`. |
| `Blendshapes.LookupFirstNamed` | main.py:80-85 | The lookup returns the score of the first entry with the name, and 0 when no entry has the name. |
| `Blendshapes.LookupIgnoresLater` | main.py:80-85 | Once the name occurs in a prefix, appending any entries (later duplicates included) does not change the result. |
| `Blendshapes.LookupSkipsOthers` | main.py:80-85 | A prefix that lacks the name is skipped: the result is the lookup in what follows. |
| `Blendshapes.ExtractScores` | main.py:80-85 | The six lookups by the names mouthSmileLeft, mouthSmileRight, mouthFrownLeft, browDownLeft, jawOpen and eyeWideLeft give the classifier's six scores. Its contract is `UnnamedCategoriesAreNeutral` and `FirstSmileDecides`. |
| `Blendshapes.UnnamedCategoriesAreNeutral` | main.py:80-96 | When none of the six category names occurs, every score defaults to 0 and the label is Neutral. |
| `Blendshapes.FirstSmileDecides` | main.py:80-90 | When the first `mouthSmileLeft` and first `mouthSmileRight` entries both exceed 0.5, the label is Happy whatever entries follow. |
| `Outline.Truncate` | main.py:68-69 | `int()` of a number drops its fraction toward zero: for r ≥ 0 the result n satisfies n ≤ r < n+1, and for r < 0 it satisfies n-1 < r ≤ n. |
| `Outline.Denormalize` | main.py:68-69 | A landmark's pixel point: x times the width and y times the height, each cut toward zero. For a non-negative product the coordinate is its floor, and for a negative one its ceiling. |
| `Outline.OutlinePoints` | main.py:65-70 | The point list of the index list, or failure at an out-of-range index. Its contract is `OutlineShape`. |
| `Outline.OutlineShape` | main.py:65-70 | The collection succeeds exactly when every index is a landmark index. It then has one point per index, and point k comes from landmark indices[k]. Otherwise it fails with the first out-of-range index. |
| `Outline.FaceOvalLength` | main.py:14-15 | FACE_OVAL has 36 entries. |
| `Outline.FaceOvalBound` | main.py:14-15 | Every FACE_OVAL index is below 455, so any list of 455 or more landmarks covers it. |
| `Outline.CollectPoints` | main.py:65-70 | The loop returns what `OutlinePoints` specifies: success exactly when all indices are in range, with one point per index in order, and otherwise failure at the first out-of-range index. |
| `MainLoop.FrameDuration` | main.py:44 | `int(1000 / fps)` is the d with d·fps ≤ 1000 < (d+1)·fps. |
| `MainLoop.FrameTimeIs33` | main.py:36-44 | At 30 fps the frame duration is 33 ms. |
| `MainLoop.QuitPressed` | main.py:108 | The "no key" code -1 never quits. For a code in 0..255, quitting happens exactly on `q`. |
| `MainLoop.Annotate` | main.py:60-99 | What one frame gets drawn: nothing without a face, else the first face's outline and, with blendshapes, its expression. Its contract is `AnnotateCases`. |
| `MainLoop.AnnotateCases` | main.py:60-99 | No face gives a bare frame. With a face, annotation succeeds exactly when its landmarks cover FACE_OVAL, and the polygon is then always drawn, with 36 points in FACE_OVAL order. A caption appears exactly when a face came with blendshapes, and it names the classified expression. |
| `MainLoop.AnnotateFrame` | main.py:60-99 | The imperative frame body (collect points, test `if points`, classify when blendshapes exist) computes the specified annotation. |
| `MainLoop.Resume` | main.py:46-109 | The loop from read i with the state reached so far: a failed read, an IndexError, `q` or the stream's end stops it. Otherwise the annotated frame is written and the loop goes on. Its contract is `ResumeTimestamps`, `ResumeInOrder` and `ResumeStops`. |
| `MainLoop.RunOf` | main.py:43-109 | The whole run from timestamp 0. Its contract is `RunTimestamps` and `RunWrites`. |
| `MainLoop.ResumeTimestamps` | main.py:43-57 | From any loop state where the k-th engine call got k·33, every later call also gets k·33, and the timestamp stays one frame past the last call. Every processed frame makes exactly one call: one per written frame, plus one for the frame that raised IndexError, and none for a failed read. |
| `MainLoop.RunTimestamps` | main.py:43-57 | The number of engine calls is the number of written frames, plus one when the run stopped on IndexError. After N calls the timestamp is N·33. Call k got k·33, with or without a face, and each value is strictly greater than the one before. |
| `MainLoop.WrittenExtends` | main.py:102 | Writing the next read's annotated frame keeps output frame k equal to read k. |
| `MainLoop.ResumeInOrder` | main.py:46-109 | Every written frame is the frame read at the same position, with its own annotation. |
| `MainLoop.ResumeStops` | main.py:46-109 | Why the loop stopped: a failed read right after the last written frame, an IndexError on the next frame, `q` on the last written frame, or the end of the stream with all frames written. |
| `MainLoop.RunWrites` | main.py:46-109 | For a whole run, written frames are in read order with their annotations, and the stop reason is one of the four above. |
| `MainLoop.SmilingFaceIsHappy` | main.py:60-96 | A 478-landmark face with both smiles at 0.8 gets its 36-point polygon and the label Happy. |
| `MainLoop.FiveFrameRun` | main.py:43-109 | In a 5-frame stream where only frame 3 smiles, all 5 frames are written in order. Only frame 3 has the outline and "You seem Happy!", and the engine sees timestamps 0, 33, 66, 99, 132. |
| `MainLoop.Run` | main.py:43-109 | The imperative loop computes the specified run from timestamp 0. Engine call k gets k·33, and the final timestamp is 33 times the number of calls. |

## Left out

- Camera capture (`VideoCapture`, `isOpened`, `read`, `get` of the frame size) is device I/O. Reads are an input sequence, and its end stands for the camera closing.
- The startup failure path (`print` and `exit()` when the camera cannot be opened) is process control, not modelled.
- Loading the landmark model and `detect_for_video` inference are a foreign library. Each capture carries the engine's result. The model records which timestamp was handed over, but cannot express how the result depends on it.
- BGR→RGB conversion, `cv2.polylines`, `cv2.putText` (font, colour and position), the video writer, `imshow`, `destroyAllWindows` and the resource releases are library calls and GUI. The model keeps only what is drawn: the polygon's points and the caption's label, whose text is `CaptionText`.
- Frame pixels are left abstract as the type parameter `Image`.
- Python floats are modelled as exact reals, so float rounding is not modelled. This affects only the products `lm.x * frame.shape[1]` and `lm.y * frame.shape[0]`, and reals have no NaN. The comparisons against 0.5 are exact in floating point too. `int(1000 / fps)` is modelled as integer division, which matches for positive rates.
- The anatomical meaning of the FACE_OVAL indices and the engine's promise of normalised coordinates are not verifiable from the source.
- An `IndexError` ends the script without releasing resources. The model ends the run with the `IndexError` stop reason and does not model what happens after that.
- MainLoop.QuitPressed: its contract covers only the "no key" code -1 and the codes 0..255. For other codes, only the low byte counts (Python's `& 0xFF` is the same as `% 256` on every integer), and that is stated by the body, not the contract.
