# ESW pose detection: a verified model of the pose pipeline core

This project models in Dafny the core of an Android posture-monitoring app and its offline posture tool, and proves properties of the model:

- **PoseEngine** (`nv21.dfy`, `pose_engine.dfy`).
  - The NV21 crop-and-resize clamps the region of interest and nearest-samples the frame. It writes `dstW*dstH*3` floats into an array, row by row, as R, G, B.
  - HRNet decoding takes the argmax of each of the 17 heatmap channels. It maps the winning cell centre back into the region and the image.
  - The engine loads its models lazily.
- **FrameAnalyzer and the pose overlay** (`frame_analyzer.dfy`, `pose_overlay.dfy`).
  - Each camera frame tries the native QIDK path, then the TensorFlow Lite HRNet engine (created on first use), then ML Kit.
  - The COCO-to-landmark table maps keypoints to landmark ids.
  - The overlay does fit-centre letterboxing and front-camera mirroring. It shows only points and edges whose score is above 0.4.
- **The native QIDK backend** (`qidk_backend.dfy`).
  - Init runs once, behind a flag.
  - The per-frame pipeline picks the most confident person box and copies the confident keypoints into bounded output arrays. An empty detection list resets the retained pose and the timer.
  - The integer posture score and its label come from shoulder, spine and neck penalties.
- **The rule-based posture corrector** (`posture_corrector.dfy`).
  - It picks the body side from ear confidence and requires ear, shoulder, hip, knee and ankle on that side.
  - It classifies the neck, back and leg angles against a fixed min/max table.

Modelling conventions:

- Floats are `real`. Kotlin `toInt()` and the C++ `(int)` cast truncate toward zero (`Common.ToInt`).
- Collaborators whose code is not part of this model become parameters: the heatmap the interpreter produces, the detector and pose-estimator outputs, `yuv420ToNV21`, `rotateKeypoints`, the QIDK result, model-file loading, the clock, and the trigonometric angle functions.
- The ML Kit landmark constants are a supplied sequence of 17 distinct ints.
- The two copies of `qidk_backend.cpp` are byte-identical; module `Qidk` models both.

## Model

| member | source | states |
|---|---|---|
| Common.Clamp01 | Application/app/src/main/java/com/example/eswproject/PoseEngine.kt:127-129 | `coerceIn(0,1)` gives a value in [0,1]: 0 below 0, 1 above 1, and values already in [0,1] unchanged |
| Common.ToInt | Application/app/src/main/java/com/example/eswproject/PoseEngine.kt:107-111 | truncation toward zero: the floor for non-negative values, the ceiling for negative ones |
| Nv21.ClampRoi | Application/app/src/main/java/com/example/eswproject/PoseEngine.kt:96-103 | the clamped region satisfies `0 <= left <= srcW-1`, `left+1 <= right <= srcW` and the same for top/bottom; an in-frame region is kept |
| Nv21.SampleIndex | Application/app/src/main/java/com/example/eswproject/PoseEngine.kt:106-111 | the sample index is in `[0, src)`, and it is the pixel containing the sample point when that point is in the frame |
| Nv21.Nv21ReadsInBounds | Application/app/src/main/java/com/example/eswproject/PoseEngine.kt:92-117 | for an even frame, the Y read is in the luma plane; the V read is at an even offset after the luma plane; the U read (V+1) is below `w*h*3/2` |
| Nv21.YuvToRgb | Application/app/src/main/java/com/example/eswproject/PoseEngine.kt:119-129 | every channel of the converted colour is in [0,1] |
| Nv21.NeutralChromaIsGrey | Application/app/src/main/java/com/example/eswproject/PoseEngine.kt:120-129 | with U = V = 128, the colour is the grey `y/255` on all three channels |
| Nv21.Plan | Application/app/src/main/java/com/example/eswproject/PoseEngine.kt:105-111 | there are `dstH` row samples and `dstW` column samples, all inside a valid frame |
| Nv21.PlanSamples | Application/app/src/main/java/com/example/eswproject/PoseEngine.kt:106-111 | row j samples at `top + (j+0.5)*(roiH/dstH)` and column i at `left + (i+0.5)*(roiW/dstW)` |
| Nv21.RowShape | Application/app/src/main/java/com/example/eswproject/PoseEngine.kt:109-134 | a row of n pixels is 3n floats in [0,1]; float `3i+c` is channel c of pixel i |
| Nv21.RowsShape | Application/app/src/main/java/com/example/eswproject/PoseEngine.kt:105-135 | m rows are `m*dstW*3` floats, all in [0,1] |
| Nv21.RowsPrefix | Application/app/src/main/java/com/example/eswproject/PoseEngine.kt:105-135 | the output of fewer rows is a prefix of the output of more rows (write order) |
| Nv21.TensorAt | Application/app/src/main/java/com/example/eswproject/PoseEngine.kt:105-135 | float `(j*dstW+i)*3+c` is channel c (R, G, B) of destination pixel (i, j) |
| Nv21.PutRgb | Application/app/src/main/java/com/example/eswproject/PoseEngine.kt:131-133 | three puts append r, g, b after the current position; what was written before and every float after `pos+3` are unchanged |
| Nv21.SamplePixel | Application/app/src/main/java/com/example/eswproject/PoseEngine.kt:110-129 | the colour computed for (i, j) is the pixel at the planned samples |
| Nv21.AppendPixel | Application/app/src/main/java/com/example/eswproject/PoseEngine.kt:110-133 | one inner iteration extends the row written so far by one pixel and leaves the rest of the buffer unchanged |
| Nv21.FillRow | Application/app/src/main/java/com/example/eswproject/PoseEngine.kt:109-134 | the inner loop writes exactly row j after what came before; the floats after the row are unchanged |
| Nv21.FillNextRow | Application/app/src/main/java/com/example/eswproject/PoseEngine.kt:105-134 | one outer iteration extends the output from j rows to j+1 rows; the floats after row j are unchanged |
| Nv21.FillRows | Application/app/src/main/java/com/example/eswproject/PoseEngine.kt:105-135 | the double loop fills the buffer with exactly the planned tensor |
| Nv21.CropResizeToRgbFloat | Application/app/src/main/java/com/example/eswproject/PoseEngine.kt:82-137 | for a valid NV21 frame, the buffer holds the resample of the clamped region: `dstW*dstH*3` floats in [0,1] |
| Pose.ArgmaxPrefixSpec | Application/app/src/main/java/com/example/eswproject/PoseEngine.kt:62-71 | after t row-major cells: the best is at least every value seen; if above -1 it is attained at the earliest maximal cell; otherwise the cell stays (0,0) |
| Pose.ChannelArgmaxSpec | Application/app/src/main/java/com/example/eswproject/PoseEngine.kt:62-71 | per channel: the chosen cell holds the maximum; ties go to the first cell in v-outer, u-inner order; if no value exceeds -1 the cell is (0,0) |
| Pose.ArgmaxChannel | Application/app/src/main/java/com/example/eswproject/PoseEngine.kt:63-71 | the nested loops compute exactly that argmax |
| Pose.ChannelArgmax | Application/app/src/main/java/com/example/eswproject/PoseEngine.kt:62-71 | the cell reported for a channel lies in the 48x64 grid and its best value is at least the initial -1 |
| Pose.ScaleInside | Application/app/src/main/java/com/example/eswproject/PoseEngine.kt:73-76 | a cell centre scaled into an extent lies strictly inside it |
| Pose.Decode | Application/app/src/main/java/com/example/eswproject/PoseEngine.kt:73-77 | the decoded score is in [0,1] and equals the cell's value when that value is already in [0,1] |
| Pose.DecodedInsideRoi | Application/app/src/main/java/com/example/eswproject/PoseEngine.kt:73-77 | the score is clamped to [0,1]; the decoded point lies strictly inside a non-empty region |
| Pose.Keypoints | Application/app/src/main/java/com/example/eswproject/PoseEngine.kt:61-79 | one keypoint per channel (17), each with a score in [0,1] |
| Pose.KeypointsSpec | Application/app/src/main/java/com/example/eswproject/PoseEngine.kt:61-79 | exactly 17 keypoints in channel order, scores in [0,1], each point strictly inside the region |
| Pose.PoseEngine.constructor | Application/app/src/main/java/com/example/eswproject/PoseEngine.kt:19-20 | neither interpreter is loaded |
| Pose.PoseEngine.Load | Application/app/src/main/java/com/example/eswproject/PoseEngine.kt:22-35 | a YOLO failure is swallowed; HRNet loads unless already loaded; the call throws iff HRNet was not loaded and its load fails; afterwards `isReady()` (HRNet loaded) holds iff the call did not throw |
| Pose.PoseEngine.DetectPerson | Application/app/src/main/java/com/example/eswproject/PoseEngine.kt:38 | the region is the whole input frame |
| Pose.PoseEngine.RunHrnet | Application/app/src/main/java/com/example/eswproject/PoseEngine.kt:41-80 | with no HRNet loaded it returns the empty list; otherwise it returns the decoded keypoints of the network's heatmap for the cropped tensor |
| Pose.FullFrameUnclamped | Application/app/src/main/java/com/example/eswproject/PoseEngine.kt:38-100 | clamping leaves the detector's full-frame region unchanged |
| Overlay.FitCentreSpec | Application/app/src/main/java/com/example/eswproject/MainActivity.kt:433-440 | `scale = min(scaleX, scaleY)` keeps the aspect ratio, fits the canvas with margins `dx, dy >= 0`, centres, and fills one axis |
| Overlay.FitCentre | Application/app/src/main/java/com/example/eswproject/MainActivity.kt:433-440 | the scale is the smaller of the two axis scales, and the content is centred: equal margins on both sides of each axis |
| Overlay.MirrorSpec | Application/app/src/main/java/com/example/eswproject/MainActivity.kt:442-445 | the front camera draws x where the back camera draws `width - x` |
| Overlay.MapX | Application/app/src/main/java/com/example/eswproject/MainActivity.kt:442-445 | back camera: the offset from the content box's left edge is x scaled; front camera: that offset plus x scaled is the content width (mirrored); a scaled x inside the content width lands inside the box |
| Overlay.MapY | Application/app/src/main/java/com/example/eswproject/MainActivity.kt:446 | a scaled y inside the content height lands inside the content box, with no mirroring |
| Overlay.MappedInside | Application/app/src/main/java/com/example/eswproject/MainActivity.kt:434-446 | a point inside the image is mapped inside the content box, with either camera |
| Overlay.Connections | Application/app/src/main/java/com/example/eswproject/MainActivity.kt:448-470 | the 17 skeleton edges, in drawing order, as landmark-id pairs |
| Overlay.EdgeLines | Application/app/src/main/java/com/example/eswproject/MainActivity.kt:475-486 | at most one line per edge |
| Overlay.EdgeLinesSpec | Application/app/src/main/java/com/example/eswproject/MainActivity.kt:475-486 | a line is drawn iff its edge has both endpoints present with scores above 0.4 |
| Overlay.Render | Application/app/src/main/java/com/example/eswproject/MainActivity.kt:429-491 | no pose draws nothing; at most 17 lines; a circle is drawn only for a landmark present with score above 0.4 |
| Overlay.RenderSpec | Application/app/src/main/java/com/example/eswproject/MainActivity.kt:429-491 | nothing is drawn for no pose or a zero size; a point is drawn iff its score > 0.4, at its mapped position; every shown edge has its line |
| FrameAnalysis.ImageProxy.Close | Application/app/src/main/java/com/example/eswproject/MainActivity.kt:513 | closing the frame marks it closed |
| FrameAnalysis.ImageProxy.constructor | Application/app/src/main/java/com/example/eswproject/MainActivity.kt:512-516 | a frame carries whether its media image is present, its width, height and rotation, and starts open |
| FrameAnalysis.OverlayState.constructor | Application/app/src/main/java/com/example/eswproject/MainActivity.kt:508 | the shared state starts as null |
| FrameAnalysis.LandmarkMapSpec | Application/app/src/main/java/com/example/eswproject/MainActivity.kt:544-568 | with distinct ids, the keys are exactly the 17 ids and `ids[i]` holds COCO keypoint i with x, y and score unchanged |
| FrameAnalysis.BuildLandmarkMap | Application/app/src/main/java/com/example/eswproject/MainActivity.kt:565-568 | the `for` loop builds exactly that map |
| FrameAnalysis.FrameAnalyzer.constructor | Application/app/src/main/java/com/example/eswproject/MainActivity.kt:497-510 | no engine yet, and the 17-entry id table |
| FrameAnalysis.FrameAnalyzer.Analyze | Application/app/src/main/java/com/example/eswproject/MainActivity.kt:512-595 | no image: closed, nothing published. QIDK pose: published, closed, later backends skipped. The engine is kept iff its load completed. HRNet is published only with a ready engine and a valid frame, as the rotated back-camera overlay. Otherwise ML Kit takes the frame |
| Qidk.BestIndex | Application/App/app/src/main/cpp/qidk_backend.cpp:337-342 | the kept box is one of the scanned boxes |
| Qidk.BestIndexSpec | app/src/main/cpp/qidk_backend.cpp:337-342 | the kept box has maximal confidence, and every earlier box is strictly less confident (ties keep the earliest) |
| Qidk.BestDetection | Application/App/app/src/main/cpp/qidk_backend.cpp:337-342 | the scan from `detections[0]` returns that box |
| Qidk.Selected | Application/App/app/src/main/cpp/qidk_backend.cpp:358-367 | after n keypoints the copy loop has taken at most n and at most `max(0, maxKp)`, each meeting the threshold |
| Qidk.QualifyingSpec | Application/App/app/src/main/cpp/qidk_backend.cpp:358-367 | the qualifying keypoints are exactly those with `score >= threshold` |
| Qidk.SelectedIsQualifyingPrefix | Application/App/app/src/main/cpp/qidk_backend.cpp:358-367 | the output is the first `min(maxKp, #qualifying)` qualifying keypoints, in input order |
| Qidk.SelectedBounds | app/src/main/cpp/qidk_backend.cpp:358-367 | the count is at most `maxKp` and at most the number of keypoints; each output meets the threshold |
| Qidk.CopyQualifying | Application/App/app/src/main/cpp/qidk_backend.cpp:358-367 | slots `[0, count)` receive id, x, y and score of the selection, unchanged; no slot at or beyond count is written |
| Qidk.LastWithIdSpec | Application/App/app/src/main/cpp/qidk_backend.cpp:211-219 | a joint is found iff some keypoint has its id, and then it is the last occurrence |
| Qidk.FindJoints | app/src/main/cpp/qidk_backend.cpp:211-219 | the switch loop leaves each joint pointer at the last keypoint with its id |
| Qidk.ShoulderPenalty | Application/App/app/src/main/cpp/qidk_backend.cpp:243-246 | the penalty is in [0,30] and even; it is 0 iff the tilt is below 6 degrees and 30 iff it is at least 20 |
| Qidk.SpinePenalty | Application/App/app/src/main/cpp/qidk_backend.cpp:248-251 | the penalty is in [0,40]; it is 0 iff the spine angle is below 11 and 40 iff it is at least 24 |
| Qidk.NeckPenalty | Application/App/app/src/main/cpp/qidk_backend.cpp:253-257 | the penalty is 0 iff the forward ratio is at most 0.2, otherwise in [20,30]; it is 30 iff the ratio is at least 0.3 |
| Qidk.RawScore | app/src/main/cpp/qidk_backend.cpp:241-259 | the score is in [0,100] for every input, so `max(0, score)` never changes it; it is 100 iff no penalty applies |
| Qidk.PostureName | Application/App/app/src/main/cpp/qidk_backend.cpp:262-270 | Excellent iff >= 80, Good iff in [60,80), Fair iff in [40,60), Poor iff < 40 |
| Qidk.PostureNameMonotone | app/src/main/cpp/qidk_backend.cpp:262-270 | a higher score never gets a worse label |
| Qidk.Measure | Application/App/app/src/main/cpp/qidk_backend.cpp:223-238 | spine alignment and head tilt are non-negative; head tilt is the nose's distance from the shoulder midpoint; the neck ratio is head tilt over the shoulder width, or head tilt itself when that width is below 1, so never above head tilt |
| Qidk.PostureAfter | Application/App/app/src/main/cpp/qidk_backend.cpp:201-277 | fewer than 10 keypoints leave the record unchanged; with every joint present the score is in [0,100] with its band's label and a non-negative head tilt |
| Qidk.PostureAfterSpec | Application/App/app/src/main/cpp/qidk_backend.cpp:201-277 | no change with fewer than 10 keypoints or a missing joint; otherwise the score is in [0,100] with its band's label, and the timer starts now unless already set |
| Qidk.NativeBackend.constructor | Application/App/app/src/main/cpp/qidk_backend.cpp:63-81 | not initialised; zero frames; "Unknown" posture; no retained pose |
| Qidk.NativeBackend.Init | Application/App/app/src/main/cpp/qidk_backend.cpp:280-296 | idempotent: the first call resets metrics and posture (timer = now), later calls change nothing; the retained pose is untouched; always true |
| Qidk.NativeBackend.IsAvailable | app/src/main/cpp/qidk_backend.cpp:298-301 | 1 iff initialised, else 0 |
| Qidk.NativeBackend.AnalyzePosture | Application/App/app/src/main/cpp/qidk_backend.cpp:200-278 | the mutable-score procedure updates the posture exactly as `PostureAfter` and nothing else |
| Qidk.NativeBackend.RunPipeline | Application/App/app/src/main/cpp/qidk_backend.cpp:303-400 | no frame: 0 and no change. No detections: 0, retained pose cleared, timer reset, arrays untouched. Otherwise the best box's keypoints are filtered into the arrays, frameCount + 1, posture analysed, retained pose = full unfiltered list |
| PostureCorrector.RulesWellFormed | Model/posture_corrector.py:26-48 | three rules, each with `min_angle < max_angle` |
| PostureCorrector.PartMap | Model/posture_corrector.py:61 | every listed part name is a key |
| PostureCorrector.PartMapKeys | Model/posture_corrector.py:61 | every key is a listed part name |
| PostureCorrector.PartMapLast | Model/posture_corrector.py:61 | a repeated part name maps to its last entry |
| PostureCorrector.BuildPartMap | Model/posture_corrector.py:61 | the comprehension builds exactly that dictionary |
| PostureCorrector.ChooseSide | Model/posture_corrector.py:64 | left iff left-ear confidence > right-ear confidence (missing counts as 0), so ties give right |
| PostureCorrector.NoEarsMeansRight | Model/posture_corrector.py:64 | with both ears missing the right side is chosen |
| PostureCorrector.RequiredParts | Model/posture_corrector.py:66 | the five part names `side_ear`, `side_shoulder`, `side_hip`, `side_knee`, `side_ankle`, in that order |
| PostureCorrector.FirstMissingSpec | Model/posture_corrector.py:68-70 | none missing iff all present; otherwise the first missing part in order |
| PostureCorrector.CoordsSpec | Model/posture_corrector.py:67-71 | each joint checked so far is keyed by its joint with its part's x and y |
| PostureCorrector.CoordsComplete | Model/posture_corrector.py:67-71 | with all five parts present, every joint has its coordinates |
| PostureCorrector.Classify | Model/posture_corrector.py:83-91 | below min: Too Bent/Forward with the low suggestion; above max: Too Reclined/Extended with the high suggestion; otherwise GOOD, both bounds included |
| PostureCorrector.Assess | Model/posture_corrector.py:77-98 | the angle is the one at the rule's middle joint; GOOD iff it is within both bounds, with the no-correction text, else the rule's low or high suggestion; the region name keeps its length |
| PostureCorrector.Analyze | Model/posture_corrector.py:50-59 | a read failure gives one "Error reading file" message; no persons gives "No person detected in file."; otherwise the first person is analysed |
| PostureCorrector.AnalyzeSide | Model/posture_corrector.py:66-100 | fails iff a required part of the side is missing; otherwise a report of one result per rule |
| PostureCorrector.MissingSpec | Model/posture_corrector.py:66-70 | the analysis fails iff a part of the side is missing, naming the first missing one in checking order |
| PostureCorrector.RegionNames | Model/posture_corrector.py:76-94 | the capitalised region names are Neck, Back, Legs |
| PostureCorrector.Capitalize | Model/posture_corrector.py:94 | same length; the first character is not a lower-case ASCII letter and no later one is upper case |
| PostureCorrector.ReportSpec | Model/posture_corrector.py:76-98 | exactly three results in table order; each is the angle at the rule's middle point, classified against the rule's range |
| PostureCorrector.CollectCoords | Model/posture_corrector.py:66-71 | the loop stops at the first missing part, otherwise it collects all joint coordinates |
| PostureCorrector.AssessRules | Model/posture_corrector.py:76-98 | the loop appends one assessment per rule, in table order |
| PostureCorrector.AnalyzePosture | Model/posture_corrector.py:50-100 | `analyze_posture` returns exactly `Analyze` of the file content |

## Left out

- I/O and platform code are not modelled: camera capture, the Compose UI and canvas drawing calls, JNI array marshalling, the `getMutex` lock (one caller at a time is assumed), file reading and JSON parsing, and the folder watcher.
- The simulated detectors `runYOLONAS` and `runHRNet` (qidk_backend.cpp:102-198) become inputs, since their outputs are arbitrary. So do `yuv420ToNV21`, `rotateKeypoints` and the `QidkBackends` calls, whose code is not part of this model.
- Trigonometry is an input, not computed: `atan`/`atan2` in `analyzePosture` and `calculate_angle` in the Python tool. The exact float rounding of all arithmetic is also not modelled, since reals stand for floats.
- Timing is not modelled: the FPS, detection and pose times in `PerformanceMetrics`, and the clock. The clock is a `now` parameter, and the unset time point is 0.
- The getters after `runPipeline` (qidk_backend.cpp:403-442) only copy global state out. They are not modelled.
- The asynchronous ML Kit path (MainActivity.kt:580-594) is not modelled. The model records that the frame goes to ML Kit and that nothing is published or closed synchronously.
- Pose.PoseEngine.RunHrnet: an NV21 buffer that is not a full frame of even width and height (`w*h*3/2` bytes) is modelled as the exception path (`Threw`). The source reads the buffer unchecked and throws only when a sampled index is past the end, so a slightly short buffer whose sampled indices all fit returns keypoints in the source but `Threw` in the model.
- FrameAnalysis.FrameAnalyzer.Analyze: failures inside the HRNet path are modelled only as the conversion failing (`None`) or an invalid frame. An interpreter exception is not modelled, because the network is a total function parameter.
- PostureCorrector.Analyze: the angle is kept as a number. The report prints it with one decimal and a degree sign. A part record without `x`/`y`, and a person without `keypoints`, are not modelled: they raise an exception the source does not catch.
- Qidk.NativeBackend.RunPipeline: like the source, it does not check the init flag. Only the `frameCount` metric is modelled.
- The TensorFlow Lite interpreter and model files are not modelled. Loading is a boolean outcome, and the interpreter is a function from the input tensor to a heatmap.
