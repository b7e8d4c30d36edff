/** The camera frame analyzer: for every frame it tries the native QIDK
    backend, then the TensorFlow Lite HRNet engine (created lazily), then
    ML Kit, publishing the first pose it gets to the shared overlay state. */
module FrameAnalysis {
  import opened Common
  import opened Nv21
  import opened Pose
  import opened Overlay

  /** A camera frame. `hasImage` is whether its media image is non-null. */
  class ImageProxy {
    const hasImage: bool
    const width: int
    const height: int
    const rotation: int
    var closed: bool

    constructor(hasImage: bool, width: int, height: int, rotation: int)
      ensures this.hasImage == hasImage && this.width == width && this.height == height
      ensures this.rotation == rotation && !closed
    {
      this.hasImage := hasImage;
      this.width := width;
      this.height := height;
      this.rotation := rotation;
      closed := false;
    }

    method Close()
      modifies this
      ensures closed
    {
      closed := true;
    }
  }

  /** The published overlay (a state flow holding a nullable pose). */
  class OverlayState {
    var value: Option<PoseOverlay>

    constructor()
      ensures value == None
    {
      value := None;
    }
  }

  /** What the native path gives for this frame: QIDK not available, an
      exception (from the NV21 conversion or the native call), a null pose, or
      a pose. */
  datatype QidkOutcome = Unavailable | Failed | NoPose | Detected(pose: PoseOverlay)

  /** Which backend handled the frame. ML Kit is asynchronous: it publishes
      and closes the frame later, outside this model. */
  datatype Backend = NoImage | Qidk | Hrnet | MlKit

  /** Result of rotateKeypoints: the rotated map and the rotated image size. */
  datatype Rotated = Rotated(keypoints: map<int, Keypoint>, width: int, height: int)

  /** The keypoint map after the first n COCO keypoints: keypoint i stored
      under landmark id ids[i]. */
  function LandmarkMap(kps: seq<Triple>, ids: seq<int>, n: nat): map<int, Keypoint>
    requires n <= |kps| && n <= |ids|
  {
    if n == 0 then map[]
    else LandmarkMap(kps, ids, n - 1)[ids[n - 1] := Keypoint(kps[n - 1].x, kps[n - 1].y, kps[n - 1].score)]
  }

  /** With distinct ids, the map's keys are exactly the first n ids and id
      ids[i] holds COCO keypoint i with x, y and score unchanged. */
  lemma {:induction false} LandmarkMapSpec(kps: seq<Triple>, ids: seq<int>, n: nat)
    requires n <= |kps| && n <= |ids|
    requires forall i, j :: 0 <= i < j < |ids| ==> ids[i] != ids[j]
    ensures LandmarkMap(kps, ids, n).Keys == set i | 0 <= i < n :: ids[i]
    ensures forall i :: 0 <= i < n ==>
              LandmarkMap(kps, ids, n)[ids[i]] == Keypoint(kps[i].x, kps[i].y, kps[i].score)
  {
    if n > 0 {
      LandmarkMapSpec(kps, ids, n - 1);
      assert (set i | 0 <= i < n :: ids[i]) == (set i | 0 <= i < n - 1 :: ids[i]) + {ids[n - 1]};
    }
  }

  /** The `for (i in ids.indices)` loop filling the keypoint map. */
  method BuildLandmarkMap(kps: seq<Triple>, ids: seq<int>) returns (m: map<int, Keypoint>)
    requires |ids| <= |kps|
    ensures m == LandmarkMap(kps, ids, |ids|)
  {
    m := map[];
    var i := 0;
    while i < |ids|
      invariant 0 <= i <= |ids|
      invariant m == LandmarkMap(kps, ids, i)
    {
      m := m[ids[i] := Keypoint(kps[i].x, kps[i].y, kps[i].score)];
      i := i + 1;
    }
  }

  /** The HRNet overlay of a frame: keypoints moved to landmark ids, rotated,
      with the rotated size and the back camera. */
  function HrnetOverlay(kps: seq<Triple>, ids: seq<int>, width: int, height: int, rotation: int,
                        rotate: (map<int, Keypoint>, int, int, int) -> Rotated): PoseOverlay
    requires |ids| <= |kps|
  {
    var r := rotate(LandmarkMap(kps, ids, |ids|), width, height, rotation);
    PoseOverlay(r.keypoints, r.width, r.height, false)
  }

  class FrameAnalyzer {
    var poseEngine: PoseEngine?
    const state: OverlayState
    /** ML Kit's PoseLandmark ids of the 17 COCO keypoints, in COCO order. */
    const ids: seq<int>

    /** An engine is kept only once its load has completed. */
    predicate Valid()
      reads this, poseEngine
    {
      IsLandmarkTable(ids) && (poseEngine != null ==> poseEngine.hrnetLoaded)
    }

    constructor(state: OverlayState, ids: seq<int>)
      requires IsLandmarkTable(ids)
      ensures Valid() && poseEngine == null && this.state == state && this.ids == ids
    {
      poseEngine := null;
      this.state := state;
      this.ids := ids;
    }

    /** Whether the HRNet engine is usable for this frame: it exists already,
        or it is created now and its HRNet model loads. */
    predicate EngineReady(hrnetLoads: bool)
      reads this
    {
      poseEngine != null || hrnetLoads
    }

    /** One frame. The collaborators the source calls but does not define are
        parameters: whether QIDK is available and what it returns, whether each
        model file loads, the NV21 conversion (None when it throws), the HRNet
        interpreter and rotateKeypoints. */
    method Analyze(image: ImageProxy, qidk: QidkOutcome, yoloLoads: bool, hrnetLoads: bool,
                   nv21: Option<seq<bv8>>, net: seq<real> -> Heatmap,
                   rotate: (map<int, Keypoint>, int, int, int) -> Rotated) returns (b: Backend)
      requires Valid()
      modifies this, image, state
      ensures Valid()
      // no image: closed, nothing else happens
      ensures !image.hasImage ==>
                b == NoImage && image.closed && state.value == old(state.value) && poseEngine == old(poseEngine)
      // QIDK first: its pose is published and the later backends are skipped
      ensures image.hasImage && qidk.Detected? ==>
                b == Qidk && image.closed && state.value == Some(qidk.pose) && poseEngine == old(poseEngine)
      // then HRNet: the lazy engine is kept iff its load completed
      ensures image.hasImage && !qidk.Detected? ==>
                (poseEngine != null <==> old(EngineReady(hrnetLoads))) &&
                (old(poseEngine) != null ==> poseEngine == old(poseEngine))
      ensures image.hasImage && !qidk.Detected? && old(EngineReady(hrnetLoads)) &&
              nv21.Some? && IsNv21Frame(nv21.value, image.width, image.height) ==>
                b == Hrnet && image.closed &&
                state.value == Some(HrnetOverlay(
                  Keypoints(RectF(0.0, 0.0, image.width as real, image.height as real),
                            net(InputTensor(nv21.value, image.width, image.height,
                                            RectF(0.0, 0.0, image.width as real, image.height as real)))),
                  ids, image.width, image.height, image.rotation, rotate))
      // otherwise ML Kit, which takes over the frame without publishing yet
      ensures image.hasImage && !qidk.Detected? &&
              !(old(EngineReady(hrnetLoads)) && nv21.Some? && IsNv21Frame(nv21.value, image.width, image.height)) ==>
                b == MlKit && image.closed == old(image.closed) && state.value == old(state.value)
    {
      if !image.hasImage {
        image.Close();
        return NoImage;
      }
      var width, height, rotation := image.width, image.height, image.rotation;

      // QIDK path; an exception or a null pose falls through
      if qidk.Detected? {
        state.value := Some(qidk.pose);
        image.Close();
        return Qidk;
      }

      // HRNet path; any exception falls through
      if poseEngine == null {
        var e := new PoseEngine();
        var threw := e.Load(yoloLoads, hrnetLoads);
        if !threw {
          poseEngine := e;
        }
      }
      var engine := poseEngine;
      if engine != null && engine.IsReady() && nv21.Some? {
        var roi := engine.DetectPerson(width, height);
        var kp := engine.RunHrnet(nv21.value, width, height, roi, net);
        if kp.Returned? && |kp.keypoints| > 0 {
          KeypointsSpec(roi, net(InputTensor(nv21.value, width, height, roi)));
          var m := BuildLandmarkMap(kp.keypoints, ids);
          var rotated := rotate(m, width, height, rotation);
          state.value := Some(PoseOverlay(rotated.keypoints, rotated.width, rotated.height, false));
          image.Close();
          return Hrnet;
        }
      }

      // ML Kit path: asynchronous, closes the frame on completion
      return MlKit;
    }
  }
}
