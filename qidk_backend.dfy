/** The native QIDK backend: process-wide state behind an init-once flag, the
    per-frame pipeline (pick the most confident person box, estimate its
    keypoints, copy the confident ones into the caller's output arrays) and
    the rule-based posture score with its label. */
module Qidk {
  import opened Common

  /** A person box from the detector. */
  datatype BBox = BBox(x1: real, y1: real, x2: real, y2: real, confidence: real, classId: int)

  /** A COCO keypoint with its index as `id`. */
  datatype Keypoint = Keypoint(x: real, y: real, score: real, id: int)

  /** COCO indices of the joints the posture rules use. */
  const Nose: int := 0
  const LeftShoulder: int := 5
  const RightShoulder: int := 6
  const LeftHip: int := 11
  const RightHip: int := 12

  /** The posture record. `startTime` 0 stands for the unset (epoch) time
      point, which is how the source resets its timer. */
  datatype Posture = Posture(shoulderAngle: real, spineAlignment: real, headTilt: real,
                             score: int, name: string, startTime: real, durationSeconds: real)

  /** Degrees-valued atan and atan2, which the model does not compute. */
  datatype Trig = Trig(atanDeg: real -> real, atan2Deg: (real, real) -> real)

  // ---------------------------------------------------------------------
  // Best detection

  /** Index of the box the scan keeps among the first n: the first one with
      the largest confidence (a later box replaces it only if strictly more
      confident). */
  function BestIndex(dets: seq<BBox>, n: nat): (b: int)
    requires 1 <= n <= |dets|
    ensures 0 <= b < n
  {
    if n == 1 then 0
    else
      var b := BestIndex(dets, n - 1);
      if dets[n - 1].confidence > dets[b].confidence then n - 1 else b
  }

  /** The kept box is the most confident of the first n, and every box before
      it is strictly less confident: ties go to the earliest. */
  lemma {:induction false} BestIndexSpec(dets: seq<BBox>, n: nat)
    requires 1 <= n <= |dets|
    ensures forall j :: 0 <= j < n ==> dets[j].confidence <= dets[BestIndex(dets, n)].confidence
    ensures forall j :: 0 <= j < BestIndex(dets, n) ==> dets[j].confidence < dets[BestIndex(dets, n)].confidence
  {
    if n > 1 {
      BestIndexSpec(dets, n - 1);
    }
  }

  /** The loop over all detections starting from detections[0]. */
  method BestDetection(dets: seq<BBox>) returns (best: BBox)
    requires |dets| > 0
    ensures best == dets[BestIndex(dets, |dets|)]
  {
    best := dets[0];
    ghost var b := 0;
    var i := 0;
    while i < |dets|
      invariant 0 <= i <= |dets|
      invariant b == (if i == 0 then 0 else BestIndex(dets, i)) && best == dets[b]
    {
      if dets[i].confidence > best.confidence {
        best := dets[i];
        b := i;
      }
      i := i + 1;
    }
  }

  // ---------------------------------------------------------------------
  // Output filtering

  /** What the copy loop has selected after the first n keypoints: a keypoint
      is taken if it meets the threshold while fewer than maxKp are taken. */
  function Selected(kps: seq<Keypoint>, threshold: real, maxKp: int, n: nat): (s: seq<Keypoint>)
    requires n <= |kps|
    ensures |s| <= n && |s| <= IMax(0, maxKp)
    ensures forall k :: k in s ==> k.score >= threshold
  {
    if n == 0 then []
    else
      var s := Selected(kps, threshold, maxKp, n - 1);
      if kps[n - 1].score >= threshold && |s| < maxKp then s + [kps[n - 1]] else s
  }

  /** All keypoints meeting the threshold, in input order. */
  function Qualifying(kps: seq<Keypoint>, threshold: real): (q: seq<Keypoint>)
  {
    if kps == [] then []
    else
      var k := kps[|kps| - 1];
      Qualifying(kps[..|kps| - 1], threshold) + (if k.score >= threshold then [k] else [])
  }

  lemma {:induction false} QualifyingSpec(kps: seq<Keypoint>, threshold: real)
    ensures |Qualifying(kps, threshold)| <= |kps|
    ensures forall k :: k in Qualifying(kps, threshold) <==> k in kps && k.score >= threshold
  {
    if kps != [] {
      var init := kps[..|kps| - 1];
      QualifyingSpec(init, threshold);
      assert kps == init + [kps[|kps| - 1]];
    }
  }

  /** The selection is exactly the first min(maxKp, #qualifying) qualifying
      keypoints, in input order (for maxKp >= 0; a negative maxKp selects
      nothing). */
  lemma {:induction false} SelectedIsQualifyingPrefix(kps: seq<Keypoint>, threshold: real, maxKp: int, n: nat)
    requires n <= |kps|
    ensures var q := Qualifying(kps[..n], threshold);
      Selected(kps, threshold, maxKp, n) == q[..IMax(0, IMin(maxKp, |q|))]
  {
    if n > 0 {
      SelectedIsQualifyingPrefix(kps, threshold, maxKp, n - 1);
      assert kps[..n][..n - 1] == kps[..n - 1];
    }
  }

  /** Hence at most maxKp and at most |kps| keypoints, each meeting the
      threshold and taken from the input. */
  lemma SelectedBounds(kps: seq<Keypoint>, threshold: real, maxKp: int)
    ensures |Selected(kps, threshold, maxKp, |kps|)| <= IMax(0, maxKp)
    ensures |Selected(kps, threshold, maxKp, |kps|)| <= |kps|
    ensures forall k :: k in Selected(kps, threshold, maxKp, |kps|) ==> k in kps && k.score >= threshold
  {
    SelectedIsQualifyingPrefix(kps, threshold, maxKp, |kps|);
    assert kps[..|kps|] == kps;
    QualifyingSpec(kps, threshold);
    var q := Qualifying(kps, threshold);
    forall k | k in Selected(kps, threshold, maxKp, |kps|)
      ensures k in q
    {
      var m := IMax(0, IMin(maxKp, |q|));
      var i :| 0 <= i < |q[..m]| && q[..m][i] == k;
      assert q[i] == k;
    }
  }

  /** The copy loop: the selected keypoints' id, x, y and score go to slots
      [0, count) of the four output arrays; no other slot is written. */
  method CopyQualifying(kps: seq<Keypoint>, threshold: real, maxKp: int,
                        ids: array<int>, xs: array<real>, ys: array<real>, scores: array<real>)
      returns (count: int)
    requires maxKp <= ids.Length && maxKp <= xs.Length && maxKp <= ys.Length && maxKp <= scores.Length
    requires xs != ys && xs != scores && ys != scores
    modifies ids, xs, ys, scores
    ensures var s := Selected(kps, threshold, maxKp, |kps|);
      count == |s| && count <= IMax(0, maxKp) &&
      (forall j :: 0 <= j < count ==>
         ids[j] == s[j].id && xs[j] == s[j].x && ys[j] == s[j].y && scores[j] == s[j].score) &&
      ids[count..] == old(ids[count..]) && xs[count..] == old(xs[count..]) &&
      ys[count..] == old(ys[count..]) && scores[count..] == old(scores[count..])
  {
    count := 0;
    var i := 0;
    while i < |kps|
      invariant 0 <= i <= |kps|
      invariant count == |Selected(kps, threshold, maxKp, i)|
      invariant count <= IMax(0, maxKp)
      invariant forall j :: 0 <= j < count ==>
                  var s := Selected(kps, threshold, maxKp, i);
                  ids[j] == s[j].id && xs[j] == s[j].x && ys[j] == s[j].y && scores[j] == s[j].score
      invariant ids[count..] == old(ids[count..]) && xs[count..] == old(xs[count..])
      invariant ys[count..] == old(ys[count..]) && scores[count..] == old(scores[count..])
    {
      var kp := kps[i];
      if kp.score >= threshold && count < maxKp {
        ids[count] := kp.id;
        xs[count] := kp.x;
        ys[count] := kp.y;
        scores[count] := kp.score;
        count := count + 1;
      }
      i := i + 1;
    }
  }

  // ---------------------------------------------------------------------
  // Posture analysis

  /** The last of the first n keypoints carrying the given id. */
  function LastWithId(kps: seq<Keypoint>, id: int, n: nat): Option<Keypoint>
    requires n <= |kps|
  {
    if n == 0 then None
    else if kps[n - 1].id == id then Some(kps[n - 1])
    else LastWithId(kps, id, n - 1)
  }

  /** Found iff some keypoint has the id, and then it is the last such one. */
  lemma {:induction false} LastWithIdSpec(kps: seq<Keypoint>, id: int, n: nat)
    requires n <= |kps|
    ensures LastWithId(kps, id, n).None? <==> forall i :: 0 <= i < n ==> kps[i].id != id
    ensures LastWithId(kps, id, n).Some? ==>
              exists i :: 0 <= i < n && kps[i] == LastWithId(kps, id, n).value && kps[i].id == id &&
                forall j :: i < j < n ==> kps[j].id != id
  {
    if n > 0 && kps[n - 1].id != id {
      LastWithIdSpec(kps, id, n - 1);
    }
  }

  /** The five joints the rules need. */
  datatype Joints = Joints(nose: Option<Keypoint>, leftShoulder: Option<Keypoint>, rightShoulder: Option<Keypoint>,
                           leftHip: Option<Keypoint>, rightHip: Option<Keypoint>)
  {
    predicate Complete() {
      nose.Some? && leftShoulder.Some? && rightShoulder.Some? && leftHip.Some? && rightHip.Some?
    }
  }

  function JointsOf(kps: seq<Keypoint>, n: nat): Joints
    requires n <= |kps|
  {
    Joints(LastWithId(kps, Nose, n), LastWithId(kps, LeftShoulder, n), LastWithId(kps, RightShoulder, n),
           LastWithId(kps, LeftHip, n), LastWithId(kps, RightHip, n))
  }

  /** The switch over keypoint ids: each joint pointer ends at the last
      keypoint with its id. */
  method FindJoints(kps: seq<Keypoint>) returns (j: Joints)
    ensures j == JointsOf(kps, |kps|)
  {
    j := Joints(None, None, None, None, None);
    var i := 0;
    while i < |kps|
      invariant 0 <= i <= |kps|
      invariant j == JointsOf(kps, i)
    {
      var kp := kps[i];
      if kp.id == Nose {
        j := j.(nose := Some(kp));
      } else if kp.id == LeftShoulder {
        j := j.(leftShoulder := Some(kp));
      } else if kp.id == RightShoulder {
        j := j.(rightShoulder := Some(kp));
      } else if kp.id == LeftHip {
        j := j.(leftHip := Some(kp));
      } else if kp.id == RightHip {
        j := j.(rightHip := Some(kp));
      }
      i := i + 1;
    }
  }

  /** Shoulder tilt penalty: above 5 degrees, twice the whole degrees beyond
      5, capped at 30. It is zero below 6 degrees and at its cap from 20. */
  function ShoulderPenalty(angle: real): (p: int)
    ensures 0 <= p <= 30 && p % 2 == 0
    ensures p == 0 <==> Abs(angle) < 6.0
    ensures p == 30 <==> Abs(angle) >= 20.0
  {
    if Abs(angle) > 5.0 then IMin(30, ToInt(Abs(angle) - 5.0) * 2) else 0
  }

  /** Spine penalty: above 10 degrees, three times the whole degrees beyond
      10, capped at 40. It is zero below 11 degrees and at its cap from 24. */
  function SpinePenalty(spine: real): (p: int)
    ensures 0 <= p <= 40
    ensures p == 0 <==> spine < 11.0
    ensures p == 40 <==> spine >= 24.0
  {
    if spine > 10.0 then IMin(40, ToInt(spine - 10.0) * 3) else 0
  }

  /** Forward-head penalty: above 0.2 shoulder widths, the whole percent,
      capped at 30; so either nothing or between 20 and 30. */
  function NeckPenalty(neckForward: real): (p: int)
    ensures p == 0 <==> neckForward <= 0.2
    ensures neckForward > 0.2 ==> 20 <= p <= 30
    ensures p == 30 <==> neckForward >= 0.3
  {
    if neckForward > 0.2 then IMin(30, ToInt(neckForward * 100.0)) else 0
  }

  /** The integer score: 100 less the three penalties. It lies in [0,100]
      for every input, so the final `max(0, score)` never changes it. */
  function RawScore(shoulderAngle: real, spine: real, neckForward: real): (score: int)
    ensures 0 <= score <= 100 && IMax(0, score) == score
    ensures score == 100 <==> Abs(shoulderAngle) < 6.0 && spine < 11.0 && neckForward <= 0.2
  {
    100 - ShoulderPenalty(shoulderAngle) - SpinePenalty(spine) - NeckPenalty(neckForward)
  }

  /** The label of a score: 80 and up, 60 and up, 40 and up, below 40. */
  function PostureName(score: int): (name: string)
    ensures name == "Excellent" <==> score >= 80
    ensures name == "Good" <==> 60 <= score < 80
    ensures name == "Fair" <==> 40 <= score < 60
    ensures name == "Poor" <==> score < 40
  {
    if score >= 80 then "Excellent"
    else if score >= 60 then "Good"
    else if score >= 40 then "Fair"
    else "Poor"
  }

  /** The labels from worst (0) to best (3). */
  function Rank(name: string): int {
    if name == "Excellent" then 3 else if name == "Good" then 2 else if name == "Fair" then 1 else 0
  }

  /** A higher score never gets a worse label. */
  lemma PostureNameMonotone(score: int, other: int)
    requires score <= other
    ensures Rank(PostureName(score)) <= Rank(PostureName(other))
  {
  }

  /** The three measurements taken from the joints. */
  datatype Measures = Measures(shoulderAngle: real, spineAlignment: real, headTilt: real, neckForward: real)

  /** The shoulder slope over a width of at least 1, the spine angle between
      the shoulder and hip midpoints, the nose's horizontal offset from the
      shoulder midpoint, and that offset relative to the shoulder width. */
  function Measure(nose: Keypoint, ls: Keypoint, rs: Keypoint, lh: Keypoint, rh: Keypoint, trig: Trig): (m: Measures)
    ensures 0.0 <= m.spineAlignment && 0.0 <= m.headTilt
    ensures 2.0 * m.headTilt == Abs(2.0 * nose.x - ls.x - rs.x)
    ensures 0.0 <= m.neckForward <= m.headTilt
    ensures rs.x - ls.x <= 1.0 ==> m.neckForward == m.headTilt
    ensures rs.x - ls.x >= 1.0 ==> m.neckForward * (rs.x - ls.x) == m.headTilt
  {
    var shoulderSlope := (rs.y - ls.y) / RMax(1.0, rs.x - ls.x);
    var shoulderMidX := (ls.x + rs.x) * 0.5;
    var shoulderMidY := (ls.y + rs.y) * 0.5;
    var hipMidX := (lh.x + rh.x) * 0.5;
    var hipMidY := (lh.y + rh.y) * 0.5;
    var headTilt := Abs(nose.x - shoulderMidX);
    Measures(trig.atanDeg(shoulderSlope),
             Abs(trig.atan2Deg(hipMidX - shoulderMidX, hipMidY - shoulderMidY)),
             headTilt,
             headTilt / RMax(1.0, rs.x - ls.x))
  }

  /** The posture record after analysing a keypoint list at time `now`. */
  function PostureAfter(p: Posture, kps: seq<Keypoint>, now: real, trig: Trig): (q: Posture)
    ensures |kps| < 10 ==> q == p
    ensures |kps| >= 10 && JointsOf(kps, |kps|).Complete() ==>
              0 <= q.score <= 100 && q.name == PostureName(q.score) && 0.0 <= q.headTilt
  {
    if |kps| < 10 then p
    else
      var j := JointsOf(kps, |kps|);
      if !j.Complete() then p
      else
        var m := Measure(j.nose.value, j.leftShoulder.value, j.rightShoulder.value, j.leftHip.value, j.rightHip.value, trig);
        var score := RawScore(m.shoulderAngle, m.spineAlignment, m.neckForward);
        var start := if p.startTime == 0.0 then now else p.startTime;
        Posture(m.shoulderAngle, m.spineAlignment, m.headTilt, IMax(0, score), PostureName(score), start, now - start)
  }

  /** Nothing changes with fewer than 10 keypoints or a missing joint;
      otherwise the stored score is in [0,100] and carries its band's label,
      and the timer starts now unless it is already running. */
  lemma PostureAfterSpec(p: Posture, kps: seq<Keypoint>, now: real, trig: Trig)
    ensures |kps| < 10 || !JointsOf(kps, |kps|).Complete() ==> PostureAfter(p, kps, now, trig) == p
    ensures |kps| >= 10 && JointsOf(kps, |kps|).Complete() ==>
              var q := PostureAfter(p, kps, now, trig);
              0 <= q.score <= 100 && q.name == PostureName(q.score) &&
              q.startTime == (if p.startTime == 0.0 then now else p.startTime) &&
              q.durationSeconds == now - q.startTime
  {
  }

  // ---------------------------------------------------------------------
  // The backend's global state

  class NativeBackend {
    var initialized: bool
    /** Frames processed since init (the only metric modelled). */
    var frameCount: int
    var posture: Posture
    var lastPose: seq<Keypoint>

    /** Process start: nothing initialised, default posture, no pose. */
    constructor()
      ensures !initialized && frameCount == 0 && lastPose == []
      ensures posture == Posture(0.0, 0.0, 0.0, 0, "Unknown", 0.0, 0.0)
    {
      initialized := false;
      frameCount := 0;
      posture := Posture(0.0, 0.0, 0.0, 0, "Unknown", 0.0, 0.0);
      lastPose := [];
    }

    /** Initialise once: the first call resets metrics and posture (the timer
        starts now); later calls change nothing. Always reports success. */
    method Init(now: real) returns (ok: bool)
      modifies this
      ensures ok && initialized && lastPose == old(lastPose)
      ensures old(initialized) ==> frameCount == old(frameCount) && posture == old(posture)
      ensures !old(initialized) ==>
                frameCount == 0 && posture == Posture(0.0, 0.0, 0.0, 0, "Unknown", now, 0.0)
    {
      if initialized {
        return true;
      }
      frameCount := 0;
      posture := Posture(0.0, 0.0, 0.0, 0, "Unknown", now, 0.0);
      initialized := true;
      return true;
    }

    function IsAvailable(): (r: int)
      reads this
      ensures r == 1 || r == 0
      ensures r == 1 <==> initialized
    {
      if initialized then 1 else 0
    }

    /** analyzePosture: measures the joints and updates the posture record. */
    method AnalyzePosture(kps: seq<Keypoint>, now: real, trig: Trig)
      modifies this
      ensures posture == PostureAfter(old(posture), kps, now, trig)
      ensures initialized == old(initialized) && frameCount == old(frameCount) && lastPose == old(lastPose)
    {
      if |kps| < 10 {
        return;
      }
      var j := FindJoints(kps);
      if !j.Complete() {
        return;
      }
      var m := Measure(j.nose.value, j.leftShoulder.value, j.rightShoulder.value, j.leftHip.value, j.rightHip.value, trig);
      var score := 100;
      if Abs(m.shoulderAngle) > 5.0 {
        score := score - IMin(30, ToInt(Abs(m.shoulderAngle) - 5.0) * 2);
      }
      if m.spineAlignment > 10.0 {
        score := score - IMin(40, ToInt(m.spineAlignment - 10.0) * 3);
      }
      if m.neckForward > 0.2 {
        score := score - IMin(30, ToInt(m.neckForward * 100.0));
      }
      var start := if posture.startTime == 0.0 then now else posture.startTime;
      posture := Posture(m.shoulderAngle, m.spineAlignment, m.headTilt, IMax(0, score), PostureName(score),
                         start, now - start);
    }

    /** runPipeline. The simulated detector and pose estimator are inputs:
        `dets` is the detector's output and `hrnet` the keypoints it gives for
        a box. `hasYuv` is whether the frame bytes could be obtained. */
    method RunPipeline(hasYuv: bool, dets: seq<BBox>, hrnet: BBox -> seq<Keypoint>, threshold: real,
                       ids: array<int>, xs: array<real>, ys: array<real>, scores: array<real>, maxKp: int,
                       now: real, trig: Trig) returns (count: int)
      requires maxKp <= ids.Length && maxKp <= xs.Length && maxKp <= ys.Length && maxKp <= scores.Length
      requires xs != ys && xs != scores && ys != scores
      modifies this, ids, xs, ys, scores
      ensures initialized == old(initialized)
      ensures !hasYuv ==>
                count == 0 && frameCount == old(frameCount) && posture == old(posture) && lastPose == old(lastPose) &&
                ids[..] == old(ids[..]) && xs[..] == old(xs[..]) && ys[..] == old(ys[..]) && scores[..] == old(scores[..])
      ensures hasYuv && dets == [] ==>
                count == 0 && lastPose == [] && posture == old(posture).(startTime := 0.0) &&
                frameCount == old(frameCount) &&
                ids[..] == old(ids[..]) && xs[..] == old(xs[..]) && ys[..] == old(ys[..]) && scores[..] == old(scores[..])
      ensures hasYuv && dets != [] ==>
                var kps := hrnet(dets[BestIndex(dets, |dets|)]);
                var s := Selected(kps, threshold, maxKp, |kps|);
                count == |s| && count <= IMax(0, maxKp) &&
                (forall j :: 0 <= j < count ==>
                   ids[j] == s[j].id && xs[j] == s[j].x && ys[j] == s[j].y && scores[j] == s[j].score) &&
                ids[count..] == old(ids[count..]) && xs[count..] == old(xs[count..]) &&
                ys[count..] == old(ys[count..]) && scores[count..] == old(scores[count..]) &&
                lastPose == kps && frameCount == old(frameCount) + 1 &&
                posture == PostureAfter(old(posture), kps, now, trig)
    {
      if !hasYuv {
        return 0;
      }
      if dets == [] {
        lastPose := [];
        posture := posture.(startTime := 0.0);
        return 0;
      }
      var best := BestDetection(dets);
      var kps := hrnet(best);
      count := CopyQualifying(kps, threshold, maxKp, ids, xs, ys, scores);
      frameCount := frameCount + 1;
      AnalyzePosture(kps, now, trig);
      lastPose := kps;
    }
  }
}
