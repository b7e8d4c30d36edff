/** The TensorFlow Lite pose path: a PoseEngine holding two optionally loaded
    interpreters, the whole-frame person "detector", and HRNet inference with
    its per-channel heatmap argmax and the mapping of each winning cell back
    into image coordinates. */
module Pose {
  import opened Common
  import opened Nv21

  /** HRNet input size (rows, columns) and its heatmap, a quarter of it. */
  const InH: int := 256
  const InW: int := 192
  const OutH: int := 64
  const OutW: int := 48
  const NumKp: int := 17
  const Cells: int := 3072

  /** The interpreter's output[0][v][u][k]: one score per heatmap row v,
      column u and COCO keypoint channel k. */
  type Heatmap = (int, int, int) -> real

  /** An (x, y, score) keypoint, Kotlin's Triple<Float, Float, Float>. */
  datatype Triple = Triple(x: real, y: real, score: real)

  /** The running state of one channel's scan: the best score so far and the
      column and row where it was seen. */
  datatype Cell = Cell(best: real, bu: int, bv: int)

  /** Heatmap value of the t-th cell in row-major order (v outer, u inner). */
  function ValueAt(heat: Heatmap, k: int, t: int): real {
    heat(t / OutW, t % OutW, k)
  }

  /** The scan of channel k over its first t cells: starts at (-1, 0, 0) and
      moves only on a strictly larger value. */
  function ArgmaxPrefix(heat: Heatmap, k: int, t: nat): Cell
    requires t <= Cells
  {
    if t == 0 then Cell(-1.0, 0, 0)
    else
      var prev := ArgmaxPrefix(heat, k, t - 1);
      var s := ValueAt(heat, k, t - 1);
      if s > prev.best then Cell(s, (t - 1) % OutW, (t - 1) / OutW) else prev
  }

  /** The cell reported for channel k after the whole heatmap. */
  function ChannelArgmax(heat: Heatmap, k: int): (c: Cell)
    ensures 0 <= c.bu < OutW && 0 <= c.bv < OutH && c.best >= -1.0
  {
    ArgmaxPrefixSpec(heat, k, Cells);
    ArgmaxPrefix(heat, k, Cells)
  }

  /** Row-major position of a cell. */
  function CellIndex(c: Cell): int { c.bv * OutW + c.bu }

  /** After t cells the scan holds the first cell with the largest value seen,
      provided that value exceeds -1; if none does, it still holds (-1, 0, 0). */
  lemma {:induction false} ArgmaxPrefixSpec(heat: Heatmap, k: int, t: nat)
    requires t <= Cells
    ensures var c := ArgmaxPrefix(heat, k, t);
      0 <= c.bu < OutW && 0 <= c.bv < OutH && c.best >= -1.0 &&
      (forall t' :: 0 <= t' < t ==> ValueAt(heat, k, t') <= c.best) &&
      (c.best > -1.0 ==>
         CellIndex(c) < t && ValueAt(heat, k, CellIndex(c)) == c.best &&
         forall t' :: 0 <= t' < CellIndex(c) ==> ValueAt(heat, k, t') < c.best) &&
      (c.best == -1.0 ==> c.bu == 0 && c.bv == 0)
  {
    if t > 0 {
      ArgmaxPrefixSpec(heat, k, t - 1);
      var c := ArgmaxPrefix(heat, k, t);
      var prev := ArgmaxPrefix(heat, k, t - 1);
      if ValueAt(heat, k, t - 1) > prev.best {
        assert CellIndex(c) == t - 1;
      }
    }
  }

  /** The reported cell holds the channel's maximum, no cell before it in
      row-major order reaches that maximum (ties go to the earliest cell), and
      when no value exceeds -1 the cell is (0, 0). */
  lemma ChannelArgmaxSpec(heat: Heatmap, k: int)
    ensures var c := ChannelArgmax(heat, k);
      0 <= c.bu < OutW && 0 <= c.bv < OutH &&
      (forall v, u :: 0 <= v < OutH && 0 <= u < OutW ==> heat(v, u, k) <= c.best) &&
      (c.best > -1.0 ==>
         heat(c.bv, c.bu, k) == c.best &&
         forall v, u :: 0 <= v < OutH && 0 <= u < OutW && v * OutW + u < CellIndex(c) ==> heat(v, u, k) < c.best) &&
      ((forall v, u :: 0 <= v < OutH && 0 <= u < OutW ==> heat(v, u, k) <= -1.0) ==>
         c.bu == 0 && c.bv == 0)
  {
    var c := ChannelArgmax(heat, k);
    ArgmaxPrefixSpec(heat, k, Cells);
    forall v, u | 0 <= v < OutH && 0 <= u < OutW
      ensures heat(v, u, k) <= c.best
      ensures v * OutW + u < CellIndex(c) && c.best > -1.0 ==> heat(v, u, k) < c.best
    {
      CellOrder(v, u);
      assert ValueAt(heat, k, v * OutW + u) == heat(v, u, k);
    }
    if c.best > -1.0 {
      CellOrder(c.bv, c.bu);
      assert ValueAt(heat, k, CellIndex(c)) == heat(c.bv, c.bu, k);
    }
  }

  /** Row-major numbering of the heatmap cells is a bijection onto [0, Cells). */
  lemma CellOrder(v: int, u: int)
    requires 0 <= v < OutH && 0 <= u < OutW
    ensures 0 <= v * OutW + u < Cells
    ensures (v * OutW + u) / OutW == v && (v * OutW + u) % OutW == u
  {
  }

  /** Maps cell (bu, bv) of a channel back to image coordinates: the cell
      centre scaled to the 192x256 crop, then scaled to the ROI and offset by
      its top-left corner. The score is the cell's value clamped to [0,1]. */
  function Decode(roi: RectF, c: Cell): (t: Triple)
    ensures 0.0 <= t.score <= 1.0
    ensures 0.0 <= c.best <= 1.0 ==> t.score == c.best
  {
    var xCrop := (c.bu as real + 0.5) * (InW as real / OutW as real);
    var yCrop := (c.bv as real + 0.5) * (InH as real / OutH as real);
    Triple(roi.left + xCrop * (roi.Width() / InW as real),
           roi.top + yCrop * (roi.Height() / InH as real),
           Clamp01(c.best))
  }

  lemma ScaleInside(a: real, n: real, extent: real)
    requires 0.0 < a < n && 0.0 < extent
    ensures 0.0 < a * (extent / n) < extent
  {
    var g := extent / n;
    assert 0.0 < g && extent == n * g;
    assert (n - a) * g > 0.0;
  }

  /** A decoded keypoint lies strictly inside a non-empty ROI and carries a
      score in [0,1]. */
  lemma DecodedInsideRoi(roi: RectF, c: Cell)
    requires 0 <= c.bu < OutW && 0 <= c.bv < OutH
    ensures 0.0 <= Decode(roi, c).score <= 1.0
    ensures roi.Width() > 0.0 ==> roi.left < Decode(roi, c).x < roi.right
    ensures roi.Height() > 0.0 ==> roi.top < Decode(roi, c).y < roi.bottom
  {
    var xCrop := (c.bu as real + 0.5) * (InW as real / OutW as real);
    var yCrop := (c.bv as real + 0.5) * (InH as real / OutH as real);
    if roi.Width() > 0.0 {
      ScaleInside(xCrop, InW as real, roi.Width());
    }
    if roi.Height() > 0.0 {
      ScaleInside(yCrop, InH as real, roi.Height());
    }
  }

  /** The 17 keypoints of a heatmap, in channel order. */
  function Keypoints(roi: RectF, heat: Heatmap): (r: seq<Triple>)
    ensures |r| == NumKp
    ensures forall k :: 0 <= k < NumKp ==> 0.0 <= r[k].score <= 1.0
  {
    seq(NumKp, k => Decode(roi, ChannelArgmax(heat, k)))
  }

  /** Exactly 17 keypoints, each the decoded argmax cell of its channel, each
      score in [0,1], each point inside a non-empty ROI. */
  lemma KeypointsSpec(roi: RectF, heat: Heatmap)
    ensures |Keypoints(roi, heat)| == NumKp
    ensures forall k :: 0 <= k < NumKp ==> 0.0 <= Keypoints(roi, heat)[k].score <= 1.0
    ensures roi.Width() > 0.0 && roi.Height() > 0.0 ==>
              forall k :: 0 <= k < NumKp ==>
                roi.left < Keypoints(roi, heat)[k].x < roi.right &&
                roi.top < Keypoints(roi, heat)[k].y < roi.bottom
  {
    forall k | 0 <= k < NumKp
      ensures 0.0 <= Keypoints(roi, heat)[k].score <= 1.0
      ensures roi.Width() > 0.0 && roi.Height() > 0.0 ==>
                roi.left < Keypoints(roi, heat)[k].x < roi.right &&
                roi.top < Keypoints(roi, heat)[k].y < roi.bottom
    {
      ArgmaxPrefixSpec(heat, k, Cells);
      DecodedInsideRoi(roi, ChannelArgmax(heat, k));
    }
  }

  /** The float tensor fed to HRNet: the frame's clamped ROI resampled to 192x256. */
  function InputTensor(nv21: seq<bv8>, w: int, h: int, roi: RectF): seq<real>
    requires IsNv21Frame(nv21, w, h)
  {
    Plan(nv21, w, h, ClampRoi(roi, w, h), InW, InH).Tensor()
  }

  /** What runHrnet does: returns a list, or throws (a frame too short for the
      reads it makes). */
  datatype HrnetOutcome = Threw | Returned(keypoints: seq<Triple>)

  /** The nested argmax loops of one channel. */
  method ArgmaxChannel(heat: Heatmap, k: int) returns (c: Cell)
    ensures c == ChannelArgmax(heat, k)
  {
    var best := -1.0;
    var bu := 0;
    var bv := 0;
    var v := 0;
    while v < OutH
      invariant 0 <= v <= OutH
      invariant Cell(best, bu, bv) == ArgmaxPrefix(heat, k, v * OutW)
    {
      var u := 0;
      while u < OutW
        invariant 0 <= u <= OutW
        invariant Cell(best, bu, bv) == ArgmaxPrefix(heat, k, v * OutW + u)
      {
        CellOrder(v, u);
        var s := heat(v, u, k);
        if s > best {
          best, bu, bv := s, u, v;
        }
        u := u + 1;
      }
      v := v + 1;
    }
    c := Cell(best, bu, bv);
  }

  class PoseEngine {
    /** Whether the YOLO and HRNet interpreters are non-null. */
    var yoloLoaded: bool
    var hrnetLoaded: bool

    constructor()
      ensures !yoloLoaded && !hrnetLoaded
    {
      yoloLoaded := false;
      hrnetLoaded := false;
    }

    /** Loads whatever is not loaded yet. A YOLO failure is swallowed; an
        HRNet failure propagates (`threw`), after the YOLO attempt. The
        outcome of each model-file load is a parameter. */
    method Load(yoloLoads: bool, hrnetLoads: bool) returns (threw: bool)
      modifies this
      ensures yoloLoaded == (old(yoloLoaded) || yoloLoads)
      ensures hrnetLoaded == (old(hrnetLoaded) || hrnetLoads)
      ensures threw <==> !old(hrnetLoaded) && !hrnetLoads
      ensures IsReady() <==> !threw
    {
      if !yoloLoaded && yoloLoads {
        yoloLoaded := true;
      }
      threw := false;
      if !hrnetLoaded {
        if hrnetLoads {
          hrnetLoaded := true;
        } else {
          threw := true;
        }
      }
    }

    /** Whether the HRNet interpreter is loaded. */
    predicate IsReady()
      reads this
    {
      hrnetLoaded
    }

    /** The "person detector": always the whole frame. */
    function DetectPerson(inputW: int, inputH: int): (r: RectF)
      ensures r.left == 0.0 && r.top == 0.0
      ensures r.Width() == inputW as real && r.Height() == inputH as real
    {
      RectF(0.0, 0.0, inputW as real, inputH as real)
    }

    /** HRNet on the ROI: nothing when no interpreter is loaded; otherwise the
        crop tensor goes through the network (`net`, the interpreter run) and
        the 17 keypoints are decoded from its heatmap in channel order. */
    method RunHrnet(nv21: seq<bv8>, imageWidth: int, imageHeight: int, roi: RectF,
                    net: seq<real> -> Heatmap) returns (r: HrnetOutcome)
      ensures !hrnetLoaded ==> r == Returned([])
      ensures hrnetLoaded && !IsNv21Frame(nv21, imageWidth, imageHeight) ==> r == Threw
      ensures hrnetLoaded && IsNv21Frame(nv21, imageWidth, imageHeight) ==>
                r == Returned(Keypoints(roi, net(InputTensor(nv21, imageWidth, imageHeight, roi))))
    {
      if !hrnetLoaded {
        return Returned([]);
      }
      if !IsNv21Frame(nv21, imageWidth, imageHeight) {
        return Threw;
      }
      var input := new real[InH * InW * 3];
      CropResizeToRgbFloat(nv21, imageWidth, imageHeight, roi, InW, InH, input);
      var heat := net(input[..]);
      var keypoints: seq<Triple> := [];
      var k := 0;
      while k < NumKp
        invariant 0 <= k <= NumKp
        invariant keypoints == Keypoints(roi, heat)[..k]
      {
        var c := ArgmaxChannel(heat, k);
        keypoints := keypoints + [Decode(roi, c)];
        k := k + 1;
      }
      return Returned(keypoints);
    }
  }

  /** The whole-frame box is already inside the frame: the crop's clamp keeps
      it as it is. */
  lemma FullFrameUnclamped(e: PoseEngine, w: int, h: int)
    requires 1 <= w && 1 <= h
    ensures ClampRoi(e.DetectPerson(w, h), w, h) == e.DetectPerson(w, h)
  {
  }
}
