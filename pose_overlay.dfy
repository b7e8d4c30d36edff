/** The skeleton overlay: a pose in image coordinates is letterboxed
    (fit-centre) onto the canvas, mirrored for the front camera, and drawn as
    the edges and points whose scores clear the visibility threshold. */
module Overlay {
  import opened Common

  datatype Keypoint = Keypoint(x: real, y: real, score: real)

  /** Keypoints keyed by ML Kit landmark id, in an image of width x height. */
  datatype PoseOverlay = PoseOverlay(keypoints: map<int, Keypoint>, width: int, height: int, isFrontCamera: bool)

  /** The letterbox placement of the image on the canvas. */
  datatype Layout = Layout(scale: real, contentW: real, contentH: real, dx: real, dy: real)

  /** Fit-centre: the largest uniform scale at which the image fits, the
      scaled image centred on both axes. */
  function FitCentre(canvasW: real, canvasH: real, w: int, h: int): (l: Layout)
    requires w != 0 && h != 0
    ensures l.scale <= canvasW / w as real && l.scale <= canvasH / h as real
    ensures l.scale == canvasW / w as real || l.scale == canvasH / h as real
    ensures 2.0 * l.dx + l.contentW == canvasW && 2.0 * l.dy + l.contentH == canvasH
  {
    var scale := RMin(canvasW / w as real, canvasH / h as real);
    var contentW := w as real * scale;
    var contentH := h as real * scale;
    Layout(scale, contentW, contentH, (canvasW - contentW) / 2.0, (canvasH - contentH) / 2.0)
  }

  lemma ScaledFits(n: real, c: real, s: real)
    requires 0.0 < n && 0.0 <= s <= c / n
    ensures 0.0 <= n * s <= c
  {
    assert n * (c / n) == c;
  }

  /** The scaled image keeps its aspect ratio, fits inside the canvas with
      non-negative margins, is centred, and fills the canvas along at least one
      axis. */
  lemma FitCentreSpec(canvasW: real, canvasH: real, w: int, h: int)
    requires 0 < w && 0 < h && 0.0 <= canvasW && 0.0 <= canvasH
    ensures var l := FitCentre(canvasW, canvasH, w, h);
      0.0 <= l.scale &&
      l.contentW * h as real == l.contentH * w as real &&
      0.0 <= l.contentW <= canvasW && 0.0 <= l.contentH <= canvasH &&
      0.0 <= l.dx && 0.0 <= l.dy &&
      2.0 * l.dx + l.contentW == canvasW && 2.0 * l.dy + l.contentH == canvasH &&
      (l.contentW == canvasW || l.contentH == canvasH)
  {
    var l := FitCentre(canvasW, canvasH, w, h);
    var sx, sy := canvasW / w as real, canvasH / h as real;
    assert 0.0 <= sx && 0.0 <= sy;
    ScaledFits(w as real, canvasW, l.scale);
    ScaledFits(h as real, canvasH, l.scale);
    assert w as real * sx == canvasW;
    assert h as real * sy == canvasH;
  }

  /** Horizontal position on the canvas; the front camera mirrors x inside
      the content box. */
  function MapX(l: Layout, isFront: bool, x: real): (r: real)
    ensures !isFront ==> r - l.dx == x * l.scale
    ensures isFront ==> (r - l.dx) + x * l.scale == l.contentW
    ensures 0.0 <= x * l.scale <= l.contentW ==> l.dx <= r <= l.dx + l.contentW
  {
    var v := x * l.scale;
    if isFront then l.dx + (l.contentW - v) else l.dx + v
  }

  /** Vertical position on the canvas; never mirrored. */
  function MapY(l: Layout, y: real): (r: real)
    ensures 0.0 <= y * l.scale <= l.contentH ==> l.dy <= r <= l.dy + l.contentH
  {
    l.dy + y * l.scale
  }

  /** Mirroring: the front camera draws x where the back camera draws w - x. */
  lemma MirrorSpec(canvasW: real, canvasH: real, w: int, h: int, x: real)
    requires w != 0 && h != 0
    ensures var l := FitCentre(canvasW, canvasH, w, h);
      MapX(l, true, x) == MapX(l, false, w as real - x)
  {
    var l := FitCentre(canvasW, canvasH, w, h);
    assert (w as real - x) * l.scale == w as real * l.scale - x * l.scale;
  }

  lemma MulBetween(a: real, n: real, s: real)
    requires 0.0 <= a <= n && 0.0 <= s
    ensures 0.0 <= a * s <= n * s
  {
  }

  /** A point inside the image lands inside the content box, hence on the
      canvas, with either camera. */
  lemma MappedInside(canvasW: real, canvasH: real, w: int, h: int, isFront: bool, x: real, y: real)
    requires 0 < w && 0 < h && 0.0 <= canvasW && 0.0 <= canvasH
    requires 0.0 <= x <= w as real && 0.0 <= y <= h as real
    ensures var l := FitCentre(canvasW, canvasH, w, h);
      l.dx <= MapX(l, isFront, x) <= l.dx + l.contentW <= canvasW &&
      l.dy <= MapY(l, y) <= l.dy + l.contentH <= canvasH
  {
    var l := FitCentre(canvasW, canvasH, w, h);
    FitCentreSpec(canvasW, canvasH, w, h);
    MulBetween(x, w as real, l.scale);
    MulBetween(y, h as real, l.scale);
  }

  /** Drawn iff the score is strictly above 0.4. */
  predicate Visible(k: Keypoint) {
    k.score > 0.4
  }

  /** The 17 skeleton edges as pairs of COCO keypoint indices (0 nose, 1/2
      eyes, 3/4 ears, 5/6 shoulders, 7/8 elbows, 9/10 wrists, 11/12 hips,
      13/14 knees, 15/16 ankles; odd = left), in drawing order: torso, arms,
      legs, head. */
  const CocoEdges: seq<(int, int)> := [
    (5, 6), (11, 12), (5, 11), (6, 12),
    (5, 7), (7, 9), (6, 8), (8, 10),
    (11, 13), (13, 15), (12, 14), (14, 16),
    (1, 2), (0, 1), (0, 2), (3, 1), (4, 2)]

  /** The ML Kit landmark ids for the 17 COCO keypoints, in COCO order. */
  predicate IsLandmarkTable(ids: seq<int>) {
    |ids| == 17 && forall i, j :: 0 <= i < j < |ids| ==> ids[i] != ids[j]
  }

  /** The edges as pairs of landmark ids. */
  function Connections(ids: seq<int>): (r: seq<(int, int)>)
    requires |ids| == 17
    ensures |r| == |CocoEdges|
    ensures forall e :: 0 <= e < |r| ==> r[e] == (ids[CocoEdges[e].0], ids[CocoEdges[e].1])
  {
    seq(|CocoEdges|, e requires 0 <= e < |CocoEdges| => (ids[CocoEdges[e].0], ids[CocoEdges[e].1]))
  }

  /** An edge is drawn iff both endpoints are present and both are visible. */
  predicate EdgeShown(kps: map<int, Keypoint>, a: int, b: int) {
    a in kps && b in kps && Visible(kps[a]) && Visible(kps[b])
  }

  datatype Point = Point(x: real, y: real)
  datatype Line = Line(start: Point, end: Point)

  /** What one frame draws: lines in edge order, and one circle per shown
      landmark id. */
  datatype Drawing = Drawing(lines: seq<Line>, points: map<int, Point>)

  function Place(l: Layout, isFront: bool, k: Keypoint): Point {
    Point(MapX(l, isFront, k.x), MapY(l, k.y))
  }

  /** The lines for the edges, skipping the edges that are not shown. */
  function EdgeLines(l: Layout, pose: PoseOverlay, edges: seq<(int, int)>): (r: seq<Line>)
    ensures |r| <= |edges|
  {
    if edges == [] then []
    else
      var rest := EdgeLines(l, pose, edges[1..]);
      var (a, b) := edges[0];
      if EdgeShown(pose.keypoints, a, b)
      then [Line(Place(l, pose.isFrontCamera, pose.keypoints[a]), Place(l, pose.isFrontCamera, pose.keypoints[b]))] + rest
      else rest
  }

  /** The drawing of a (possibly absent) pose on a canvas. */
  function Render(pose: Option<PoseOverlay>, canvasW: real, canvasH: real, ids: seq<int>): (d: Drawing)
    requires |ids| == 17
    ensures pose.None? ==> d == Drawing([], map[])
    ensures |d.lines| <= |CocoEdges|
    ensures forall id :: id in d.points ==> pose.Some? && id in pose.value.keypoints && pose.value.keypoints[id].score > 0.4
  {
    if pose.None? || pose.value.width == 0 || pose.value.height == 0 then Drawing([], map[])
    else
      var p := pose.value;
      var l := FitCentre(canvasW, canvasH, p.width, p.height);
      Drawing(EdgeLines(l, p, Connections(ids)),
              map id | id in p.keypoints && Visible(p.keypoints[id]) :: Place(l, p.isFrontCamera, p.keypoints[id]))
  }

  /** Every line comes from a shown edge, and every shown edge yields a line;
      a list of n edges never gives more than n lines. */
  lemma {:induction false} EdgeLinesSpec(l: Layout, pose: PoseOverlay, edges: seq<(int, int)>)
    ensures |EdgeLines(l, pose, edges)| <= |edges|
    ensures forall ln :: ln in EdgeLines(l, pose, edges) <==>
              exists e :: e in edges && EdgeShown(pose.keypoints, e.0, e.1) &&
                ln == Line(Place(l, pose.isFrontCamera, pose.keypoints[e.0]), Place(l, pose.isFrontCamera, pose.keypoints[e.1]))
  {
    if edges != [] {
      EdgeLinesSpec(l, pose, edges[1..]);
      assert forall e :: e in edges <==> e == edges[0] || e in edges[1..];
    }
  }

  /** Nothing is drawn without a pose or for a zero-sized image; otherwise a
      landmark gets a circle iff it is present with score above 0.4, at its
      mapped position, and there is one line per shown edge and no other. */
  lemma RenderSpec(pose: Option<PoseOverlay>, canvasW: real, canvasH: real, ids: seq<int>)
    requires |ids| == 17
    ensures pose.None? || pose.value.width == 0 || pose.value.height == 0 ==>
              Render(pose, canvasW, canvasH, ids) == Drawing([], map[])
    ensures pose.Some? && pose.value.width != 0 && pose.value.height != 0 ==>
              var p := pose.value;
              var d := Render(pose, canvasW, canvasH, ids);
              var l := FitCentre(canvasW, canvasH, p.width, p.height);
              |d.lines| <= 17 &&
              (forall id :: id in d.points <==> id in p.keypoints && p.keypoints[id].score > 0.4) &&
              (forall id :: id in d.points ==> d.points[id] == Point(MapX(l, p.isFrontCamera, p.keypoints[id].x), MapY(l, p.keypoints[id].y))) &&
              (forall e :: 0 <= e < 17 && EdgeShown(p.keypoints, ids[CocoEdges[e].0], ids[CocoEdges[e].1]) ==>
                 Line(Place(l, p.isFrontCamera, p.keypoints[ids[CocoEdges[e].0]]),
                      Place(l, p.isFrontCamera, p.keypoints[ids[CocoEdges[e].1]])) in d.lines)
  {
    if pose.Some? && pose.value.width != 0 && pose.value.height != 0 {
      var p := pose.value;
      var l := FitCentre(canvasW, canvasH, p.width, p.height);
      var conns := Connections(ids);
      EdgeLinesSpec(l, p, conns);
      forall e | 0 <= e < 17 && EdgeShown(p.keypoints, ids[CocoEdges[e].0], ids[CocoEdges[e].1])
        ensures Line(Place(l, p.isFrontCamera, p.keypoints[ids[CocoEdges[e].0]]),
                     Place(l, p.isFrontCamera, p.keypoints[ids[CocoEdges[e].1]])) in EdgeLines(l, p, conns)
      {
        assert conns[e] in conns;
      }
    }
  }
}
