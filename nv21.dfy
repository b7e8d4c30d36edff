/** The NV21 crop-and-resize step of PoseEngine: clamp a region of interest to
    the frame, nearest-sample it onto a dstW x dstH grid, convert every sample
    from full-range YUV to RGB in [0,1], and write the floats row-major as
    R,G,B per pixel into a fixed-size buffer. */
module Nv21 {
  import opened Common

  /** An axis-aligned rectangle with real coordinates (android.graphics.RectF). */
  datatype RectF = RectF(left: real, top: real, right: real, bottom: real) {
    function Width(): real { right - left }
    function Height(): real { bottom - top }
  }

  /** An NV21 frame: a w*h luma plane followed by (w/2)*(h/2) interleaved V,U
      pairs. The sampler reads only within the first w*h*3/2 bytes. */
  predicate IsNv21Frame(nv21: seq<bv8>, w: int, h: int) {
    0 < w && 0 < h && w % 2 == 0 && h % 2 == 0 && w * h * 3 / 2 <= |nv21|
  }

  /** The ROI clamp: the left/top edge into [0, size-1], the right/bottom edge
      into [edge+1, size]. The result is never empty, lies inside the frame,
      and an ROI that already lies inside the frame is kept as it is. */
  function ClampRoi(roi: RectF, srcW: int, srcH: int): (r: RectF)
    ensures 0.0 <= r.left && r.left + 1.0 <= r.right
    ensures 0.0 <= r.top && r.top + 1.0 <= r.bottom
    ensures 1 <= srcW ==> r.left <= (srcW - 1) as real && r.right <= srcW as real
    ensures 1 <= srcH ==> r.top <= (srcH - 1) as real && r.bottom <= srcH as real
    ensures 0.0 <= roi.left && roi.left + 1.0 <= roi.right <= srcW as real ==>
              r.left == roi.left && r.right == roi.right
    ensures 0.0 <= roi.top && roi.top + 1.0 <= roi.bottom <= srcH as real ==>
              r.top == roi.top && r.bottom == roi.bottom
  {
    var left := RMax(0.0, RMin(srcW as real - 1.0, roi.left));
    var top := RMax(0.0, RMin(srcH as real - 1.0, roi.top));
    var right := RMax(left + 1.0, RMin(srcW as real, roi.right));
    var bottom := RMax(top + 1.0, RMin(srcH as real, roi.bottom));
    RectF(left, top, right, bottom)
  }

  /** The source row (or column) sampled for destination index k out of n,
      taken at the centre of the k-th of n equal slices of [lo, lo+extent],
      truncated and clamped into [0, src-1]. */
  function SampleIndex(lo: real, extent: real, n: int, k: int, src: int): (s: int)
    requires 0 < n
    ensures 1 <= src ==> 0 <= s < src
    ensures 0.0 <= lo + (k as real + 0.5) * (extent / n as real) < src as real ==>
              s as real <= lo + (k as real + 0.5) * (extent / n as real) < s as real + 1.0
  {
    IMin(src - 1, IMax(0, ToInt(lo + (k as real + 0.5) * (extent / n as real))))
  }

  /** Offset of the luma byte of pixel (sx, sy). */
  function YIndex(srcW: int, sx: int, sy: int): int { sy * srcW + sx }

  /** Offset of the V byte shared by the 2x2 block holding (sx, sy); U follows it. */
  function VuIndex(srcW: int, srcH: int, sx: int, sy: int): int {
    srcW * srcH + (sy / 2) * srcW + (sx / 2) * 2
  }

  lemma MulLe(x: int, y: int, c: int)
    requires x <= y && 0 <= c
    ensures x * c <= y * c
  {
  }

  lemma LumaInBounds(srcW: int, srcH: int, sx: int, sy: int)
    requires 0 <= sx < srcW && 0 <= sy < srcH
    ensures 0 <= sy * srcW + sx < srcW * srcH
  {
    MulLe(0, sy, srcW);
    MulLe(sy + 1, srcH, srcW);
    assert (sy + 1) * srcW == sy * srcW + srcW;
    assert srcH * srcW == srcW * srcH;
  }

  /** Cell (cx, cy) of an a x b grid stored row by row lies inside it. */
  lemma GridCell(a: int, b: int, cx: int, cy: int)
    requires 0 <= cx < a && 0 <= cy < b
    ensures 0 <= cy * a + cx < a * b
  {
    MulLe(0, cy, a);
    MulLe(cy + 1, b, a);
    assert (cy + 1) * a == cy * a + a;
    assert b * a == a * b;
  }

  lemma Doubled(x: int, a: int, w: int)
    requires w == 2 * a
    ensures x * w == 2 * (x * a)
  {
  }

  /** Every luma read lies in the luma plane, and every V read (at an even
      offset) and its U partner lie in the chroma plane of a w*h*3/2 buffer. */
  lemma Nv21ReadsInBounds(srcW: int, srcH: int, sx: int, sy: int)
    requires 0 < srcW && 0 < srcH && srcW % 2 == 0 && srcH % 2 == 0
    requires 0 <= sx < srcW && 0 <= sy < srcH
    ensures 0 <= YIndex(srcW, sx, sy) < srcW * srcH
    ensures srcW * srcH <= VuIndex(srcW, srcH, sx, sy)
    ensures VuIndex(srcW, srcH, sx, sy) + 1 < srcW * srcH * 3 / 2
    ensures VuIndex(srcW, srcH, sx, sy) % 2 == 0
  {
    LumaInBounds(srcW, srcH, sx, sy);
    var a, b := srcW / 2, srcH / 2;
    var cx, cy := sx / 2, sy / 2;
    GridCell(a, b, cx, cy);
    Doubled(cy, a, srcW);
    Doubled(b, a, srcW);
    assert srcW * srcH == srcH * srcW;
    var area := srcW * srcH;
    var cell := cy * a + cx;
    assert area == 4 * (a * b);
    assert VuIndex(srcW, srcH, sx, sy) == area + 2 * cell;
  }

  datatype Rgb = Rgb(r: real, g: real, b: real)

  /** Full-range BT.601 conversion (the JFIF equations), each channel divided
      by 255 and clamped to [0,1]. */
  function YuvToRgb(y: int, u: int, v: int): (c: Rgb)
    ensures 0.0 <= c.r <= 1.0 && 0.0 <= c.g <= 1.0 && 0.0 <= c.b <= 1.0
  {
    var yf := y as real;
    var uf := (u - 128) as real;
    var vf := (v - 128) as real;
    Rgb(Clamp01((yf + 1.402 * vf) / 255.0),
        Clamp01((yf - 0.344136 * uf - 0.714136 * vf) / 255.0),
        Clamp01((yf + 1.772 * uf) / 255.0))
  }

  /** A sample with neutral chroma (U = V = 128) converts to grey y/255. */
  lemma NeutralChromaIsGrey(y: int)
    requires 0 <= y <= 255
    ensures YuvToRgb(y, 128, 128) == Rgb(y as real / 255.0, y as real / 255.0, y as real / 255.0)
  {
  }

  function Channel(p: Rgb, c: int): real {
    if c == 0 then p.r else if c == 1 then p.g else p.b
  }

  /** The source row (ys[j]) and source column (xs[i]) that each destination
      row and column of a crop reads, inside a frame of the given size. */
  predicate SamplesInside(ys: seq<int>, xs: seq<int>, srcW: int, srcH: int) {
    (forall j :: 0 <= j < |ys| ==> 0 <= ys[j] < srcH) &&
    (forall i :: 0 <= i < |xs| ==> 0 <= xs[i] < srcW)
  }

  /** One crop-and-resize job: the frame, and the source row and column each
      destination row and column samples. Row and Tensor give the floats it
      produces; the destination is |xs| wide and |ys| high. */
  datatype Resample = Resample(nv21: seq<bv8>, srcW: int, srcH: int, ys: seq<int>, xs: seq<int>) {

    predicate Valid() {
      IsNv21Frame(nv21, srcW, srcH) && SamplesInside(ys, xs, srcW, srcH)
    }

    /** The colour of destination pixel (i, j): the luma of its source pixel
        and the chroma of the 2x2 block holding it. */
    function Pixel(j: int, i: int): Rgb
      requires Valid() && 0 <= j < |ys| && 0 <= i < |xs|
    {
      At(ys[j], xs[i])
    }

    /** The colour at source pixel (sx, sy). */
    function At(sy: int, sx: int): Rgb
      requires IsNv21Frame(nv21, srcW, srcH) && 0 <= sx < srcW && 0 <= sy < srcH
    {
      Nv21ReadsInBounds(srcW, srcH, sx, sy);
      var vu := VuIndex(srcW, srcH, sx, sy);
      YuvToRgb(nv21[YIndex(srcW, sx, sy)] as int, nv21[vu + 1] as int, nv21[vu] as int)
    }

    /** The first n pixels of row j, three floats each. */
    function Row(j: int, n: nat): seq<real>
      requires Valid() && 0 <= j < |ys| && n <= |xs|
    {
      if n == 0 then []
      else var p := Pixel(j, n - 1); Row(j, n - 1) + [p.r, p.g, p.b]
    }

    /** The first m rows, one after the other. */
    function Rows(m: nat): seq<real>
      requires Valid() && m <= |ys|
    {
      if m == 0 then [] else Rows(m - 1) + Row(m - 1, |xs|)
    }

    /** The whole destination tensor. */
    function Tensor(): seq<real>
      requires Valid()
    {
      Rows(|ys|)
    }
  }

  /** The job the source runs for a box and a destination size: row j samples
      the centre of the j-th of dstH equal slices of the box's height, column i
      the centre of the i-th of dstW slices of its width. */
  function Plan(nv21: seq<bv8>, srcW: int, srcH: int, box: RectF, dstW: nat, dstH: nat): (job: Resample)
    ensures |job.ys| == dstH && |job.xs| == dstW
    ensures IsNv21Frame(nv21, srcW, srcH) ==> job.Valid()
  {
    var ys := seq(dstH, j requires 0 <= j < dstH => SampleIndex(box.top, box.Height(), dstH, j, srcH));
    var xs := seq(dstW, i requires 0 <= i < dstW => SampleIndex(box.left, box.Width(), dstW, i, srcW));
    Resample(nv21, srcW, srcH, ys, xs)
  }

  /** Destination column i samples source column xs[i] of the box. */
  predicate ColumnsOf(xs: seq<int>, box: RectF, srcW: int) {
    forall i {:trigger SampleIndex(box.left, box.Width(), |xs|, i, srcW)} ::
      0 <= i < |xs| ==> xs[i] == SampleIndex(box.left, box.Width(), |xs|, i, srcW)
  }

  /** Destination row j samples source row ys[j] of the box. */
  predicate RowsOf(ys: seq<int>, box: RectF, srcH: int) {
    forall j {:trigger SampleIndex(box.top, box.Height(), |ys|, j, srcH)} ::
      0 <= j < |ys| ==> ys[j] == SampleIndex(box.top, box.Height(), |ys|, j, srcH)
  }

  lemma PlanSamples(nv21: seq<bv8>, srcW: int, srcH: int, box: RectF, dstW: nat, dstH: nat)
    ensures RowsOf(Plan(nv21, srcW, srcH, box, dstW, dstH).ys, box, srcH)
    ensures ColumnsOf(Plan(nv21, srcW, srcH, box, dstW, dstH).xs, box, srcW)
  {
  }

  lemma {:induction false} RowShape(job: Resample, j: int, n: nat)
    requires job.Valid() && 0 <= j < |job.ys| && n <= |job.xs|
    ensures |job.Row(j, n)| == 3 * n
    ensures forall k :: 0 <= k < |job.Row(j, n)| ==> 0.0 <= job.Row(j, n)[k] <= 1.0
    ensures forall i, c :: 0 <= i < n && 0 <= c < 3 ==> job.Row(j, n)[3 * i + c] == Channel(job.Pixel(j, i), c)
  {
    if n > 0 {
      RowShape(job, j, n - 1);
    }
  }

  lemma NextRowLength(m: int, w: int)
    ensures (m - 1) * w * 3 + 3 * w == m * w * 3
  {
  }

  /** The first m rows hold exactly m*|xs|*3 floats, all in [0,1]. */
  lemma {:induction false} RowsShape(job: Resample, m: nat)
    requires job.Valid() && m <= |job.ys|
    ensures |job.Rows(m)| == m * |job.xs| * 3
    ensures forall k :: 0 <= k < |job.Rows(m)| ==> 0.0 <= job.Rows(m)[k] <= 1.0
  {
    if m > 0 {
      RowsShape(job, m - 1);
      RowShape(job, m - 1, |job.xs|);
      NextRowLength(m, |job.xs|);
    }
  }

  lemma {:induction false} RowsPrefix(job: Resample, m: nat, m': nat)
    requires job.Valid() && m <= m' <= |job.ys|
    ensures job.Rows(m) <= job.Rows(m')
  {
    if m < m' {
      RowsPrefix(job, m, m' - 1);
    }
  }

  /** Row-major layout: channel c of destination pixel (i, j) sits at offset
      (j*dstW + i)*3 + c, with R, G, B in that order. */
  lemma TensorAt(job: Resample, j: int, i: int, c: int)
    requires job.Valid() && 0 <= j < |job.ys| && 0 <= i < |job.xs| && 0 <= c < 3
    ensures (j * |job.xs| + i) * 3 + c < |job.Tensor()|
    ensures job.Tensor()[(j * |job.xs| + i) * 3 + c] == Channel(job.Pixel(j, i), c)
  {
    var w := |job.xs|;
    var before := job.Rows(j);
    var row := job.Row(j, w);
    RowsShape(job, j);
    RowShape(job, j, w);
    RowsPrefix(job, j + 1, |job.ys|);
    var k := (j * w + i) * 3 + c;
    Offset(j, w, i, c);
    assert job.Rows(j + 1) == before + row;
    assert job.Rows(j + 1)[k] == row[3 * i + c];
  }

  lemma Offset(j: int, w: int, i: int, c: int)
    ensures (j * w + i) * 3 + c == j * w * 3 + (3 * i + c)
  {
  }

  lemma RowLengths(rowLen: int, dstW: int, dstH: int)
    requires rowLen == 3 * dstW
    ensures rowLen * dstH == dstW * dstH * 3
  {
  }

  lemma RowFits(rowLen: int, j: int, dstH: int)
    requires 0 <= rowLen && 0 <= j < dstH
    ensures rowLen * (j + 1) == rowLen * j + rowLen <= rowLen * dstH
  {
    MulLe(j + 1, dstH, rowLen);
    assert (j + 1) * rowLen == rowLen * (j + 1);
    assert dstH * rowLen == rowLen * dstH;
  }

  lemma LoopEnd(rowLen: int, j: int, dstH: int, pos: int)
    requires j == dstH && pos == rowLen * j
    ensures pos == rowLen * dstH
  {
  }

  /** Three consecutive `putFloat` calls: R, G, B of one pixel at `pos`. */
  method PutRgb(out: array<real>, pos: nat, px: Rgb)
    requires pos + 3 <= out.Length
    modifies out
    ensures out[..pos + 3] == old(out[..pos]) + [px.r, px.g, px.b]
    ensures out[pos + 3..] == old(out[pos + 3..])
  {
    out[pos] := px.r;
    out[pos + 1] := px.g;
    out[pos + 2] := px.b;
    assert out[..pos + 3] == old(out[..pos]) + [px.r, px.g, px.b];
  }

  /** The body of the inner loop: the source column for destination column i,
      then the three NV21 reads of pixel (sx, sy), whose row sy the outer loop
      has already chosen. */
  method SamplePixel(job: Resample, box: RectF, j: int, i: int, sy: int) returns (px: Rgb)
    requires job.Valid() && 0 <= j < |job.ys| && 0 <= i < |job.xs|
    requires ColumnsOf(job.xs, box, job.srcW) && sy == job.ys[j]
    ensures px == job.Pixel(j, i)
  {
    var srcW, srcH := job.srcW, job.srcH;
    var chy := sy / 2;
    var sx := SampleIndex(box.left, box.Width(), |job.xs|, i, srcW);
    var chx := sx / 2;
    Nv21ReadsInBounds(srcW, srcH, sx, sy);
    var y := job.nv21[sy * srcW + sx];
    var vuIndex := srcW * srcH + chy * srcW + chx * 2;
    var v := job.nv21[vuIndex];
    var u := job.nv21[vuIndex + 1];
    px := YuvToRgb(y as int, u as int, v as int);
  }

  /** One pass of the inner loop: pixel (i, j) sampled and its three floats
      appended after the first i pixels of row j. */
  method AppendPixel(job: Resample, box: RectF, j: int, i: int, sy: int, out: array<real>, pos: nat, ghost prefix: seq<real>)
    requires job.Valid() && 0 <= j < |job.ys| && 0 <= i < |job.xs|
    requires ColumnsOf(job.xs, box, job.srcW) && sy == job.ys[j]
    requires pos + 3 <= out.Length
    requires out[..pos] == prefix + job.Row(j, i)
    modifies out
    ensures out[..pos + 3] == prefix + job.Row(j, i + 1)
    ensures out[pos + 3..] == old(out[pos + 3..])
  {
    var px := SamplePixel(job, box, j, i, sy);
    PutRgb(out, pos, px);
  }

  /** The inner loop of the crop: appends the floats of destination row j
      (source row sy) at `rowStart`, after the floats already there. */
  method FillRow(job: Resample, box: RectF, j: int, sy: int, out: array<real>, rowStart: nat, ghost prefix: seq<real>)
    requires job.Valid() && 0 <= j < |job.ys|
    requires ColumnsOf(job.xs, box, job.srcW) && sy == job.ys[j]
    requires rowStart + 3 * |job.xs| <= out.Length
    requires out[..rowStart] == prefix
    modifies out
    ensures out[..rowStart + 3 * |job.xs|] == prefix + job.Row(j, |job.xs|)
    ensures out[rowStart + 3 * |job.xs|..] == old(out[rowStart + 3 * |job.xs|..])
  {
    var pos := rowStart;
    var i := 0;
    while i < |job.xs|
      invariant 0 <= i <= |job.xs|
      invariant pos == rowStart + 3 * i
      invariant out[..pos] == prefix + job.Row(j, i)
      invariant out[rowStart + 3 * |job.xs|..] == old(out[rowStart + 3 * |job.xs|..])
    {
      AppendPixel(job, box, j, i, sy, out, pos, prefix);
      pos := pos + 3;
      i := i + 1;
    }
  }

  /** One pass of the outer loop: the source row for destination row j, then
      that row's floats appended after the first j rows. */
  method FillNextRow(job: Resample, box: RectF, j: int, out: array<real>, pos: nat)
    requires job.Valid() && 0 <= j < |job.ys|
    requires RowsOf(job.ys, box, job.srcH) && ColumnsOf(job.xs, box, job.srcW)
    requires pos + 3 * |job.xs| <= out.Length
    requires out[..pos] == job.Rows(j)
    modifies out
    ensures out[..pos + 3 * |job.xs|] == job.Rows(j + 1)
    ensures out[pos + 3 * |job.xs|..] == old(out[pos + 3 * |job.xs|..])
  {
    var sy := SampleIndex(box.top, box.Height(), |job.ys|, j, job.srcH);
    FillRow(job, box, j, sy, out, pos, job.Rows(j));
  }

  /** The outer loop of the crop: every destination row in turn, so that
      `out` ends up holding the job's whole tensor. */
  method FillRows(job: Resample, box: RectF, out: array<real>)
    requires job.Valid() && RowsOf(job.ys, box, job.srcH) && ColumnsOf(job.xs, box, job.srcW)
    requires out.Length == |job.xs| * |job.ys| * 3
    modifies out
    ensures out[..] == job.Tensor()
  {
    ghost var rowLen := 3 * |job.xs|;
    RowLengths(rowLen, |job.xs|, |job.ys|);
    var pos := 0;
    var j := 0;
    while j < |job.ys|
      invariant 0 <= j <= |job.ys|
      invariant 0 <= pos == rowLen * j
      invariant out[..pos] == job.Rows(j)
    {
      RowFits(rowLen, j, |job.ys|);
      FillNextRow(job, box, j, out, pos);
      pos := pos + 3 * |job.xs|;
      j := j + 1;
    }
    LoopEnd(rowLen, j, |job.ys|, pos);
    assert out[..] == out[..pos];
  }

  /** The crop-and-resize of the source: `out` ends up holding the tensor of
      the clamped ROI, every float written once in row-major R,G,B order. */
  method CropResizeToRgbFloat(nv21: seq<bv8>, srcW: int, srcH: int, roi: RectF,
                              dstW: nat, dstH: nat, out: array<real>)
    requires IsNv21Frame(nv21, srcW, srcH)
    requires out.Length == dstW * dstH * 3
    modifies out
    ensures out[..] == Plan(nv21, srcW, srcH, ClampRoi(roi, srcW, srcH), dstW, dstH).Tensor()
  {
    var box := ClampRoi(roi, srcW, srcH);
    var job := Plan(nv21, srcW, srcH, box, dstW, dstH);
    PlanSamples(nv21, srcW, srcH, box, dstW, dstH);
    FillRows(job, box, out);
  }
}
