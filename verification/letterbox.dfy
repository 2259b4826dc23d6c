/**
 The letterbox transform of `imageToTensor` and its inverse in `drawBoundingBoxes`.

 Before inference an image of width W and height H is scaled by one common factor
 so that it fits the TargetWidth x TargetHeight frame, and drawn centred on a
 black background. After inference every detected box, which is in frame
 coordinates, is mapped back into image pixels by undoing that placement. The
 draw-time code does not receive the preprocessing values: it recomputes them
 from the drawing canvas, which it has first resized to the image's own size.
 */
module Letterbox {
  import opened Arith
  import opened Boxes

  /** The model's fixed input size. */
  const TargetWidth: real := 640.0
  const TargetHeight: real := 640.0

  /** Where the image lands in the frame: the scale factor, the top-left corner
      (dx, dy) at which it is drawn, and its drawn width and height. */
  datatype Placement = Placement(scale: real, dx: real, dy: real, width: real, height: real)

  /** The drawing canvas of `drawBoundingBoxes`. */
  datatype Canvas = Canvas(width: real, height: real)

  /** The scale and offsets `drawBoundingBoxes` recomputes from its canvas. */
  datatype Transform = Transform(scale: real, dx: real, dy: real)

  /** The scale factor of `imageToTensor`: the largest factor at which the whole
      image still fits the frame, i.e. the smaller of the two axis ratios. */
  function ScaleFactor(w: real, h: real): (s: real)
    requires w > 0.0 && h > 0.0
    ensures s > 0.0
    ensures s <= TargetWidth / w && s <= TargetHeight / h
    ensures s == TargetWidth / w || s == TargetHeight / h
  {
    Min(TargetWidth / w, TargetHeight / h)
  }

  /** Scaling a positive length by at most Target / length keeps it within Target,
      with equality exactly at the ratio itself. */
  lemma ScaledWithin(len: real, target: real, s: real)
    requires len > 0.0 && target > 0.0
    requires 0.0 < s <= target / len
    ensures len * s <= target
    ensures s == target / len ==> len * s == target
  {
  }

  /** The placement computed by `imageToTensor` for an image of size w x h. */
  function Preprocess(w: real, h: real): (p: Placement)
    requires w > 0.0 && h > 0.0
    ensures p.scale == ScaleFactor(w, h)
    ensures p.width <= TargetWidth && p.height <= TargetHeight
    ensures p.width == TargetWidth || p.height == TargetHeight
    ensures p.width * h == p.height * w
    ensures 0.0 <= p.dx && 0.0 <= p.dy
    ensures p.dx == 0.0 || p.dy == 0.0
    ensures p.dx + p.width + p.dx == TargetWidth
    ensures p.dy + p.height + p.dy == TargetHeight
  {
    var scaleFactor := ScaleFactor(w, h);
    var scaledWidth := w * scaleFactor;
    var scaledHeight := h * scaleFactor;
    ScaledWithin(w, TargetWidth, scaleFactor);
    ScaledWithin(h, TargetHeight, scaleFactor);
    Placement(scaleFactor,
              (TargetWidth - scaledWidth) / 2.0,
              (TargetHeight - scaledHeight) / 2.0,
              scaledWidth,
              scaledHeight)
  }

  /** A square image is resized to fill the frame, with no padding. */
  lemma SquareImageIsNotPadded(side: real)
    requires side > 0.0
    ensures Preprocess(side, side).dx == 0.0 && Preprocess(side, side).dy == 0.0
    ensures Preprocess(side, side).width == TargetWidth
    ensures Preprocess(side, side).height == TargetHeight
  {
  }

  /** The scale and offsets `drawBoundingBoxes` derives from its canvas size. */
  function DrawTransform(c: Canvas): (t: Transform)
    requires c.width > 0.0 && c.height > 0.0
    ensures t.scale > 0.0
  {
    var resizeScale := Min(TargetWidth / c.width, TargetHeight / c.height);
    Transform(resizeScale,
              (TargetWidth - c.width * resizeScale) / 2.0,
              (TargetHeight - c.height * resizeScale) / 2.0)
  }

  /** With the canvas resized to the image, the draw-time transform is the very
      scale and offset pair preprocessing used, so the two never drift apart. */
  lemma DrawTransformMatchesPreprocess(w: real, h: real)
    requires w > 0.0 && h > 0.0
    ensures DrawTransform(Canvas(w, h)).scale == Preprocess(w, h).scale
    ensures DrawTransform(Canvas(w, h)).dx == Preprocess(w, h).dx
    ensures DrawTransform(Canvas(w, h)).dy == Preprocess(w, h).dy
  {
  }

  /** Where the frame shows a box given in image pixels, under placement p:
      the image-to-frame map that drawing the image at (dx, dy) with scale p.scale
      applies. One factor scales the box's size and its distance from the image
      corner alike, so the box keeps its shape and its relative position. */
  function PlaceBox(b: Box, p: Placement): (f: Box)
    ensures f[2] * b[3] == f[3] * b[2]
    ensures (f[0] - p.dx) * b[2] == f[2] * b[0]
    ensures (f[1] - p.dy) * b[3] == f[3] * b[1]
  {
    [b[0] * p.scale + p.dx, b[1] * p.scale + p.dy, b[2] * p.scale, b[3] * p.scale]
  }

  /** The whole image, placed, is exactly the rectangle `imageToTensor` draws into. */
  lemma PlaceWholeImage(w: real, h: real)
    requires w > 0.0 && h > 0.0
    ensures var p := Preprocess(w, h);
            PlaceBox([0.0, 0.0, w, h], p) == [p.dx, p.dy, p.width, p.height]
  {
    var p := Preprocess(w, h);
    var f := PlaceBox([0.0, 0.0, w, h], p);
    assert f[0] == p.dx && f[1] == p.dy;
    assert f[2] == p.width && f[3] == p.height;
  }

  /** A box inside the image lands inside the frame. */
  lemma PlacedBoxInsideFrame(w: real, h: real, b: Box)
    requires w > 0.0 && h > 0.0
    requires 0.0 <= b[0] && 0.0 <= b[2] && b[0] + b[2] <= w
    requires 0.0 <= b[1] && 0.0 <= b[3] && b[1] + b[3] <= h
    ensures var f := PlaceBox(b, Preprocess(w, h));
            && 0.0 <= f[0] && 0.0 <= f[2] && f[0] + f[2] <= TargetWidth
            && 0.0 <= f[1] && 0.0 <= f[3] && f[1] + f[3] <= TargetHeight
  {
    var p := Preprocess(w, h);
    SpanScales(b[0], b[2], w, p.scale);
    SpanScales(b[1], b[3], h, p.scale);
  }

  /** An interval [start, start + len] inside [0, extent] stays inside [0, extent * s]
      when scaled by a positive s. */
  lemma SpanScales(start: real, len: real, extent: real, s: real)
    requires 0.0 <= start && 0.0 <= len && start + len <= extent
    requires s > 0.0
    ensures 0.0 <= start * s && 0.0 <= len * s
    ensures start * s + len * s <= extent * s
  {
  }

  /** The per-detection remapping of `drawBoundingBoxes`: a frame box back to image
      pixels. Its result is the box whose placement under t is the input box. */
  function RemapBox(f: Box, t: Transform): (b: Box)
    requires t.scale > 0.0
    ensures b[0] * t.scale + t.dx == f[0]
    ensures b[1] * t.scale + t.dy == f[1]
    ensures b[2] * t.scale == f[2]
    ensures b[3] * t.scale == f[3]
  {
    [f[0] / t.scale - t.dx / t.scale,
     f[1] / t.scale - t.dy / t.scale,
     f[2] / t.scale,
     f[3] / t.scale]
  }

  /** Remapping with a transform that agrees with a placement undoes that placement. */
  lemma RemapUndoesPlace(b: Box, p: Placement, t: Transform)
    requires t.scale > 0.0
    requires t.scale == p.scale && t.dx == p.dx && t.dy == p.dy
    ensures RemapBox(PlaceBox(b, p), t) == b
  {
    var r := RemapBox(PlaceBox(b, p), t);
    forall i | 0 <= i < 4
      ensures r[i] == b[i]
    {
      CancelScale(r[i], b[i], p.scale);
    }
  }

  /** Round trip: placing an image box and remapping it at draw time gives back the
      original box exactly. */
  lemma RemapInvertsPlacement(w: real, h: real, b: Box)
    requires w > 0.0 && h > 0.0
    ensures RemapBox(PlaceBox(b, Preprocess(w, h)), DrawTransform(Canvas(w, h))) == b
  {
    DrawTransformMatchesPreprocess(w, h);
    RemapUndoesPlace(b, Preprocess(w, h), DrawTransform(Canvas(w, h)));
  }

  /** The other direction: remapping a frame box and placing the result again gives
      back the frame box, so remapping is a bijection between the two frames. */
  lemma PlacementInvertsRemap(w: real, h: real, f: Box)
    requires w > 0.0 && h > 0.0
    ensures PlaceBox(RemapBox(f, DrawTransform(Canvas(w, h))), Preprocess(w, h)) == f
  {
    DrawTransformMatchesPreprocess(w, h);
    var g := PlaceBox(RemapBox(f, DrawTransform(Canvas(w, h))), Preprocess(w, h));
    assert forall i | 0 <= i < 4 :: g[i] == f[i];
  }

  /** Under any placement with a positive scale, distinct image boxes land on
      distinct frame boxes. */
  lemma PlacementIsInjective(b: Box, b': Box, p: Placement)
    requires p.scale > 0.0
    requires PlaceBox(b, p) == PlaceBox(b', p)
    ensures b == b'
  {
    var t := Transform(p.scale, p.dx, p.dy);
    RemapUndoesPlace(b, p, t);
    RemapUndoesPlace(b', p, t);
  }

  /** Multiplying by a non-zero scale is injective. */
  lemma CancelScale(x: real, y: real, s: real)
    requires s != 0.0
    requires x * s == y * s
    ensures x == y
  {
  }
}
