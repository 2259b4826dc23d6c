/**
 The thumbnail crop of `displayCroppedImage`: the largest centred square of an
 image, which is then drawn scaled onto a square thumbnail canvas.
 */
module Thumbnail {
  import opened Arith

  /** The source window of the thumbnail: its top-left corner and its side. */
  datatype Crop = Crop(startX: real, startY: real, side: real)

  /** The crop of an image of size w x h: the square is as large as the shorter
      side allows, fits inside the image, and leaves equal margins on both sides of
      each axis, so it touches the image edges along the shorter axis. */
  function CenterCrop(w: real, h: real): (c: Crop)
    ensures c.side <= w && c.side <= h
    ensures c.side == w || c.side == h
    ensures 0.0 <= c.startX && 0.0 <= c.startY
    ensures c.startX == 0.0 || c.startY == 0.0
    ensures c.startX + c.side <= w && c.startY + c.side <= h
    ensures c.startX == w - (c.startX + c.side) && c.startY == h - (c.startY + c.side)
  {
    var cropSize := Min(w, h);
    Crop((w - cropSize) / 2.0, (h - cropSize) / 2.0, cropSize)
  }
}
