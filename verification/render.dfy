/**
 The geometry of `drawBoundingBoxes`: the canvas is resized to the image, the
 letterbox transform is recomputed from it, and every detection is drawn as a
 rectangle in image pixels with its class name written just above it.
 */
module Render {
  import opened Boxes
  import opened Letterbox
  import opened Scores
  import opened Postprocess

  /** How far above a rectangle's top edge its class name is written. */
  const LabelRaise: real := 7.0

  /** One drawn detection: the stroked rectangle and where its name is written. */
  datatype Mark = Mark(rect: Box, name: string, textX: real, textY: real)

  /** The marks drawn for an image of size w x h: one per detection, in order, each
      rectangle being the image-space box whose letterbox placement is the
      detection's frame box, labelled with the detection's name at its top-left
      corner, raised by LabelRaise. */
  function DrawBoundingBoxes(w: real, h: real, ds: seq<Detection>): (marks: seq<Mark>)
    requires w > 0.0 && h > 0.0
    ensures |marks| == |ds|
    ensures forall k :: 0 <= k < |ds| ==> PlaceBox(marks[k].rect, Preprocess(w, h)) == ds[k].box
    ensures forall k :: 0 <= k < |ds| ==> marks[k].name == ds[k].name
    ensures forall k :: 0 <= k < |ds| ==>
              marks[k].textX == marks[k].rect[0] && marks[k].textY + LabelRaise == marks[k].rect[1]
  {
    var t := DrawTransform(Canvas(w, h));  // the canvas is resized to the image
    var marks := seq(|ds|, k requires 0 <= k < |ds| =>
      var r := RemapBox(ds[k].box, t);
      Mark(r, ds[k].name, r[0], r[1] - LabelRaise));
    forall k | 0 <= k < |ds|
      ensures PlaceBox(marks[k].rect, Preprocess(w, h)) == ds[k].box
    {
      PlacementInvertsRemap(w, h, ds[k].box);
    }
    marks
  }

  /** End to end: whenever the detector reports, in centre form, a frame box `f`
      for a candidate that suppression keeps, the rectangle drawn for it is the
      image-space box whose letterbox placement is `f`, named after a best class
      of that candidate. */
  lemma DetectedBoxIsDrawnAtImageBox(w: real, h: real, f: Box, rows: seq<Row>, classNames: seq<string>,
                                     indices: seq<nat>, k: nat)
    requires w > 0.0 && h > 0.0
    requires 0 < |classNames| && WellFormed(rows, |classNames|) && |rows| != 1
    requires forall j :: 0 <= j < |indices| ==> indices[j] < |rows|
    requires k < |indices|
    requires rows[indices[k]][..4] == CenterForm(f)
    ensures var r := ProcessPredictions(rows, classNames, indices);
            && r.Detected?
            && (forall b: Box :: PlaceBox(b, Preprocess(w, h)) == f ==>
                  DrawBoundingBoxes(w, h, r.detections)[k].rect == b)
            && exists c: nat :: IsBestClass(rows[indices[k]], |classNames|, c)
                                && DrawBoundingBoxes(w, h, r.detections)[k].name == classNames[c]
  {
    var row := rows[indices[k]];
    var ds := ProcessPredictions(rows, classNames, indices).detections;
    CornerCenterRoundTrip(f, row);
    CornerOfIsUnique(ds[k].box, CornerBox(row), row);
    var rect := DrawBoundingBoxes(w, h, ds)[k].rect;
    assert PlaceBox(rect, Preprocess(w, h)) == f;
    forall b: Box | PlaceBox(b, Preprocess(w, h)) == f
      ensures rect == b
    {
      PlacementIsInjective(rect, b, Preprocess(w, h));
    }
  }
}
