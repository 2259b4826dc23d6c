/**
 `processPredictions`: from the transposed raw prediction (one row per candidate)
 and the class table to the list of detections handed to the renderer.

 Non-maximum suppression is the numeric library's; its result enters this model
 as the parameter `indices`, any sequence of valid row indices.
 */
module Postprocess {
  import opened Boxes
  import opened Scores

  /** A detection as `extractSelectedPredictions` builds it: a corner-form box in
      frame coordinates and the class name of its label. */
  datatype Detection = Detection(box: Box, name: string)

  /** Every row carries the four box channels and one channel per class. */
  ghost predicate WellFormed(rows: seq<Row>, numClasses: nat)
  {
    forall i :: 0 <= i < |rows| ==> 4 + numClasses <= |rows[i]|
  }

  /** `calculateBoundingBoxes`: the corner form of every row, in row order. */
  function BoundingBoxes(rows: seq<Row>): (boxes: seq<Box>)
    requires WellFormed(rows, 0)
    ensures |boxes| == |rows|
    ensures forall i :: 0 <= i < |rows| ==> IsCornerOf(boxes[i], rows[i])
  {
    seq(|rows|, i requires 0 <= i < |rows| => CornerBox(rows[i]))
  }

  /** `calculateScoresAndLabels`: for every row, its best score and a label index
      attaining it, read from the class channels only. */
  function ScoresAndLabels(rows: seq<Row>, classNames: seq<string>): (r: (seq<real>, seq<nat>))
    requires 0 < |classNames|
    requires WellFormed(rows, |classNames|)
    ensures |r.0| == |rows| && |r.1| == |rows|
    ensures forall i :: 0 <= i < |rows| ==> IsScoreAndLabel(rows[i], |classNames|, r.0[i], r.1[i])
  {
    var numClasses := |classNames|;
    var scores := seq(|rows|, i requires 0 <= i < |rows| => RowScore(rows[i], numClasses));
    var labels := seq(|rows|, i requires 0 <= i < |rows| => RowLabel(rows[i], numClasses));
    forall i | 0 <= i < |rows|
      ensures IsScoreAndLabel(rows[i], numClasses, scores[i], labels[i])
    {
      RowReduction(rows[i], numClasses);
    }
    (scores, labels)
  }

  /** Every kept index selects a box and a label, and every label names a class. */
  ghost predicate Selectable(indices: seq<nat>, boxes: seq<Box>, labels: seq<nat>, classNames: seq<string>)
  {
    forall k :: 0 <= k < |indices| ==>
      && indices[k] < |boxes|
      && indices[k] < |labels|
      && labels[indices[k]] < |classNames|
  }

  /** `extractSelectedPredictions`: one detection per kept index, in index order,
      carrying that row's box and the name of that row's label. */
  function ExtractSelected(indices: seq<nat>, boxes: seq<Box>, labels: seq<nat>, classNames: seq<string>)
    : (ds: seq<Detection>)
    requires Selectable(indices, boxes, labels, classNames)
    ensures |ds| == |indices|
    ensures forall k :: 0 <= k < |indices| ==>
              ds[k] == Detection(boxes[indices[k]], classNames[labels[indices[k]]])
  {
    if |indices| == 0 then []
    else
      var i := indices[0];
      [Detection(boxes[i], classNames[labels[i]])]
        + ExtractSelected(indices[1..], boxes, labels, classNames)
  }

  /** The result of `processPredictions`: the detections, or the library's refusal
      when the prediction holds a single candidate. The `squeeze()` at the end of
      `calculateBoundingBoxes` then drops the candidate axis too, and suppression
      and the per-index slice need a two-dimensional box tensor. */
  datatype Outcome = Detected(detections: seq<Detection>) | SingleCandidateRejected

  /** `processPredictions` with the suppression result `indices` given: each kept
      candidate becomes the corner form of its row's box, named after a best class
      of that row; a one-candidate prediction is refused. */
  function ProcessPredictions(rows: seq<Row>, classNames: seq<string>, indices: seq<nat>)
    : (r: Outcome)
    requires 0 < |classNames|
    requires WellFormed(rows, |classNames|)
    requires forall k :: 0 <= k < |indices| ==> indices[k] < |rows|
    ensures r.SingleCandidateRejected? <==> |rows| == 1
    ensures r.Detected? ==> |r.detections| == |indices|
    ensures r.Detected? ==>
              forall k :: 0 <= k < |indices| ==> IsCornerOf(r.detections[k].box, rows[indices[k]])
    ensures r.Detected? ==>
              forall k :: 0 <= k < |indices| ==>
                exists c: nat :: IsBestClass(rows[indices[k]], |classNames|, c)
                                 && r.detections[k].name == classNames[c]
  {
    if |rows| == 1 then SingleCandidateRejected
    else
      var boxes := BoundingBoxes(rows);
      var (scores, labels) := ScoresAndLabels(rows, classNames);
      var ds := ExtractSelected(indices, boxes, labels, classNames);
      assert forall k :: 0 <= k < |indices| ==>
               IsBestClass(rows[indices[k]], |classNames|, labels[indices[k]])
               && ds[k].name == classNames[labels[indices[k]]];
      Detected(ds)
  }

  /** A candidate centred at (320, 320), 100 x 100, whose score is highest on the
      third of three classes, becomes, when suppression keeps it, a detection with
      corner box (270, 270, 100, 100) named after the third class. */
  lemma KeptCandidateExample(classNames: seq<string>)
    requires |classNames| == 3
    ensures ProcessPredictions([[320.0, 320.0, 100.0, 100.0, 0.1, 0.2, 0.9],
                                [10.0, 10.0, 4.0, 4.0, 0.3, 0.1, 0.2]], classNames, [0])
            == Detected([Detection([270.0, 270.0, 100.0, 100.0], classNames[2])])
  {
  }
}
