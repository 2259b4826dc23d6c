/**
 Boxes and prediction rows as the detector's output and the renderer exchange them.

 After the transpose in `processPredictions` every candidate is one row of numbers:
 four centre-form box channels [xCenter, yCenter, width, height] followed by one
 score per class. `calculateBoundingBoxes` turns the first four channels into a
 corner-form box [topLeftX, topLeftY, width, height].
 */
module Boxes {

  /** A box is a row of exactly four numbers. */
  type Box = b: seq<real> | |b| == 4 witness [0.0, 0.0, 0.0, 0.0]

  /** One candidate of the raw prediction: box channels, then class scores. */
  type Row = seq<real>

  /** `b` is the corner form of the centre-form box in the first four channels of
      `row`: same width and height, and the centre of `b` is the row's centre. */
  ghost predicate IsCornerOf(b: Box, row: Row)
    requires |row| >= 4
  {
    && b[2] == row[2]
    && b[3] == row[3]
    && b[0] + b[2] / 2.0 == row[0]
    && b[1] + b[3] / 2.0 == row[1]
  }

  /** One row of `calculateBoundingBoxes`: top-left corner from centre and size. */
  function CornerBox(row: Row): (b: Box)
    requires |row| >= 4
    ensures IsCornerOf(b, row)
  {
    [row[0] - row[2] / 2.0, row[1] - row[3] / 2.0, row[2], row[3]]
  }

  /** The centre-form encoding of a corner-form box; the inverse of `CornerBox`. */
  function CenterForm(b: Box): (c: Box)
    ensures IsCornerOf(b, c)
  {
    [b[0] + b[2] / 2.0, b[1] + b[3] / 2.0, b[2], b[3]]
  }

  /** The corner form of a row is determined: at most one box is the corner of it. */
  lemma CornerOfIsUnique(b: Box, b': Box, row: Row)
    requires |row| >= 4
    requires IsCornerOf(b, row) && IsCornerOf(b', row)
    ensures b == b'
  {
  }

  /** Corner form and centre form are mutually inverse encodings of one box. */
  lemma CornerCenterRoundTrip(b: Box, row: Row)
    requires |row| >= 4
    ensures CornerBox(CenterForm(b)) == b
    ensures CenterForm(CornerBox(row)) == row[..4]
  {
  }
}
