# YOLOv8 browser demo: letterbox and detection post-processing

This project models the part of the demo's `yolo-web-wasm.js` that does its own arithmetic. That part has three pieces:

- **Letterbox preprocessing** (`imageToTensor`). An image of width W and height H is scaled by `min(640/W, 640/H)` and drawn centred on a black 640 x 640 frame.
- **Post-processing** (`processPredictions`). Each candidate row `[xCenter, yCenter, width, height, classScores...]` becomes a corner-form box and a score/label pair. The rows kept by non-maximum suppression become detections `{box, label}`.
- **Rendering** (`drawBoundingBoxes`). The letterbox transform is recomputed from the canvas, which is first resized to the image. Every box is mapped back into image pixels.

The thumbnail centre crop of `displayCroppedImage` is modelled too.

JavaScript numbers are Dafny `real`s. A box is a four-element `seq<real>` (the subset type `Boxes.Box`). A prediction row is a `seq<real>`.

Modules:

- `Arith`: `Math.min`.
- `Boxes`: boxes, rows, and the corner/centre conversion.
- `Letterbox`: the forward placement, the draw-time transform, the remapping, and the round-trip laws.
- `Scores`: max and argmax over a row's class channels.
- `Postprocess`: `calculateBoundingBoxes`, `calculateScoresAndLabels`, `extractSelectedPredictions` and `processPredictions`.
- `Render`: the geometry of `drawBoundingBoxes`, plus an end-to-end law.
- `Thumbnail`: the crop window.

## Model

| member | source | states |
|---|---|---|
| Arith.Min | yolo-web-wasm.js:44 | `Math.min` returns one of its two arguments, and that argument is no larger than the other |
| Boxes.CornerBox | yolo-web-wasm.js:184-186 | the corner box keeps the row's width and height; its top-left corner plus half its size is the row's centre |
| Boxes.CornerOfIsUnique | yolo-web-wasm.js:184-186 | a row has exactly one corner form, so `CornerBox`'s contract pins its result down completely |
| Boxes.CornerCenterRoundTrip | yolo-web-wasm.js:177-186 | corner form and centre form are inverse encodings; no box information is lost |
| Letterbox.ScaleFactor | yolo-web-wasm.js:44 | the scale is positive, at most both axis ratios 640/W and 640/H, and equal to one of them |
| Letterbox.Preprocess | yolo-web-wasm.js:44-50 | the placed image fits the frame, fills it along at least one axis, and keeps the image's aspect ratio; both offsets are non-negative, at least one is zero, and the margins on each axis are equal |
| Letterbox.SquareImageIsNotPadded | yolo-web-wasm.js:44-50 | a square image fills the whole frame with zero offsets |
| Letterbox.PlaceWholeImage | yolo-web-wasm.js:50 | placing the whole image gives exactly the rectangle the image is drawn into |
| Letterbox.PlacedBoxInsideFrame | yolo-web-wasm.js:44-50 | a box inside the image lands inside the 640 x 640 frame |
| Letterbox.DrawTransform | yolo-web-wasm.js:239-241 | its own contract says only that the draw-time scale is positive, so the remap divisions are defined; what it computes is stated by `Letterbox.DrawTransformMatchesPreprocess` |
| Letterbox.DrawTransformMatchesPreprocess | yolo-web-wasm.js:234-241 | when the canvas is resized to the image, the draw-time scale and offsets equal the preprocessing ones |
| Letterbox.PlaceBox | yolo-web-wasm.js:50 | the image-to-frame map that drawing the image applies; one factor scales a box's size and its offset from the image corner, so the box keeps its shape and relative position. Its exact placement is stated by `Letterbox.PlaceWholeImage` and the round-trip lemmas |
| Letterbox.RemapBox | yolo-web-wasm.js:244-248 | the remapped box is the image box whose placement under the draw-time transform is the input box |
| Letterbox.RemapUndoesPlace | yolo-web-wasm.js:245-248 | remapping with a transform that has a placement's scale and offsets returns the box that was placed |
| Letterbox.RemapInvertsPlacement | yolo-web-wasm.js:245-248 | placing an image box and then remapping it returns the original box exactly |
| Letterbox.PlacementInvertsRemap | yolo-web-wasm.js:245-248 | remapping a frame box and then placing it returns the frame box, so remapping is a bijection |
| Scores.Max | yolo-web-wasm.js:191 | the score bounds every value and is attained by one of them |
| Scores.ArgMax | yolo-web-wasm.js:191 | the label is a valid index whose value bounds every value; no tie-break is stated |
| Scores.ArgMaxAttainsMax | yolo-web-wasm.js:191 | the reported label's value is the reported score |
| Scores.RowScore | yolo-web-wasm.js:191 | the per-row `max`: no class channel exceeds the score, and some class channel equals it |
| Scores.RowLabel | yolo-web-wasm.js:191 | the per-row `argMax`: a class index below C whose channel no class channel exceeds |
| Scores.ClassChannels | yolo-web-wasm.js:190 | the class slice has one value per class, taken from channels 4 .. 4+C |
| Scores.RowReduction | yolo-web-wasm.js:189-191 | a row's label is a class index below C whose channel is the row's score, and no class channel exceeds that score |
| Scores.ReductionReadsOnlyClassChannels | yolo-web-wasm.js:190 | two rows that agree on channels 4 .. 4+C get the same score and label |
| Postprocess.BoundingBoxes | yolo-web-wasm.js:176-187 | there is one box per row, in row order, and each box is the corner form of its row |
| Postprocess.ScoresAndLabels | yolo-web-wasm.js:189-192 | there is one score and one label per row, and each pair is a best class of the row and its channel value |
| Postprocess.ExtractSelected | yolo-web-wasm.js:194-200 | there is one detection per kept index, in index order; each one's box is `boxes[i]` and its name is `classNames[labels[i]]` |
| Postprocess.ProcessPredictions | yolo-web-wasm.js:165-174 | a prediction with exactly one candidate is refused; otherwise each kept candidate becomes the corner form of its row, named after a best class of that row |
| Postprocess.KeptCandidateExample | yolo-web-wasm.js:165-174 | in a two-candidate prediction, a kept candidate centred at (320, 320), 100 x 100, with its best score on class 2 of 3, gives the single detection (270, 270, 100, 100) named after class 2 |
| Render.DrawBoundingBoxes | yolo-web-wasm.js:230-256 | there is one mark per detection, in order; each rectangle is the image box whose letterbox placement is the detection box; the name is written 7 pixels above its top-left corner |
| Render.DetectedBoxIsDrawnAtImageBox | yolo-web-wasm.js:243-248 | take any prediction that does not have exactly one candidate, and any kept index whose row reports frame box `f` in centre form: the rectangle drawn for it is every image box whose letterbox placement is `f`, and its name is a best class of the row |
| Letterbox.PlacementIsInjective | yolo-web-wasm.js:50 | under any placement with a positive scale, two image boxes with the same placement are equal |
| Thumbnail.CenterCrop | yolo-web-wasm.js:210-212 | the crop side is `min(w, h)`; the window lies inside the image with equal margins on each axis, and at least one start offset is zero |

## Left out

- DOM and event wiring (`window.onload`, `selectImage`, the file-upload handler, canvas creation, click handlers, stroke colour, line width and font). They are user-interface code, and the only behaviour they have is the arithmetic modelled above.
- `loadModel` and `runModel`. These call into TensorFlow.js and its WASM backend, so the raw prediction rows are an input here.
- Pixel reading, the float cast, the division by 255 and the batch dimension in `imageToTensor`. These are float tensor operations inside the library.
- `tf.image.nonMaxSuppression` (line 171). Its code is not part of this model. Its result is the parameter `indices`, which may be any sequence of valid row indices. The call passes boxes in `[x, y, width, height]` order with iou threshold 0.6 and score threshold 0.45. The model does not look at how the library reads these arguments.
- The tie-break of `argMax`. `Scores.ArgMax` happens to pick the first maximum. No contract states this, because the library's choice is not visible here.
- `loadClassNames` and `processAdditionalBackends`. They are network I/O.
- `imageToBase64`. It wraps a canvas API.
- `processImage`. It is orchestration: timing with `performance.now`, the global `selectedImageElement`, and the overlap of asynchronous runs. The stored width and height globals set at lines 41-42 are never read.
- The thumbnail's final scaling onto its 256 x 256 canvas (line 214). It is a canvas draw; `Thumbnail.CenterCrop` models only the source window.
- Floating-point rounding. Numbers are reals, so the round trips hold exactly here and only approximately in IEEE-754.
- Zero image sizes. The code does not guard against them, so `W, H > 0` is a precondition and not a modelled check.
- Class tables longer than the score channels, and empty class tables. The slice at line 190 (begin 4, size C) would run past the channel axis and the library would throw; the model does not have that error path. Instead the operations require each row to have at least `4 + |classNames|` channels and at least one class. A table shorter than the channels is modelled: as in the code, only the first C score channels are read.
- Out-of-range labels. The code never checks them, so `Postprocess.ExtractSelected` requires `labels[i] < |classNames|`.
- Postprocess.BoundingBoxes: for a single candidate, the `squeeze()` at line 186 also drops the candidate axis and the code yields one rank-1 box. The model still returns a one-element sequence. `Postprocess.ProcessPredictions` refuses that input, as the library's suppression does.
- Postprocess.KeptCandidateExample: uses two candidates, because the code throws for a prediction with a single candidate.
- Render.DetectedBoxIsDrawnAtImageBox: requires a prediction of other than one candidate, because the code throws for a single candidate before anything is drawn.
- The class table as a JSON object. `Object.keys(classNames).length` counts its keys. The model takes the table to be an array of names indexed from 0.

## Notes on the code

- The suppression call at line 171 passes iou threshold 0.6 and score threshold 0.45.
- The code never validates label indices or the length of the class table against the score channels.
- A detection built at lines 195-199 carries only `box` and `label`, and no score. `Postprocess.Detection` follows this.
- The draw-time transform is recomputed from the canvas, not passed along from preprocessing. `Letterbox.DrawTransformMatchesPreprocess` shows that the two agree, because the canvas is first resized to the image's size.
