# Hand-gesture PDF signing: a Dafny model of its core logic

The application lets a user sign a PDF with hand gestures. A webcam hand detector
reports hands each animation frame. When the right hand's thumb tip and index tip are
more than 160 canvas pixels apart (an open pinch), the index tip inks a stroke on a
signature canvas. The user then drags an overlay showing the signature over a page of
an uploaded PDF, and the signature is embedded at the matching place in PDF user
space. This project models the deterministic logic of those steps:

- `HandPose` (`hand_pose.dfy`, from `helper.js`): the in-place rescale of keypoints
  from video to canvas pixels (`RescaleKeypoints`, `RescaleHands`) and the pinch state
  machine. The module-level `drawing` / `erasing` / `prev_coords` and the strokes on the
  signature canvas form the class `SignatureInk`. Its methods are proved against the
  value-level functions `StepHand` (one hand), `RunHands` (one frame's hands, in list
  order) and `RunFrames` (a run of frames). Lemmas cover the pen-down edge, a stroke
  continuing, the pen lifting, the strict threshold, ignored hands, chained segments
  within a frame and across frames, and three short scenarios (`ThreeFrameStroke`,
  `MissingFrameKeepsAnchor`, `TwoRightHandsShareState`). `Math.hypot(...) > 160` becomes a squared
  distance over `real` compared with `160 * 160` (`HypotComparison` shows the two
  agree).
- `UploadPdf` (`upload_pdf.dfy`, from `uploadPDF.js`): `EmbedPlacement`, the
  placement arithmetic of `embedSignatureInPDF`. It scales, flips the y axis, applies
  the viewport-width offset buckets and shrinks the drawn size by 0.75. The class
  `UploadPdfView` holds the component state that the file, drag and page-navigation
  handlers change.
- `ScrollPlugin` (`scroll_plugin.dfy`, from `disableScrollPlugin.tsx`): `applyStyle` is
  the recursive method `Slot.ApplyStyle` over a tree of slot objects. It is proved
  against `Styled`, whose contract characterises the result completely: the tree with
  `overflow` removed from every style is unchanged (`Skeleton`), and every styled slot
  is hidden (`AllHidden`). `StyledUnique` proves the converse, and idempotence follows
  from it.
- `RealArith` (`real_arith.dfy`) and `Wrappers` (`wrappers.dfy`) are helpers: products of
  reals behind functions with sign lemmas, and `Option`.

Where the code behaves differently from what a reader might expect, the model follows the code:

- A frame in which the hand is missing does not reset the anchor. The next open pinch
  draws a segment across the gap (`MissingFrameKeepsAnchor`).
- There is one shared state, not one per hand. Two right hands in one frame draw a
  segment from one hand to the other (`TwoRightHandsShareState`). Left hands are
  ignored, and `erasing` is only ever set to false (`ErasingStaysFalse`).
- The offset correction is three inline branches with strict `>` bounds
  (1700/1500/1200). A window of 1200 pixels or less matches no bucket, and the
  position becomes NaN (`NaNPosition`).
- The scale is `pdfWidth / originalPdfWidth`, where both values come from the same
  page. The scale is therefore 1 (`SamePageSizeOnlyFlips`), not page size over rendered
  size. Zero sizes are not rejected; they give NaN or Infinity scales.
- Loading a second PDF leaves `currentPage` as it was (`OnArrayBufferRead`). After a
  shorter PDF, the selected page can lie past the last page, although page navigation
  by itself keeps `0 <= currentPage < numPages` (`GoToNextPage`, `GoToPreviousPage`).

## Model

| member | source | states |
|---|---|---|
| `HandPose.SquaredDistance` | app/hand-pose-detection-copy/helper.js:33-35 | the squared distance between two points is non-negative, and it is zero exactly when the points coincide |
| `HandPose.HypotComparison` | app/hand-pose-detection-copy/helper.js:280-282 | for the non-negative distance `d`, `d > 160` holds exactly when the squared distance exceeds `160 * 160` |
| `HandPose.StepHand` | app/hand-pose-detection-copy/helper.js:272-299 | one hand's update keeps `drawing == (prev_coords != null)`, never removes segments and adds at most one |
| `HandPose.RunHands` | app/hand-pose-detection-copy/helper.js:272-299 | processing a frame's hands in list order keeps that invariant; the segment list only grows, by at most one per hand |
| `HandPose.RunFrames` | app/hand-pose-detection-copy/helper.js:256-301 | over any run of frames, each read with the `color` of its own frame (empty frames skipped), the invariant holds and the segment list is append-only |
| `HandPose.PenDown` | app/hand-pose-detection-copy/helper.js:282-287 | an open pinch while not drawing sets `drawing` and anchors at the index tip, with no segment and `erasing` false |
| `HandPose.StrokeContinues` | app/hand-pose-detection-copy/helper.js:288-293 | an open pinch while drawing appends exactly the segment anchor to index tip, in the current colour with width 5, and moves the anchor to the index tip |
| `HandPose.PenUp` | app/hand-pose-detection-copy/helper.js:294-297 | a closed pinch clears `drawing` and `prev_coords` and appends nothing |
| `HandPose.ExactlyThresholdLiftsPen` | app/hand-pose-detection-copy/helper.js:282 | the test is strict: a pinch of exactly 160 is not ready, and it lifts the pen |
| `HandPose.OtherHandsIgnored` | app/hand-pose-detection-copy/helper.js:272-273 | hands whose handedness is not `'Right'` leave the whole state unchanged |
| `HandPose.IdleFramesChangeNothing` | app/hand-pose-detection-copy/helper.js:263-273 | frames with no hands or only non-right hands leave `drawing`, `prev_coords` and the segments unchanged |
| `HandPose.ErasingStaysFalse` | app/hand-pose-detection-copy/helper.js:293 | `erasing` is only ever assigned false, so once false it stays false |
| `HandPose.StrokeChains` | app/hand-pose-detection-copy/helper.js:288-291 | within an uninterrupted stroke each hand adds one segment ending at its index tip; the first starts at the anchor and each next one starts where the previous ended |
| `HandPose.RunHandsAppend` | app/hand-pose-detection-copy/helper.js:272-299 | processing two lists of hands one after the other against the shared state equals processing their concatenation |
| `HandPose.RunFramesIsRunHandsOfFlatten` | app/hand-pose-detection-copy/helper.js:256-301 | while the colour does not change, a run of frames equals one `RunHands` over all their hands in order: `prev_coords` carries over frame boundaries and empty frames contribute nothing |
| `HandPose.StrokeExtend` | app/hand-pose-detection-copy/helper.js:288-291 | a stroke continued by a second stroke from where it stopped is one stroke over both hand lists: the segments stay chained across the join |
| `HandPose.StrokeChainsAcrossFrames` | app/hand-pose-detection-copy/helper.js:256-301 | across a run of frames in which every hand seen is a right hand with an open pinch, each hand adds one segment ending at its index tip in its frame's colour, the first starts at the anchor, the segments chain, and frames without hands break nothing |
| `HandPose.ThreeFrameStroke` | app/hand-pose-detection-copy/helper.js:282-291 | three open-pinch frames with index tips (100,100), (120,100), (140,100) leave exactly two segments, each in the colour current at the frame that drew it |
| `HandPose.MissingFrameKeepsAnchor` | app/hand-pose-detection-copy/helper.js:263-300 | a frame without hands keeps the anchor, so the stroke resumes with a segment across the gap |
| `HandPose.TwoRightHandsShareState` | app/hand-pose-detection-copy/helper.js:25-27 | two right hands in one frame share one state: the first anchors, the second draws from the first hand's tip |
| `HandPose.RescaleRoundTrip` | app/hand-pose-detection-copy/helper.js:266-267 | each output coordinate depends only on the same input coordinate (a point with the same `x` gets the same rescaled `x`, likewise `y`), and rescaling canvas back to video returns the original keypoint |
| `HandPose.RescaleKeypoints` | app/hand-pose-detection-copy/helper.js:265-268 | every keypoint of the array is replaced in place by `x / videoWidth * canvasWidth`, `y / videoHeight * canvasHeight` |
| `HandPose.RescaleHands` | app/hand-pose-detection-copy/helper.js:264-269 | the nested loop rescales every hand's keypoints in place, each exactly once |
| `HandPose.SignatureInk.constructor` | app/hand-pose-detection-copy/helper.js:25-27 | the state starts not drawing, not erasing, with no anchor and an empty canvas |
| `HandPose.SignatureInk.DrawLine` | app/hand-pose-detection-copy/helper.js:37-45 | drawing a line appends exactly that segment to the canvas |
| `HandPose.SignatureInk.ResetSigCanvas` | app/hand-pose-detection-copy/helper.js:138-143 | clearing empties the segment list and leaves the drawing state alone |
| `HandPose.SignatureInk.UpdateForHand` | app/hand-pose-detection-copy/helper.js:272-298 | the imperative per-hand update yields exactly `StepHand` of the old state and keeps the invariant with `erasing` false |
| `HandPose.SignatureInk.ProcessHands` | app/hand-pose-detection-copy/helper.js:272-299 | the `forEach` over hands yields exactly `RunHands` of the old state |
| `HandPose.SignatureInk.OnAnimationFrame` | app/hand-pose-detection-copy/helper.js:256-301 | a frame rescales every hand in place and then yields `RunHands` over the rescaled hands; no hands means no change |
| `UploadPdf.ScaleAndFlip` | app/hand-pose-detection-copy/uploadPDF.js:82-89 | after scaling and flipping, the box's top edge lies `y * yScale` below the top of the page |
| `UploadPdf.Offsets` | app/hand-pose-detection-copy/uploadPDF.js:94-108 | no offset exists exactly when the viewport width is at most 1200; every factor lies strictly between 0 and 1 |
| `UploadPdf.EmbedPlacement` | app/hand-pose-detection-copy/uploadPDF.js:66-118 | nothing is embedded exactly when the PDF buffer or the signature is missing; the position is NaN exactly when both are present and the width is at most 1200 |
| `UploadPdf.OffsetBuckets` | app/hand-pose-detection-copy/uploadPDF.js:96-108 | widths above 1700 give (0.68, 0.6), widths in (1500, 1700] give (0.42, 0.59) and widths in (1200, 1500] give (0.2, 0.35) |
| `UploadPdf.OffsetsGrowWithViewport` | app/hand-pose-detection-copy/uploadPDF.js:96-108 | a wider viewport never gets a smaller offset factor on either axis |
| `UploadPdf.SignedPlacement` | app/hand-pose-detection-copy/uploadPDF.js:110-118 | final x is scaled x minus factor times scaled width, final y is scaled y plus factor times scaled height, and the size is 0.75 of the scaled size; with non-negative sizes x never increases and y never decreases |
| `UploadPdf.SamePageSizeOnlyFlips` | app/hand-pose-detection-copy/uploadPDF.js:79-89 | when the page and "original" sizes agree, the scale is 1: the box is only flipped, `y' = pdfHeight - (y + boxHeight)` |
| `UploadPdf.DrawnSizeMatchesOverlay` | app/hand-pose-detection-copy/uploadPDF.js:113-118 | at scale 1 the drawn image has the size of the on-screen overlay, 0.75 times `signatureSize` |
| `UploadPdf.PlacementExample` | app/hand-pose-detection-copy/uploadPDF.js:76-118 | the default 200x100 box at (10, 20) on a 612x792 page in a 1600-pixel window is drawn at (-74, 731), size 150x75 |
| `UploadPdf.UploadPdfView.constructor` | app/hand-pose-detection-copy/uploadPDF.js:25-34 | the initial component state: no file, no error, box at (0, 0) of size 200x100, no pages, page 0, key 0 |
| `UploadPdf.UploadPdfView.HandleFile` | app/hand-pose-detection-copy/uploadPDF.js:39-64 | a PDF starts the reads; another type sets the error message and nulls `pdfFile` and `pdfFileArrayBuffer`; no file changes nothing |
| `UploadPdf.UploadPdfView.OnArrayBufferRead` | app/hand-pose-detection-copy/uploadPDF.js:45-50 | a completed read clears the error, stores the bytes and the page count, and leaves `currentPage` as it was |
| `UploadPdf.UploadPdfView.OnDataUrlRead` | app/hand-pose-detection-copy/uploadPDF.js:53-55 | a completed data-URL read sets `pdfFile` |
| `UploadPdf.UploadPdfView.EmbedSignatureInPDF` | app/hand-pose-detection-copy/uploadPDF.js:66-118 | the handler reads the loaded buffer and the overlay's position and size from the component state and returns `EmbedPlacement` of them, so its outcome cases and placement are those proved there |
| `UploadPdf.UploadPdfView.HandleDragStop` | app/hand-pose-detection-copy/uploadPDF.js:132-134 | the overlay position becomes the drop position |
| `UploadPdf.UploadPdfView.GoToPage` | app/hand-pose-detection-copy/uploadPDF.js:171-174 | the page is set and `viewerKey` grows by one |
| `UploadPdf.UploadPdfView.GoToNextPage` | app/hand-pose-detection-copy/uploadPDF.js:176-180 | the page advances, with `viewerKey` + 1, exactly when `currentPage < numPages - 1`; otherwise nothing changes; the range `0 <= currentPage < numPages` is preserved |
| `UploadPdf.UploadPdfView.GoToPreviousPage` | app/hand-pose-detection-copy/uploadPDF.js:182-186 | the page goes back, with `viewerKey` + 1, exactly when `currentPage > 0`; otherwise nothing changes; the page range is preserved |
| `ScrollPlugin.Styled` | app/hand-pose-detection-copy/disableScrollPlugin.tsx:7-16 | the rewritten tree differs from the input only in `overflow` keys: the same shape, child order, attributes and non-array children, and no slot gains or loses a style; every styled slot has `overflow: 'hidden'` |
| `ScrollPlugin.ForgetHiddenOverflow` | app/hand-pose-detection-copy/disableScrollPlugin.tsx:9-11 | the fresh style keeps every key of the old one except `overflow` |
| `ScrollPlugin.StyledUnique` | app/hand-pose-detection-copy/disableScrollPlugin.tsx:8-15 | any tree with the input's skeleton whose styles are all hidden is the rewrite of the input, so the rewrite is fully determined |
| `ScrollPlugin.StyledIdempotent` | app/hand-pose-detection-copy/disableScrollPlugin.tsx:9-11 | applying the rewrite twice gives the same tree as applying it once |
| `ScrollPlugin.Slot.ApplyStyle` | app/hand-pose-detection-copy/disableScrollPlugin.tsx:7-16 | the in-place walk turns the tree's value into `Styled` of its old value; it keeps the same child objects in the same order and keeps the tree well formed |
| `ScrollPlugin.RenderViewer` | app/hand-pose-detection-copy/disableScrollPlugin.tsx:4-21 | returns the very slot object it was given, rewritten to `Styled` of its old value |

## Left out

- Camera, detector and canvas setup, the modal and the resize listener (helper.js:92-177, 213-254). These are DOM, media-device and TensorFlow calls. The detector's output is the `hands` parameter of `OnAnimationFrame`.
- Rendering: `drawCustomHands`, `drawText`, the canvas stroke calls, `console.log`, and `saveSignature`'s `toDataURL`. Ink is modelled only as the segment list.
- Async/await and animation-frame scheduling (helper.js:256-301). Each frame is one call.
- The 100 ms polling of the rendered page size (uploadPDF.js:144-157) and the effect that resets the overlay position on a page change (uploadPDF.js:159-163). These are timers and React effects, so `pdfDimensions` and `isPdfLoaded` are not modelled.
- pdf-lib loading, embedding, saving and the download link (uploadPDF.js:69-74, 113-129), and the `FileReader` calls. A read's completion is `OnArrayBufferRead` or `OnDataUrlRead`. The page count and the selected page's size are parameters.
- `containerWidth` and `containerHeight` (uploadPDF.js:92-93): computed but never used.
- `handleResizeStop` (uploadPDF.js:136-142): never wired, because resizing is disabled.
- `handlePageChange` (uploadPDF.js:165-169): it is `goToPage` applied to the parsed option value.
- The "Clear Signature" button's reset of the position (uploadPDF.js:198).
- The page lookup `pages[currentPage]`: its size is passed in. A `currentPage` past the last page would make the source throw; this is not modelled.
- JSX layout and both page components (app/page.js, app/hand-pose-detection-copy/page.js).
- IEEE floating point: numbers are `real`. NaN appears only as the `NaNPosition` outcome.
- HandPose.Rescale: requires non-zero video dimensions. The source would produce Infinity or NaN there.
- HandPose.SignatureInk.OnAnimationFrame: requires 21 keypoints per hand, as the detector reports. It also requires each hand to have its own keypoint array. Shared point objects between hands are not modelled.
- UploadPdf.EmbedPlacement: requires a page of positive size, because a zero-size page would give NaN or Infinity scales in the source.
- UploadPdf.UploadPdfView.GoToPage: takes a `nat`, because its callers only pass `currentPage + 1` or `currentPage - 1` after checking the bounds.
- ScrollPlugin.Slot.ApplyStyle: requires the slots to form a tree with disjoint children. A child object shared by two parents, or a `null` entry in a children array (which would throw at line 13), is not modelled. `attrs` is a field of the slot rather than a separately shared object. A style is a string-to-string map, and non-array children are opaque.
- `signatureDataURL` is a string and is falsy exactly when empty. `window.innerWidth` is an integer.
