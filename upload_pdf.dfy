/**
 * The PDF side of app/hand-pose-detection-copy/uploadPDF.js: choosing a file, moving
 * between pages, dragging the signature overlay, and the arithmetic of
 * `embedSignatureInPDF` that maps the overlay box onto the selected page in PDF
 * user space (origin at the bottom-left corner, y growing upwards).
 */
module UploadPdf {
  import opened Wrappers

  /** The overlay's top-left corner in screen pixels (`signaturePosition`). */
  datatype Position = Position(x: real, y: real)

  /** A width and a height: the overlay box (`signatureSize`) or a page size. */
  datatype Dimensions = Dimensions(width: real, height: real)

  /** Where the signature image is drawn on the page, in PDF user space. */
  datatype PdfRect = PdfRect(x: real, y: real, width: real, height: real)

  /** The multipliers of the viewport-dependent correction. */
  datatype OffsetFactors = OffsetFactors(x: real, y: real)

  /**
   * What `embedSignatureInPDF` does: nothing (the early return), draw the image at
   * a NaN position (no offset bucket matched, so `scaledX - undefined` is NaN while
   * the width and height stay finite), or draw it at a proper rectangle.
   */
  datatype EmbedOutcome = NotSigned | NaNPosition(width: real, height: real) | Signed(rect: PdfRect)

  /** The factor by which the drawn image is smaller than the scaled box. */
  const DrawnShrink: real := 0.75
  /** The factor by which the on-screen overlay is smaller than `signatureSize`. */
  const OverlayShrink: real := 0.75

  const InitialSignatureSize := Dimensions(200.0, 100.0)
  const PdfMimeType := "application/pdf"
  const AllowedFiles := [PdfMimeType]
  const InvalidFileMessage := "Please select a valid PDF file"

  predicate PositiveSize(d: Dimensions)
  {
    d.width > 0.0 && d.height > 0.0
  }

  /**
   * Scaling by `pdfWidth / originalPdfWidth` and `pdfHeight / originalPdfHeight`
   * and flipping the vertical axis. The box's top edge lands `pos.y * yScale`
   * below the top of the page.
   */
  function ScaleAndFlip(pos: Position, box: Dimensions, page: Dimensions, original: Dimensions): (r: PdfRect)
    requires PositiveSize(original)
    ensures page.height - (r.y + r.height) == pos.y * (page.height / original.height)
  {
    var xScale := page.width / original.width;
    var yScale := page.height / original.height;
    PdfRect(pos.x * xScale, page.height - (pos.y + box.height) * yScale, box.width * xScale, box.height * yScale)
  }

  /** The viewport-width buckets, with strict lower bounds; none below 1201 pixels. */
  function Offsets(viewportWidth: int): (r: Option<OffsetFactors>)
    ensures r.None? <==> viewportWidth <= 1200
    ensures r.Some? ==> 0.0 < r.value.x < 1.0 && 0.0 < r.value.y < 1.0
  {
    if viewportWidth > 1700 then Some(OffsetFactors(0.68, 0.6))
    else if viewportWidth > 1500 then Some(OffsetFactors(0.42, 0.59))
    else if viewportWidth > 1200 then Some(OffsetFactors(0.2, 0.35))
    else None
  }

  /** The placement computed by `embedSignatureInPDF` for the page at `currentPage`. */
  function EmbedPlacement(hasPdfBuffer: bool, signatureDataUrl: string, pos: Position, box: Dimensions,
                          page: Dimensions, original: Dimensions, viewportWidth: int): (r: EmbedOutcome)
    requires PositiveSize(original)
    ensures r.NotSigned? <==> !hasPdfBuffer || signatureDataUrl == ""
    ensures r.NaNPosition? <==> hasPdfBuffer && signatureDataUrl != "" && viewportWidth <= 1200
  {
    if !hasPdfBuffer || signatureDataUrl == "" then NotSigned
    else
      var scaled := ScaleAndFlip(pos, box, page, original);
      var width, height := scaled.width * DrawnShrink, scaled.height * DrawnShrink;
      match Offsets(viewportWidth)
      case None => NaNPosition(width, height)
      case Some(f) => Signed(PdfRect(scaled.x - scaled.width * f.x, scaled.y + scaled.height * f.y, width, height))
  }

  /** The three buckets and their factors. */
  lemma OffsetBuckets(viewportWidth: int)
    ensures viewportWidth > 1700 ==> Offsets(viewportWidth) == Some(OffsetFactors(0.68, 0.6))
    ensures 1500 < viewportWidth <= 1700 ==> Offsets(viewportWidth) == Some(OffsetFactors(0.42, 0.59))
    ensures 1200 < viewportWidth <= 1500 ==> Offsets(viewportWidth) == Some(OffsetFactors(0.2, 0.35))
  {
  }

  /** A wider viewport never gets a smaller correction. */
  lemma OffsetsGrowWithViewport(narrow: int, wide: int)
    requires narrow <= wide && Offsets(narrow).Some?
    ensures Offsets(wide).Some?
    ensures Offsets(narrow).value.x <= Offsets(wide).value.x && Offsets(narrow).value.y <= Offsets(wide).value.y
  {
  }

  /**
   * When the signature is placed, the corner is the scaled corner moved left by a
   * fraction of the scaled width and up by a fraction of the scaled height, and
   * the image is drawn at 0.75 of the scaled size; for a box and page of
   * non-negative size the correction never moves right or down.
   */
  lemma SignedPlacement(hasPdfBuffer: bool, signatureDataUrl: string, pos: Position, box: Dimensions,
                        page: Dimensions, original: Dimensions, viewportWidth: int)
    requires PositiveSize(original)
    requires hasPdfBuffer && signatureDataUrl != "" && viewportWidth > 1200
    ensures var r := EmbedPlacement(hasPdfBuffer, signatureDataUrl, pos, box, page, original, viewportWidth);
      var scaled := ScaleAndFlip(pos, box, page, original);
      var f := Offsets(viewportWidth).value;
      && r.Signed?
      && r.rect.x == scaled.x - f.x * scaled.width
      && r.rect.y == scaled.y + f.y * scaled.height
      && r.rect.width == DrawnShrink * scaled.width
      && r.rect.height == DrawnShrink * scaled.height
      && (box.width >= 0.0 && box.height >= 0.0 && page.width >= 0.0 && page.height >= 0.0 ==>
            r.rect.x <= scaled.x && r.rect.y >= scaled.y)
  {
  }

  /**
   * The page size and the "original" size both come from the same page, so the
   * scale is 1: the box is only flipped, not scaled.
   */
  lemma SamePageSizeOnlyFlips(pos: Position, box: Dimensions, page: Dimensions)
    requires PositiveSize(page)
    ensures ScaleAndFlip(pos, box, page, page) == PdfRect(pos.x, page.height - (pos.y + box.height), box.width, box.height)
  {
  }

  /** The on-screen overlay: `signatureSize` times 0.75. */
  function OverlaySize(box: Dimensions): Dimensions
  {
    Dimensions(box.width * OverlayShrink, box.height * OverlayShrink)
  }

  /** At scale 1 the drawn image has exactly the on-screen overlay's size. */
  lemma DrawnSizeMatchesOverlay(signatureDataUrl: string, pos: Position, box: Dimensions, page: Dimensions, viewportWidth: int)
    requires PositiveSize(page) && signatureDataUrl != "" && viewportWidth > 1200
    ensures var r := EmbedPlacement(true, signatureDataUrl, pos, box, page, page, viewportWidth);
      r.Signed? && r.rect.width == OverlaySize(box).width && r.rect.height == OverlaySize(box).height
  {
  }

  /** The 200x100 box at (10, 20) on a 612x792 page in a 1600-pixel-wide window. */
  lemma PlacementExample()
    ensures EmbedPlacement(true, "data:image/png;base64,", Position(10.0, 20.0), InitialSignatureSize,
                           Dimensions(612.0, 792.0), Dimensions(612.0, 792.0), 1600)
         == Signed(PdfRect(-74.0, 731.0, 150.0, 75.0))
  {
  }

  /** A file chosen in the file input. */
  datatype SelectedFile = SelectedFile(name: string, mimeType: string)

  /** The state of the `UploadPDF` component that its handlers change. */
  class UploadPdfView {
    var pdfFile: Option<string>
    var pdfFileArrayBuffer: Option<seq<bv8>>
    var pdfFileError: string
    var signaturePosition: Position
    var signatureSize: Dimensions
    var numPages: int
    var currentPage: int
    var viewerKey: int

    /** What every handler keeps: counts and indices are never negative. */
    ghost predicate Valid()
      reads this
    {
      0 <= numPages && 0 <= currentPage && 0 <= viewerKey
    }

    /** The selected page exists. */
    predicate PageInRange()
      reads this
    {
      0 <= currentPage < numPages
    }

    constructor ()
      ensures Valid()
      ensures pdfFile == None && pdfFileArrayBuffer == None && pdfFileError == ""
      ensures signaturePosition == Position(0.0, 0.0) && signatureSize == InitialSignatureSize
      ensures numPages == 0 && currentPage == 0 && viewerKey == 0
    {
      pdfFile, pdfFileArrayBuffer, pdfFileError := None, None, "";
      signaturePosition, signatureSize := Position(0.0, 0.0), InitialSignatureSize;
      numPages, currentPage, viewerKey := 0, 0, 0;
    }

    /**
     * `handleFile`: with no file nothing happens; a PDF starts the two file reads
     * (their completions are OnArrayBufferRead and OnDataUrlRead); any other type
     * sets the error message and forgets the previous PDF.
     */
    method HandleFile(selected: Option<SelectedFile>) returns (readsStarted: bool)
      requires Valid()
      modifies this
      ensures Valid()
      ensures readsStarted <==> selected.Some? && selected.value.mimeType in AllowedFiles
      ensures selected.Some? && !readsStarted ==>
                pdfFileError == InvalidFileMessage && pdfFile == None && pdfFileArrayBuffer == None
      ensures selected.None? || readsStarted ==>
                pdfFileError == old(pdfFileError) && pdfFile == old(pdfFile) && pdfFileArrayBuffer == old(pdfFileArrayBuffer)
      ensures signaturePosition == old(signaturePosition) && signatureSize == old(signatureSize)
      ensures numPages == old(numPages) && currentPage == old(currentPage) && viewerKey == old(viewerKey)
    {
      readsStarted := false;
      if selected.Some? {
        if selected.value.mimeType in AllowedFiles {
          readsStarted := true;
        } else {
          pdfFileError := InvalidFileMessage;
          pdfFile := None;
          pdfFileArrayBuffer := None;
        }
      }
    }

    /**
     * The array-buffer reader's `onloadend`: clears the error, keeps the bytes and
     * the page count. `currentPage` is left as it was, so after a shorter PDF it
     * can point past the last page.
     */
    method OnArrayBufferRead(contents: seq<bv8>, pageCount: nat)
      requires Valid()
      modifies this
      ensures Valid()
      ensures pdfFileError == "" && pdfFileArrayBuffer == Some(contents) && numPages == pageCount
      ensures pdfFile == old(pdfFile) && signaturePosition == old(signaturePosition)
      ensures signatureSize == old(signatureSize) && currentPage == old(currentPage) && viewerKey == old(viewerKey)
    {
      pdfFileError := "";
      pdfFileArrayBuffer := Some(contents);
      numPages := pageCount;
    }

    /** The data-URL reader's `onloadend`: the viewer gets the file. */
    method OnDataUrlRead(dataUrl: string)
      requires Valid()
      modifies this`pdfFile
      ensures Valid() && pdfFile == Some(dataUrl)
    {
      pdfFile := Some(dataUrl);
    }

    /**
     * `embedSignatureInPDF` for the page at `currentPage`, whose size pdf-lib reports.
     * The handler only reads the component state (the loaded buffer, the overlay's
     * position and size); the placement itself is `EmbedPlacement`.
     */
    method EmbedSignatureInPDF(signatureDataUrl: string, page: Dimensions, original: Dimensions, viewportWidth: int)
      returns (r: EmbedOutcome)
      requires PositiveSize(original)
      ensures r == EmbedPlacement(pdfFileArrayBuffer.Some?, signatureDataUrl, signaturePosition, signatureSize,
                                  page, original, viewportWidth)
    {
      r := EmbedPlacement(pdfFileArrayBuffer.Some?, signatureDataUrl, signaturePosition, signatureSize,
                          page, original, viewportWidth);
    }

    /** `handleDragStop` (and the overlay's `onDragStop`): the box moves to where it was dropped. */
    method HandleDragStop(x: real, y: real)
      requires Valid()
      modifies this`signaturePosition
      ensures Valid() && signaturePosition == Position(x, y)
    {
      signaturePosition := Position(x, y);
    }

    /** `goToPage`: select the page and bump the viewer key to force a re-render. */
    method GoToPage(pageIndex: nat)
      requires Valid()
      modifies this`currentPage, this`viewerKey
      ensures Valid() && currentPage == pageIndex && viewerKey == old(viewerKey) + 1
    {
      currentPage := pageIndex;
      viewerKey := viewerKey + 1;
    }

    /** `goToNextPage`: moves only when a later page exists. */
    method GoToNextPage()
      requires Valid()
      modifies this`currentPage, this`viewerKey
      ensures Valid()
      ensures old(currentPage) < old(numPages) - 1 ==>
                currentPage == old(currentPage) + 1 && viewerKey == old(viewerKey) + 1
      ensures old(currentPage) >= old(numPages) - 1 ==>
                currentPage == old(currentPage) && viewerKey == old(viewerKey)
      ensures old(PageInRange()) ==> PageInRange()
    {
      if currentPage < numPages - 1 {
        GoToPage(currentPage + 1);
      }
    }

    /** `goToPreviousPage`: moves only when an earlier page exists. */
    method GoToPreviousPage()
      requires Valid()
      modifies this`currentPage, this`viewerKey
      ensures Valid()
      ensures old(currentPage) > 0 ==> currentPage == old(currentPage) - 1 && viewerKey == old(viewerKey) + 1
      ensures old(currentPage) == 0 ==> currentPage == 0 && viewerKey == old(viewerKey)
      ensures old(PageInRange()) ==> PageInRange()
    {
      if currentPage > 0 {
        GoToPage(currentPage - 1);
      }
    }
  }
}
