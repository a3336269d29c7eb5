/**
 * Importing a résumé PDF: the text layer is read page by page; when it carries too little
 * text the first pages are rasterised and sent to OCR. The PDF library, the canvas and the
 * OCR model are outside the model: a page is its text items plus whether a 2D canvas
 * context was available for it, and the OCR reply is a parameter.
 */
module ResumeImport {
  import opened Wrappers
  import opened Text

  /** `'str' in item ? item.str : ''`: a text item, or a marked-content item without a string. */
  type TextItem = Option<string>

  datatype Page = Page(items: seq<TextItem>, canvasReady: bool)

  const OcrThreshold: nat := 100
  const OcrPageLimit: nat := 3

  function ItemText(item: TextItem): string {
    match item
    case Some(s) => s
    case None => ""
  }

  function ItemTexts(items: seq<TextItem>): (r: seq<string>)
    ensures |r| == |items| && forall i :: 0 <= i < |items| ==> r[i] == ItemText(items[i])
  {
    if items == [] then [] else [ItemText(items[0])] + ItemTexts(items[1..])
  }

  /** One page's contribution: its item strings joined by a space, then a line feed. */
  function PageText(page: Page): (r: string)
    ensures r != [] && r[|r| - 1] == '\n'
  {
    Join(ItemTexts(page.items), " ") + "\n"
  }

  /** The text content of pages `1..|pages|`, in page order. */
  function PagesText(pages: seq<Page>): string {
    if pages == [] then "" else PagesText(pages[..|pages| - 1]) + PageText(pages[|pages| - 1])
  }

  /** Every page adds at least its line feed. */
  lemma {:induction false} PagesTextLength(pages: seq<Page>)
    ensures |PagesText(pages)| >= |pages|
  {
    if pages != [] {
      PagesTextLength(pages[..|pages| - 1]);
    }
  }

  /** The `for` loop over the pages, accumulating `textContent`. */
  method ExtractText(pages: seq<Page>) returns (textContent: string)
    ensures textContent == PagesText(pages)
  {
    textContent := "";
    for i := 0 to |pages|
      invariant textContent == PagesText(pages[..i])
    {
      assert pages[..i + 1][..i] == pages[..i];
      textContent := textContent + PageText(pages[i]);
    }
    assert pages[..|pages|] == pages;
  }

  /** `extractedText.length < 100` on the trimmed text. */
  predicate NeedsOcr(textContent: string) {
    |Trim(textContent)| < OcrThreshold
  }

  /** `Math.min(pdf.numPages, 3)`. */
  function OcrPageCount(numPages: nat): (n: nat)
    ensures n <= numPages && n <= OcrPageLimit
    ensures n == numPages || n == OcrPageLimit
  {
    if numPages < OcrPageLimit then numPages else OcrPageLimit
  }

  /** Page numbers (1-based) among the first `count` pages whose canvas could be drawn, in order. */
  function Rasterised(pages: seq<Page>, count: nat): (r: seq<nat>)
    requires count <= |pages|
  {
    if count == 0 then []
    else Rasterised(pages, count - 1) + (if pages[count - 1].canvasReady then [count] else [])
  }

  /** The pages rasterised are among the first `count`, strictly increasing, and include every ready one. */
  lemma {:induction false} RasterisedPages(pages: seq<Page>, count: nat)
    requires count <= |pages|
    ensures |Rasterised(pages, count)| <= count
    ensures forall k :: 0 <= k < |Rasterised(pages, count)| ==> 1 <= Rasterised(pages, count)[k] <= count
    ensures forall k, l :: 0 <= k < l < |Rasterised(pages, count)| ==> Rasterised(pages, count)[k] < Rasterised(pages, count)[l]
    ensures forall p :: 1 <= p <= count ==> (p in Rasterised(pages, count) <==> pages[p - 1].canvasReady)
  {
    if count > 0 {
      RasterisedPages(pages, count - 1);
    }
  }

  /** The OCR loop: each of the first `min(numPages, 3)` pages with a canvas context becomes one image part. */
  method RasteriseForOcr(pages: seq<Page>) returns (imageParts: seq<nat>)
    ensures imageParts == Rasterised(pages, OcrPageCount(|pages|))
    ensures |imageParts| <= OcrPageLimit
  {
    imageParts := [];
    var i := 1;
    while i <= OcrPageCount(|pages|)
      invariant 1 <= i <= OcrPageCount(|pages|) + 1
      invariant imageParts == Rasterised(pages, i - 1)
    {
      if pages[i - 1].canvasReady {
        imageParts := imageParts + [i];
      }
      i := i + 1;
    }
    RasterisedPages(pages, OcrPageCount(|pages|));
  }

  /** What the import leaves in the form: résumé text, file name and error message. */
  datatype Imported = Imported(resumeText: string, fileName: string, error: string)

  const NotPdf := "Please select a PDF file."
  const ReadFailed := "Failed to read the PDF file. It might be corrupted or protected."
  const OcrEmpty := "OCR failed to extract text from the PDF. The document might be blank or unreadable."
  const NoImages := "Could not extract text from the PDF. It appears to be an image, but we failed to process it."

  /** The résumé screen's outcome once the text layer is read, the pages are rasterised and OCR has replied. */
  function ResumeOutcome(fileName: string, textContent: string, imageCount: nat, ocrReply: string): (r: Imported)
    ensures !NeedsOcr(textContent) ==> r == Imported(Trim(textContent), fileName, "")
    ensures NeedsOcr(textContent) && imageCount > 0 && Trim(ocrReply) != "" ==> r == Imported(Trim(ocrReply), fileName, "")
    ensures NeedsOcr(textContent) && imageCount > 0 && Trim(ocrReply) == "" ==> r == Imported("", "", OcrEmpty)
    ensures NeedsOcr(textContent) && imageCount == 0 ==> r == Imported("", "", NoImages)
    ensures r.error != "" ==> r.resumeText == "" && r.fileName == ""
    ensures r.error == "" <==> r.resumeText != ""
  {
    if NeedsOcr(textContent) then
      if imageCount > 0 then
        var ocrText := Trim(ocrReply);
        if ocrText != "" then Imported(ocrText, fileName, "")
        else Imported("", "", OcrEmpty)
      else Imported("", "", NoImages)
    else Imported(Trim(textContent), fileName, "")
  }

  /**
   * `handleFileChange` on the résumé screen from the file-type check to the settled form.
   * `pdf` is `None` when the document fails to load. `pageFault` says that a page call made
   * along the way (`getPage`, `getTextContent`, `render`) rejects. `ocrReply` is `None` when the
   * OCR request rejects or its reply has no text. Each of these failures lands in the same
   * `catch` as a failed load.
   */
  method ImportResume(fileName: string, isPdf: bool, pdf: Option<seq<Page>>, pageFault: bool, ocrReply: Option<string>)
    returns (r: Imported)
    ensures !isPdf ==> r == Imported("", "", NotPdf)
    ensures isPdf && (pdf.None? || pageFault) ==> r == Imported("", "", ReadFailed)
    ensures isPdf && pdf.Some? && !pageFault ==>
              var textContent := PagesText(pdf.value);
              var imageCount := |Rasterised(pdf.value, OcrPageCount(|pdf.value|))|;
              if NeedsOcr(textContent) && imageCount > 0 && ocrReply.None? then r == Imported("", "", ReadFailed)
              else r == ResumeOutcome(fileName, textContent, imageCount, if ocrReply.Some? then ocrReply.value else "")
  {
    if !isPdf {
      return Imported("", "", NotPdf);
    }
    match pdf
    case None =>
      r := Imported("", "", ReadFailed);
    case Some(pages) =>
      if pageFault {
        return Imported("", "", ReadFailed);
      }
      var textContent := ExtractText(pages);
      var reply := if ocrReply.Some? then ocrReply.value else "";
      if NeedsOcr(textContent) {
        var imageParts := RasteriseForOcr(pages);
        if |imageParts| > 0 && ocrReply.None? {
          r := Imported("", "", ReadFailed);
        } else {
          r := ResumeOutcome(fileName, textContent, |imageParts|, reply);
        }
      } else {
        r := ResumeOutcome(fileName, textContent, 0, reply);
      }
  }

  /** Items that are all blank yield a text layer of spaces and line feeds. */
  lemma {:induction false} JoinBlank(parts: seq<string>)
    requires forall i :: 0 <= i < |parts| ==> parts[i] == ""
    ensures forall k :: 0 <= k < |Join(parts, " ")| ==> Join(parts, " ")[k] == ' '
  {
    if |parts| > 1 {
      JoinBlank(parts[1..]);
    }
  }

  lemma {:induction false} BlankPagesText(pages: seq<Page>)
    requires forall p, j :: 0 <= p < |pages| && 0 <= j < |pages[p].items| ==> ItemText(pages[p].items[j]) == ""
    ensures forall k :: 0 <= k < |PagesText(pages)| ==> IsSpace(PagesText(pages)[k])
  {
    if pages != [] {
      var last := pages[|pages| - 1];
      BlankPagesText(pages[..|pages| - 1]);
      JoinBlank(ItemTexts(last.items));
    }
  }

  /** A scanned document, whose pages carry no text strings, always goes to OCR. */
  lemma BlankPagesNeedOcr(pages: seq<Page>)
    requires forall p, j :: 0 <= p < |pages| && 0 <= j < |pages[p].items| ==> ItemText(pages[p].items[j]) == ""
    ensures NeedsOcr(PagesText(pages))
  {
    BlankPagesText(pages);
    TrimEmptyIff(PagesText(pages));
  }

  const InterviewOcrFailed := "OCR failed."

  /** The interview screen's copy of the same flow: the reply is trimmed only after the emptiness test, and no image parts leave the form as it was. */
  function InterviewResumeOutcome(fileName: string, textContent: string, imageCount: nat, ocrReply: string): (r: Imported)
    ensures !NeedsOcr(textContent) ==> r == Imported(Trim(textContent), fileName, "")
    ensures NeedsOcr(textContent) && imageCount > 0 && ocrReply != "" ==> r == Imported(Trim(ocrReply), fileName, "")
    ensures NeedsOcr(textContent) && imageCount > 0 && ocrReply == "" ==> r == Imported("", fileName, InterviewOcrFailed)
    ensures NeedsOcr(textContent) && imageCount == 0 ==> r == Imported("", fileName, "")
    ensures r.fileName == fileName
  {
    if NeedsOcr(textContent) then
      if imageCount > 0 then
        if ocrReply != "" then Imported(Trim(ocrReply), fileName, "")
        else Imported("", fileName, InterviewOcrFailed)
      else Imported("", fileName, "")
    else Imported(Trim(textContent), fileName, "")
  }

  /** Unlike the résumé screen, the interview screen can end with neither résumé text nor an
      error: a document that needs OCR but yields no image parts, or whose OCR reply is blank. */
  lemma InterviewImportCanBeSilent(fileName: string, textContent: string, ocrReply: string, imageCount: nat)
    requires NeedsOcr(textContent)
    ensures imageCount == 0 ==>
              && InterviewResumeOutcome(fileName, textContent, imageCount, ocrReply) == Imported("", fileName, "")
              && ResumeOutcome(fileName, textContent, imageCount, ocrReply).error == NoImages
    ensures imageCount > 0 && ocrReply != "" && Trim(ocrReply) == "" ==>
              && InterviewResumeOutcome(fileName, textContent, imageCount, ocrReply) == Imported("", fileName, "")
              && ResumeOutcome(fileName, textContent, imageCount, ocrReply).error == OcrEmpty
  {
  }

  /** A reply of one space is such a blank reply. */
  lemma BlankReplyIsSilent()
    ensures InterviewResumeOutcome("cv.pdf", "", 1, " ") == Imported("", "cv.pdf", "")
  {
    assert Trim(" ") == "" by {
      TrimEmptyIff(" ");
    }
  }
}
