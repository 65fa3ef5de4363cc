/**
 * The scanned-PDF path: deciding whether a PDF is scanned from its first
 * page, and reading a scanned PDF page by page with PyMuPDF, substituting a
 * placeholder for image pages that carry no text at all.
 */
module OcrProcessor {
  import opened Wrappers
  import opened Text
  import opened Pdf

  /** A first page with fewer stripped characters than this marks a PDF as scanned. */
  const ScanThreshold := 10

  /** `is_pdf_scanned`: any failure to open the file, and an empty PDF, count as not scanned. */
  function IsPdfScanned(disk: Disk, path: string): (scanned: bool)
    ensures !Opens(disk, path) ==> !scanned
    ensures Opens(disk, path) && |disk[path].pages| == 0 ==> !scanned
    ensures Opens(disk, path) && |disk[path].pages| > 0 ==>
              (scanned <==> |Strip(disk[path].pages[0].fitzText)| < ScanThreshold)
  {
    if !Opens(disk, path) then false
    else
      var pages := disk[path].pages;
      if |pages| == 0 then false else |Strip(pages[0].fitzText)| < ScanThreshold
  }

  /** The text standing in for page `num` when it has images and no text. */
  function Placeholder(num: int): string {
    "[Scanned page " + IntToString(num) + " - OCR not available without tesseract]"
  }

  /** The text recorded for page number `num` of a scanned PDF. */
  function ScannedPageText(page: PdfPage, num: int): string {
    if page.fitzText == "" && page.hasImages then Placeholder(num) else page.fitzText
  }

  /** The texts of all pages of a scanned PDF, in order. */
  function ScannedTexts(pages: seq<PdfPage>): (texts: seq<string>)
    ensures |texts| == |pages|
    ensures forall k :: 0 <= k < |pages| ==> texts[k] == ScannedPageText(pages[k], k + 1)
  {
    seq(|pages|, k requires 0 <= k < |pages| => ScannedPageText(pages[k], k + 1))
  }

  /** What `process_scanned_pdf` returns or raises. */
  function ScannedDocument(disk: Disk, path: string): Result<Document, Exc> {
    if !Opens(disk, path) then
      Failure(Error("Error processing scanned PDF " + path + ": " + OpenError(disk, path).msg))
    else
      var texts := ScannedTexts(disk[path].pages);
      Success(Document(path, FileNameOf(path), |texts|, NumberPages(texts), Join(texts, "\n"), None))
  }

  /**
   * The body of the page loop of `process_scanned_pdf`: the library text,
   * re-read in "text" mode while it is short, replaced by the placeholder
   * when an image page has no text at all.
   */
  method ReadScannedPage(page: PdfPage, num: int) returns (text: string)
    ensures text == ScannedPageText(page, num)
  {
    text := page.fitzText;
    if |Strip(text)| < ScanThreshold {
      text := page.fitzText;
      if |Strip(text)| < ScanThreshold {
        if page.hasImages {
          text := page.fitzText;
          if text == "" {
            text := Placeholder(num);
          }
        }
      }
    }
  }

  /** The page loop of `process_scanned_pdf`: every page's text, and the page records numbered from 1. */
  method ReadScannedPages(doc: seq<PdfPage>) returns (allText: seq<string>, pages: seq<Page>)
    ensures |allText| == |doc|
    ensures forall j :: 0 <= j < |doc| ==> allText[j] == ScannedPageText(doc[j], j + 1)
    ensures pages == NumberPages(allText)
  {
    pages := [];
    allText := [];
    var k := 0;
    while k < |doc|
      invariant 0 <= k <= |doc|
      invariant |allText| == k
      invariant forall j :: 0 <= j < k ==> allText[j] == ScannedPageText(doc[j], j + 1)
      invariant pages == NumberPages(allText)
    {
      var text := ReadScannedPage(doc[k], k + 1);
      NumberPagesSnoc(allText, text);
      pages := pages + [Page(k + 1, text)];
      allText := allText + [text];
      k := k + 1;
    }
  }

  /** The result `process_scanned_pdf` assembles once its page loop has read `texts`. */
  lemma ScannedDocumentIs(disk: Disk, path: string, texts: seq<string>, pages: seq<Page>)
    requires Opens(disk, path)
    requires |texts| == |disk[path].pages|
    requires forall j :: 0 <= j < |texts| ==> texts[j] == ScannedPageText(disk[path].pages[j], j + 1)
    requires pages == NumberPages(texts)
    ensures ScannedDocument(disk, path)
            == Success(Document(path, FileNameOf(path), |pages|, pages, Join(texts, "\n"), None))
  {
    assert texts == ScannedTexts(disk[path].pages);
  }

  /**
   * `process_scanned_pdf`: the library text of every page, re-read in
   * "text" mode while it is short, with the placeholder where an image page
   * has no text at all.
   */
  method ProcessScannedPdf(disk: Disk, path: string) returns (r: Result<Document, Exc>)
    ensures r == ScannedDocument(disk, path)
  {
    if !Opens(disk, path) {
      return Failure(Error("Error processing scanned PDF " + path + ": " + OpenError(disk, path).msg));
    }
    var allText, pages := ReadScannedPages(disk[path].pages);
    ScannedDocumentIs(disk, path, allText, pages);
    r := Success(Document(path, FileNameOf(path), |pages|, pages, Join(allText, "\n"), None));
  }

  /**
   * A scanned PDF's result: one record per library page, numbered from 1,
   * holding the library text, except that an image page with no text holds
   * the placeholder; `total_pages` counts them and `full_text` joins them by
   * newlines, so splitting it recovers the pages when no page spans lines.
   */
  lemma ScannedDocumentPages(disk: Disk, path: string)
    requires Opens(disk, path)
    ensures ScannedDocument(disk, path).Success?
    ensures var d := ScannedDocument(disk, path).value; var src := disk[path].pages;
      && d.totalPages == |d.pages| == |src|
      && d.filePath == path
      && d.extractionMethod == None
      && (forall k :: 0 <= k < |src| ==> d.pages[k].num == k + 1)
      && (forall k :: 0 <= k < |src| ==>
            (d.pages[k].text == src[k].fitzText || (src[k].fitzText == "" && src[k].hasImages)))
      && (forall k :: 0 <= k < |src| && src[k].fitzText == "" && src[k].hasImages ==>
            d.pages[k].text == Placeholder(k + 1))
      && (|src| >= 1 && (forall k :: 0 <= k < |src| ==> '\n' !in d.pages[k].text) ==>
            Split(d.fullText, '\n') == ScannedTexts(src))
  {
    var src := disk[path].pages;
    var texts := ScannedTexts(src);
    var d := ScannedDocument(disk, path).value;
    if |src| >= 1 && (forall k :: 0 <= k < |src| ==> '\n' !in d.pages[k].text) {
      SplitJoin(texts, '\n');
    }
  }

  /** `process_scanned_pdf` fails only on a file PyMuPDF cannot open, and never with `FileNotFoundError`. */
  lemma ScannedDocumentFails(disk: Disk, path: string)
    ensures ScannedDocument(disk, path).Failure? <==> !Opens(disk, path)
    ensures ScannedDocument(disk, path).Failure? ==> ScannedDocument(disk, path).error.Error?
  {
  }

  /** What `extract_text_with_ocr` returns: the page texts joined by newlines, or "" on any error. */
  function OcrText(disk: Disk, path: string): string {
    if !Opens(disk, path) then ""
    else
      var pages := disk[path].pages;
      Join(seq(|pages|, k requires 0 <= k < |pages| => pages[k].fitzText), "\n")
  }

  /** `extract_text_with_ocr`. */
  method ExtractTextWithOcr(disk: Disk, path: string) returns (text: string)
    ensures text == OcrText(disk, path)
  {
    if !Opens(disk, path) {
      return "";
    }
    var doc := disk[path].pages;
    var fullText: seq<string> := [];
    var k := 0;
    while k < |doc|
      invariant 0 <= k <= |doc|
      invariant fullText == seq(k, j requires 0 <= j < k => doc[j].fitzText)
    {
      fullText := fullText + [doc[k].fitzText];
      k := k + 1;
    }
    text := Join(fullText, "\n");
  }

  /**
   * `extract_text_with_ocr` and the full text of `process_scanned_pdf` agree
   * when no placeholder was substituted.
   */
  lemma {:induction false} OcrTextMatchesScanned(disk: Disk, path: string)
    requires Opens(disk, path)
    requires forall k :: 0 <= k < |disk[path].pages| ==>
               !(disk[path].pages[k].fitzText == "" && disk[path].pages[k].hasImages)
    ensures OcrText(disk, path) == ScannedDocument(disk, path).value.fullText
  {
    var pages := disk[path].pages;
    assert ScannedTexts(pages) == seq(|pages|, k requires 0 <= k < |pages| => pages[k].fitzText);
  }
}
