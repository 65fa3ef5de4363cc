/**
 * The unified extractor: a PDF whose first page has (almost) no text goes
 * through the scanned-PDF path, every other one through pdfplumber; a list of
 * paths is extracted in order and the first failure is re-raised.
 */
module PdfTextExtractor {
  import opened Wrappers
  import opened Text
  import opened Pdf
  import opened OcrProcessor
  import Json

  /** `page.extract_text() or ""`. */
  function PlumberText(page: PdfPage): string {
    match page.plumberText
    case Some(t) => t
    case None => ""
  }

  function PlumberTexts(pages: seq<PdfPage>): (texts: seq<string>)
    ensures |texts| == |pages|
    ensures forall k :: 0 <= k < |pages| ==> texts[k] == PlumberText(pages[k])
  {
    seq(|pages|, k requires 0 <= k < |pages| => PlumberText(pages[k]))
  }

  /** What `extract_with_pdfplumber` returns or raises. */
  function PlumberDocument(disk: Disk, path: string): Result<Document, Exc> {
    if !Opens(disk, path) then
      Failure(Error("Error processing PDF " + path + ": " + OpenError(disk, path).msg))
    else
      var texts := PlumberTexts(disk[path].pages);
      Success(Document(path, FileNameOf(path), |disk[path].pages|, NumberPages(texts),
                       Join(texts, "\n"), Some(Pdfplumber)))
  }

  /** `extract_with_pdfplumber`. */
  method ExtractWithPdfplumber(disk: Disk, path: string) returns (r: Result<Document, Exc>)
    ensures r == PlumberDocument(disk, path)
  {
    if !Opens(disk, path) {
      return Failure(Error("Error processing PDF " + path + ": " + OpenError(disk, path).msg));
    }
    var pdf := disk[path].pages;
    var pages: seq<Page> := [];
    var allText: seq<string> := [];
    var i := 0;
    while i < |pdf|
      invariant 0 <= i <= |pdf|
      invariant |allText| == |pages| == i
      invariant forall j :: 0 <= j < i ==> allText[j] == PlumberText(pdf[j])
      invariant pages == NumberPages(allText)
    {
      var text := PlumberText(pdf[i]);
      NumberPagesSnoc(allText, text);
      pages := pages + [Page(i + 1, text)];
      allText := allText + [text];
      i := i + 1;
    }
    assert allText == PlumberTexts(pdf);
    r := Success(Document(path, FileNameOf(path), |pdf|, pages, Join(allText, "\n"), Some(Pdfplumber)));
  }

  /** What `extract_text_from_pdf` returns or raises. */
  function ExtractedDocument(disk: Disk, path: string): Result<Document, Exc> {
    if IsPdfScanned(disk, path) then
      var scanned := ScannedDocument(disk, path);
      if scanned.Success? then Success(scanned.value.(extractionMethod := Some(Ocr))) else scanned
    else PlumberDocument(disk, path)
  }

  /** `extract_text_from_pdf`. */
  method ExtractTextFromPdf(disk: Disk, path: string) returns (r: Result<Document, Exc>)
    ensures r == ExtractedDocument(disk, path)
  {
    var isScanned := IsPdfScanned(disk, path);
    if isScanned {
      r := ProcessScannedPdf(disk, path);
      if r.Success? {
        r := Success(r.value.(extractionMethod := Some(Ocr)));
      }
    } else {
      r := ExtractWithPdfplumber(disk, path);
    }
  }

  /**
   * A single extraction fails exactly when the file cannot be opened, with
   * the path in the message and never as `FileNotFoundError`; when it
   * succeeds the method is OCR exactly for scanned PDFs, one record per page
   * numbered from 1, `total_pages` counting them.
   */
  lemma ExtractedDocumentFacts(disk: Disk, path: string)
    ensures ExtractedDocument(disk, path).Failure? <==> !Opens(disk, path)
    ensures ExtractedDocument(disk, path).Failure? ==>
              ExtractedDocument(disk, path).error
              == Error("Error processing PDF " + path + ": " + OpenError(disk, path).msg)
    ensures ExtractedDocument(disk, path).Success? ==>
              var d := ExtractedDocument(disk, path).value;
              && d.filePath == path
              && d.fileName == FileNameOf(path)
              && d.totalPages == |d.pages| == |disk[path].pages|
              && (forall k :: 0 <= k < |d.pages| ==> d.pages[k].num == k + 1)
              && (d.extractionMethod == Some(Ocr) <==> IsPdfScanned(disk, path))
              && (d.extractionMethod == Some(Pdfplumber) <==> !IsPdfScanned(disk, path))
  {
    if Opens(disk, path) && IsPdfScanned(disk, path) {
      ScannedDocumentPages(disk, path);
    }
  }

  /** A missing file surfaces as a generic error naming the path and the OS message. */
  lemma MissingFileIsGenericError(disk: Disk, path: string)
    requires path !in disk
    ensures ExtractedDocument(disk, path)
            == Failure(Error("Error processing PDF " + path + ": "
                             + "[Errno 2] No such file or directory: " + Json.StrRepr(path)))
  {
    var prefix := "Error processing PDF " + path + ": ";
    var m := "[Errno 2] No such file or directory: " + Json.StrRepr(path);
    assert OpenError(disk, path).msg == m;
    assert prefix + m == "Error processing PDF " + path + ": " + "[Errno 2] No such file or directory: " + Json.StrRepr(path);
  }

  /** How `extract_text_from_multiple_pdfs` re-raises the failure of one path. */
  function Rewrap(path: string, e: Exc): Exc {
    match e
    case FileNotFound(_) => FileNotFound("PDF file not found: " + path)
    case Error(m) => Error("Error processing PDF " + path + ": " + m)
  }

  /** What `extract_text_from_multiple_pdfs` returns or raises. */
  function ExtractedDocuments(disk: Disk, paths: seq<string>): Result<seq<Document>, Exc>
    decreases |paths|
  {
    if paths == [] then Success([])
    else
      match ExtractedDocument(disk, paths[0])
      case Failure(e) => Failure(Rewrap(paths[0], e))
      case Success(d) => Prepend([d], ExtractedDocuments(disk, paths[1..]))
  }

  /**
   * One turn of the loop of `extract_text_from_multiple_pdfs`: with the
   * documents of the first `i` paths collected, the outcome at path `i`
   * either ends the whole call with its re-raised error or extends the
   * collected documents.
   */
  lemma ExtractedDocumentsStep(disk: Disk, paths: seq<string>, i: int, done: seq<Document>,
                               d: Result<Document, Exc>)
    requires 0 <= i < |paths|
    requires ExtractedDocuments(disk, paths) == Prepend(done, ExtractedDocuments(disk, paths[i..]))
    requires d == ExtractedDocument(disk, paths[i])
    ensures d.Failure? ==> ExtractedDocuments(disk, paths) == Failure(Rewrap(paths[i], d.error))
    ensures d.Success? ==>
              ExtractedDocuments(disk, paths) == Prepend(done + [d.value], ExtractedDocuments(disk, paths[i + 1..]))
  {
    ExtractedDocumentsUnfold(disk, paths, i);
    if d.Success? {
      PrependSnoc(done, d.value, ExtractedDocuments(disk, paths[i + 1..]));
    }
  }

  /** The list outcome from path `i` on, one path unfolded. */
  lemma ExtractedDocumentsUnfold(disk: Disk, paths: seq<string>, i: int)
    requires 0 <= i < |paths|
    ensures ExtractedDocuments(disk, paths[i..])
            == match ExtractedDocument(disk, paths[i])
               case Failure(e) => Failure(Rewrap(paths[i], e))
               case Success(d) => Prepend([d], ExtractedDocuments(disk, paths[i + 1..]))
  {
    assert paths[i..][0] == paths[i] && paths[i..][1..] == paths[i + 1..];
  }

  /** `extract_text_from_multiple_pdfs`. */
  method ExtractTextFromMultiplePdfs(disk: Disk, paths: seq<string>) returns (r: Result<seq<Document>, Exc>)
    ensures r == ExtractedDocuments(disk, paths)
  {
    var results: seq<Document> := [];
    var i := 0;
    assert paths[0..] == paths;
    match ExtractedDocuments(disk, paths) {
      case Success(ds) => assert [] + ds == ds;
      case Failure(_) =>
    }
    while i < |paths|
      invariant 0 <= i <= |paths|
      invariant ExtractedDocuments(disk, paths) == Prepend(results, ExtractedDocuments(disk, paths[i..]))
    {
      var result := ExtractTextFromPdf(disk, paths[i]);
      ExtractedDocumentsStep(disk, paths, i, results, result);
      if result.Failure? {
        return Failure(Rewrap(paths[i], result.error));
      }
      results := results + [result.value];
      i := i + 1;
    }
    assert paths[i..] == [] && results + [] == results;
    r := Success(results);
  }

  /** Index of the first path that does not open, or the length of the list when they all do. */
  function FirstUnopened(disk: Disk, paths: seq<string>): (k: nat)
    ensures k <= |paths|
    ensures forall j :: 0 <= j < k ==> Opens(disk, paths[j])
    ensures k < |paths| ==> !Opens(disk, paths[k])
  {
    if paths == [] then 0
    else if !Opens(disk, paths[0]) then 0
    else
      var k := FirstUnopened(disk, paths[1..]);
      assert forall j :: 0 < j <= k ==> paths[j] == paths[1..][j - 1];
      k + 1
  }

  /**
   * Extracting a list succeeds exactly when every path opens, giving one
   * document per path, in order.
   */
  lemma {:induction false} ExtractedDocumentsSucceed(disk: Disk, paths: seq<string>)
    ensures ExtractedDocuments(disk, paths).Success? <==> FirstUnopened(disk, paths) == |paths|
    ensures ExtractedDocuments(disk, paths).Success? ==>
              var ds := ExtractedDocuments(disk, paths).value;
              |ds| == |paths| &&
              forall k :: 0 <= k < |paths| ==> ExtractedDocument(disk, paths[k]) == Success(ds[k])
    decreases |paths|
  {
    if paths != [] {
      ExtractedDocumentFacts(disk, paths[0]);
      ExtractedDocumentsSucceed(disk, paths[1..]);
      if Opens(disk, paths[0]) && ExtractedDocuments(disk, paths[1..]).Success? {
        var ds := ExtractedDocuments(disk, paths[1..]).value;
        assert forall k :: 1 <= k < |paths| ==> paths[k] == paths[1..][k - 1];
        assert ExtractedDocuments(disk, paths).value == [ExtractedDocument(disk, paths[0]).value] + ds;
      }
    }
  }

  /**
   * Otherwise the first path that does not open decides the error, which is
   * never `FileNotFoundError` (so the `except FileNotFoundError` branch is
   * dead) and carries the "Error processing PDF" prefix twice: once from the
   * single-file extractor and once from the list loop.
   */
  lemma {:induction false} ExtractedDocumentsFail(disk: Disk, paths: seq<string>)
    requires FirstUnopened(disk, paths) < |paths|
    ensures var p := paths[FirstUnopened(disk, paths)];
            ExtractedDocuments(disk, paths)
            == Failure(Error("Error processing PDF " + p + ": " + "Error processing PDF " + p + ": "
                             + OpenError(disk, p).msg))
    decreases |paths|
  {
    var p := paths[0];
    ExtractedDocumentFacts(disk, p);
    if Opens(disk, p) {
      ExtractedDocumentsFail(disk, paths[1..]);
    } else {
      var m := OpenError(disk, p).msg;
      assert "Error processing PDF " + p + ": " + ("Error processing PDF " + p + ": " + m)
             == "Error processing PDF " + p + ": " + "Error processing PDF " + p + ": " + m;
    }
  }
}
