/**
 * The older pdfplumber-only PDF service: per-page records numbered from 1, a
 * full text in which every page is introduced by a `--- Page n ---` marker,
 * and a case-insensitive line search over extracted pages.
 */
module PdfProcessor {
  import opened Wrappers
  import opened Text
  import opened Pdf
  import PdfTextExtractor

  /** A component `Path(p).name` ignores. */
  predicate Ignored(part: string) {
    part == "" || part == "."
  }

  /**
   * The last component `Path(p).name` reports: empty exactly when every
   * component is empty or `.`, otherwise the last component that is neither.
   */
  function LastComponent(parts: seq<string>): (name: string)
    ensures name == "" <==> forall k :: 0 <= k < |parts| ==> Ignored(parts[k])
    ensures name != "" ==> exists k :: 0 <= k < |parts| && parts[k] == name && !Ignored(name)
                                       && forall j :: k < j < |parts| ==> Ignored(parts[j])
    decreases |parts|
  {
    if parts == [] then ""
    else if !Ignored(parts[|parts| - 1]) then parts[|parts| - 1]
    else
      var front := parts[..|parts| - 1];
      assert forall k :: 0 <= k < |front| ==> front[k] == parts[k];
      LastComponent(front)
  }

  /**
   * `Path(p).name` for a POSIX path: empty exactly when every `/`-separated
   * component is empty or `.`, otherwise the last component that is neither.
   */
  function PosixName(path: string): (name: string)
    ensures '/' !in name
    ensures name == "" ==> forall k :: 0 <= k < |Split(path, '/')| ==> Ignored(Split(path, '/')[k])
    ensures (forall k :: 0 <= k < |Split(path, '/')| ==> Ignored(Split(path, '/')[k])) ==> name == ""
    ensures name != "" ==> exists k :: 0 <= k < |Split(path, '/')| && Split(path, '/')[k] == name && !Ignored(name)
                                       && forall j :: k < j < |Split(path, '/')| ==> Ignored(Split(path, '/')[j])
  {
    SplitPiecesNoSep(path, '/');
    LastComponent(Split(path, '/'))
  }

  /** A path that does not end in `/` or in a `.` component has the text after its last `/` as its name. */
  lemma PosixNameIsLastSegment(path: string)
    requires path != "" && path[|path| - 1] != '/' && LastSegment(path, '/') != "."
    ensures PosixName(path) == LastSegment(path, '/')
  {
    LastSegmentIsTail(path, '/');
    var parts := Split(path, '/');
    assert LastSegment(path, '/') == parts[|parts| - 1];
    assert LastSegment(path, '/') != "";
  }

  /** The marker line that introduces page `num` in the full text. */
  function PageMarker(num: int): string {
    "--- Page " + IntToString(num) + " ---"
  }

  /** `f"\n--- Page {num} ---\n{text}\n"`. */
  function PageBlock(num: int, text: string): string {
    "\n" + PageMarker(num) + ("\n" + text + "\n")
  }

  /** The full text before stripping: one block per page, numbered by position from 1. */
  function Blocks(texts: seq<string>): string
    decreases |texts|
  {
    if texts == [] then ""
    else Blocks(texts[..|texts| - 1]) + PageBlock(|texts|, texts[|texts| - 1])
  }

  /** What `PDFProcessor.extract_text_from_pdf` returns or raises. */
  function ProcessedDocument(disk: Disk, path: string): Result<Document, Exc> {
    if path !in disk then
      Failure(Error("Error processing PDF " + path + ": PDF file not found: " + path))
    else if disk[path].Corrupt? then
      Failure(Error("Error processing PDF " + path + ": " + disk[path].reason))
    else
      var texts := PdfTextExtractor.PlumberTexts(disk[path].pages);
      Success(Document(path, PosixName(path), |texts|, NumberPages(texts), Strip(Blocks(texts)), None))
  }

  /** `PDFProcessor.extract_text_from_pdf`. */
  method ExtractTextFromPdf(disk: Disk, filePath: string) returns (r: Result<Document, Exc>)
    ensures r == ProcessedDocument(disk, filePath)
  {
    if filePath !in disk {
      return Failure(Error("Error processing PDF " + filePath + ": PDF file not found: " + filePath));
    }
    if disk[filePath].Corrupt? {
      return Failure(Error("Error processing PDF " + filePath + ": " + disk[filePath].reason));
    }
    var pdf := disk[filePath].pages;
    ghost var texts := PdfTextExtractor.PlumberTexts(pdf);
    var pagesText: seq<Page> := [];
    var fullText := "";
    var i := 0;
    while i < |pdf|
      invariant 0 <= i <= |pdf|
      invariant pagesText == NumberPages(texts[..i])
      invariant fullText == Blocks(texts[..i])
    {
      var pageText := PdfTextExtractor.PlumberText(pdf[i]);
      pagesText := pagesText + [Page(i + 1, pageText)];
      fullText := fullText + PageBlock(i + 1, pageText);
      assert texts[..i + 1] == texts[..i] + [pageText];
      NumberPagesSnoc(texts[..i], pageText);
      i := i + 1;
    }
    assert texts[..i] == texts;
    r := Success(Document(filePath, PosixName(filePath), |pdf|, pagesText, Strip(fullText), None));
  }

  /** The block of every page lies in the unstripped full text. */
  lemma {:induction false} BlocksContainPages(texts: seq<string>, k: int)
    requires 0 <= k < |texts|
    ensures IsSubstring(PageBlock(k + 1, texts[k]), Blocks(texts))
    decreases |texts|
  {
    var n := |texts|;
    var front := texts[..n - 1];
    if k == n - 1 {
      SubstringOfConcat(Blocks(front), PageBlock(n, texts[n - 1]), []);
      assert Blocks(front) + PageBlock(n, texts[n - 1]) + [] == Blocks(texts);
    } else {
      BlocksContainPages(front, k);
      assert front[k] == texts[k];
      SubstringOfPrefix(PageBlock(k + 1, texts[k]), Blocks(front), PageBlock(n, texts[n - 1]));
    }
  }

  /**
   * A readable file gives one record per page numbered from 1 and
   * `total_pages` counting them; anything else is an error, a missing file
   * included, because the handler re-wraps the `FileNotFoundError`.
   */
  lemma ProcessedDocumentFacts(disk: Disk, path: string)
    ensures ProcessedDocument(disk, path).Failure? <==> !Opens(disk, path)
    ensures ProcessedDocument(disk, path).Failure? ==> ProcessedDocument(disk, path).error.Error?
    ensures Opens(disk, path) ==>
              var d := ProcessedDocument(disk, path).value;
              var src := disk[path].pages;
              && d.filePath == path
              && d.totalPages == |d.pages| == |src|
              && (forall k :: 0 <= k < |src| ==> d.pages[k] == Page(k + 1, PdfTextExtractor.PlumberText(src[k])))
  {
  }

  /**
   * Page `k + 1`'s text follows its marker in the full text before the
   * final strip, and the marker itself survives the strip.
   */
  lemma ProcessedDocumentMarks(disk: Disk, path: string, k: int)
    requires Opens(disk, path) && 0 <= k < |disk[path].pages|
    ensures var texts := PdfTextExtractor.PlumberTexts(disk[path].pages);
            && IsSubstring(PageBlock(k + 1, texts[k]), Blocks(texts))
            && IsSubstring(PageMarker(k + 1), ProcessedDocument(disk, path).value.fullText)
  {
    var texts := PdfTextExtractor.PlumberTexts(disk[path].pages);
    BlocksContainPages(texts, k);
    var m := PageMarker(k + 1);
    var tail := "\n" + texts[k] + "\n";
    SubstringOfConcat("\n", m, tail);
    assert "\n" + m + tail == PageBlock(k + 1, texts[k]);
    SubstringTrans(m, PageBlock(k + 1, texts[k]), Blocks(texts));
    assert m[0] == '-' && m[|m| - 1] == '-';
    SubstringSurvivesStrip(m, Blocks(texts));
  }

  /** What `PDFProcessor.extract_text_from_multiple_pdfs` returns or raises: the first failure, unchanged. */
  function ProcessedDocuments(disk: Disk, paths: seq<string>): Result<seq<Document>, Exc>
    decreases |paths|
  {
    if paths == [] then Success([])
    else
      match ProcessedDocument(disk, paths[0])
      case Failure(e) => Failure(e)
      case Success(d) => Prepend([d], ProcessedDocuments(disk, paths[1..]))
  }

  /** One turn of the list loop: the outcome at path `i` ends the call or extends the collected documents. */
  lemma ProcessedDocumentsStep(disk: Disk, paths: seq<string>, i: int, done: seq<Document>,
                               d: Result<Document, Exc>)
    requires 0 <= i < |paths|
    requires ProcessedDocuments(disk, paths) == Prepend(done, ProcessedDocuments(disk, paths[i..]))
    requires d == ProcessedDocument(disk, paths[i])
    ensures d.Failure? ==> ProcessedDocuments(disk, paths) == Failure(d.error)
    ensures d.Success? ==>
              ProcessedDocuments(disk, paths) == Prepend(done + [d.value], ProcessedDocuments(disk, paths[i + 1..]))
  {
    ProcessedDocumentsUnfold(disk, paths, i);
    if d.Success? {
      PrependSnoc(done, d.value, ProcessedDocuments(disk, paths[i + 1..]));
    }
  }

  /** The list outcome from path `i` on, one path unfolded. */
  lemma ProcessedDocumentsUnfold(disk: Disk, paths: seq<string>, i: int)
    requires 0 <= i < |paths|
    ensures ProcessedDocuments(disk, paths[i..])
            == match ProcessedDocument(disk, paths[i])
               case Failure(e) => Failure(e)
               case Success(d) => Prepend([d], ProcessedDocuments(disk, paths[i + 1..]))
  {
    assert paths[i..][0] == paths[i] && paths[i..][1..] == paths[i + 1..];
  }

  /** `PDFProcessor.extract_text_from_multiple_pdfs`. */
  method ExtractTextFromMultiplePdfs(disk: Disk, filePaths: seq<string>) returns (r: Result<seq<Document>, Exc>)
    ensures r == ProcessedDocuments(disk, filePaths)
  {
    var results: seq<Document> := [];
    var i := 0;
    assert filePaths[0..] == filePaths;
    match ProcessedDocuments(disk, filePaths) {
      case Success(ds) => assert [] + ds == ds;
      case Failure(_) =>
    }
    while i < |filePaths|
      invariant 0 <= i <= |filePaths|
      invariant ProcessedDocuments(disk, filePaths) == Prepend(results, ProcessedDocuments(disk, filePaths[i..]))
    {
      var result := ExtractTextFromPdf(disk, filePaths[i]);
      ProcessedDocumentsStep(disk, filePaths, i, results, result);
      if result.Failure? {
        return Failure(result.error);
      }
      results := results + [result.value];
      i := i + 1;
    }
    assert filePaths[i..] == [] && results + [] == results;
    r := Success(results);
  }

  /** A list extraction succeeds exactly when every path opens, and then gives one document per path, in order. */
  lemma {:induction false} ProcessedDocumentsFacts(disk: Disk, paths: seq<string>)
    ensures ProcessedDocuments(disk, paths).Success? <==> forall k :: 0 <= k < |paths| ==> Opens(disk, paths[k])
    ensures ProcessedDocuments(disk, paths).Success? ==>
              var ds := ProcessedDocuments(disk, paths).value;
              |ds| == |paths| &&
              forall k :: 0 <= k < |paths| ==> ProcessedDocument(disk, paths[k]) == Success(ds[k])
    decreases |paths|
  {
    if paths != [] {
      ProcessedDocumentFacts(disk, paths[0]);
      ProcessedDocumentsFacts(disk, paths[1..]);
      assert forall k :: 1 <= k < |paths| ==> paths[k] == paths[1..][k - 1];
      if !Opens(disk, paths[0]) {
        assert !Opens(disk, paths[0]);
      }
    }
  }

  /** One hit of `search_text_in_pages`. */
  datatype SearchMatch = SearchMatch(pageNumber: int, textSnippet: string, matchedLine: string)

  /** The hit for line `i` of a page: the line stripped, with up to two lines of context on each side. */
  function MatchAt(num: int, lines: seq<string>, i: int): SearchMatch
    requires 0 <= i < |lines|
  {
    var startIdx := if 0 > i - 2 then 0 else i - 2;
    var endIdx := if |lines| < i + 3 then |lines| else i + 3;
    SearchMatch(num, Join(lines[startIdx..endIdx], "\n"), Strip(lines[i]))
  }

  /** The hits among the first `n` lines of a page, for the lower-cased term `t`. */
  function LineMatches(num: int, lines: seq<string>, t: string, n: nat): seq<SearchMatch>
    requires n <= |lines|
  {
    if n == 0 then []
    else LineMatches(num, lines, t, n - 1)
         + (if IsSubstring(t, Lower(lines[n - 1])) then [MatchAt(num, lines, n - 1)] else [])
  }

  /** The hits of one page: none unless the page as a whole contains the term. */
  function PageMatches(page: Page, t: string): seq<SearchMatch> {
    if IsSubstring(t, Lower(page.text)) then
      var lines := Split(page.text, '\n');
      LineMatches(page.num, lines, t, |lines|)
    else []
  }

  /** The hits of each page, page by page. */
  function PerPage(pages: seq<Page>, t: string): (r: seq<seq<SearchMatch>>)
    ensures |r| == |pages|
    ensures forall k :: 0 <= k < |pages| ==> r[k] == PageMatches(pages[k], t)
  {
    seq(|pages|, k requires 0 <= k < |pages| => PageMatches(pages[k], t))
  }

  /** What `search_text_in_pages` returns: the hits of all pages, in page order. */
  function SearchMatches(pages: seq<Page>, t: string): seq<SearchMatch> {
    Flatten(PerPage(pages, t))
  }

  /** One turn of the page loop of `search_text_in_pages`: the hits of page `p` are appended. */
  lemma SearchStep(pages: seq<Page>, t: string, p: int, before: seq<SearchMatch>, after: seq<SearchMatch>)
    requires 0 <= p < |pages|
    requires before == Flatten(PerPage(pages, t)[..p])
    requires after == before + PageMatches(pages[p], t)
    ensures after == Flatten(PerPage(pages, t)[..p + 1])
  {
    var perPage := PerPage(pages, t);
    assert perPage[p] == PageMatches(pages[p], t);
    FlattenStep([], perPage, p, before, after);
  }

  /** The body of the page loop of `search_text_in_pages`: the hits of one page. */
  method PageHits(page: Page, term: string) returns (hits: seq<SearchMatch>)
    ensures hits == PageMatches(page, term)
  {
    hits := [];
    if IsSubstring(term, Lower(page.text)) {
      var lines := Split(page.text, '\n');
      var i := 0;
      while i < |lines|
        invariant 0 <= i <= |lines|
        invariant hits == LineMatches(page.num, lines, term, i)
      {
        if IsSubstring(term, Lower(lines[i])) {
          hits := hits + [MatchAt(page.num, lines, i)];
        } else {
          assert LineMatches(page.num, lines, term, i + 1) == hits + [];
        }
        i := i + 1;
      }
    }
  }

  /** `PDFProcessor.search_text_in_pages`. */
  method SearchTextInPages(pages: seq<Page>, searchTerm: string) returns (matches: seq<SearchMatch>)
    ensures matches == SearchMatches(pages, Lower(searchTerm))
  {
    var term := Lower(searchTerm);
    ghost var perPage := PerPage(pages, term);
    matches := [];
    var p := 0;
    while p < |pages|
      invariant 0 <= p <= |pages|
      invariant matches == Flatten(perPage[..p])
    {
      var page := pages[p];
      ghost var before := matches;
      var hits := PageHits(page, term);
      matches := matches + hits;
      SearchStep(pages, term, p, before, matches);
      p := p + 1;
    }
    assert perPage[..p] == perPage;
  }

  /** The hits among the first `n` lines are exactly the lines that contain the term. */
  lemma LineMatchesExact(num: int, lines: seq<string>, t: string, n: nat, m: SearchMatch)
    requires n <= |lines|
    ensures m in LineMatches(num, lines, t, n) <==>
              exists i :: 0 <= i < n && IsSubstring(t, Lower(lines[i])) && m == MatchAt(num, lines, i)
  {
    if m in LineMatches(num, lines, t, n) {
      LineMatchesSound(num, lines, t, n, m);
    }
    if exists i :: 0 <= i < n && IsSubstring(t, Lower(lines[i])) && m == MatchAt(num, lines, i) {
      var i :| 0 <= i < n && IsSubstring(t, Lower(lines[i])) && m == MatchAt(num, lines, i);
      LineMatchesComplete(num, lines, t, n, i);
    }
  }

  /** Every hit among the first `n` lines is the hit of a line that contains the term. */
  lemma {:induction false} LineMatchesSound(num: int, lines: seq<string>, t: string, n: nat, m: SearchMatch)
    requires n <= |lines| && m in LineMatches(num, lines, t, n)
    ensures exists i :: 0 <= i < n && IsSubstring(t, Lower(lines[i])) && m == MatchAt(num, lines, i)
  {
    var prev := LineMatches(num, lines, t, n - 1);
    var hit := IsSubstring(t, Lower(lines[n - 1]));
    assert LineMatches(num, lines, t, n) == prev + (if hit then [MatchAt(num, lines, n - 1)] else []);
    if m !in prev {
      assert hit && m == MatchAt(num, lines, n - 1);
    } else {
      LineMatchesSound(num, lines, t, n - 1, m);
      var i :| 0 <= i < n - 1 && IsSubstring(t, Lower(lines[i])) && m == MatchAt(num, lines, i);
      assert 0 <= i < n;
    }
  }

  /** Every line among the first `n` that contains the term has its hit. */
  lemma {:induction false} LineMatchesComplete(num: int, lines: seq<string>, t: string, n: nat, i: int)
    requires 0 <= i < n <= |lines| && IsSubstring(t, Lower(lines[i]))
    ensures MatchAt(num, lines, i) in LineMatches(num, lines, t, n)
  {
    var prev := LineMatches(num, lines, t, n - 1);
    var hit := IsSubstring(t, Lower(lines[n - 1]));
    assert LineMatches(num, lines, t, n) == prev + (if hit then [MatchAt(num, lines, n - 1)] else []);
    if i < n - 1 {
      LineMatchesComplete(num, lines, t, n - 1, i);
    }
  }

  /**
   * The page-level guard only saves work: a page that does not contain the
   * term has no line that does, so the hits of a page are exactly its lines
   * that contain the term.
   */
  lemma PageGuardRedundant(page: Page, t: string)
    ensures var lines := Split(page.text, '\n');
            PageMatches(page, t) == LineMatches(page.num, lines, t, |lines|)
  {
    var lines := Split(page.text, '\n');
    if !IsSubstring(t, Lower(page.text)) {
      NoLineMatches(page.num, lines, page.text, t, |lines|);
    }
  }

  lemma {:induction false} NoLineMatches(num: int, lines: seq<string>, text: string, t: string, n: nat)
    requires lines == Split(text, '\n') && n <= |lines|
    requires !IsSubstring(t, Lower(text))
    ensures LineMatches(num, lines, t, n) == []
  {
    if n > 0 {
      NoLineMatches(num, lines, text, t, n - 1);
      if IsSubstring(t, Lower(lines[n - 1])) {
        SplitPieceIsSubstring(text, '\n', n - 1);
        LowerSubstring(lines[n - 1], text);
        SubstringTrans(t, Lower(lines[n - 1]), Lower(text));
      }
    }
  }

  /**
   * A hit of the search is a hit of one of the pages, and every hit of
   * every page is in the search; with `LineMatchesExact` and
   * `PageGuardRedundant`, the search finds exactly the lines, of any page,
   * that contain the term.
   */
  lemma SearchMatchesExact(pages: seq<Page>, t: string, m: SearchMatch)
    ensures m in SearchMatches(pages, t) <==> exists k :: 0 <= k < |pages| && m in PageMatches(pages[k], t)
  {
    var perPage := PerPage(pages, t);
    FlattenMember(perPage, m);
    if m in SearchMatches(pages, t) {
      var k :| 0 <= k < |perPage| && m in perPage[k];
      assert m in PageMatches(pages[k], t);
    }
  }

  /** An empty search term is in every line, so every line of every page is a hit. */
  lemma EmptyTermMatchesEveryLine(page: Page)
    ensures var lines := Split(page.text, '\n');
            |PageMatches(page, "")| == |lines|
  {
    var lines := Split(page.text, '\n');
    assert OccursAt("", Lower(page.text), 0);
    EveryLineMatches(page.num, lines, |lines|);
  }

  lemma {:induction false} EveryLineMatches(num: int, lines: seq<string>, n: nat)
    requires n <= |lines|
    ensures |LineMatches(num, lines, "", n)| == n
  {
    if n > 0 {
      EveryLineMatches(num, lines, n - 1);
      assert OccursAt("", Lower(lines[n - 1]), 0);
    }
  }
}
