/**
 * The PDF libraries (pdfplumber and PyMuPDF) and the file system, as data,
 * and the extracted-document record the loaders return.
 */
module Pdf {
  import opened Wrappers
  import opened Text
  import Json

  /**
   * One page as the libraries read it: pdfplumber's `extract_text()` (None
   * when the page has no text layer), PyMuPDF's `get_text()` (the same text
   * for `get_text("text")`) and whether `get_images()` lists anything.
   */
  datatype PdfPage = PdfPage(plumberText: Option<string>, fitzText: string, hasImages: bool)

  /** What a path holds: a PDF both libraries open, or a file they reject with a message. */
  datatype FileEntry = Readable(pages: seq<PdfPage>) | Corrupt(reason: string)

  /** The file system; a path that is not a key does not exist. */
  type Disk = map<string, FileEntry>

  /** A raised exception: `FileNotFoundError` or any other `Exception`, with `str(e)`. */
  datatype Exc = FileNotFound(msg: string) | Error(msg: string)

  predicate Opens(disk: Disk, path: string) {
    path in disk && disk[path].Readable?
  }

  /** The exception a library raises when it cannot open `path`. */
  function OpenError(disk: Disk, path: string): (e: Exc)
    requires !Opens(disk, path)
    ensures e.FileNotFound? <==> path !in disk
  {
    if path !in disk then FileNotFound("[Errno 2] No such file or directory: " + Json.StrRepr(path))
    else Error(disk[path].reason)
  }

  datatype ExtractionMethod = Pdfplumber | Ocr

  /** A page record: 1-based number and text. */
  datatype Page = Page(num: int, text: string)

  /** The dict an extractor returns; `extractionMethod` is absent from some loaders' results. */
  datatype Document = Document(
    filePath: string,
    fileName: string,
    totalPages: int,
    pages: seq<Page>,
    fullText: string,
    extractionMethod: Option<ExtractionMethod>)

  /** The page records `{'page_num': k + 1, 'text': texts[k]}` for a list of page texts. */
  function NumberPages(texts: seq<string>): (pages: seq<Page>)
    ensures |pages| == |texts|
    ensures forall k :: 0 <= k < |texts| ==> pages[k] == Page(k + 1, texts[k])
  {
    seq(|texts|, k requires 0 <= k < |texts| => Page(k + 1, texts[k]))
  }

  /** Numbering one more page text appends its record. */
  lemma NumberPagesSnoc(texts: seq<string>, t: string)
    ensures NumberPages(texts + [t]) == NumberPages(texts) + [Page(|texts| + 1, t)]
  {
  }

  /** The outcome of a list loop that has collected `done` before a rest whose own outcome is `rest`. */
  function Prepend<T, E>(done: seq<T>, rest: Result<seq<T>, E>): Result<seq<T>, E> {
    match rest
    case Success(ds) => Success(done + ds)
    case Failure(e) => Failure(e)
  }

  /** Collecting `x` after `done` is collecting `done + [x]`. */
  lemma PrependSnoc<T, E>(done: seq<T>, x: T, rest: Result<seq<T>, E>)
    ensures Prepend(done, Prepend([x], rest)) == Prepend(done + [x], rest)
  {
    if rest.Success? {
      assert done + ([x] + rest.value) == (done + [x]) + rest.value;
    }
  }

  /** `s.split(sep)[-1]`. */
  function LastSegment(s: string, sep: char): string {
    Last(Split(s, sep))
  }

  /** `xs[-1]`. */
  function Last<T>(xs: seq<T>): T
    requires |xs| >= 1
  {
    xs[|xs| - 1]
  }

  /** The last segment is the part of `s` after its last `sep` (all of `s` when there is none). */
  lemma LastSegmentIsTail(s: string, sep: char)
    ensures |LastSegment(s, sep)| <= |s|
    ensures s[|s| - |LastSegment(s, sep)|..] == LastSegment(s, sep)
    ensures sep !in LastSegment(s, sep)
    ensures |LastSegment(s, sep)| < |s| ==> s[|s| - |LastSegment(s, sep)| - 1] == sep
    ensures sep !in s ==> LastSegment(s, sep) == s
  {
    LastSegmentSuffix(s, sep);
    SplitPiecesNoSep(s, sep);
    assert LastSegment(s, sep) == Split(s, sep)[|Split(s, sep)| - 1];
    if sep !in s {
      assert IndexOf(s, sep) < 0;
      assert Split(s, sep) == [s];
    }
  }

  /** The last segment ends `s` and, when shorter, follows a separator. */
  lemma LastSegmentSuffix(s: string, sep: char)
    ensures |LastSegment(s, sep)| <= |s|
    ensures s[|s| - |LastSegment(s, sep)|..] == LastSegment(s, sep)
    ensures |LastSegment(s, sep)| < |s| ==> s[|s| - |LastSegment(s, sep)| - 1] == sep
  {
    var parts := Split(s, sep);
    var n := |parts|;
    var last := parts[n - 1];
    assert LastSegment(s, sep) == last;
    JoinSplit(s, sep);
    if n == 1 {
      assert Join(parts, [sep]) == last;
    } else {
      var front := parts[..n - 1];
      assert parts == front + [last];
      JoinSnoc(front, last, [sep]);
      EndsAfter(Join(front, [sep]), sep, last);
    }
  }

  /** A text that ends with `x` and then `b` ends with `b`, right after `x`. */
  lemma EndsAfter<T>(a: seq<T>, x: T, b: seq<T>)
    ensures var s := a + [x] + b;
            && s[|s| - |b|..] == b
            && s[|s| - |b| - 1] == x
  {
  }

  /** `path.split('\\')[-1].split('/')[-1]`: the file name of a Windows or POSIX path. */
  function FileNameOf(path: string): (name: string)
    ensures '\\' !in name && '/' !in name
    ensures |name| <= |path| && path[|path| - |name|..] == name
    ensures |name| < |path| ==> path[|path| - |name| - 1] == '\\' || path[|path| - |name| - 1] == '/'
    ensures ('\\' !in path && '/' !in path) ==> name == path
  {
    var a := LastSegment(path, '\\');
    LastSegmentIsTail(path, '\\');
    var b := LastSegment(a, '/');
    LastSegmentIsTail(a, '/');
    assert forall j :: 0 <= j < |b| ==> b[j] == a[|a| - |b| + j];
    assert |b| < |a| ==> path[|path| - |b| - 1] == a[|a| - |b| - 1];
    b
  }
}
