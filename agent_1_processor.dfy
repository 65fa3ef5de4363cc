/**
 * Agent 1: the extracted documents are laid out one framed block after the
 * other and sent to the model, together with the question, in one call.
 */
module Agent1Processor {
  import opened Wrappers
  import opened Text
  import opened Pdf
  import opened Llm

  /** A line of 80 `=`. */
  function Rule(): string {
    Repeat('=', 80)
  }

  /** The framing around a document's text: what comes before it. */
  function BlockHead(doc: Document): string {
    "\n" + Rule() + "\n" + "Document: " + doc.fileName + "\n"
    + "Total Pages: " + IntToString(doc.totalPages) + "\n" + Rule() + "\n"
  }

  /** ... and what comes after it. */
  function BlockTail(): string {
    "\n" + Rule() + "\n\n"
  }

  /** One document's block. */
  function DocBlock(doc: Document): string {
    BlockHead(doc) + doc.fullText + BlockTail()
  }

  /** Appending the six pieces one after the other appends the document's block. */
  lemma AppendPieces(before: string, rule: string, name: string, pages: string, text: string)
    ensures before + "\n" + rule + "\n" + "Document: " + name + "\n" + "Total Pages: " + pages + "\n" + rule + "\n"
            + text + "\n" + rule + "\n\n"
         == before + (("\n" + rule + "\n" + "Document: " + name + "\n" + "Total Pages: " + pages + "\n" + rule + "\n")
                      + text + ("\n" + rule + "\n\n"))
  {
  }

  /** What `_combine_documents` builds from the documents, in the order it appends them. */
  function Combined(docs: seq<Document>): string
    decreases |docs|
  {
    if docs == [] then "" else Combined(docs[..|docs| - 1]) + DocBlock(docs[|docs| - 1])
  }

  /** `_combine_documents`. */
  method CombineDocuments(docs: seq<Document>) returns (combined: string)
    ensures combined == Combined(docs)
  {
    combined := "";
    var i := 0;
    while i < |docs|
      invariant 0 <= i <= |docs|
      invariant combined == Combined(docs[..i])
    {
      var doc := docs[i];
      ghost var before := combined;
      combined := combined + "\n" + Rule() + "\n";
      combined := combined + "Document: " + doc.fileName + "\n";
      combined := combined + "Total Pages: " + IntToString(doc.totalPages) + "\n";
      combined := combined + Rule() + "\n";
      combined := combined + doc.fullText;
      combined := combined + "\n" + Rule() + "\n\n";
      AppendPieces(before, Rule(), doc.fileName, IntToString(doc.totalPages), doc.fullText);
      assert docs[..i + 1][..i] == docs[..i];
      i := i + 1;
    }
    assert docs[..i] == docs;
  }

  /** The documents' blocks, in input order. */
  function Blocks(docs: seq<Document>): (blocks: seq<string>)
    ensures |blocks| == |docs|
    ensures forall k :: 0 <= k < |docs| ==> blocks[k] == DocBlock(docs[k])
    decreases |docs|
  {
    if docs == [] then []
    else
      Blocks(docs[..|docs| - 1]) + [DocBlock(docs[|docs| - 1])]
  }

  /** The combined text is the blocks of the documents, one per document, in input order; no documents give "". */
  lemma {:induction false} CombinedIsBlocks(docs: seq<Document>)
    ensures Combined(docs) == Flatten(Blocks(docs))
    decreases |docs|
  {
    if docs != [] {
      var n := |docs|;
      var front := docs[..n - 1];
      var last := DocBlock(docs[n - 1]);
      CombinedIsBlocks(front);
      FlattenSnoc(Blocks(front), last);
      calc {
        Combined(docs);
        Combined(front) + last;
        Flatten(Blocks(front)) + last;
        Flatten(Blocks(front) + [last]);
      }
    }
  }

  /** Every document's block, and so its full text verbatim, occurs in the combined text. */
  lemma {:induction false} CombinedContainsDocument(docs: seq<Document>, k: int)
    requires 0 <= k < |docs|
    ensures IsSubstring(DocBlock(docs[k]), Combined(docs))
    ensures IsSubstring(docs[k].fullText, Combined(docs))
    decreases |docs|
  {
    var n := |docs|;
    var front := docs[..n - 1];
    if k == n - 1 {
      SubstringOfConcat(Combined(front), DocBlock(docs[k]), []);
      assert Combined(front) + DocBlock(docs[k]) + [] == Combined(docs);
    } else {
      CombinedContainsDocument(front, k);
      assert front[k] == docs[k];
      SubstringOfPrefix(DocBlock(docs[k]), Combined(front), DocBlock(docs[n - 1]));
    }
    SubstringOfConcat(BlockHead(docs[k]), docs[k].fullText, BlockTail());
    SubstringTrans(docs[k].fullText, DocBlock(docs[k]), Combined(docs));
  }

  /** The one model call `process` makes: the combined documents and the question, at temperature 0.3. */
  function Agent1Request(docs: seq<Document>, prompt: string): Request {
    Request(Answer(Combined(docs), prompt), 0.3)
  }

  /** `Agent1Processor.process`: the model's reply, unchanged, or the client's exception. */
  function Process(llm: Client, docs: seq<Document>, prompt: string): Result<string, string> {
    llm(Agent1Request(docs, prompt))
  }
}
