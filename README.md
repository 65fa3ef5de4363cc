# PDF question answering and file-analysis CLIs, modelled in Dafny

This project models the core of a system that answers free-text questions
about documents.

* **The AI service** (`ai_service/`) answers a question about uploaded PDFs.
  - It extracts each PDF's page text. A document whose first page yields almost no text is treated as scanned and read page by page, with a placeholder for image-only pages.
  - When the question is a counting query that names known entities (complaints, substantiated, ...), it condenses the text. It scans the lines with word-bounded patterns and keeps the first fifty matches with their context.
  - Three language-model agents then run in order. Agent 1 answers from the combined page-tagged text. Agent 2 condenses that answer. Agent 3 picks the final answer and scores it for groundedness, accuracy and relevance. It derives `overall_score` and `needs_review` from those scores and attributes the answer to cited pages.
  - The handler assembles the `AIResponse` or maps an exception to HTTP 404 or 500.
* **Two command-line analysers** (`test.py`, `test2.py`) let a language model inspect one uploaded text file through tools.
  - `FileAnalyzer` offers four tools: view numbered lines, search with a regular expression, run an allow-listed shell command, and tally a list of values.
  - `SmartContextFileAnalyzer` adds tools for document sections, line windows and line positions. It also trims a long conversation, replacing its middle with a summary.

One Dafny module models each core source file:

| module | source |
|---|---|
| `Schemas` | `ai_service/models/schemas.py` |
| `Agent1Processor` | `ai_service/agents/agent_1_processor.py` |
| `Agent3Evaluator` | `ai_service/agents/agent_3_evaluator.py` |
| `PatternMatcher` | `ai_service/services/pattern_matcher.py` |
| `PdfProcessor` | `ai_service/services/pdf_processor.py` |
| `PdfTextExtractor` | `ai_service/tools/pdf_text_extractor.py` |
| `OcrProcessor` | `ai_service/tools/ocr_processor.py` |
| `AiService` | `ai_service/main.py` |
| `FileAnalyzerCli` | `test.py` |
| `SmartContextCli` | `test2.py` |

Six support modules model the Python and library behaviour the core relies on:

* `Wrappers`: `Option` and `Result`.
* `Text`: `str` operations such as `split`, `join`, `strip`, `lower`, `find` and `count`.
* `Json`: JSON values, with Python truthiness, `str()` and dict-key equality.
* `Regex`: an abstract regular-expression engine, plus the concrete word-bounded literal search the entity patterns use.
* `Pdf`: the PDF libraries, as a disk of readable or corrupt files.
* `Llm`: the language model, as a function from request to text.

Behaviour of the code worth knowing:

* `overall_score` is the plain mean of the three scores. It is neither rounded nor clamped, so a score outside [0, 1] makes `Metrics` fail validation and the request fail with 500.
* Unreadable model replies default to 0.7. A reply without a key defaults to Agent 2's answer and a confidence of 0.8.
* `sources_used` is the number of documents.
* An empty list of paths is not an error.
* A missing PDF ends in a 500, not a 404. `extract_with_pdfplumber` re-raises every exception as a generic `Exception`, so `FileNotFoundError` never reaches the handler.

Loops in the source are `method`s with loop invariants, each proved equal to a specification function. The analysers' classes keep their `uploaded_files` and `analysis_state` as fields. The properties are lemmas about those functions.

## Model

| member | source | states |
|---|---|---|
| Schemas.StrField | ai_service/models/schemas.py:21-46 | a `str` field validates exactly when given a string, and keeps it |
| Schemas.UnitField | ai_service/models/schemas.py:21-46 | a `float` field bounded by `ge=0.0, le=1.0` validates exactly when the value is in [0, 1], and keeps it |
| Schemas.MakeMetrics | ai_service/models/schemas.py:21-46 | `Metrics(...)` succeeds exactly when every score is in [0, 1], `sources_used >= 0` and the justifications are strings; the record then holds the given values |
| Schemas.SchemaLeavesDerivedFieldsFree | ai_service/models/schemas.py:21-46 | the schema does not tie `needs_review` to `overall_score < 0.8` or `overall_score` to the mean: a record breaking both validates |
| Schemas.MakeResponse | ai_service/models/schemas.py:49-59 | `AIResponse(...)` succeeds exactly when `final_answer` is a string, keeping it and the metrics |
| Agent1Processor.CombineDocuments | ai_service/agents/agent_1_processor.py:52-62 | the loop of `_combine_documents` builds the combined text |
| Agent1Processor.Blocks | ai_service/agents/agent_1_processor.py:52-62 | one header-and-text block per document, in input order |
| Agent1Processor.CombinedIsBlocks | ai_service/agents/agent_1_processor.py:52-62 | the combined text is the concatenation of the documents' blocks, in order; no documents give "" |
| Agent1Processor.CombinedContainsDocument | ai_service/agents/agent_1_processor.py:14-62 | every document's block, and so its full text verbatim, occurs in what Agent 1 is sent |
| OcrProcessor.IsPdfScanned | ai_service/tools/ocr_processor.py:9-36 | a file that does not open, and an empty PDF, are not scanned; otherwise scanned exactly when the stripped first-page text is shorter than 10 characters |
| OcrProcessor.ScannedTexts | ai_service/tools/ocr_processor.py:62-91 | one text per page, each that page's OCR-path text |
| OcrProcessor.ReadScannedPage | ai_service/tools/ocr_processor.py:62-91 | the loop body computes the page text: re-read when short, the placeholder for an image page without text |
| OcrProcessor.ReadScannedPages | ai_service/tools/ocr_processor.py:62-91 | the page loop reads every page in order and numbers the records from 1 |
| OcrProcessor.ScannedDocumentIs | ai_service/tools/ocr_processor.py:93-101 | the result assembled after the loop: path, file name, page count, pages, text joined by newlines, no method field |
| OcrProcessor.ProcessScannedPdf | ai_service/tools/ocr_processor.py:39-107 | `process_scanned_pdf` returns the scanned document or the open error |
| OcrProcessor.ScannedDocumentPages | ai_service/tools/ocr_processor.py:39-107 | one record per page numbered from 1; each holds the library text or, exactly for image pages without text, the placeholder; the full text splits back into the page texts |
| OcrProcessor.ScannedDocumentFails | ai_service/tools/ocr_processor.py:39-107 | it fails exactly when the file does not open, and never with `FileNotFoundError` |
| OcrProcessor.ExtractTextWithOcr | ai_service/tools/ocr_processor.py:110-133 | `extract_text_with_ocr` computes the OCR text of the file |
| OcrProcessor.OcrTextMatchesScanned | ai_service/tools/ocr_processor.py:39-133 | the two OCR paths give the same full text when no placeholder was substituted |
| PdfTextExtractor.PlumberTexts | ai_service/tools/pdf_text_extractor.py:42-78 | one text per page, `extract_text() or ""` |
| PdfTextExtractor.ExtractWithPdfplumber | ai_service/tools/pdf_text_extractor.py:42-78 | `extract_with_pdfplumber` returns the pdfplumber document or the re-wrapped error |
| PdfTextExtractor.ExtractTextFromPdf | ai_service/tools/pdf_text_extractor.py:10-39 | `extract_text_from_pdf` returns the OCR or pdfplumber document |
| PdfTextExtractor.ExtractedDocumentFacts | ai_service/tools/pdf_text_extractor.py:10-78 | extraction fails exactly when the file does not open, with the path in the message; on success the pages are numbered from 1 and the method is "ocr" exactly for scanned files |
| PdfTextExtractor.MissingFileIsGenericError | ai_service/tools/pdf_text_extractor.py:42-78 | a missing file yields a generic error quoting the OS message, not `FileNotFoundError` |
| PdfTextExtractor.ExtractedDocumentsStep | ai_service/tools/pdf_text_extractor.py:81-102 | one loop turn: a failure ends the list with the re-wrapped error, a success extends it |
| PdfTextExtractor.ExtractTextFromMultiplePdfs | ai_service/tools/pdf_text_extractor.py:81-102 | the loop returns the documents of all paths or the first error |
| PdfTextExtractor.FirstUnopened | ai_service/tools/pdf_text_extractor.py:81-102 | the index of the first path that does not open: all before it open |
| PdfTextExtractor.ExtractedDocumentsSucceed | ai_service/tools/pdf_text_extractor.py:81-102 | the list succeeds exactly when every path opens, giving one document per path in order |
| PdfTextExtractor.ExtractedDocumentsFail | ai_service/tools/pdf_text_extractor.py:81-102 | otherwise the first path that does not open decides the error, wrapped twice |
| Pdf.OpenError | ai_service/tools/pdf_text_extractor.py:45-46 | the library raises `FileNotFoundError` exactly for a path that does not exist |
| Pdf.NumberPages | ai_service/tools/pdf_text_extractor.py:53-61 | page records `{'page_num': k + 1, 'text': texts[k]}`, one per text |
| Pdf.LastSegmentSuffix | ai_service/tools/pdf_text_extractor.py:66 | the last piece of `s.split(sep)` is a suffix of `s`, preceded by the separator when shorter than `s` |
| Text.JoinSplit | test.py:212 | joining `s.split(sep)` with `sep` gives back `s` |
| Text.SplitJoin | ai_service/tools/ocr_processor.py:103 | splitting pieces joined by a separator none of them holds gives back the pieces |
| Regex.BoundedLiteralFromIff | ai_service/services/pattern_matcher.py:26-41 | searching from a position finds the literal exactly when a whole-word occurrence starts at or after it |
| Regex.HasBoundedAlternativeIff | ai_service/services/pattern_matcher.py:26-41 | a `\b(a\|b\|...)\b` pattern matches exactly when one of its alternatives occurs as a whole word |
| Regex.Escape | test2.py:523 | `re.escape(s)` is at least as long as `s` |
| Regex.EscapeRoundTrip | test2.py:523 | the escaped pattern, read back with each backslash standing for the character after it, is the searched text itself |
| Json.Lookup | ai_service/agents/agent_3_evaluator.py:194 | `d.get(key)` finds a value exactly when the dict has the key, and the value found is stored under it |
| Json.ToFloat | ai_service/agents/agent_3_evaluator.py:195 | `float(x)` of a float is itself and of an integer its value; `None`, lists and dicts raise |
| Json.Iterate | test2.py:481 | `for x in v` runs exactly over values that have a `len`, as many times as their length |
| Json.Str | test2.py:523 | `str(s)` of a string is the string itself |
| Pdf.LastSegmentIsTail | ai_service/tools/pdf_text_extractor.py:66 | `s.split(sep)[-1]` is the part of `s` after its last separator, all of `s` without one |
| Pdf.FileNameOf | ai_service/tools/pdf_text_extractor.py:66 | the file name of a Windows or POSIX path is the text after the path's last `\` or `/`: it holds no separator, ends the path, is preceded by a separator when shorter than the path, and is the whole path when it has none |
| PdfProcessor.LastComponent | ai_service/services/pdf_processor.py:39 | `Path(p).name` is empty exactly when every component is empty or `.`; otherwise it is a component that is neither, and every later component is empty or `.` |
| PdfProcessor.PosixName | ai_service/services/pdf_processor.py:39 | `Path(p).name` holds no `/`, and is the last `/`-separated component that is neither empty nor `.`, or empty when there is none |
| PdfProcessor.PosixNameIsLastSegment | ai_service/services/pdf_processor.py:39 | for a path that does not end in `/` or in a `.` component, `Path(p).name` is the text after its last `/` |
| PdfProcessor.ExtractTextFromPdf | ai_service/services/pdf_processor.py:9-47 | the page loop of `PDFProcessor.extract_text_from_pdf` builds the document |
| PdfProcessor.BlocksContainPages | ai_service/services/pdf_processor.py:20-33 | each page's marked block lies in the unstripped full text |
| PdfProcessor.ProcessedDocumentFacts | ai_service/services/pdf_processor.py:9-47 | a readable file gives one record per page numbered from 1; anything else, a missing file included, is a generic error |
| PdfProcessor.ProcessedDocumentMarks | ai_service/services/pdf_processor.py:20-44 | page `k + 1`'s marker survives the final strip |
| PdfProcessor.ProcessedDocumentsStep | ai_service/services/pdf_processor.py:49-63 | one loop turn: a failure ends the list, a success extends it |
| PdfProcessor.ExtractTextFromMultiplePdfs | ai_service/services/pdf_processor.py:49-63 | the loop returns all documents or the first error |
| PdfProcessor.ProcessedDocumentsFacts | ai_service/services/pdf_processor.py:49-63 | success exactly when every path opens, then one document per path in order |
| PdfProcessor.PerPage | ai_service/services/pdf_processor.py:65-95 | the hits of each page, page by page |
| PdfProcessor.SearchStep | ai_service/services/pdf_processor.py:78-93 | one page-loop turn appends that page's hits |
| PdfProcessor.PageHits | ai_service/services/pdf_processor.py:80-93 | the line loop of one page computes its hits |
| PdfProcessor.SearchTextInPages | ai_service/services/pdf_processor.py:65-95 | `search_text_in_pages` returns the lower-cased term's hits over all pages |
| PdfProcessor.LineMatchesExact | ai_service/services/pdf_processor.py:83-93 | a hit is reported exactly for each line whose lower-cased text contains the term |
| PdfProcessor.PageGuardRedundant | ai_service/services/pdf_processor.py:80-82 | the page-level `in` guard only saves work: a page's hits are exactly its matching lines |
| PdfProcessor.SearchMatchesExact | ai_service/services/pdf_processor.py:65-95 | a hit of the search is exactly a hit of one of the pages |
| PdfProcessor.EmptyTermMatchesEveryLine | ai_service/services/pdf_processor.py:65-95 | an empty term hits every line |
| PatternMatcher.PatternIndex | ai_service/services/pattern_matcher.py:26-41 | the position of the first pattern with a given name |
| PatternMatcher.EntityPatternsDistinct | ai_service/services/pattern_matcher.py:26-41 | `ENTITY_PATTERNS` names every entity once |
| PatternMatcher.CollectMatching | ai_service/services/pattern_matcher.py:84-86 | the loop appending each matching entity computes the matching names |
| PatternMatcher.CollectStep | ai_service/services/pattern_matcher.py:84-86 | one loop turn appends the name exactly when its pattern matches |
| PatternMatcher.MatchingNamesIff | ai_service/services/pattern_matcher.py:71-88 | a name is collected exactly when a pattern of that name matches |
| PatternMatcher.MatchingNamesOrdered | ai_service/services/pattern_matcher.py:71-88 | collected names are known names, in pattern order, each once |
| PatternMatcher.MatchingNamesFull | ai_service/services/pattern_matcher.py:71-88 | every name is collected exactly when every pattern matches |
| PatternMatcher.CountingKeywordCounts | ai_service/services/pattern_matcher.py:50-69 | a counting phrase standing as a whole word, in any case, makes a counting query |
| PatternMatcher.CountingIgnoresCase | ai_service/services/pattern_matcher.py:50-69 | `is_counting_query` ignores case |
| PatternMatcher.ExtractEntities | ai_service/services/pattern_matcher.py:71-88 | `extract_entities_from_query` returns the names matching the lower-cased query |
| PatternMatcher.ExtractedEntitiesFacts | ai_service/services/pattern_matcher.py:71-88 | an entity is extracted exactly when it is known and its pattern matches; entities come in pattern order |
| PatternMatcher.ShouldUsePatternMatching | ai_service/services/pattern_matcher.py:206-222 | pattern matching is used exactly for a counting query naming at least one entity |
| PatternMatcher.RequestedFacts | ai_service/services/pattern_matcher.py:114-118 | the requested patterns are the known, named entities' own patterns, each once |
| PatternMatcher.RequestedIgnoresUnknownAndRepeats | ai_service/services/pattern_matcher.py:114-118 | naming an unknown or already named entity changes nothing |
| PatternMatcher.HitsFrom | ai_service/services/pattern_matcher.py:121-141 | the indices of matching lines lie in the file |
| PatternMatcher.Records | ai_service/services/pattern_matcher.py:121-141 | one record per hit index |
| PatternMatcher.HitsStep | ai_service/services/pattern_matcher.py:121-141 | one line either adds its index or not |
| PatternMatcher.RecordsSnoc | ai_service/services/pattern_matcher.py:135-141 | appending a hit appends its record |
| PatternMatcher.ScanLines | ai_service/services/pattern_matcher.py:121-141 | the line loop of `scan_document` computes the records |
| PatternMatcher.ScanDocument | ai_service/services/pattern_matcher.py:90-143 | `scan_document` returns the records of the scan; no entities give none |
| PatternMatcher.HitsIff | ai_service/services/pattern_matcher.py:121-141 | an index is a hit exactly when its line matches every requested pattern |
| PatternMatcher.HitsIncreasing | ai_service/services/pattern_matcher.py:121-141 | hit indices strictly increase |
| PatternMatcher.MatchedSound | ai_service/services/pattern_matcher.py:121-141 | every record is that of a matching line |
| PatternMatcher.MatchedComplete | ai_service/services/pattern_matcher.py:121-141 | every matching line has its record |
| PatternMatcher.MatchedIncreasing | ai_service/services/pattern_matcher.py:121-141 | records come in increasing line order |
| PatternMatcher.MatchAtFacts | ai_service/services/pattern_matcher.py:126-141 | a record lists every requested entity and the context lines `i - c` to `i + c`, cut at the ends, including its own line |
| PatternMatcher.NoPatternHitsEveryLine | ai_service/services/pattern_matcher.py:121-141 | with no pattern required, every line is a hit |
| PatternMatcher.UnknownRequestNothing | ai_service/services/pattern_matcher.py:114-118 | only unknown names request no pattern |
| PatternMatcher.ScanOfUnknownEntities | ai_service/services/pattern_matcher.py:90-143 | scanning for only unknown entity names returns a record for every line |
| PatternMatcher.GenerateSummary | ai_service/services/pattern_matcher.py:186-204 | `_generate_summary` computes the summary text |
| PatternMatcher.SamplesContain | ai_service/services/pattern_matcher.py:198-202 | each given match's sample line occurs in the samples |
| PatternMatcher.SummaryFacts | ai_service/services/pattern_matcher.py:186-204 | no matches say none were found; otherwise the full count comes first and each of the first three matches shows a sample line |
| PatternMatcher.ExecuteCountingSearch | ai_service/services/pattern_matcher.py:145-184 | the count covers all matches; the list is cut to fifty |
| PatternMatcher.FirstFifty | ai_service/services/pattern_matcher.py:173-180 | the first fifty records, all when fewer |
| Agent3Evaluator.ContextEntries | ai_service/agents/agent_3_evaluator.py:77-80 | one entry for each of the first three documents |
| Agent3Evaluator.DocContextSeesOnlyPrefixes | ai_service/agents/agent_3_evaluator.py:77-80 | the context depends only on the names and first 2000 characters of the first three documents |
| Agent3Evaluator.DocContextIgnoresLaterDocuments | ai_service/agents/agent_3_evaluator.py:77-80 | documents after the third never reach the context |
| Agent3Evaluator.JsonSliceFacts | ai_service/agents/agent_3_evaluator.py:188-190 | the JSON slice runs from the first `{` to the last `}` when both exist in order, and is empty or one character otherwise |
| Agent3Evaluator.ParseObject | ai_service/agents/agent_3_evaluator.py:188-193 | a parsed reply is the dict `json.loads` gave for the slice |
| Agent3Evaluator.ReadFinalChoiceCases | ai_service/agents/agent_3_evaluator.py:187-202 | Agent 2's answer with confidence 0.7 when the reply is not a JSON dict or its `confidence_score` does not convert with `float`; otherwise the confidence is the converted value (0.8 when missing) and the answer the dict's `final_answer` (Agent 2's answer when missing) |
| Agent3Evaluator.ReadScoreCases | ai_service/agents/agent_3_evaluator.py:204-412 | an unreadable reply, or a `score` that does not convert with `float`, gives 0.7 with "<Metric> evaluation error: ..."; otherwise the score is the converted value (0.7 when missing) and the justification the dict's own ("Unable to evaluate <metric>" when missing) |
| Agent3Evaluator.Preview | ai_service/agents/agent_3_evaluator.py:98 | `justification[:100]` slices a string or a list; a string's preview is its first 100 characters; `None`, numbers and booleans raise "object is not subscriptable", a dict raises too |
| Agent3Evaluator.EvaluateStep | ai_service/agents/agent_3_evaluator.py:89-118 | one evaluation followed by its progress line: it succeeds exactly when the evaluation does and its justification is a string or a list, with the evaluation's own result; otherwise it fails with the evaluation's or the preview's error |
| Agent3Evaluator.UnsliceableJustificationFails | ai_service/agents/agent_3_evaluator.py:89-98 | a groundedness justification that is neither a string nor a list fails the whole evaluation with the preview's error, before accuracy is asked for |
| Agent3Evaluator.AssembleFacts | ai_service/agents/agent_3_evaluator.py:120-161 | the combined record keeps the final answer, the confidence and the three scores with their justifications; the metrics are valid, `overall_score` is the plain mean, `needs_review` holds exactly below 0.8, and the summary carries the review line |
| Agent3Evaluator.EvaluateAnswersFacts | ai_service/agents/agent_3_evaluator.py:64-161 | the metrics are valid, carry the three scores, their plain mean as `overall_score` and `needs_review` exactly below 0.8, and count the documents |
| Agent3Evaluator.SummaryShowsReview | ai_service/agents/agent_3_evaluator.py:143-155 | the evaluation summary carries the review line |
| Agent3Evaluator.OutOfRangeScoreFails | ai_service/agents/agent_3_evaluator.py:121-140 | a score outside [0, 1] is not clamped: building the metrics, and so the evaluation, fails |
| Agent3Evaluator.PageCitation | ai_service/agents/agent_3_evaluator.py:430-456 | one page contributes at most one section |
| Agent3Evaluator.PageSections | ai_service/agents/agent_3_evaluator.py:430-456 | a document contributes at most one section per page |
| Agent3Evaluator.SectionsUsed | ai_service/agents/agent_3_evaluator.py:414-460 | it raises exactly for a non-string answer with some page to visit; otherwise at most five sections, the first ones found |
| Agent3Evaluator.FirstPageFails | ai_service/agents/agent_3_evaluator.py:430-436 | a non-string answer fails on the first visited page with the missing `lower` attribute |
| Agent3Evaluator.CiteDocument | ai_service/agents/agent_3_evaluator.py:430-458 | the inner page loop extends the collected sections, stopping at five |
| Agent3Evaluator.ExtractSectionsUsed | ai_service/agents/agent_3_evaluator.py:414-460 | the two loops of `_extract_sections_used` compute the sections |
| Agent3Evaluator.SectionsUsedIs | ai_service/agents/agent_3_evaluator.py:414-460 | when nothing raises, the result is the first five cited sections |
| Agent3Evaluator.PageSectionsFromCited | ai_service/agents/agent_3_evaluator.py:430-456 | every section comes from a cited page, with its number and snippet |
| Agent3Evaluator.PageSectionsAbove | ai_service/agents/agent_3_evaluator.py:430-456 | sections cite only pages that exist |
| Agent3Evaluator.PageSectionsIncreasing | ai_service/agents/agent_3_evaluator.py:430-456 | sections follow the page order, each page at most once |
| Agent3Evaluator.CitedPageIncluded | ai_service/agents/agent_3_evaluator.py:430-456 | every cited page contributes its section |
| Agent3Evaluator.PageCitedIff | ai_service/agents/agent_3_evaluator.py:430-456 | a page is cited exactly when it is relevant and its snippet is not empty |
| Agent3Evaluator.SectionsIgnoreAnswer | ai_service/agents/agent_3_evaluator.py:414-460 | the answer's wording never changes the sections |
| AiService.ErrorFor | ai_service/main.py:157-164 | `FileNotFoundError` gives 404, any other exception 500 |
| AiService.BuildCondensedContext | ai_service/main.py:70-75 | the loop builds the condensed context |
| AiService.CondensedContextFacts | ai_service/main.py:70-75 | it starts with its header, holds at most fifty blocks, and each of the first fifty matches' blocks, numbered by rank |
| AiService.CondensedDoc | ai_service/main.py:79-85 | the condensed document is one page numbered 1 holding the condensed text, named after the first path or "extracted_sections" |
| AiService.AgentDocumentsRoute | ai_service/main.py:50-122 | the condensed document exactly when pattern matching is chosen, the extracted documents otherwise |
| AiService.ChooseDocuments | ai_service/main.py:50-122 | the branch computes what the agents see |
| AiService.CallAgents | ai_service/main.py:89-138 | the agent calls and response assembly |
| AiService.ProcessDocuments | ai_service/main.py:24-164 | `process_documents` returns the response or the HTTP error |
| AiService.PipelineDataFlow | ai_service/main.py:46-138 | the stages run in order, each on the previous one's output; the response carries their outputs, the request id, the elapsed time and the timestamp |
| AiService.PipelineErrors | ai_service/main.py:157-164 | every failure is a 500, a PDF that does not open included, with the doubly wrapped message |
| AiService.EmptyPathsExtractNothing | ai_service/main.py:46-85 | no paths extract no documents; the condensed document is then named "extracted_sections" |
| AiService.EmptyPathsRunTheAgents | ai_service/main.py:46-138 | with no paths and no routing, a response cites no section and counts no source |
| FileAnalyzerCli.Arg | test.py:205 | `tool_input[key]` gives the value, or a `KeyError` quoting the key |
| FileAnalyzerCli.FileLookup | test.py:208 | a string name finds its upload; an unhashable name raises `TypeError` |
| FileAnalyzerCli.Numbered | test.py:215-227 | one numbered line per line |
| FileAnalyzerCli.ParseRange | test.py:215-218 | a parsed range lies within the file |
| FileAnalyzerCli.ParseIntegerRange | test.py:215-218 | a pair of integers gives the 0-based start `max(1, start) - 1` and the end `min(n, end)` |
| FileAnalyzerCli.RangeViewShowsOriginalNumbers | test.py:214-219 | a range shows those lines, one per view line, each under its own number |
| FileAnalyzerCli.RangeViewNegativeEnd | test.py:214-219 | a negative end counts from the end of the file |
| FileAnalyzerCli.ShortFileShownWhole | test.py:220-227 | a file of at most 100 lines is shown whole, numbered |
| FileAnalyzerCli.LongFileShowsBothEnds | test.py:220-227 | a longer file shows its first 50 lines, one hidden-lines line and its last 50 lines under their own numbers |
| FileAnalyzerCli.LongViewIsJoin | test.py:220-227 | the long view joins the head, the truncation line and the tail |
| FileAnalyzerCli.ViewFileFacts | test.py:203-235 | a missing argument raises, an unknown name is "File not found", a view reports the line count and size |
| FileAnalyzerCli.ViewByName | test.py:203-235 | viewing a stored file without a range shows its whole view |
| FileAnalyzerCli.ViewToolByName | test.py:187-235 | the `view_file` tool reports that view |
| FileAnalyzerCli.CollectMatchingLines | test.py:257-261 | the loop computes the line reports |
| FileAnalyzerCli.ReportsUpToExact | test.py:257-261 | a report is among the first `n` lines' exactly when such a line matches |
| FileAnalyzerCli.LineReportsExact | test.py:257-261 | the reports name exactly the matching lines |
| FileAnalyzerCli.SearchReportsMatchingLines | test.py:237-270 | a valid search reports every `findall` match and exactly the matching lines |
| FileAnalyzerCli.SearchOutcomeSearched | test.py:237-270 | the search result is the matches and the line reports with their counts |
| FileAnalyzerCli.RunCommandAllowList | test.py:272-306 | the shell runs a command exactly when its first word is one of the nine safe commands, with `$FILE` replaced by the stored path |
| FileAnalyzerCli.RefusalSkipsLeadingSpace | test.py:280-284 | leading white space is skipped |
| FileAnalyzerCli.SafeCommandsAreWords | test.py:276-278 | the safe commands are single words |
| FileAnalyzerCli.RefusalReadsFirstWordOnly | test.py:280-284 | a safe first word passes whatever follows it, but "cat;ls" is refused |
| FileAnalyzerCli.LenOf | test.py:314 | `len(x)`, or `TypeError` for a value without a length |
| FileAnalyzerCli.ItemsOf | test.py:317 | `for item in x`, or `TypeError` |
| FileAnalyzerCli.FirstUnhashable | test.py:314-318 | the first item that cannot be hashed |
| FileAnalyzerCli.TallyIndex | test.py:318 | the entry with a given key, or none |
| FileAnalyzerCli.BumpNewKey | test.py:316-318 | an item with a new key adds an entry counting 1 and keeps the tally exact |
| FileAnalyzerCli.BumpKnownKey | test.py:316-318 | an item with a known key raises that count by one and keeps the tally exact |
| FileAnalyzerCli.KnownKeyTally | test.py:316-318 | counting one more item under its entry keeps the tally exact |
| FileAnalyzerCli.TalliesFacts | test.py:316-318 | the `frequency` dict has one entry per distinct key (`1`, `1.0` and `True` are one key), counting its items, as many entries as keys |
| FileAnalyzerCli.CountFrequencies | test.py:316-318 | the loop computes the frequency dict, or the `TypeError` of an unhashable item |
| FileAnalyzerCli.AnalysesAgree | test.py:308-327 | the counts add up to `total`; the number of entries is the `unique_count` |
| FileAnalyzerCli.UnknownAnalysisType | test.py:308-327 | any other analysis type is reported, not raised |
| FileAnalyzerCli.ToolOutcomeErrors | test.py:187-201 | an unknown tool is reported; a missing required argument fails quoting its name |
| FileAnalyzerCli.BaseName | test.py:76 | `os.path.basename` is the text after the last `/`: it holds no `/`, ends the path, and is preceded by `/` when shorter than the path |
| FileAnalyzerCli.FileAnalyzer.constructor | test.py:55-63 | the analyser starts with its working directory and no uploads |
| FileAnalyzerCli.FileAnalyzer.UploadFile | test.py:70-95 | a missing file is reported; otherwise the text is stored under its base name in the working directory with its size, replacing an earlier one |
| FileAnalyzerCli.FileAnalyzer.SearchText | test.py:237-270 | `_search_text` computes the search outcome |
| FileAnalyzerCli.FileAnalyzer.AnalyzeData | test.py:308-327 | `_analyze_data` computes the analysis |
| FileAnalyzerCli.FileAnalyzer.ExecuteTool | test.py:187-201 | `execute_tool` computes the tool outcome |
| SmartContextCli.CollectIff | test2.py:150-164 | an item is collected exactly when some message yields it |
| SmartContextCli.AssistantFinding | test2.py:150-154 | an assistant message yields a finding exactly when its content is non-empty and mentions "found" or "discovered"; the finding is cut to 200 characters |
| SmartContextCli.ToolMessageNotes | test2.py:155-164 | a tool message gives "Count: ..." or "Matches: ...", or "Tool execution completed" when it does not parse |
| SmartContextCli.SummaryTextFacts | test2.py:166-176 | "Analysis in progress" exactly when nothing was collected; otherwise discoveries first, and the first three findings and five notes appear |
| SmartContextCli.SeparateSystem | test2.py:183-190 | the loop keeps the last system message and the others in order |
| SmartContextCli.LastSystemFacts | test2.py:183-190 | a system message is kept exactly when there is one, and it is the last |
| SmartContextCli.OthersConcat | test2.py:183-190 | the others are a filter over the messages |
| SmartContextCli.OthersCount | test2.py:183-190 | the others hold no system message and are fewer when one was left out |
| SmartContextCli.OthersMembers | test2.py:183-190 | the others are exactly the non-system messages |
| SmartContextCli.TrimKeepsSystemFirst | test2.py:178-221 | the trimmed conversation starts with the last system message when there is one, holds no other, and has at most 10 messages |
| SmartContextCli.KeptFacts | test2.py:192-212 | at most 9 kept messages, none a system message |
| SmartContextCli.TrimKeepsEnds | test2.py:178-221 | a long conversation keeps its first 3 and last 5 around one summary; a short one keeps its last 8 |
| SmartContextCli.KeptLong | test2.py:192-207 | the three kept parts of a long conversation |
| SmartContextCli.KeptShort | test2.py:211-212 | a short conversation keeps its last 8 messages |
| SmartContextCli.LineNumberAt | test2.py:399 | a match's line number is at least 1 |
| SmartContextCli.LineNumberInRange | test2.py:399-400 | a match lies on a line of the file, so the empty fallback is never taken |
| SmartContextCli.LineNumberCountsBreaks | test2.py:399 | the line number is the number of lines in the text before the match |
| SmartContextCli.HeadViewShort | test2.py:356-366 | a file of at most 100 lines is shown whole |
| SmartContextCli.HeadViewIsJoin | test2.py:356-366 | a longer view joins the first 100 numbered lines and a more-lines line |
| SmartContextCli.HeadViewLong | test2.py:356-366 | a longer file shows only its first 100 lines and one more-lines line |
| SmartContextCli.ViewFileFacts | test2.py:344-373 | a missing or unknown name is "File not found"; a view reports the line count and `len(content)` as its size |
| SmartContextCli.ViewRangeAsFirstAnalyzer | test2.py:355-360 | a pair of integers is shown as `FileAnalyzer` shows it |
| SmartContextCli.Hits | test2.py:397-407 | one record per match |
| SmartContextCli.CollectHits | test2.py:397-407 | the loop over the matches computes the records |
| SmartContextCli.HitsFacts | test2.py:397-407 | each record keeps the match's text and positions, its line number and that line stripped |
| SmartContextCli.HitFacts | test2.py:399-407 | the same for one match |
| SmartContextCli.SearchFacts | test2.py:375-418 | an invalid pattern is reported; `count_only` gives the count; a full search gives the records and the count |
| SmartContextCli.NonStringPatternRaises | test2.py:377-389 | a list or dict pattern raises `unhashable type: 'list'` or `'dict'` from the compile cache; any other non-string raises the pattern check's `TypeError` |
| SmartContextCli.SmartContextFileAnalyzer.SearchText | test2.py:375-418 | `_search_text` computes the search outcome |
| SmartContextCli.ContextParts | test2.py:439-444 | the numbered lines `ln - 2` to `ln + 3` that exist |
| SmartContextCli.CollectContext | test2.py:439-444 | the loop computes the context block |
| SmartContextCli.Locations | test2.py:436-451 | one location per match |
| SmartContextCli.CollectLocations | test2.py:436-451 | the inner loop computes the locations |
| SmartContextCli.LocateMatch | test2.py:437-451 | one match's location: the line number before it, that line stripped, and the context loop's block |
| SmartContextCli.LocationsSnoc | test2.py:436-451 | one more match appends its own location and keeps the earlier ones |
| SmartContextCli.PutSection | test2.py:453-457 | storing a marker's entry keeps the others and adds it |
| SmartContextCli.PutSectionMarkers | test2.py:453-457 | markers stay distinct; the stored marker joins them |
| SmartContextCli.PutSectionEntries | test2.py:455-459 | `sections_found[marker] = ...`: an equal marker's entry becomes the new section, and every other entry is kept |
| SmartContextCli.SectionsOfFailure | test2.py:432-457 | a failure on some marker is the failure of the whole call |
| SmartContextCli.SectionsOfStep | test2.py:432-457 | one loop turn: a bad marker or search ends the call, a found marker is stored |
| SmartContextCli.CollectSections | test2.py:432-457 | the marker loop computes `sections_found` |
| SmartContextCli.SectionsOfFacts | test2.py:420-465 | each marker appears once, exactly when asked for and found as a whole word in any case; each entry's count is the number of that marker's own whole-word matches and its locations are built from those matches |
| SmartContextCli.PutFoundSection | test2.py:434-459 | storing a found marker's section keeps the markers distinct, every count equal to its number of locations and every entry holding its own marker's matches, and adds its marker and no other |
| SmartContextCli.MarkersFoundSnoc | test2.py:430-460 | after one more marker, the stored markers are still exactly those asked for that have a match |
| SmartContextCli.NumberedLines | test2.py:444-446 | one numbered line per index of `range(lo, hi)`, in order: entry `k` is line `lo + k` with its 5-wide number |
| SmartContextCli.NumberedSnoc | test2.py:444-446 | appending the next numbered line keeps entry `k` as line `lo + k` |
| SmartContextCli.ContextHoldsLine | test2.py:443-447 | a location's context shows its own line among at most 6 |
| SmartContextCli.SmartContextFileAnalyzer.FindDocumentSections | test2.py:420-465 | `_find_document_sections` computes the sections outcome |
| SmartContextCli.ContextLines | test2.py:486-492 | one entry per line of the window |
| SmartContextCli.CollectContextLines | test2.py:486-492 | the loop computes the window's lines |
| SmartContextCli.WindowEntry | test2.py:479-501 | the loop body computes one entry or what Python raises |
| SmartContextCli.InRangeWindow | test2.py:480-498 | a line number in the file gets its window |
| SmartContextCli.PutRange | test2.py:494-501 | storing a line number's entry adds at most one entry |
| SmartContextCli.WindowFacts | test2.py:479-498 | an in-file line gets `max(1, ln - c)` to `min(n, ln + c)`, each line numbered, exactly line `ln` marked |
| SmartContextCli.OutOfRangeEntry | test2.py:500-501 | a line outside the file gets an error entry naming it |
| SmartContextCli.PutRangeKeys | test2.py:494-501 | keys stay distinct; the stored key joins them |
| SmartContextCli.PutRangeEntries | test2.py:494-501 | storing an entry replaces the entry of an equal key, or adds it; every other entry is kept |
| SmartContextCli.LastKeyIndex | test2.py:481-501 | the position of the last line number with a given dict key: no later one has that key, -1 when none has |
| SmartContextCli.LastKeyIndexSnoc | test2.py:481-501 | one more line number is the last occurrence of its own key and changes no other key's last occurrence |
| SmartContextCli.RangesOfEntry | test2.py:481-501 | after one more line number every entry is still the one built for its key's last occurrence |
| SmartContextCli.RangesOfKeys | test2.py:477-506 | one entry per distinct requested number, so `total_ranges` counts distinct numbers; each entry is the one built for the last occurrence of its number |
| SmartContextCli.KeyOfSnoc | test2.py:477-501 | a key is among all the numbers' keys exactly when among the earlier ones or the last one's |
| SmartContextCli.DefaultContextIsTen | test2.py:471 | without `context_lines` the window reaches 10 lines each way |
| SmartContextCli.IntegerEntry | test2.py:479-498 | an integer context `c` gives the window `max(1, ln - c)` to `min(n, ln + c)` |
| SmartContextCli.OneLineNumber | test2.py:477-501 | one number gives its own entry or failure |
| SmartContextCli.RangesOfFailure | test2.py:477-501 | a failure on some number is the failure of the whole call |
| SmartContextCli.SmartContextFileAnalyzer.ExtractLineRanges | test2.py:467-505 | `_extract_line_ranges` computes the ranges outcome |
| SmartContextCli.PositionLabelThresholds | test2.py:558-564 | the header is below 3/10 of the lines, the middle below 7/10, the appendix after |
| SmartContextCli.FirstBoundaryWins | test2.py:552-556 | the first boundary holding the line wins when every earlier one is passed over |
| SmartContextCli.FirstBoundaryHead | test2.py:552-556 | a first boundary holding the line is returned; one that does not is passed over |
| SmartContextCli.FirstBoundarySound | test2.py:552-556 | a returned name belongs to a boundary holding the line, every earlier one passed over |
| SmartContextCli.ScanBoundaries | test2.py:552-556 | the boundary loop finds the first enclosing boundary or what comparing raises |
| SmartContextCli.FallbackByPosition | test2.py:550-564 | without boundaries, or none holding the line, the position decides |
| SmartContextCli.DetermineSectionByPosition | test2.py:550-564 | `_determine_section_by_position` computes the section |
| SmartContextCli.PositionsForFailure | test2.py:524-539 | a failure on some match is the failure of the whole list |
| SmartContextCli.PositionsForStep | test2.py:524-539 | one loop turn: an undeterminable section ends it, any other match is placed |
| SmartContextCli.CollectPositions | test2.py:524-539 | the match loop computes the positions |
| SmartContextCli.PositionsForFacts | test2.py:524-539 | each position lies on a line of the file, with that line's section, one per match in order |
| SmartContextCli.PutItem | test2.py:541-544 | storing an item adds at most one entry |
| SmartContextCli.ItemKeys | test2.py:541 | one key per entry of `position_analysis` |
| SmartContextCli.PutItemKeys | test2.py:541-544 | keys stay distinct; the stored item's key joins them and no other |
| SmartContextCli.PutItemEntries | test2.py:541-544 | storing an item replaces the positions and count of an equal key, or adds them; every other entry is kept |
| SmartContextCli.ItemsAnalysisKeys | test2.py:519-544 | one entry per distinct search item (`1`, `1.0` and `True` share one), no more entries than items; each holds the positions found for its item's last occurrence and `count` is their number |
| SmartContextCli.ItemsAnalysisEntry | test2.py:519-544 | after one more search item every entry still holds the positions of its key's last occurrence |
| SmartContextCli.ItemOutcome | test2.py:520-544 | an item's entry is stored under the item itself, which must be hashable, and its `count` is the number of its positions |
| SmartContextCli.ItemEntry | test2.py:519-544 | the loop body computes one item's entry |
| SmartContextCli.ItemsAnalysisFailure | test2.py:519-544 | a failure on some item is the failure of the whole call |
| SmartContextCli.ItemsAnalysisStep | test2.py:519-544 | one loop turn: a failing item ends the call, any other is stored |
| SmartContextCli.CollectItems | test2.py:519-544 | the item loop computes `position_analysis` |
| SmartContextCli.SmartContextFileAnalyzer.AnalyzeLinePositions | test2.py:507-548 | `_analyze_line_positions` computes the positions outcome |
| SmartContextCli.RunCommandAllowList | test2.py:566-622 | a string command is refused exactly when its stripped text starts with none of the 12 allowed prefixes |
| SmartContextCli.AllowedIsNotRefused | test2.py:566-622 | no outcome of an allowed command reads as a refusal |
| SmartContextCli.PrefixNotWord | test2.py:566-573 | the check reads leading characters only: "grepx", "findstr" and "cat;ls" pass |
| SmartContextCli.NoSpaceStrip | test2.py:570 | stripping text without white space changes nothing |
| SmartContextCli.StoredFileSubstituted | test2.py:577-601 | a named stored file's name is replaced by its path, except for `grep` on Windows, which counts matches itself |
| SmartContextCli.DispatchMismatch | test2.py:223-342 | advertised "find_sections" and "analyze_positions" are unknown tools; "analyze_data" has no method |
| SmartContextCli.TruncationKeepsFirstFive | test2.py:713-724 | a long search result keeps its count, its pattern and its first five matches, and records how many there were |
| SmartContextCli.SmartContextFileAnalyzer.constructor | test2.py:61-87 | the analyser starts with no uploads and empty analysis lists |
| SmartContextCli.SmartContextFileAnalyzer.UploadFile | test2.py:119-141 | the text is stored under its base name; the analysis state is untouched |
| SmartContextCli.SmartContextFileAnalyzer.ExecuteTool | test2.py:322-342 | `execute_tool` computes the tool outcome |
| SmartContextCli.SmartContextFileAnalyzer.CreateConversationSummary | test2.py:143-176 | the summary line, with the findings and tool notes appended to `analysis_state` |
| SmartContextCli.SmartContextFileAnalyzer.KeepRecent | test2.py:192-212 | the kept non-system messages: the first 3 and last 5 around a summary of the middle when there are more than 10, which `analysis_state` records, else the last 8 with the state unchanged |
| SmartContextCli.SmartContextFileAnalyzer.TrimConversationWithSummary | test2.py:178-221 | the trimmed conversation; the state grows only when the middle is summarised |

## Left out

- The language model is a parameter: a function from a request to text or an error. Prompt wording is not reproduced. `openai_client.py` is not part of this model.
- Agent 2 (`agent_2_summarizer.py`) is one model call. It enters only through that parameter.
- Agent1Processor: `process` is one model call on the combined text. Only `_combine_documents` is modelled in detail.
- FastAPI, the `/health` and `/` routes, and the `backend/` service are not part of this model.
- In the CLIs, the `main` loop, `ask_question`, `__del__`, `count_tokens` (tiktoken) and the `define_tools` schemas are left out. Only the advertised tool names are kept.
- `subprocess.run` is a parameter. So are `sys.platform`, `time.time()`, `datetime.utcnow()`, `json.loads` and float formatting.
- The PDF libraries are a disk of readable or corrupt files. Their own parsing and OCR are not modelled.
- `shutil.copy2`, the utf-8 to latin-1 fallback and file reading: `upload_file` receives the file's text, or nothing when the file does not exist.
- The regular-expression engine is abstract, except for the word-bounded literal search the entity patterns use.
- Case folding is ASCII only (`LowerChar`, `UpperChar`). White space is Python's `str.isspace` set. `\w` is ASCII letters, digits and `_`.
- Exception texts are close to CPython's, not guaranteed identical.
- `print`, logging and `json.dumps` formatting are left out. The length of a dumped tool result is a parameter. The one exception is Agent 3's justification preview after each evaluation: the slice it prints can raise, so it is modelled as a step that may fail.
- Agent3Evaluator.Preview: a dict justification fails with the `TypeError` text of Python up to 3.11 ("unhashable type: 'slice'"). From 3.12 the same slice raises `KeyError` with another text.
- `round(processing_time, 2)` is left out: the elapsed time is a parameter.
- Floating point is modelled with exact rationals, so the `NaN`, `Infinity` and `-Infinity` that `json.loads` accepts have no `Json` value; `json.loads` is a parameter, so no result here depends on them. One consequence: for 10 lines, Python labels line 3 a header line, because `10 * 0.3` is `3.0000000000000004`. The model labels it a middle line.
- SmartContextCli.PositionLabelThresholds: states the exact-rational thresholds, not the IEEE results at those boundaries.
- The duplicate schemas in `backend/app/models` are not part of this model.
