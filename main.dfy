/**
 * The `/api/process` handler of the AI service: extract every PDF, route
 * counting questions about known entities through the pattern matcher (whose
 * matches become one condensed document), run the three agents in sequence
 * on the same documents, assemble the response, and turn any exception into
 * an HTTP error (404 for `FileNotFoundError`, 500 for everything else).
 */
module AiService {
  import opened Wrappers
  import opened Text
  import opened Json
  import opened Pdf
  import opened Llm
  import opened Schemas
  import PatternMatcher
  import PdfTextExtractor
  import Agent1Processor
  import Agent3Evaluator

  /** The `HTTPException` the handler raises instead of returning a response. */
  datatype HttpError = HttpError(status: int, detail: string)

  /** `except Exception as e`: status 500. */
  function Internal(message: string): HttpError {
    HttpError(500, "Error processing documents: " + message)
  }

  /** How the handler reports an exception: `FileNotFoundError` as 404, anything else as 500. */
  function ErrorFor(e: Exc): (h: HttpError)
    ensures h.status == 404 <==> e.FileNotFound?
    ensures h.status == 500 <==> e.Error?
  {
    match e
    case FileNotFound(m) => HttpError(404, m)
    case Error(m) => Internal(m)
  }

  /** A stage that can only raise a generic exception. */
  function Lift<T>(r: Result<T, string>): Result<T, HttpError> {
    match r
    case Success(v) => Success(v)
    case Failure(m) => Failure(Internal(m))
  }

  // ---------------------------------------------------------------- the condensed document

  const CondensedHeader: string := "Relevant sections extracted by pattern matching:\n\n"

  /** `f"Match {i} (Line {match['line_number']}):\n"`. */
  function MatchHead(i: int, m: PatternMatcher.MatchResult): string {
    "Match " + IntToString(i) + " (Line " + IntToString(m.lineNumber) + "):\n"
  }

  /** `"-" * 80 + "\n\n"`. */
  function DashRule(): string {
    Repeat('-', 80) + "\n\n"
  }

  /** The block for the `i`-th match (numbered from 1): its line number, its context and a rule of 80 dashes. */
  function MatchBlock(i: int, m: PatternMatcher.MatchResult): string {
    MatchHead(i, m) + (m.context + "\n") + DashRule()
  }

  /** One block per match, numbered from 1, in order. */
  function NumberedBlocks(ms: seq<PatternMatcher.MatchResult>): seq<string> {
    seq(|ms|, k requires 0 <= k < |ms| => MatchBlock(k + 1, ms[k]))
  }

  /** `condensed_context`: the header and then the numbered blocks of the first fifty matches. */
  function CondensedContext(matches: seq<PatternMatcher.MatchResult>): string {
    CondensedHeader + Flatten(NumberedBlocks(Take(matches, 50)))
  }

  /** The loop of `main.py` that builds `condensed_context`. */
  method BuildCondensedContext(matches: seq<PatternMatcher.MatchResult>) returns (condensed: string)
    ensures condensed == CondensedContext(matches)
  {
    condensed := CondensedHeader;
    var top := Take(matches, 50);
    var i := 0;
    while i < |top|
      invariant 0 <= i <= |top|
      invariant condensed == CondensedHeader + Flatten(NumberedBlocks(top)[..i])
    {
      var m := top[i];
      ghost var before := condensed;
      condensed := condensed + MatchHead(i + 1, m);
      condensed := condensed + (m.context + "\n");
      condensed := condensed + DashRule();
      assert condensed == before + NumberedBlocks(top)[i];
      FlattenStep(CondensedHeader, NumberedBlocks(top), i, before, condensed);
      i := i + 1;
    }
    assert NumberedBlocks(top)[..i] == NumberedBlocks(top);
  }

  /**
   * The condensed context starts with its header, holds at most fifty
   * blocks, and the block of each of the first fifty matches, numbered
   * by its rank, occurs in it.
   */
  lemma CondensedContextFacts(matches: seq<PatternMatcher.MatchResult>, k: int)
    requires 0 <= k < |matches| && k < 50
    ensures StartsWith(CondensedContext(matches), CondensedHeader)
    ensures |NumberedBlocks(Take(matches, 50))| <= 50
    ensures IsSubstring(MatchBlock(k + 1, matches[k]), CondensedContext(matches))
  {
    var blocks := NumberedBlocks(Take(matches, 50));
    assert blocks[k] == MatchBlock(k + 1, matches[k]);
    FlattenContains(blocks, k);
    SubstringOfSuffix(MatchBlock(k + 1, matches[k]), CondensedHeader, Flatten(blocks));
    assert CondensedContext(matches)[..|CondensedHeader|] == CondensedHeader;
  }

  /** `condensed_doc[0]`: one page, numbered 1, holding the condensed context, which is also the full text. */
  function CondensedDoc(filePaths: seq<string>, condensed: string): (d: Document)
    ensures d.fileName == "Pattern Matched Sections"
    ensures d.totalPages == 1 && d.pages == [Page(1, condensed)] && d.fullText == condensed
    ensures d.filePath == if filePaths == [] then "extracted_sections" else filePaths[0]
  {
    Document(if filePaths != [] then filePaths[0] else "extracted_sections", "Pattern Matched Sections", 1,
             [Page(1, condensed)], condensed, None)
  }

  /** `"\n".join([doc["full_text"] for doc in document_texts])`. */
  function AllText(docs: seq<Document>): string {
    Join(seq(|docs|, k requires 0 <= k < |docs| => docs[k].fullText), "\n")
  }

  /** The documents the agents see: the condensed document on the pattern path, the extracted ones otherwise. */
  function AgentDocuments(filePaths: seq<string>, docs: seq<Document>, prompt: string): seq<Document> {
    if PatternMatcher.ShouldUse(prompt) then
      var all := PatternMatcher.Scan(AllText(docs), PatternMatcher.QueryEntities(prompt), 2);
      [CondensedDoc(filePaths, CondensedContext(Take(all, 50)))]
    else docs
  }

  /** The routing: the pattern path exactly when `should_use_pattern_matching` says so, the documents untouched otherwise. */
  lemma AgentDocumentsRoute(filePaths: seq<string>, docs: seq<Document>, prompt: string)
    ensures !PatternMatcher.ShouldUse(prompt) ==> AgentDocuments(filePaths, docs, prompt) == docs
    ensures PatternMatcher.ShouldUse(prompt) ==>
              var used := AgentDocuments(filePaths, docs, prompt);
              && |used| == 1
              && used[0] == CondensedDoc(filePaths, used[0].fullText)
              && StartsWith(used[0].fullText, CondensedHeader)
  {
    if PatternMatcher.ShouldUse(prompt) {
      var all := PatternMatcher.Scan(AllText(docs), PatternMatcher.QueryEntities(prompt), 2);
      var c := CondensedContext(Take(all, 50));
      assert c[..|CondensedHeader|] == CondensedHeader;
    }
  }

  // ---------------------------------------------------------------- the pipeline

  /** Agent 2's one model call: Agent 1's answer and the question, at temperature 0.5. */
  function Agent2Request(agent1Output: string, prompt: string): Request {
    Request(Summarize(agent1Output, prompt), 0.5)
  }

  /** The three agents and the response, on the documents `used`. */
  function RunAgents(env: Env, request: RuntimeJson, used: seq<Document>, elapsed: real, now: Timestamp): Result<AIResponse, HttpError> {
    var agent1Output :- Lift(Agent1Processor.Process(env.llm, used, request.prompt));
    var agent2Output :- Lift(env.llm(Agent2Request(agent1Output, request.prompt)));
    var evaluation :- Lift(Agent3Evaluator.Process(env, agent1Output, agent2Output, request.prompt, used));
    Lift(MakeResponse(request.requestId, agent1Output, agent2Output, evaluation.agent3Output,
                      evaluation.finalAnswer, evaluation.metrics, evaluation.sectionsUsed, elapsed, now))
  }

  /**
   * What `process_documents` returns or raises, for the rounded elapsed time
   * `elapsed` and the completion time `now`.
   */
  function Pipeline(env: Env, disk: Disk, request: RuntimeJson, elapsed: real, now: Timestamp): Result<AIResponse, HttpError> {
    match PdfTextExtractor.ExtractedDocuments(disk, request.filePaths)
    case Failure(e) => Failure(ErrorFor(e))
    case Success(docs) => RunAgents(env, request, AgentDocuments(request.filePaths, docs, request.prompt), elapsed, now)
  }

  /** The branch of `process_documents` that chooses what the agents see. */
  method ChooseDocuments(filePaths: seq<string>, documentTexts: seq<Document>, prompt: string) returns (used: seq<Document>)
    ensures used == AgentDocuments(filePaths, documentTexts, prompt)
  {
    var shouldUsePattern, entities := PatternMatcher.ShouldUsePatternMatching(prompt);
    if shouldUsePattern {
      var fullText := AllText(documentTexts);
      var patternResult := PatternMatcher.ExecuteCountingSearch(prompt, fullText);
      assert patternResult.entitiesSearched == PatternMatcher.QueryEntities(prompt);
      var condensed := BuildCondensedContext(patternResult.matches);
      used := [CondensedDoc(filePaths, condensed)];
    } else {
      used := documentTexts;
    }
  }

  /** The agent calls of `process_documents` and the response it builds. */
  method CallAgents(env: Env, request: RuntimeJson, used: seq<Document>, elapsed: real, now: Timestamp)
    returns (r: Result<AIResponse, HttpError>)
    ensures r == RunAgents(env, request, used, elapsed, now)
  {
    var agent1 := Agent1Processor.Process(env.llm, used, request.prompt);
    if agent1.Failure? {
      return Failure(Internal(agent1.error));
    }
    var agent2 := env.llm(Agent2Request(agent1.value, request.prompt));
    if agent2.Failure? {
      return Failure(Internal(agent2.error));
    }
    var evaluation := Agent3Evaluator.Process(env, agent1.value, agent2.value, request.prompt, used);
    if evaluation.Failure? {
      return Failure(Internal(evaluation.error));
    }
    var e := evaluation.value;
    var response := MakeResponse(request.requestId, agent1.value, agent2.value, e.agent3Output,
                                 e.finalAnswer, e.metrics, e.sectionsUsed, elapsed, now);
    r := Lift(response);
  }

  /** `process_documents`. */
  method ProcessDocuments(env: Env, disk: Disk, request: RuntimeJson, elapsed: real, now: Timestamp)
    returns (r: Result<AIResponse, HttpError>)
    ensures r == Pipeline(env, disk, request, elapsed, now)
  {
    var extracted := PdfTextExtractor.ExtractTextFromMultiplePdfs(disk, request.filePaths);
    if extracted.Failure? {
      return Failure(ErrorFor(extracted.error));
    }
    var used := ChooseDocuments(request.filePaths, extracted.value, request.prompt);
    r := CallAgents(env, request, used, elapsed, now);
  }

  /**
   * The stages run in order on each other's output: Agent 1 answers from
   * the documents the routing chose, Agent 2 condenses Agent 1's answer,
   * Agent 3 sees both answers and the same documents Agent 1 saw; the
   * response carries the request's id and the evaluator's answer, summary,
   * metrics and sections unchanged.
   */
  lemma PipelineDataFlow(env: Env, disk: Disk, request: RuntimeJson, elapsed: real, now: Timestamp)
    requires Pipeline(env, disk, request, elapsed, now).Success?
    ensures PdfTextExtractor.ExtractedDocuments(disk, request.filePaths).Success?
    ensures var resp := Pipeline(env, disk, request, elapsed, now).value;
            var used := AgentDocuments(request.filePaths, PdfTextExtractor.ExtractedDocuments(disk, request.filePaths).value, request.prompt);
            && Agent1Processor.Process(env.llm, used, request.prompt) == Success(resp.agent1Output)
            && env.llm(Agent2Request(resp.agent1Output, request.prompt)) == Success(resp.agent2Output)
            && Agent3Evaluator.Process(env, resp.agent1Output, resp.agent2Output, request.prompt, used)
               == Success(Agent3Evaluator.Outcome(JString(resp.finalAnswer), resp.agent3Output, resp.metrics, resp.sectionsUsed))
            && resp.requestId == request.requestId
            && resp.processingTimeSeconds == elapsed && resp.timestamp == now
  {
    var docs := PdfTextExtractor.ExtractedDocuments(disk, request.filePaths).value;
    RunAgentsCarries(env, request, AgentDocuments(request.filePaths, docs, request.prompt), elapsed, now);
  }

  /** A response of the agent stage carries each agent's output and the evaluator's outcome unchanged. */
  lemma RunAgentsCarries(env: Env, request: RuntimeJson, used: seq<Document>, elapsed: real, now: Timestamp)
    requires RunAgents(env, request, used, elapsed, now).Success?
    ensures var resp := RunAgents(env, request, used, elapsed, now).value;
            && Agent1Processor.Process(env.llm, used, request.prompt) == Success(resp.agent1Output)
            && env.llm(Agent2Request(resp.agent1Output, request.prompt)) == Success(resp.agent2Output)
            && Agent3Evaluator.Process(env, resp.agent1Output, resp.agent2Output, request.prompt, used)
               == Success(Agent3Evaluator.Outcome(JString(resp.finalAnswer), resp.agent3Output, resp.metrics, resp.sectionsUsed))
            && resp.requestId == request.requestId
            && resp.processingTimeSeconds == elapsed && resp.timestamp == now
  {
  }

  /**
   * No partial response: the handler either returns a complete response or
   * raises a 404 or 500; a 404 needs `FileNotFoundError` from extraction,
   * which the extractor never raises, so every failure is a 500.
   */
  lemma PipelineErrors(env: Env, disk: Disk, request: RuntimeJson, elapsed: real, now: Timestamp)
    requires Pipeline(env, disk, request, elapsed, now).Failure?
    ensures Pipeline(env, disk, request, elapsed, now).error.status == 500
    ensures PdfTextExtractor.ExtractedDocuments(disk, request.filePaths).Failure?
            <==> PdfTextExtractor.FirstUnopened(disk, request.filePaths) < |request.filePaths|
    ensures PdfTextExtractor.FirstUnopened(disk, request.filePaths) < |request.filePaths| ==>
              var p := request.filePaths[PdfTextExtractor.FirstUnopened(disk, request.filePaths)];
              Pipeline(env, disk, request, elapsed, now).error
              == Internal("Error processing PDF " + p + ": " + "Error processing PDF " + p + ": "
                          + OpenError(disk, p).msg)
  {
    var paths := request.filePaths;
    PdfTextExtractor.ExtractedDocumentsSucceed(disk, paths);
    if PdfTextExtractor.ExtractedDocuments(disk, paths).Failure? {
      PdfTextExtractor.ExtractedDocumentsFail(disk, paths);
    }
  }

  /**
   * An empty list of paths is not an error: extraction yields no documents,
   * and on the pattern path the condensed document is named after
   * "extracted_sections".
   */
  lemma EmptyPathsExtractNothing(disk: Disk, prompt: string)
    ensures PdfTextExtractor.ExtractedDocuments(disk, []) == Success([])
    ensures PatternMatcher.ShouldUse(prompt) ==> AgentDocuments([], [], prompt)[0].filePath == "extracted_sections"
    ensures !PatternMatcher.ShouldUse(prompt) ==> AgentDocuments([], [], prompt) == []
  {
  }

  /** With no paths and no pattern routing, a response cites no section and counts no source. */
  lemma EmptyPathsRunTheAgents(env: Env, request: RuntimeJson, elapsed: real, now: Timestamp, disk: Disk)
    requires request.filePaths == [] && !PatternMatcher.ShouldUse(request.prompt)
    requires Pipeline(env, disk, request, elapsed, now).Success?
    ensures Pipeline(env, disk, request, elapsed, now).value.metrics.sourcesUsed == 0
    ensures Pipeline(env, disk, request, elapsed, now).value.sectionsUsed == []
  {
    EmptyPathsExtractNothing(disk, request.prompt);
    assert Pipeline(env, disk, request, elapsed, now) == RunAgents(env, request, [], elapsed, now);
    RunAgentsCarries(env, request, [], elapsed, now);
    var resp := Pipeline(env, disk, request, elapsed, now).value;
    Agent3Evaluator.EvaluateAnswersFacts(env, resp.agent1Output, resp.agent2Output, request.prompt, []);
    var e := Agent3Evaluator.EvaluateAnswers(env, resp.agent1Output, resp.agent2Output, request.prompt, []).value;
    assert Agent3Evaluator.SectionsUsed(e.finalAnswer, [], request.prompt) == Success([]);
  }
}
