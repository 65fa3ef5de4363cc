/**
 * Agent 3: four model calls (the final answer, then groundedness, accuracy and
 * relevance), the metrics record built from their replies, and the pages of
 * the documents cited as the sections the answer used.
 */
module Agent3Evaluator {
  import opened Wrappers
  import opened Text
  import opened Json
  import opened Pdf
  import opened Llm
  import opened Schemas

  // ---------------------------------------------------------------- document context

  /** What one document contributes to the evaluation context: a header and its first 2000 characters. */
  function ContextEntry(doc: Document): string {
    "=== Document: " + doc.fileName + " ===\n" + Take(doc.fullText, 2000)
  }

  /** The entries of the first three documents (all of them when there are fewer). */
  function ContextEntries(docs: seq<Document>): (entries: seq<string>)
    ensures |entries| == if |docs| < 3 then |docs| else 3
    ensures forall k :: 0 <= k < |entries| ==> entries[k] == ContextEntry(docs[k])
  {
    var head := Take(docs, 3);
    seq(|head|, k requires 0 <= k < |head| => ContextEntry(head[k]))
  }

  /** `doc_context`: the entries joined by a blank line. */
  function DocContext(docs: seq<Document>): string {
    Join(ContextEntries(docs), "\n\n")
  }

  /**
   * The context depends only on the names and the first 2000 characters of
   * the first three documents: later documents and longer texts change nothing.
   */
  lemma DocContextSeesOnlyPrefixes(docs: seq<Document>, others: seq<Document>)
    requires |ContextEntries(docs)| == |ContextEntries(others)|
    requires forall k :: 0 <= k < |docs| && k < 3 ==>
               docs[k].fileName == others[k].fileName && Take(docs[k].fullText, 2000) == Take(others[k].fullText, 2000)
    ensures DocContext(docs) == DocContext(others)
  {
    var a := ContextEntries(docs);
    var b := ContextEntries(others);
    forall k | 0 <= k < |a|
      ensures a[k] == b[k]
    {
      assert a[k] == ContextEntry(docs[k]);
    }
    assert a == b;
  }

  /** Documents after the third never reach the context. */
  lemma DocContextIgnoresLaterDocuments(docs: seq<Document>, more: seq<Document>)
    requires |docs| >= 3
    ensures DocContext(docs + more) == DocContext(docs)
  {
    var all := docs + more;
    assert forall k :: 0 <= k < 3 ==> all[k] == docs[k];
    DocContextSeesOnlyPrefixes(all, docs);
  }

  // ---------------------------------------------------------------- reading the model's JSON

  /** `response[response.find('{'):response.rfind('}') + 1]`. */
  function JsonSlice(response: string): string {
    Slice(response, IndexOf(response, '{'), LastIndexOf(response, '}') + 1)
  }

  /**
   * The slice runs from the first '{' to the last '}' when both exist in that
   * order; without a '}' it is empty, and without a '{' it is at most one character.
   */
  lemma JsonSliceFacts(response: string)
    ensures var i := IndexOf(response, '{'); var j := LastIndexOf(response, '}');
      && (0 <= i <= j ==> JsonSlice(response) == response[i..j + 1])
      && (j < 0 ==> JsonSlice(response) == [])
      && (i < 0 ==> |JsonSlice(response)| <= 1)
  {
    var i := IndexOf(response, '{');
    var j := LastIndexOf(response, '}');
    var n := |response|;
    if i < 0 && 0 < n {
      assert Clamp(i, n) == n - 1;
    }
  }

  /** The message Python gives for a method called on a value that lacks it. */
  function NoAttribute(j: Json, attribute: string): string {
    "'" + TypeName(j) + "' object has no attribute '" + attribute + "'"
  }

  /**
   * `json.loads(json_str)` followed by `.get`: the dict's fields, or the text of
   * the exception either step raises.
   */
  function ParseObject(parseJson: Parser, response: string): (r: Result<seq<Field>, string>)
    ensures r.Success? ==> parseJson(JsonSlice(response)) == Success(JObject(r.value))
  {
    var j :- parseJson(JsonSlice(response));
    if j.JObject? then Success(j.fields) else Failure(NoAttribute(j, "get"))
  }

  // ---------------------------------------------------------------- the final answer

  /** `{"final_answer": ..., "confidence_score": ...}`; the answer is whatever JSON the model put there. */
  datatype FinalChoice = FinalChoice(finalAnswer: Json, confidence: real)

  /** The `try` block of `_determine_final_answer` and its `except` fallback. */
  function ReadFinalChoice(env: Env, response: string, agent2Output: string): FinalChoice {
    match ParseObject(env.parseJson, response)
    case Failure(_) => FinalChoice(JString(agent2Output), 0.7)
    case Success(fields) =>
      match ToFloat(GetOr(fields, "confidence_score", JFloat(0.8)), env.parseFloat)
      case Failure(_) => FinalChoice(JString(agent2Output), 0.7)
      case Success(c) => FinalChoice(GetOr(fields, "final_answer", JString(agent2Output)), c)
  }

  /**
   * Agent 2's answer with confidence 0.7 when the reply is not a JSON dict or
   * its "confidence_score" does not convert to a float; otherwise the
   * confidence is the converted value (0.8 when the key is missing) and the
   * answer is the dict's "final_answer" (Agent 2's answer when it is missing).
   */
  lemma ReadFinalChoiceCases(env: Env, response: string, agent2Output: string)
    ensures var p := ParseObject(env.parseJson, response); var r := ReadFinalChoice(env, response, agent2Output);
      p.Failure? ==> r == FinalChoice(JString(agent2Output), 0.7)
    ensures var p := ParseObject(env.parseJson, response); var r := ReadFinalChoice(env, response, agent2Output);
      p.Success? ==>
        var c := Lookup(p.value, "confidence_score"); var a := Lookup(p.value, "final_answer");
        && (c.Some? && ToFloat(c.value, env.parseFloat).Failure? ==> r == FinalChoice(JString(agent2Output), 0.7))
        && (c.Some? && ToFloat(c.value, env.parseFloat).Success? ==> r.confidence == ToFloat(c.value, env.parseFloat).value)
        && (c.None? ==> r.confidence == 0.8)
        && ((c.None? || ToFloat(c.value, env.parseFloat).Success?) ==>
              r.finalAnswer == (if a.Some? then a.value else JString(agent2Output)))
  {
  }

  /** `_determine_final_answer`: one call at temperature 0.3; only the call itself can fail. */
  function DetermineFinalAnswer(env: Env, agent1Output: string, agent2Output: string, prompt: string): Result<FinalChoice, string> {
    var response :- env.llm(Request(ChooseFinal(prompt, agent1Output, agent2Output), 0.3));
    Success(ReadFinalChoice(env, response, agent2Output))
  }

  // ---------------------------------------------------------------- the three evaluations

  datatype Metric = GroundednessMetric | AccuracyMetric | RelevanceMetric

  function MetricName(m: Metric): string {
    match m
    case GroundednessMetric => "groundedness"
    case AccuracyMetric => "accuracy"
    case RelevanceMetric => "relevance"
  }

  function MetricTitle(m: Metric): string {
    match m
    case GroundednessMetric => "Groundedness"
    case AccuracyMetric => "Accuracy"
    case RelevanceMetric => "Relevance"
  }

  /** A sub-evaluation: a score and the justification, which is whatever JSON the model put there. */
  datatype Score = Score(score: real, justification: Json)

  /**
   * What each evaluation sends: groundedness and accuracy see the first 1000
   * characters of Agent 1's output and the document context; relevance sees neither.
   */
  function MetricTask(m: Metric, finalAnswer: Json, prompt: string, docContext: string, agent1Output: string): Task {
    match m
    case GroundednessMetric => Groundedness(finalAnswer, prompt, Take(agent1Output, 1000), docContext)
    case AccuracyMetric => Accuracy(finalAnswer, prompt, Take(agent1Output, 1000), docContext)
    case RelevanceMetric => Relevance(finalAnswer, prompt)
  }

  /** The fallback of the `except` branch. */
  function ErrorScore(m: Metric, e: string): Score {
    Score(0.7, JString(MetricTitle(m) + " evaluation error: " + e))
  }

  /** The `try` block of `_evaluate_<metric>` and its `except` fallback. */
  function ReadScore(env: Env, m: Metric, response: string): Score {
    match ParseObject(env.parseJson, response)
    case Failure(e) => ErrorScore(m, e)
    case Success(fields) =>
      match ToFloat(GetOr(fields, "score", JFloat(0.7)), env.parseFloat)
      case Failure(e) => ErrorScore(m, e)
      case Success(x) => Score(x, GetOr(fields, "justification", JString("Unable to evaluate " + MetricName(m))))
  }

  /**
   * An unreadable reply, or a "score" that does not convert to a float, gives
   * the error score: 0.7 explained by "<Metric> evaluation error: ...".
   * Otherwise the score is the converted value (0.7 when the key is missing)
   * and the justification is the dict's own ("Unable to evaluate <metric>"
   * when it is missing).
   */
  lemma ReadScoreCases(env: Env, m: Metric, response: string)
    ensures var p := ParseObject(env.parseJson, response); var r := ReadScore(env, m, response);
      p.Failure? ==> r == ErrorScore(m, p.error)
    ensures var p := ParseObject(env.parseJson, response); var r := ReadScore(env, m, response);
      p.Success? ==>
        var s := Lookup(p.value, "score"); var j := Lookup(p.value, "justification");
        && (s.Some? && ToFloat(s.value, env.parseFloat).Failure? ==>
              r == ErrorScore(m, ToFloat(s.value, env.parseFloat).error))
        && (s.Some? && ToFloat(s.value, env.parseFloat).Success? ==> r.score == ToFloat(s.value, env.parseFloat).value)
        && (s.None? ==> r.score == 0.7)
        && ((s.None? || ToFloat(s.value, env.parseFloat).Success?) ==>
              r.justification == (if j.Some? then j.value else JString("Unable to evaluate " + MetricName(m))))
  {
  }

  /** `_evaluate_<metric>`: one call at temperature 0.2; only the call itself can fail. */
  function EvaluateMetric(env: Env, m: Metric, finalAnswer: Json, prompt: string, docContext: string, agent1Output: string): Result<Score, string> {
    var response :- env.llm(Request(MetricTask(m, finalAnswer, prompt, docContext, agent1Output), 0.2));
    Success(ReadScore(env, m, response))
  }

  // ---------------------------------------------------------------- combining

  /** The quality threshold. */
  const ReviewThreshold: real := 0.8

  function ReviewLine(needsReview: bool): string {
    if needsReview then "⚠️ NEEDS REVIEW - Score below 80% threshold" else "✓ Quality threshold met"
  }

  /** The summary's first line: the overall score as a fraction and as a percentage. */
  function SummaryHead(env: Env, overall: real): string {
    "EVALUATION SUMMARY:\n\nOverall Quality Score: " + env.fixed(overall, 2) + " (" + env.fixed(overall * 100.0, 0) + "%)\n"
  }

  /** The three scores, each with its justification. */
  function SummaryScores(env: Env, m: Metrics): string {
    "\n\n"
    + "GROUNDEDNESS: " + env.fixed(m.groundedness, 2) + "\n" + m.groundednessJustification + "\n\n"
    + "ACCURACY: " + env.fixed(m.accuracy, 2) + "\n" + m.accuracyJustification + "\n\n"
    + "RELEVANCE: " + env.fixed(m.relevance, 2) + "\n" + m.relevanceJustification
  }

  /** The `agent_3_output` summary. */
  function Summary(env: Env, overall: real, needsReview: bool, m: Metrics): string {
    SummaryHead(env, overall) + ReviewLine(needsReview) + SummaryScores(env, m)
  }

  datatype Evaluation = Evaluation(finalAnswer: Json, agent3Output: string, metrics: Metrics)

  /**
   * `justification[:100]` in the progress line printed after each evaluation:
   * strings and lists slice, any other value raises `TypeError`.
   */
  function Preview(j: Json): (r: Result<Json, string>)
    ensures r.Success? <==> j.JString? || j.JArray?
    ensures j.JString? ==> r == Success(JString(Take(j.s, 100)))
    ensures r.Failure? && !j.JObject? ==> r.error == "'" + TypeName(j) + "' object is not subscriptable"
  {
    match j
    case JString(s) => Success(JString(Take(s, 100)))
    case JArray(items) => Success(JArray(Take(items, 100)))
    case JObject(_) => Failure("unhashable type: 'slice'")
    case _ => Failure("'" + TypeName(j) + "' object is not subscriptable")
  }

  /** One of steps 2 to 4: the evaluation, then its progress line with the justification's preview. */
  function EvaluateStep(env: Env, m: Metric, finalAnswer: Json, prompt: string, docContext: string, agent1Output: string): (r: Result<Score, string>)
    ensures var s := EvaluateMetric(env, m, finalAnswer, prompt, docContext, agent1Output);
      && (r.Success? <==> s.Success? && (s.value.justification.JString? || s.value.justification.JArray?))
      && (s.Failure? ==> r == Failure(s.error))
      && (r.Success? ==> r == s)
      && (s.Success? && r.Failure? ==> r.error == Preview(s.value.justification).error)
  {
    var s :- EvaluateMetric(env, m, finalAnswer, prompt, docContext, agent1Output);
    var _ :- Preview(s.justification);
    Success(s)
  }

  /** The four calls of `_evaluate_answers`, in order, and the record built from them. */
  function EvaluateAnswers(env: Env, agent1Output: string, agent2Output: string, prompt: string, docs: seq<Document>): Result<Evaluation, string> {
    var docContext := DocContext(docs);
    var fin :- DetermineFinalAnswer(env, agent1Output, agent2Output, prompt);
    var g :- EvaluateStep(env, GroundednessMetric, fin.finalAnswer, prompt, docContext, agent1Output);
    var a :- EvaluateStep(env, AccuracyMetric, fin.finalAnswer, prompt, docContext, agent1Output);
    var r :- EvaluateStep(env, RelevanceMetric, fin.finalAnswer, prompt, docContext, agent1Output);
    Assemble(env, fin, g, a, r, |docs|)
  }

  /** "Combine results": the mean, the review flag, the `Metrics` record and the summary. */
  function Assemble(env: Env, fin: FinalChoice, g: Score, a: Score, r: Score, sources: nat): Result<Evaluation, string> {
    var overall := (g.score + a.score + r.score) / 3.0;
    var needsReview := overall < ReviewThreshold;
    var metrics :- MakeMetrics(fin.confidence, g.score, g.justification, a.score, a.justification,
                               r.score, r.justification, sources, overall, needsReview);
    Success(Evaluation(fin.finalAnswer, Summary(env, overall, needsReview, metrics), metrics))
  }

  /**
   * An assembled evaluation keeps the final answer, the confidence and the
   * three scores with their justifications; its metrics are valid, the overall
   * score is the plain mean, review is needed exactly below 0.8, and the
   * summary says which.
   */
  lemma AssembleFacts(env: Env, fin: FinalChoice, g: Score, a: Score, r: Score, sources: nat)
    requires Assemble(env, fin, g, a, r, sources).Success?
    ensures var e := Assemble(env, fin, g, a, r, sources).value;
      && e.finalAnswer == fin.finalAnswer && e.metrics.confidenceScore == fin.confidence
      && g == Score(e.metrics.groundedness, JString(e.metrics.groundednessJustification))
      && a == Score(e.metrics.accuracy, JString(e.metrics.accuracyJustification))
      && r == Score(e.metrics.relevance, JString(e.metrics.relevanceJustification))
      && ValidMetrics(e.metrics)
      && e.metrics.overallScore == (e.metrics.groundedness + e.metrics.accuracy + e.metrics.relevance) / 3.0
      && (e.metrics.needsReview <==> e.metrics.overallScore < 0.8)
      && e.metrics.sourcesUsed == sources
      && IsSubstring(ReviewLine(e.metrics.needsReview), e.agent3Output)
  {
    var overall := (g.score + a.score + r.score) / 3.0;
    var mm := MakeMetrics(fin.confidence, g.score, g.justification, a.score, a.justification,
                          r.score, r.justification, sources, overall, overall < ReviewThreshold);
    assert mm.Success?;
    SummaryShowsReview(env, overall, overall < ReviewThreshold, mm.value);
  }

  /**
   * A successful evaluation is valid, its overall score is the plain mean of
   * the three scores the model returned, review is needed exactly below 0.8,
   * the source count is the number of documents, and the summary says which.
   */
  lemma EvaluateAnswersFacts(env: Env, agent1Output: string, agent2Output: string, prompt: string, docs: seq<Document>)
    requires EvaluateAnswers(env, agent1Output, agent2Output, prompt, docs).Success?
    ensures var e := EvaluateAnswers(env, agent1Output, agent2Output, prompt, docs).value;
      var ctx := DocContext(docs);
      var fin := DetermineFinalAnswer(env, agent1Output, agent2Output, prompt);
      && fin.Success? && e.finalAnswer == fin.value.finalAnswer && e.metrics.confidenceScore == fin.value.confidence
      && EvaluateMetric(env, GroundednessMetric, e.finalAnswer, prompt, ctx, agent1Output) ==
           Success(Score(e.metrics.groundedness, JString(e.metrics.groundednessJustification)))
      && EvaluateMetric(env, AccuracyMetric, e.finalAnswer, prompt, ctx, agent1Output) ==
           Success(Score(e.metrics.accuracy, JString(e.metrics.accuracyJustification)))
      && EvaluateMetric(env, RelevanceMetric, e.finalAnswer, prompt, ctx, agent1Output) ==
           Success(Score(e.metrics.relevance, JString(e.metrics.relevanceJustification)))
      && ValidMetrics(e.metrics)
      && e.metrics.overallScore == (e.metrics.groundedness + e.metrics.accuracy + e.metrics.relevance) / 3.0
      && (e.metrics.needsReview <==> e.metrics.overallScore < 0.8)
      && e.metrics.sourcesUsed == |docs|
      && IsSubstring(ReviewLine(e.metrics.needsReview), e.agent3Output)
  {
    var ctx := DocContext(docs);
    var fin := DetermineFinalAnswer(env, agent1Output, agent2Output, prompt);
    assert fin.Success?;
    var fa := fin.value.finalAnswer;
    var g := EvaluateStep(env, GroundednessMetric, fa, prompt, ctx, agent1Output);
    assert g.Success?;
    var a := EvaluateStep(env, AccuracyMetric, fa, prompt, ctx, agent1Output);
    assert a.Success?;
    var r := EvaluateStep(env, RelevanceMetric, fa, prompt, ctx, agent1Output);
    assert r.Success?;
    assert EvaluateAnswers(env, agent1Output, agent2Output, prompt, docs)
        == Assemble(env, fin.value, g.value, a.value, r.value, |docs|);
    AssembleFacts(env, fin.value, g.value, a.value, r.value, |docs|);
  }

  /** The summary carries the review line. */
  lemma SummaryShowsReview(env: Env, overall: real, needsReview: bool, m: Metrics)
    ensures IsSubstring(ReviewLine(needsReview), Summary(env, overall, needsReview, m))
  {
    SubstringOfConcat(SummaryHead(env, overall), ReviewLine(needsReview), SummaryScores(env, m));
  }

  /**
   * Scores are not clamped: when the three replies can be read but one score
   * lies outside [0, 1], building the metrics fails and so does the evaluation.
   */
  lemma OutOfRangeScoreFails(env: Env, agent1Output: string, agent2Output: string, prompt: string, docs: seq<Document>)
    requires DetermineFinalAnswer(env, agent1Output, agent2Output, prompt).Success?
    requires var fa := DetermineFinalAnswer(env, agent1Output, agent2Output, prompt).value.finalAnswer;
      var g := EvaluateMetric(env, GroundednessMetric, fa, prompt, DocContext(docs), agent1Output);
      g.Success? && !InUnit(g.value.score)
    ensures EvaluateAnswers(env, agent1Output, agent2Output, prompt, docs).Failure?
  {
  }

  /**
   * A groundedness justification that is neither a string nor a list makes the
   * progress line raise right after the first evaluation: the evaluation fails
   * with that error and accuracy and relevance are never asked for.
   */
  lemma UnsliceableJustificationFails(env: Env, agent1Output: string, agent2Output: string, prompt: string, docs: seq<Document>)
    requires DetermineFinalAnswer(env, agent1Output, agent2Output, prompt).Success?
    requires var fa := DetermineFinalAnswer(env, agent1Output, agent2Output, prompt).value.finalAnswer;
      var g := EvaluateMetric(env, GroundednessMetric, fa, prompt, DocContext(docs), agent1Output);
      g.Success? && !g.value.justification.JString? && !g.value.justification.JArray?
    ensures var fa := DetermineFinalAnswer(env, agent1Output, agent2Output, prompt).value.finalAnswer;
      var g := EvaluateMetric(env, GroundednessMetric, fa, prompt, DocContext(docs), agent1Output);
      EvaluateAnswers(env, agent1Output, agent2Output, prompt, docs) == Failure(Preview(g.value.justification).error)
  {
  }

  // ---------------------------------------------------------------- sections used

  /** Some word of the lower-cased prompt longer than three characters occurs in the lower-cased page text. */
  predicate Relevant(pageLower: string, promptLower: string) {
    var words := Words(promptLower);
    exists k | 0 <= k < |words| :: |words[k]| > 3 && IsSubstring(words[k], pageLower)
  }

  /** The snippet taken from a page: its first 200 characters, stripped. */
  function Snippet(page: Page): string {
    Strip(Take(page.text, 200))
  }

  predicate Cited(page: Page, prompt: string) {
    Relevant(Lower(page.text), Lower(prompt)) && Snippet(page) != []
  }

  /** The section one page contributes: one when it is cited, none otherwise. */
  function PageCitation(doc: Document, page: Page, prompt: string): (r: seq<SectionUsed>)
    ensures |r| <= 1
  {
    if Cited(page, prompt) then [SectionUsed(doc.fileName, page.num, Snippet(page) + "...")] else []
  }

  /** The sections of a run of pages of one document, in page order. */
  function PageSections(doc: Document, pages: seq<Page>, prompt: string): (r: seq<SectionUsed>)
    ensures |r| <= |pages|
    decreases |pages|
  {
    if pages == [] then [] else PageCitation(doc, pages[0], prompt) + PageSections(doc, pages[1..], prompt)
  }

  /** Every candidate section, document by document and page by page. */
  function DocsSections(docs: seq<Document>, prompt: string): seq<SectionUsed>
    decreases |docs|
  {
    if docs == [] then [] else PageSections(docs[0], docs[0].pages, prompt) + DocsSections(docs[1..], prompt)
  }

  /**
   * `_extract_sections_used`: the first five candidates; the answer's
   * `lower()` runs on every visited page, so a final answer that is not a
   * string raises as soon as there is a page.
   */
  function SectionsUsed(finalAnswer: Json, docs: seq<Document>, prompt: string): (r: Result<seq<SectionUsed>, string>)
    ensures r.Failure? <==> !finalAnswer.JString? && exists k :: 0 <= k < |docs| && docs[k].pages != []
    ensures r.Success? ==> |r.value| <= 5 && |r.value| <= |DocsSections(docs, prompt)|
                           && r.value == DocsSections(docs, prompt)[..|r.value|]
    ensures r.Success? && |r.value| < 5 ==> r.value == DocsSections(docs, prompt)
  {
    if !finalAnswer.JString? && exists k | 0 <= k < |docs| :: docs[k].pages != [] then
      Failure(NoAttribute(finalAnswer, "lower"))
    else
      Success(Take(DocsSections(docs, prompt), 5))
  }

  /** The failure the first visited page raises when the answer is not a string. */
  lemma FirstPageFails(finalAnswer: Json, docs: seq<Document>, prompt: string, d: int)
    requires !finalAnswer.JString? && 0 <= d < |docs| && docs[d].pages != []
    ensures SectionsUsed(finalAnswer, docs, prompt) == Failure(NoAttribute(finalAnswer, "lower"))
  {
  }

  lemma PageSectionsStep(doc: Document, pages: seq<Page>, p: int, prompt: string)
    requires 0 <= p < |pages|
    ensures PageSections(doc, pages[p..], prompt) == PageCitation(doc, pages[p], prompt) + PageSections(doc, pages[p + 1..], prompt)
  {
    assert pages[p..][1..] == pages[p + 1..];
  }

  lemma DocsSectionsStep(docs: seq<Document>, d: int, prompt: string)
    requires 0 <= d < |docs|
    ensures DocsSections(docs[d..], prompt) == PageSections(docs[d], docs[d].pages, prompt) + DocsSections(docs[d + 1..], prompt)
  {
    assert docs[d..][1..] == docs[d + 1..];
  }

  /** Taking five from a list that already has five ignores what follows. */
  lemma TakeFiveOfAppend<T>(a: seq<T>, b: seq<T>)
    requires |a| >= 5
    ensures Take(a + b, 5) == Take(a, 5)
  {
    assert (a + b)[..5] == a[..5];
  }

  /**
   * The inner loop over one document's pages, continuing from the sections
   * collected so far: it stops as soon as there are five.
   */
  method CiteDocument(finalAnswer: Json, doc: Document, prompt: string, collected: seq<SectionUsed>)
    returns (r: Result<seq<SectionUsed>, string>)
    requires |collected| < 5
    ensures r.Failure? <==> !finalAnswer.JString? && doc.pages != []
    ensures r.Failure? ==> r.error == NoAttribute(finalAnswer, "lower")
    ensures r.Success? ==> r.value == Take(collected + PageSections(doc, doc.pages, prompt), 5)
  {
    var sections := collected;
    var p := 0;
    assert doc.pages[0..] == doc.pages;
    while p < |doc.pages|
      invariant 0 <= p <= |doc.pages|
      invariant |sections| < 5
      invariant collected + PageSections(doc, doc.pages, prompt) == sections + PageSections(doc, doc.pages[p..], prompt)
      invariant !finalAnswer.JString? ==> p == 0
    {
      var page := doc.pages[p];
      var pageText := Lower(page.text);
      if !finalAnswer.JString? {
        r := Failure(NoAttribute(finalAnswer, "lower"));
        return;
      }
      // `final_answer.lower()` is computed here and never used.
      var promptLower := Lower(prompt);
      ghost var before := sections;
      ghost var rest := PageSections(doc, doc.pages[p + 1..], prompt);
      PageSectionsStep(doc, doc.pages, p, prompt);
      assert before + (PageCitation(doc, page, prompt) + rest) == before + PageCitation(doc, page, prompt) + rest;
      if Relevant(pageText, promptLower) {
        var snippet := Strip(Take(page.text, 200));
        if snippet != [] {
          sections := sections + [SectionUsed(doc.fileName, page.num, snippet + "...")];
        }
        assert sections == before + PageCitation(doc, page, prompt);
        if |sections| >= 5 {
          TakeFiveOfAppend(sections, rest);
          break;
        }
      }
      assert sections == before + PageCitation(doc, page, prompt);
      p := p + 1;
    }
    if |sections| < 5 {
      assert doc.pages[p..] == [];
      assert sections + [] == sections;
    }
    r := Success(sections);
  }

  /** The outer loop over the documents, stopping once five sections are collected. */
  method ExtractSectionsUsed(finalAnswer: Json, docs: seq<Document>, prompt: string) returns (r: Result<seq<SectionUsed>, string>)
    ensures r == SectionsUsed(finalAnswer, docs, prompt)
  {
    var sections: seq<SectionUsed> := [];
    var d := 0;
    assert docs[0..] == docs;
    while d < |docs|
      invariant 0 <= d <= |docs|
      invariant |sections| < 5
      invariant DocsSections(docs, prompt) == sections + DocsSections(docs[d..], prompt)
      invariant !finalAnswer.JString? ==> forall k :: 0 <= k < d ==> docs[k].pages == []
    {
      DocsSectionsStep(docs, d, prompt);
      var found := CiteDocument(finalAnswer, docs[d], prompt, sections);
      if found.Failure? {
        FirstPageFails(finalAnswer, docs, prompt, d);
        r := Failure(found.error);
        return;
      }
      ghost var here := sections + PageSections(docs[d], docs[d].pages, prompt);
      ghost var later := DocsSections(docs[d + 1..], prompt);
      Regroup(DocsSections(docs, prompt), sections, PageSections(docs[d], docs[d].pages, prompt), later);
      sections := found.value;
      if |sections| >= 5 {
        TakeFiveOfAppend(here, later);
        assert docs[d].pages != [];
        break;
      }
      d := d + 1;
    }
    if d == |docs| {
      assert DocsSections(docs[d..], prompt) == [];
      assert sections + [] == sections;
    }
    SectionsUsedIs(finalAnswer, docs, prompt, sections);
    r := Success(sections);
  }

  /** What the loops have collected when they stop without raising. */
  lemma SectionsUsedIs(finalAnswer: Json, docs: seq<Document>, prompt: string, sections: seq<SectionUsed>)
    requires finalAnswer.JString? || forall k :: 0 <= k < |docs| ==> docs[k].pages == []
    requires sections == Take(DocsSections(docs, prompt), 5)
    ensures SectionsUsed(finalAnswer, docs, prompt) == Success(sections)
  {
  }

  /** `sec` was taken from a cited page of `pages` of `doc`, with that page's number and snippet. */
  predicate FromCitedPage(doc: Document, pages: seq<Page>, prompt: string, sec: SectionUsed) {
    && sec.file == doc.fileName
    && exists j :: 0 <= j < |pages| && sec.page == pages[j].num && Cited(pages[j], prompt)
                   && sec.textSnippet == Snippet(pages[j]) + "..."
  }

  /** Every section of a document comes from one of its cited pages, with that page's number and snippet. */
  lemma {:induction false} PageSectionsFromCited(doc: Document, pages: seq<Page>, prompt: string)
    ensures forall i :: 0 <= i < |PageSections(doc, pages, prompt)| ==>
              FromCitedPage(doc, pages, prompt, PageSections(doc, pages, prompt)[i])
    decreases |pages|
  {
    if pages != [] {
      var rest := pages[1..];
      PageSectionsFromCited(doc, rest, prompt);
      var c := PageCitation(doc, pages[0], prompt);
      var t := PageSections(doc, rest, prompt);
      assert PageSections(doc, pages, prompt) == c + t;
      forall i | 0 <= i < |t|
        ensures FromCitedPage(doc, pages, prompt, t[i])
      {
        assert FromCitedPage(doc, rest, prompt, t[i]);
        var j :| 0 <= j < |rest| && t[i].page == rest[j].num && Cited(rest[j], prompt)
                 && t[i].textSnippet == Snippet(rest[j]) + "...";
        assert rest[j] == pages[j + 1];
      }
      if c != [] {
        assert FromCitedPage(doc, pages, prompt, c[0]);
      }
    }
  }

  /** Sections cite only page numbers that occur among the pages. */
  lemma {:induction false} PageSectionsAbove(doc: Document, pages: seq<Page>, prompt: string, lo: int)
    requires forall j :: 0 <= j < |pages| ==> lo < pages[j].num
    ensures forall i :: 0 <= i < |PageSections(doc, pages, prompt)| ==> lo < PageSections(doc, pages, prompt)[i].page
    decreases |pages|
  {
    if pages != [] {
      PageSectionsAbove(doc, pages[1..], prompt, lo);
      assert PageSections(doc, pages, prompt) == PageCitation(doc, pages[0], prompt) + PageSections(doc, pages[1..], prompt);
    }
  }

  /** Within one document, sections follow the page order, and so cite each page at most once. */
  lemma {:induction false} PageSectionsIncreasing(doc: Document, pages: seq<Page>, prompt: string)
    requires forall i, j :: 0 <= i < j < |pages| ==> pages[i].num < pages[j].num
    ensures forall i, j :: 0 <= i < j < |PageSections(doc, pages, prompt)| ==>
              PageSections(doc, pages, prompt)[i].page < PageSections(doc, pages, prompt)[j].page
    decreases |pages|
  {
    if pages != [] {
      var rest := pages[1..];
      PageSectionsIncreasing(doc, rest, prompt);
      PageSectionsAbove(doc, rest, prompt, pages[0].num);
      var c := PageCitation(doc, pages[0], prompt);
      var t := PageSections(doc, rest, prompt);
      assert PageSections(doc, pages, prompt) == c + t;
    }
  }

  /** Every cited page contributes its section. */
  lemma {:induction false} CitedPageIncluded(doc: Document, pages: seq<Page>, prompt: string, j: int)
    requires 0 <= j < |pages| && Cited(pages[j], prompt)
    ensures SectionUsed(doc.fileName, pages[j].num, Snippet(pages[j]) + "...") in PageSections(doc, pages, prompt)
    decreases |pages|
  {
    var c := PageCitation(doc, pages[0], prompt);
    var t := PageSections(doc, pages[1..], prompt);
    assert PageSections(doc, pages, prompt) == c + t;
    if j > 0 {
      CitedPageIncluded(doc, pages[1..], prompt, j - 1);
    }
  }

  /** With pages numbered in increasing order, a page is cited exactly when it is relevant and its snippet is not empty. */
  lemma PageCitedIff(doc: Document, pages: seq<Page>, prompt: string, j: int)
    requires forall i, j :: 0 <= i < j < |pages| ==> pages[i].num < pages[j].num
    requires 0 <= j < |pages|
    ensures (exists i :: 0 <= i < |PageSections(doc, pages, prompt)| && PageSections(doc, pages, prompt)[i].page == pages[j].num)
            <==> Cited(pages[j], prompt)
  {
    var s := PageSections(doc, pages, prompt);
    PageSectionsFromCited(doc, pages, prompt);
    if exists i :: 0 <= i < |s| && s[i].page == pages[j].num {
      var i :| 0 <= i < |s| && s[i].page == pages[j].num;
      assert FromCitedPage(doc, pages, prompt, s[i]);
      var k :| 0 <= k < |pages| && s[i].page == pages[k].num && Cited(pages[k], prompt);
      assert k == j;
    }
    if Cited(pages[j], prompt) {
      CitedPageIncluded(doc, pages, prompt, j);
    }
  }

  /** The answer's wording never changes which sections are cited. */
  lemma SectionsIgnoreAnswer(a: string, b: string, docs: seq<Document>, prompt: string)
    ensures SectionsUsed(JString(a), docs, prompt) == SectionsUsed(JString(b), docs, prompt)
    ensures SectionsUsed(JString(a), docs, prompt).Success?
  {
  }

  // ---------------------------------------------------------------- process

  datatype Outcome = Outcome(finalAnswer: Json, agent3Output: string, metrics: Metrics, sectionsUsed: seq<SectionUsed>)

  /** `Agent3Evaluator.process`: the evaluation, then the sections cited from the documents. */
  function Process(env: Env, agent1Output: string, agent2Output: string, prompt: string, docs: seq<Document>): Result<Outcome, string> {
    var e :- EvaluateAnswers(env, agent1Output, agent2Output, prompt, docs);
    var sections :- SectionsUsed(e.finalAnswer, docs, prompt);
    Success(Outcome(e.finalAnswer, e.agent3Output, e.metrics, sections))
  }
}
