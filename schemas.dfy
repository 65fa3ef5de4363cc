/**
 * The records the AI service exchanges with its caller and between its
 * stages, with the range constraints the validating models enforce.
 */
module Schemas {
  import opened Wrappers
  import Json

  /** A `datetime`, kept opaque (its text form). */
  datatype Timestamp = Timestamp(iso: string)

  /** The request body: every field is required. */
  datatype RuntimeJson = RuntimeJson(requestId: string, filePaths: seq<string>, prompt: string, timestamp: Timestamp)

  /** A cited page; none of its fields is constrained. */
  datatype SectionUsed = SectionUsed(file: string, page: int, textSnippet: string)

  datatype Metrics = Metrics(
    confidenceScore: real,
    groundedness: real,
    groundednessJustification: string,
    accuracy: real,
    accuracyJustification: string,
    relevance: real,
    relevanceJustification: string,
    sourcesUsed: int,
    overallScore: real,
    needsReview: bool)

  datatype AIResponse = AIResponse(
    requestId: string,
    agent1Output: string,
    agent2Output: string,
    agent3Output: string,
    finalAnswer: string,
    metrics: Metrics,
    sectionsUsed: seq<SectionUsed>,
    processingTimeSeconds: real,
    timestamp: Timestamp)

  /** `Field(ge=0.0, le=1.0)`. */
  predicate InUnit(x: real) {
    0.0 <= x <= 1.0
  }

  /** The constraints `Metrics` enforces: five scores in [0, 1] and a non-negative source count. */
  predicate ValidMetrics(m: Metrics) {
    && InUnit(m.confidenceScore) && InUnit(m.groundedness) && InUnit(m.accuracy)
    && InUnit(m.relevance) && InUnit(m.overallScore) && m.sourcesUsed >= 0
  }

  /** The message of the validation error for one field (pydantic's exact wording is not reproduced). */
  function FieldError(model: string, field: string): string {
    "1 validation error for " + model + "\n" + field
  }

  /** A `str` field given a JSON value: only a string validates. */
  function StrField(model: string, field: string, j: Json.Json): (r: Result<string, string>)
    ensures r.Success? <==> j.JString?
    ensures r.Success? ==> r.value == j.s
  {
    if j.JString? then Success(j.s) else Failure(FieldError(model, field))
  }

  /** A `float` field with bounds [0, 1]. */
  function UnitField(field: string, x: real): (r: Result<real, string>)
    ensures r.Success? <==> InUnit(x)
    ensures r.Success? ==> r.value == x
  {
    if InUnit(x) then Success(x) else Failure(FieldError("Metrics", field))
  }

  /** `Metrics(...)`: the record, or the validation error of the first field that fails. */
  function MakeMetrics(
    confidence: real, groundedness: real, groundednessJustification: Json.Json,
    accuracy: real, accuracyJustification: Json.Json, relevance: real, relevanceJustification: Json.Json,
    sourcesUsed: int, overall: real, needsReview: bool): (r: Result<Metrics, string>)
    ensures r.Success? <==>
              && InUnit(confidence) && InUnit(groundedness) && InUnit(accuracy) && InUnit(relevance)
              && InUnit(overall) && sourcesUsed >= 0
              && groundednessJustification.JString? && accuracyJustification.JString?
              && relevanceJustification.JString?
    ensures r.Success? ==>
              && ValidMetrics(r.value)
              && r.value == Metrics(confidence, groundedness, groundednessJustification.s, accuracy,
                                    accuracyJustification.s, relevance, relevanceJustification.s,
                                    sourcesUsed, overall, needsReview)
  {
    var c :- UnitField("confidence_score", confidence);
    var g :- UnitField("groundedness", groundedness);
    var gj :- StrField("Metrics", "groundedness_justification", groundednessJustification);
    var a :- UnitField("accuracy", accuracy);
    var aj :- StrField("Metrics", "accuracy_justification", accuracyJustification);
    var rl :- UnitField("relevance", relevance);
    var rj :- StrField("Metrics", "relevance_justification", relevanceJustification);
    var s :- if sourcesUsed >= 0 then Success(sourcesUsed) else Failure(FieldError("Metrics", "sources_used"));
    var o :- UnitField("overall_score", overall);
    Success(Metrics(c, g, gj, a, aj, rl, rj, s, o, needsReview))
  }

  /**
   * The schema does not tie `needs_review` to `overall_score < 0.8`, nor
   * `overall_score` to the mean of the three scores: a record breaking both
   * validates.
   */
  lemma SchemaLeavesDerivedFieldsFree()
    ensures exists m :: ValidMetrics(m) && m.needsReview != (m.overallScore < 0.8 as real)
              && m.overallScore != (m.groundedness + m.accuracy + m.relevance) / 3.0
  {
    var m := Metrics(1.0, 0.0, "", 0.0, "", 0.0, "", 0, 1.0, true);
    assert ValidMetrics(m) && m.needsReview != (m.overallScore < 0.8);
  }

  /** `AIResponse(...)`: `final_answer` must be a string; everything else is typed already. */
  function MakeResponse(
    requestId: string, agent1Output: string, agent2Output: string, agent3Output: string,
    finalAnswer: Json.Json, metrics: Metrics, sectionsUsed: seq<SectionUsed>,
    processingTime: real, timestamp: Timestamp): (r: Result<AIResponse, string>)
    ensures r.Success? <==> finalAnswer.JString?
    ensures r.Success? ==> r.value.finalAnswer == finalAnswer.s && r.value.metrics == metrics
  {
    var fa :- StrField("AIResponse", "final_answer", finalAnswer);
    Success(AIResponse(requestId, agent1Output, agent2Output, agent3Output, fa, metrics, sectionsUsed,
                       processingTime, timestamp))
  }
}
