/**
 * The language-model client and the other services the pipeline consumes
 * without being able to see inside them. A call is described by what the
 * code splices into its prompt and by its temperature; the answer is the text
 * the model returns, or the message of the exception the client raises.
 */
module Llm {
  import opened Wrappers
  import Json

  /** The data each prompt carries; the fixed instruction wording is not reproduced. */
  datatype Task =
    | Answer(documents: string, prompt: string)
    | Summarize(agent1Output: string, prompt: string)
    | ChooseFinal(prompt: string, agent1Output: string, agent2Output: string)
    | Groundedness(finalAnswer: Json.Json, prompt: string, agent1Head: string, docContext: string)
    | Accuracy(finalAnswer: Json.Json, prompt: string, agent1Head: string, docContext: string)
    | Relevance(finalAnswer: Json.Json, prompt: string)

  /** One `simple_prompt` call. */
  datatype Request = Request(task: Task, temperature: real)

  /** The model: a reply, or the text of the `Exception("OpenAI API error: ...")` the client raises. */
  type Client = Request -> Result<string, string>

  /**
   * Everything from outside the analysed code: the model, `json.loads`,
   * `float(str)`, `repr(float)` and `f"{x:.{d}f}"`.
   */
  datatype Env = Env(
    llm: Client,
    parseJson: Json.Parser,
    parseFloat: Json.FloatParser,
    floatRepr: Json.FloatRepr,
    fixed: (real, nat) -> string)
}
