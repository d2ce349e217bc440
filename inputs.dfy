/**
 * What the analyzer reads from the loaded folder besides the tree itself: the text of each file,
 * and what `JSON.parse`, `parseFloat` and SHA-256 make of a text. These are left abstract; the
 * criteria are stated for every choice of them.
 */
module Inputs {
  import opened Wrappers
  import opened Text
  import opened FileTree
  import opened FileManager

  /**
   * One trajectory record as the analyzer uses it: `String(step.action || '')` and
   * `step.observation.screenshot` ("" when missing or empty).
   */
  datatype Step = Step(action: string, screenshot: string)

  /** A notebook cell's `source`: a list of lines, a single string, or anything else. */
  datatype Source = SourceLines(lines: seq<string>) | SourceText(text: string) | SourceOther

  datatype Cell = Cell(source: Source)

  /** The keys of the task JSON's `model_pass_rate`, in order; None when it is missing, falsy or not an object. */
  datatype TaskData = TaskData(modelPassRateKeys: Option<seq<string>>)

  /**
   * The outside world: the text a `FileReader` delivers for a file, the parsers for a trajectory
   * line, a notebook (its `cells || []`) and a task JSON (None when `JSON.parse` throws),
   * `parseFloat`, and the hex SHA-256 digest of a text.
   */
  datatype Env = Env(
    text: FileRef -> string,
    parseStep: string -> Option<Step>,
    parseNotebook: string -> Option<seq<Cell>>,
    parseTask: string -> Option<TaskData>,
    parseFloat: string -> Num,
    digest: string -> string)

  /** `readFileAsJSON(file)` for a file that exists: null for an empty text and for text that does not parse. */
  function ReadJSON<J>(text: string, parse: string -> Option<J>): (r: Option<J>)
    ensures text == "" ==> r.None?
    ensures text != "" ==> r == parse(text)
  {
    if text == "" then None else parse(text)
  }

  /** `readFileAsJSONL(file)` on the trajectory file, if one was found. */
  function StepsOf(env: Env, f: Option<FileRef>): seq<Step> {
    match f
    case None => []
    case Some(g) => JsonLines(Some(env.text(g)), env.parseStep)
  }
}
