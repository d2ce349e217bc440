/**
 * The whole validation run (js/analyzer.js, `analyzeTaskFolder`): the task id and model name come
 * from the task JSON, and the eleven criteria are evaluated on the same folder tree and stored
 * under fixed keys, in criterion order.
 */
module Analysis {
  import opened Wrappers
  import opened FileTree
  import opened Inputs
  import opened Folders
  import Locators
  import ScoreCriteria
  import ContentCriteria
  import RunCriteria
  import CountCriteria
  import UnrequiredFiles

  /** One criterion's result, tagged with the criterion that produced it. */
  datatype Outcome =
    | SftStepCount(c1: ScoreCriteria.Criterion1Result)
    | EvaluationScores(c2: ScoreCriteria.Criterion2Result)
    | AnnotatorZero(c3: ScoreCriteria.Criterion3Result)
    | NotebookAssistant(c4: ContentCriteria.Criterion4Result)
    | DuplicateDetection(c5: ContentCriteria.Criterion5Result)
    | RunScoreAverage(c6: RunCriteria.Criterion6Result)
    | RunFolderCount(c7: RunCriteria.Criterion7Result)
    | MissingResults(c8: RunCriteria.Criterion8Result)
    | PngXmlMatch(c9: CountCriteria.Criterion9Result)
    | StepCountMatch(c10: CountCriteria.Criterion10Result)
    | UnrequiredFileList(c11: UnrequiredFiles.Criterion11Result)
  {
    /** The criterion's number, 1 to 11. */
    function Number(): nat {
      match this
      case SftStepCount(_) => 1
      case EvaluationScores(_) => 2
      case AnnotatorZero(_) => 3
      case NotebookAssistant(_) => 4
      case DuplicateDetection(_) => 5
      case RunScoreAverage(_) => 6
      case RunFolderCount(_) => 7
      case MissingResults(_) => 8
      case PngXmlMatch(_) => 9
      case StepCountMatch(_) => 10
      case UnrequiredFileList(_) => 11
    }

    /** The criterion's `passed` flag. */
    function Passed(): bool {
      match this
      case SftStepCount(r) => r.passed
      case EvaluationScores(r) => r.passed
      case AnnotatorZero(r) => r.passed
      case NotebookAssistant(r) => r.passed
      case DuplicateDetection(r) => r.passed
      case RunScoreAverage(r) => r.passed
      case RunFolderCount(r) => r.passed
      case MissingResults(r) => r.passed
      case PngXmlMatch(r) => r.passed
      case StepCountMatch(r) => r.passed
      case UnrequiredFileList(r) => r.passed
    }
  }

  /** The keys of `results.criteria`, in the order they are stored. */
  const CriterionKeys: seq<string> := [
    "1_sft_step_count", "2_evaluation_scores", "3_annotator_zero", "4_notebook_assistant",
    "5_duplicate_detection", "6_run_score_average", "7_run_folder_count", "8_missing_results",
    "9_png_xml_match", "10_step_count_match", "11_unrequired_files"]

  /** `results`: `task_id`, `model_name`, `folder_path` (always empty) and `criteria`. */
  datatype AnalysisResult = AnalysisResult(taskId: Option<string>, modelName: Option<string>, folderPath: string, criteria: seq<Keyed<Outcome>>)

  /** Outcome `i` stored under key `i`. */
  function Record(outcomes: seq<Outcome>): (r: seq<Keyed<Outcome>>)
    requires |outcomes| == |CriterionKeys|
  {
    seq(|CriterionKeys|, i requires 0 <= i < |CriterionKeys| => Keyed(CriterionKeys[i], outcomes[i]))
  }

  /** The eleven results in criterion order. */
  function Outcomes(
    c1: ScoreCriteria.Criterion1Result, c2: ScoreCriteria.Criterion2Result, c3: ScoreCriteria.Criterion3Result,
    c4: ContentCriteria.Criterion4Result, c5: ContentCriteria.Criterion5Result,
    c6: RunCriteria.Criterion6Result, c7: RunCriteria.Criterion7Result, c8: RunCriteria.Criterion8Result,
    c9: CountCriteria.Criterion9Result, c10: CountCriteria.Criterion10Result,
    c11: UnrequiredFiles.Criterion11Result): (os: seq<Outcome>)
    ensures Numbered(os)
  {
    [SftStepCount(c1), EvaluationScores(c2), AnnotatorZero(c3), NotebookAssistant(c4), DuplicateDetection(c5),
     RunScoreAverage(c6), RunFolderCount(c7), MissingResults(c8), PngXmlMatch(c9), StepCountMatch(c10),
     UnrequiredFileList(c11)]
  }

  /** The eleven criteria, run with the task id (or `''`), the model name and the PNG/XML switch. */
  function OutcomesOf(t: Tree, env: Env, taskId: Option<string>, modelName: Option<string>, checkPNGXML: bool): seq<Outcome> {
    Outcomes(
      ScoreCriteria.Criterion1(t, env), ScoreCriteria.Criterion2(t, env, taskId.GetOr("")), ScoreCriteria.Criterion3(t, env),
      ContentCriteria.Criterion4(t, env), ContentCriteria.Criterion5(t, env),
      RunCriteria.Criterion6(t, env, modelName), RunCriteria.Criterion7(t, modelName), RunCriteria.Criterion8(t, modelName),
      CountCriteria.Criterion9(t, env, checkPNGXML), CountCriteria.Criterion10(t, env),
      UnrequiredFiles.Criterion11(t, modelName))
  }

  function Analyze(t: Tree, env: Env, checkPNGXML: bool): AnalysisResult {
    var taskId := ScoreCriteria.TaskIdOrNull(t);
    var modelName := CountCriteria.TaskModelName(t, env);
    AnalysisResult(taskId, modelName, "", Record(OutcomesOf(t, env, taskId, modelName, checkPNGXML)))
  }

  /** With distinct keys, reading an entry's key back gives that entry. */
  lemma {:induction false} DistinctKeysLookup<T>(xs: seq<Keyed<T>>, k: nat)
    requires forall i, j :: 0 <= i < j < |xs| ==> xs[i].key != xs[j].key
    requires k < |xs|
    ensures ValueOf(xs, xs[k].key) == Some(xs[k].value)
  {
    if k > 0 {
      assert forall i, j :: 0 <= i < j < |xs[1..]| ==> xs[1..][i].key != xs[1..][j].key by {
        forall i, j | 0 <= i < j < |xs[1..]| ensures xs[1..][i].key != xs[1..][j].key {
          assert xs[1..][i] == xs[i + 1] && xs[1..][j] == xs[j + 1];
        }
      }
      DistinctKeysLookup(xs[1..], k - 1);
      assert xs[1..][k - 1] == xs[k];
      assert xs[0].key != xs[k].key;
    }
  }

  lemma CriterionKeysDistinct()
    ensures forall i, j :: 0 <= i < j < |CriterionKeys| ==> CriterionKeys[i] != CriterionKeys[j]
  {
    forall i, j | 0 <= i < j < |CriterionKeys| ensures CriterionKeys[i] != CriterionKeys[j] {
      if i == 0 || j < 9 {
        assert CriterionKeys[i][0] != CriterionKeys[j][0] || CriterionKeys[i][1] != CriterionKeys[j][1];
      } else {
        assert CriterionKeys[i][1] != CriterionKeys[j][1];
      }
    }
  }

  /** Every stored outcome reads back under its own key, and the keys are the fixed ones in order. */
  lemma RecordLookup(outcomes: seq<Outcome>, k: nat)
    requires |outcomes| == |CriterionKeys| && k < |CriterionKeys|
    ensures KeysOf(Record(outcomes)) == CriterionKeys
    ensures ValueOf(Record(outcomes), CriterionKeys[k]) == Some(outcomes[k])
  {
    CriterionKeysDistinct();
    DistinctKeysLookup(Record(outcomes), k);
  }

  /** The outcome list of a run holds criterion `i + 1`'s result at position `i`. */
  predicate Numbered(outcomes: seq<Outcome>) {
    |outcomes| == |CriterionKeys|
    && outcomes[0].SftStepCount? && outcomes[1].EvaluationScores? && outcomes[2].AnnotatorZero?
    && outcomes[3].NotebookAssistant? && outcomes[4].DuplicateDetection? && outcomes[5].RunScoreAverage?
    && outcomes[6].RunFolderCount? && outcomes[7].MissingResults? && outcomes[8].PngXmlMatch?
    && outcomes[9].StepCountMatch? && outcomes[10].UnrequiredFileList?
  }

  lemma NumberedNumbers(outcomes: seq<Outcome>, k: nat)
    requires Numbered(outcomes) && k < |outcomes|
    ensures outcomes[k].Number() == k + 1
  {
  }

  lemma RecordNumbered(outcomes: seq<Outcome>, k: nat)
    requires Numbered(outcomes) && k < |CriterionKeys|
    ensures KeysOf(Record(outcomes)) == CriterionKeys
    ensures var v := ValueOf(Record(outcomes), CriterionKeys[k]); v.Some? && v.value.Number() == k + 1
  {
    RecordLookup(outcomes, k);
    NumberedNumbers(outcomes, k);
  }

  /**
   * The criteria are stored under the eleven fixed keys, in criterion order; each key reads back
   * the outcome of its own criterion.
   */
  lemma CriteriaInOrder(t: Tree, env: Env, checkPNGXML: bool, k: nat)
    requires k < |CriterionKeys|
    ensures KeysOf(Analyze(t, env, checkPNGXML).criteria) == CriterionKeys
    ensures var v := ValueOf(Analyze(t, env, checkPNGXML).criteria, CriterionKeys[k]);
      v.Some? && v.value.Number() == k + 1
  {
    var taskId := ScoreCriteria.TaskIdOrNull(t);
    var modelName := CountCriteria.TaskModelName(t, env);
    var outcomes := OutcomesOf(t, env, taskId, modelName, checkPNGXML);
    RecordNumbered(outcomes, k);
  }

  /**
   * Without a task JSON there is neither a task id nor a model name; with one, the task id is the
   * file's and the model name is read from it.
   */
  lemma TaskIdentity(t: Tree, env: Env, checkPNGXML: bool)
    ensures var r := Analyze(t, env, checkPNGXML);
      r.taskId.None? ==> r.modelName.None?
    ensures var r := Analyze(t, env, checkPNGXML);
      r.taskId.Some? ==> r.modelName == Locators.ModelNameFromJSON(env, Locators.FindTaskJSON(t, "").value.file)
  {
  }

  /** `analyzeTaskFolder(checkPNGXML)`: the criteria one after another (the source awaits them together). */
  method AnalyzeTaskFolder(t: Tree, env: Env, checkPNGXML: bool) returns (r: AnalysisResult)
    ensures r == Analyze(t, env, checkPNGXML)
  {
    var task := Locators.FindTaskJSON(t, "");
    var taskId: Option<string> := None;
    var modelName: Option<string> := None;
    if task.Some? {
      taskId := Some(task.value.taskId);
      modelName := Locators.ModelNameFromJSON(env, task.value.file);
    }
    var c1 := ScoreCriteria.CheckCriterion1(t, env);
    var c2 := ScoreCriteria.CheckCriterion2(t, env, taskId.GetOr(""));
    var c3 := ScoreCriteria.CheckCriterion3(t, env);
    var c4 := ContentCriteria.CheckCriterion4(t, env);
    var c5 := ContentCriteria.CheckCriterion5(t, env);
    var c6 := RunCriteria.CheckCriterion6(t, env, modelName);
    var c7 := RunCriteria.CheckCriterion7(t, modelName);
    var c8 := RunCriteria.CheckCriterion8(t, modelName);
    var c9 := CountCriteria.CheckCriterion9(t, env, checkPNGXML);
    var c10 := CountCriteria.CheckCriterion10(t, env);
    var c11 := UnrequiredFiles.CheckCriterion11(t, modelName);
    var criteria := Record(Outcomes(c1, c2, c3, c4, c5, c6, c7, c8, c9, c10, c11));
    r := AnalysisResult(taskId, modelName, "", criteria);
  }
}
