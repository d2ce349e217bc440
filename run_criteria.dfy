/**
 * Criteria 6 to 8: the model's run folders `run_01` ... `run_16` (or `run_1` ... `run_16`) below the
 * folder named after the model, and the `result.txt` score each of them should hold.
 */
module RunCriteria {
  import opened Wrappers
  import opened Text
  import opened FileTree
  import opened Inputs
  import opened Locators
  import opened Folders

  /** `modelName` is truthy: present and not the empty string. */
  predicate ModelGiven(modelName: Option<string>) {
    modelName.Some? && modelName.value != ""
  }

  /** The scan over the runs happens only for a truthy model name whose folder exists. */
  predicate RunsScanned(t: Tree, modelName: Option<string>) {
    ModelGiven(modelName) && DirectoryExists(t, modelName.value)
  }

  /** The result file of run `i`, when its folder was found. */
  function RunResult(t: Tree, model: string, i: nat): Option<FileRef> {
    match RunFolder(t, model, i)
    case None => None
    case Some(name) => RunResultFile(t, ChildDir(model, name))
  }

  // ---------------------------------------------------------------------------------------------
  // what one run contributes to each criterion

  /** Criterion 6: the score of the run's result file, when the file exists and its text is not empty. */
  function RunScoreEntry(t: Tree, env: Env, model: string, i: nat): (r: seq<Num>)
    ensures |r| <= 1 && (r != [] ==> RunResult(t, model, i).Some?)
  {
    var score := ScoreOf(env, RunResult(t, model, i));
    if score.Some? then [score.value] else []
  }

  /** Criterion 7: the run folder, when one of its names exists. */
  function RunFolderEntry(t: Tree, model: string, i: nat): (r: seq<string>)
    ensures |r| <= 1
  {
    match RunFolder(t, model, i)
    case None => []
    case Some(name) => [name]
  }

  /** Criterion 7: the run's result file. */
  function RunResultEntry(t: Tree, model: string, i: nat): (r: seq<FileRef>)
    ensures |r| <= 1 && (r != [] <==> RunResult(t, model, i).Some?)
  {
    match RunResult(t, model, i)
    case None => []
    case Some(f) => [f]
  }

  /** Criterion 8: the run folder's name, when it was found without a result file. */
  function MissingEntry(t: Tree, model: string, i: nat): (r: seq<string>)
    ensures |r| <= 1
  {
    match RunFolder(t, model, i)
    case None => []
    case Some(name) => if RunResultFile(t, ChildDir(model, name)).None? then [name] else []
  }

  function RunScores(t: Tree, env: Env, model: string): nat -> seq<Num> {
    (i: nat) => RunScoreEntry(t, env, model, i)
  }

  function RunFolders(t: Tree, model: string): nat -> seq<string> {
    (i: nat) => RunFolderEntry(t, model, i)
  }

  function RunResults(t: Tree, model: string): nat -> seq<FileRef> {
    (i: nat) => RunResultEntry(t, model, i)
  }

  function MissingRuns(t: Tree, model: string): nat -> seq<string> {
    (i: nat) => MissingEntry(t, model, i)
  }

  // ---------------------------------------------------------------------------------------------
  // criterion 6: average run score below 1

  /** `scores.reduce((a, b) => a + b, 0)`: NaN as soon as one score is NaN. */
  function Sum(xs: seq<Num>): (r: Num)
    ensures r.NaN? <==> NaN in xs
  {
    if xs == [] then Real(0.0)
    else
      var prev := Sum(xs[..|xs| - 1]);
      assert xs == xs[..|xs| - 1] + [xs[|xs| - 1]];
      match (prev, xs[|xs| - 1])
      case (Real(a), Real(b)) => Real(a + b)
      case _ => NaN
  }

  /** The average of the scores: none for no scores, NaN when a score is NaN. */
  function Average(xs: seq<Num>): (r: Option<Num>)
    ensures r.None? <==> xs == []
    ensures r.Some? ==> (r.value.NaN? <==> NaN in xs)
  {
    if xs == [] then None
    else
      match Sum(xs)
      case NaN => Some(NaN)
      case Real(s) => Some(Real(s / |xs| as real))
  }

  datatype Criterion6Result = Criterion6Result(passed: bool, modelName: Option<string>, scores: seq<Num>, average: Option<Num>)

  /** `checkCriterion6RunScoreAverage(modelName)`. */
  function Criterion6(t: Tree, env: Env, modelName: Option<string>): Criterion6Result {
    if !RunsScanned(t, modelName) then Criterion6Result(false, modelName, [], None)
    else
      Criterion6Decision(modelName, RunScan(LastRun, RunScores(t, env, modelName.value)))
  }

  /** The verdict of criterion 6 on the scores read: their average is a number below 1. */
  function Criterion6Decision(modelName: Option<string>, scores: seq<Num>): (r: Criterion6Result)
    ensures r.scores == scores && r.average == Average(scores)
    ensures r.passed <==> scores != [] && NaN !in scores && r.average.value.value < 1.0
  {
    var average := Average(scores);
    Criterion6Result(average.Some? && average.value.Real? && average.value.value < 1.0, modelName, scores, average)
  }

  /** Every score below 1 gives a sum below the number of scores. */
  lemma {:induction false} SumBelowCount(xs: seq<Num>)
    requires xs != [] && forall k :: 0 <= k < |xs| ==> xs[k].Real? && xs[k].value < 1.0
    ensures Sum(xs).Real? && Sum(xs).value < |xs| as real
    decreases |xs|
  {
    var n := |xs| - 1;
    assert xs == xs[..n] + [xs[n]];
    if n > 0 {
      SumBelowCount(xs[..n]);
    }
  }

  /**
   * Criterion 6 passes exactly when the run folders were scanned, at least one score was read, none
   * is NaN and their sum is below their number; in particular it passes when every score read is below 1.
   */
  lemma Criterion6Pass(t: Tree, env: Env, modelName: Option<string>)
    ensures var r := Criterion6(t, env, modelName);
      r.passed <==> RunsScanned(t, modelName) && r.scores != [] && NaN !in r.scores && Sum(r.scores).value < |r.scores| as real
    ensures var r := Criterion6(t, env, modelName);
      RunsScanned(t, modelName) && r.scores != [] && (forall k :: 0 <= k < |r.scores| ==> r.scores[k].Real? && r.scores[k].value < 1.0)
      ==> r.passed
  {
    var r := Criterion6(t, env, modelName);
    if RunsScanned(t, modelName) && r.scores != [] {
      var n := |r.scores| as real;
      if NaN !in r.scores {
        DivBelowOne(Sum(r.scores).value, n);
      }
      if forall k :: 0 <= k < |r.scores| ==> r.scores[k].Real? && r.scores[k].value < 1.0 {
        SumBelowCount(r.scores);
      }
    }
  }

  lemma DivBelowOne(s: real, n: real)
    requires n > 0.0
    ensures s / n < 1.0 <==> s < n
  {
    var q := s / n;
    assert q * n == s;
    if q < 1.0 {
      assert q * n < 1.0 * n;
    }
    if q >= 1.0 {
      assert q * n >= 1.0 * n;
    }
  }

  /** At most one score per run index is read. */
  lemma Criterion6ScoreCount(t: Tree, env: Env, modelName: Option<string>)
    ensures |Criterion6(t, env, modelName).scores| <= Criterion7(t, modelName).resultFileCount
  {
    if RunsScanned(t, modelName) {
      RunScanLengthLe(LastRun, RunScores(t, env, modelName.value), RunResults(t, modelName.value));
    }
  }

  /**
   * The body shared by the run loops of criteria 6 to 8: the first existing name of run `i`, and the
   * `result.txt` of its `Trajectory and Screenshot` folder, or of the run folder when that is missing.
   */
  method ReadRun(t: Tree, model: string, i: nat) returns (runName: Option<string>, resultFile: Option<FileRef>)
    ensures runName == RunFolder(t, model, i)
    ensures resultFile == RunResult(t, model, i)
  {
    runName := FindRunFolder(t, model, i);
    resultFile := None;
    if runName.Some? {
      var runDir := ChildDir(model, runName.value);
      var trajDir := ChildDir(runDir, TrajectoryFolder);
      if !DirectoryExists(t, trajDir) {
        trajDir := runDir;
      }
      resultFile := GetFileFromTree(t, ChildDir(trajDir, ResultFileName));
    }
  }

  /** The body of criterion 6's run loop: the score of run `i`, pushed when its result file's text is not empty. */
  method ReadRunScore(t: Tree, env: Env, model: string, i: nat) returns (e: seq<Num>)
    ensures e == RunScoreEntry(t, env, model, i)
  {
    e := [];
    var runName, resultFile := ReadRun(t, model, i);
    if runName.Some? && resultFile.Some? {
      var score := ParseEvaluationScore(env, env.text(resultFile.value));
      if score.Some? {
        e := [score.value];
      }
    }
  }

  /** The run loop of criterion 6. */
  method ScanRunScores(t: Tree, env: Env, model: string, runs: nat) returns (scores: seq<Num>)
    ensures scores == RunScan(runs, RunScores(t, env, model))
  {
    scores := [];
    for k := 0 to runs
      invariant scores == RunScan(k, RunScores(t, env, model))
    {
      var e := ReadRunScore(t, env, model, FirstRun + k);
      RunScanStep(k, RunScores(t, env, model), scores, e);
      scores := scores + e;
    }
  }

  method CheckCriterion6(t: Tree, env: Env, modelName: Option<string>) returns (r: Criterion6Result)
    ensures r == Criterion6(t, env, modelName)
  {
    if modelName.None? || modelName.value == "" || !DirectoryExists(t, modelName.value) {
      return Criterion6Result(false, modelName, [], None);
    }
    var scores := ScanRunScores(t, env, modelName.value, LastRun);
    r := Criterion6Decision(modelName, scores);
  }

  // ---------------------------------------------------------------------------------------------
  // criterion 7: run folders against result files

  datatype Criterion7Result = Criterion7Result(passed: bool, folderCount: nat, resultFileCount: nat)

  /** `checkCriterion7RunFolderCount(modelName)`: informational, it always passes. */
  function Criterion7(t: Tree, modelName: Option<string>): Criterion7Result {
    if !RunsScanned(t, modelName) then Criterion7Result(true, 0, 0)
    else
      Criterion7Result(true, |RunScan(LastRun, RunFolders(t, modelName.value))|,
                       |RunScan(LastRun, RunResults(t, modelName.value))|)
  }

  /** Criterion 7 always passes, and counts no more result files than run folders and no more than 16 folders. */
  lemma Criterion7Counts(t: Tree, modelName: Option<string>)
    ensures Criterion7(t, modelName).passed
    ensures Criterion7(t, modelName).resultFileCount <= Criterion7(t, modelName).folderCount <= LastRun
  {
    if RunsScanned(t, modelName) {
      var model := modelName.value;
      RunScanLengthLe(LastRun, RunResults(t, model), RunFolders(t, model));
      RunScanAtMostOne(LastRun, RunFolders(t, model));
    }
  }

  /** The two counting loops of criterion 7. */
  method CountRunFolders(t: Tree, model: string, runs: nat) returns (folderCount: nat, resultFileCount: nat)
    ensures folderCount == |RunScan(runs, RunFolders(t, model))|
    ensures resultFileCount == |RunScan(runs, RunResults(t, model))|
  {
    folderCount := 0;
    for k := 0 to runs
      invariant folderCount == |RunScan(k, RunFolders(t, model))|
    {
      var runName := FindRunFolder(t, model, FirstRun + k);
      RunScanNext(k, RunFolders(t, model));
      if runName.Some? {
        folderCount := folderCount + 1;
      }
    }
    resultFileCount := 0;
    for k := 0 to runs
      invariant resultFileCount == |RunScan(k, RunResults(t, model))|
    {
      var runName, resultFile := ReadRun(t, model, FirstRun + k);
      RunScanNext(k, RunResults(t, model));
      if runName.Some? && resultFile.Some? {
        resultFileCount := resultFileCount + 1;
      }
    }
  }

  method CheckCriterion7(t: Tree, modelName: Option<string>) returns (r: Criterion7Result)
    ensures r == Criterion7(t, modelName)
  {
    if modelName.None? || modelName.value == "" || !DirectoryExists(t, modelName.value) {
      return Criterion7Result(true, 0, 0);
    }
    var folderCount, resultFileCount := CountRunFolders(t, modelName.value, LastRun);
    r := Criterion7Result(true, folderCount, resultFileCount);
  }

  // ---------------------------------------------------------------------------------------------
  // criterion 8: run folders without a result file

  datatype Criterion8Result = Criterion8Result(passed: bool, missingResults: seq<string>)

  /** `checkCriterion8MissingResultFiles(modelName)`. */
  function Criterion8(t: Tree, modelName: Option<string>): Criterion8Result {
    if !RunsScanned(t, modelName) then Criterion8Result(true, [])
    else
      var missing := RunScan(LastRun, MissingRuns(t, modelName.value));
      Criterion8Result(missing == [], missing)
  }

  /** A run name is listed missing exactly when some run index found that folder and no result file in it. */
  lemma Criterion8Missing(t: Tree, modelName: Option<string>, name: string)
    requires RunsScanned(t, modelName)
    ensures name in Criterion8(t, modelName).missingResults <==>
      exists i :: FirstRun <= i < FirstRun + LastRun && RunFolder(t, modelName.value, i) == Some(name)
        && RunResultFile(t, ChildDir(modelName.value, name)).None?
  {
    MissingMember(t, modelName.value, name, LastRun);
  }

  lemma MissingMember(t: Tree, model: string, name: string, runs: nat)
    ensures name in RunScan(runs, MissingRuns(t, model)) <==>
      exists i :: FirstRun <= i < FirstRun + runs && RunFolder(t, model, i) == Some(name)
        && RunResultFile(t, ChildDir(model, name)).None?
  {
    RunScanMember(runs, MissingRuns(t, model), name);
  }

  /**
   * Criteria 7 and 8 agree: every run folder found either has a result file or is listed missing,
   * so criterion 8 passes exactly when criterion 7 counts as many result files as folders.
   */
  lemma Criterion7And8Agree(t: Tree, modelName: Option<string>)
    ensures |Criterion8(t, modelName).missingResults| + Criterion7(t, modelName).resultFileCount == Criterion7(t, modelName).folderCount
    ensures Criterion8(t, modelName).passed <==> Criterion7(t, modelName).resultFileCount == Criterion7(t, modelName).folderCount
  {
    if RunsScanned(t, modelName) {
      var model := modelName.value;
      RunScanLengthSum(LastRun, MissingRuns(t, model), RunResults(t, model), RunFolders(t, model));
    }
  }

  /** The run loop of criterion 8. */
  method ScanMissingResults(t: Tree, model: string, runs: nat) returns (missing: seq<string>)
    ensures missing == RunScan(runs, MissingRuns(t, model))
  {
    missing := [];
    for k := 0 to runs
      invariant missing == RunScan(k, MissingRuns(t, model))
    {
      var runName, resultFile := ReadRun(t, model, FirstRun + k);
      RunScanNext(k, MissingRuns(t, model));
      if runName.Some? && resultFile.None? {
        missing := missing + [runName.value];
      }
    }
  }

  method CheckCriterion8(t: Tree, modelName: Option<string>) returns (r: Criterion8Result)
    ensures r == Criterion8(t, modelName)
  {
    if modelName.None? || modelName.value == "" || !DirectoryExists(t, modelName.value) {
      return Criterion8Result(true, []);
    }
    var missing := ScanMissingResults(t, modelName.value, LastRun);
    r := Criterion8Result(|missing| == 0, missing);
  }
}
