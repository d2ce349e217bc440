/**
 * Criteria 9 and 10: the screenshot (`.png`) and accessibility-tree (`.xml`) counts of every
 * trajectory folder, and the screenshot count against the number of trajectory steps.
 */
module CountCriteria {
  import opened Wrappers
  import opened Text
  import opened FileTree
  import opened Inputs
  import opened Locators
  import opened Folders

  /** The model name of the task: the first `model_pass_rate` key of the task JSON, if there is one. */
  function TaskModelName(t: Tree, env: Env): Option<string> {
    match FindTaskJSON(t, "")
    case None => None
    case Some(task) => ModelNameFromJSON(env, task.file)
  }

  /** The scan is empty exactly when every index contributes nothing. */
  lemma {:induction false} CollectEmpty<T>(idxs: seq<nat>, entry: nat -> seq<T>)
    ensures Collect(idxs, entry) == [] <==> forall k :: 0 <= k < |idxs| ==> entry(idxs[k]) == []
    decreases |idxs|
  {
    if idxs != [] {
      var n := |idxs| - 1;
      assert forall k :: 0 <= k < n ==> idxs[..n][k] == idxs[k];
      CollectEmpty(idxs[..n], entry);
    }
  }

  /** The run scan is empty exactly when every run contributes nothing. */
  lemma {:induction false} RunScanEmpty<T>(n: nat, entry: nat -> seq<T>)
    ensures RunScan(n, entry) == [] <==> forall i :: FirstRun <= i < FirstRun + n ==> entry(i) == []
  {
    if n > 0 {
      RunScanEmpty(n - 1, entry);
    }
  }

  // ---------------------------------------------------------------------------------------------
  // criterion 9: PNG and XML counts agree

  datatype FileMismatch = FileMismatch(path: string, png: nat, xml: nat)

  /** A folder whose screenshots and accessibility trees are as many. */
  predicate Balanced(t: Tree, dir: string) {
    CountPNGXMLFiles(t, dir).png == CountPNGXMLFiles(t, dir).xml
  }

  /** The mismatch recorded under `path` for the folder `dir`, if its counts differ. */
  function CountMismatch(t: Tree, path: string, dir: string): (r: seq<FileMismatch>)
    ensures r == [] <==> Balanced(t, dir)
    ensures r != [] ==> r == [FileMismatch(path, CountPNGXMLFiles(t, dir).png, CountPNGXMLFiles(t, dir).xml)]
  {
    var counts := CountPNGXMLFiles(t, dir);
    if counts.png != counts.xml then [FileMismatch(path, counts.png, counts.xml)] else []
  }

  /** SFT's trajectory folder, checked when it exists. */
  function SftCountMismatch(t: Tree): seq<FileMismatch> {
    if DirectoryExists(t, SftTrajectoryDir) then CountMismatch(t, "SFT", SftTrajectoryDir) else []
  }

  /** The trajectory folder of annotator `idx`, from the first spelling whose trajectory folder exists. */
  function AnnotatorTrajectoryDir(t: Tree, root: string, idx: nat): Option<string> {
    match AnnotatorFolder(root, idx, HasTrajectoryDir(t))
    case None => None
    case Some(d) => Some(ChildDir(d, TrajectoryFolder))
  }

  function AnnotatorCountMismatch(t: Tree, root: string, idx: nat): seq<FileMismatch> {
    match AnnotatorTrajectoryDir(t, root, idx)
    case None => []
    case Some(dir) => CountMismatch(t, AnnotatorKey(idx), dir)
  }

  function AnnotatorCountMismatches(t: Tree, root: string): nat -> seq<FileMismatch> {
    (idx: nat) => AnnotatorCountMismatch(t, root, idx)
  }

  /** The trajectory folder of run `i`, when the run folder and its `Trajectory and Screenshot` folder exist. */
  function RunTrajectoryFolder(t: Tree, model: string, i: nat): Option<string> {
    match RunFolder(t, model, i)
    case None => None
    case Some(name) =>
      var dir := ChildDir(ChildDir(model, name), TrajectoryFolder);
      if DirectoryExists(t, dir) then Some(dir) else None
  }

  /** A run's mismatch is recorded under `model/run_name`. */
  function RunCountMismatch(t: Tree, model: string, i: nat): seq<FileMismatch> {
    match RunTrajectoryFolder(t, model, i)
    case None => []
    case Some(dir) => CountMismatch(t, ChildDir(model, RunFolder(t, model, i).value), dir)
  }

  function RunCountMismatches(t: Tree, model: string): nat -> seq<FileMismatch> {
    (i: nat) => RunCountMismatch(t, model, i)
  }

  /** The model runs are checked when the task JSON gives a truthy model name whose folder exists. */
  predicate ModelRunsChecked(t: Tree, env: Env) {
    var m := TaskModelName(t, env);
    m.Some? && m.value != "" && DirectoryExists(t, m.value)
  }

  function ModelCountMismatches(t: Tree, env: Env): seq<FileMismatch> {
    if ModelRunsChecked(t, env) then RunScan(LastRun, RunCountMismatches(t, TaskModelName(t, env).value)) else []
  }

  datatype Criterion9Result = Criterion9Result(passed: bool, mismatches: seq<FileMismatch>)

  /** `checkCriterion9PNGXMLMatch(checkEnabled)`: off unless enabled; SFT, then annotators 1 to 3, then the runs. */
  function Criterion9(t: Tree, env: Env, checkEnabled: bool): Criterion9Result {
    if !checkEnabled then Criterion9Result(true, [])
    else
      var mismatches := SftCountMismatch(t) + Collect(AnnotatorIndices, AnnotatorCountMismatches(t, AnnotatorRootOf(t)))
        + ModelCountMismatches(t, env);
      Criterion9Result(mismatches == [], mismatches)
  }

  /** Every folder criterion 9 looks at has as many screenshots as accessibility trees. */
  predicate AllBalanced(t: Tree, env: Env) {
    (DirectoryExists(t, SftTrajectoryDir) ==> Balanced(t, SftTrajectoryDir))
    && AnnotatorsBalanced(t, AnnotatorRootOf(t), AnnotatorIndices)
    && (ModelRunsChecked(t, env) ==> RunsBalanced(t, TaskModelName(t, env).value, LastRun))
  }

  /** The trajectory folder found for each of the annotators `idxs` is balanced. */
  predicate AnnotatorsBalanced(t: Tree, root: string, idxs: seq<nat>) {
    forall k :: 0 <= k < |idxs| && AnnotatorTrajectoryDir(t, root, idxs[k]).Some? ==> Balanced(t, AnnotatorTrajectoryDir(t, root, idxs[k]).value)
  }

  /** The trajectory folder of each of the first `n` runs, where there is one, is balanced. */
  predicate RunsBalanced(t: Tree, model: string, n: nat) {
    forall i :: FirstRun <= i < FirstRun + n && RunTrajectoryFolder(t, model, i).Some? ==> Balanced(t, RunTrajectoryFolder(t, model, i).value)
  }

  lemma AnnotatorCountsEmpty(t: Tree, root: string, idxs: seq<nat>)
    ensures Collect(idxs, AnnotatorCountMismatches(t, root)) == [] <==> AnnotatorsBalanced(t, root, idxs)
  {
    CollectEmpty(idxs, AnnotatorCountMismatches(t, root));
  }

  lemma RunCountsEmpty(t: Tree, model: string, n: nat)
    ensures RunScan(n, RunCountMismatches(t, model)) == [] <==> RunsBalanced(t, model, n)
  {
    RunScanEmpty(n, RunCountMismatches(t, model));
    forall i | FirstRun <= i < FirstRun + n
      ensures RunCountMismatches(t, model)(i) == [] <==>
        (RunTrajectoryFolder(t, model, i).Some? ==> Balanced(t, RunTrajectoryFolder(t, model, i).value))
    {
      RunCountEmptyAt(t, model, i);
    }
  }

  lemma RunCountEmptyAt(t: Tree, model: string, i: nat)
    ensures RunCountMismatch(t, model, i) == [] <==>
      (RunTrajectoryFolder(t, model, i).Some? ==> Balanced(t, RunTrajectoryFolder(t, model, i).value))
  {
  }

  /** Criterion 9 passes exactly when it is disabled or every folder it looks at is balanced. */
  lemma Criterion9Pass(t: Tree, env: Env, checkEnabled: bool)
    ensures Criterion9(t, env, checkEnabled).passed <==> !checkEnabled || AllBalanced(t, env)
  {
    if checkEnabled {
      var sft := SftCountMismatch(t);
      var annotators := Collect(AnnotatorIndices, AnnotatorCountMismatches(t, AnnotatorRootOf(t)));
      var runs := ModelCountMismatches(t, env);
      assert sft == [] <==> (DirectoryExists(t, SftTrajectoryDir) ==> Balanced(t, SftTrajectoryDir));
      AnnotatorCountsEmpty(t, AnnotatorRootOf(t), AnnotatorIndices);
      assert runs == [] <==> (ModelRunsChecked(t, env) ==> RunsBalanced(t, TaskModelName(t, env).value, LastRun)) by {
        if ModelRunsChecked(t, env) {
          RunCountsEmpty(t, TaskModelName(t, env).value, LastRun);
        }
      }
      assert Criterion9(t, env, checkEnabled).mismatches == sft + annotators + runs;
    }
  }

  method CheckFolderCounts(t: Tree, path: string, dir: string) returns (e: seq<FileMismatch>)
    ensures e == CountMismatch(t, path, dir)
  {
    var counts := CountPNGXMLFiles(t, dir);
    e := [];
    if counts.png != counts.xml {
      e := [FileMismatch(path, counts.png, counts.xml)];
    }
  }

  /** The annotator loop of criterion 9. */
  method ScanAnnotatorCounts(t: Tree, root: string, idxs: seq<nat>) returns (ms: seq<FileMismatch>)
    ensures ms == Collect(idxs, AnnotatorCountMismatches(t, root))
  {
    ms := [];
    for k := 0 to |idxs|
      invariant ms == Collect(idxs[..k], AnnotatorCountMismatches(t, root))
    {
      CollectSnoc(idxs, k, AnnotatorCountMismatches(t, root));
      var folder := FindAnnotatorFolder(root, idxs[k], HasTrajectoryDir(t));
      var e: seq<FileMismatch> := [];
      if folder.Some? {
        e := CheckFolderCounts(t, AnnotatorKey(idxs[k]), ChildDir(folder.value, TrajectoryFolder));
      }
      ms := ms + e;
    }
    assert idxs[..|idxs|] == idxs;
  }

  /** The body of the run loop of criterion 9. */
  method CheckRunCounts(t: Tree, model: string, i: nat) returns (e: seq<FileMismatch>)
    ensures e == RunCountMismatch(t, model, i)
  {
    e := [];
    var runName := FindRunFolder(t, model, i);
    if runName.Some? {
      var runDir := ChildDir(model, runName.value);
      var trajDir := ChildDir(runDir, TrajectoryFolder);
      if DirectoryExists(t, trajDir) {
        e := CheckFolderCounts(t, runDir, trajDir);
      }
    }
  }

  /** The run loop of criterion 9. */
  method ScanRunCounts(t: Tree, model: string, runs: nat) returns (ms: seq<FileMismatch>)
    ensures ms == RunScan(runs, RunCountMismatches(t, model))
  {
    ms := [];
    for k := 0 to runs
      invariant ms == RunScan(k, RunCountMismatches(t, model))
    {
      var e := CheckRunCounts(t, model, FirstRun + k);
      RunScanStep(k, RunCountMismatches(t, model), ms, e);
      ms := ms + e;
    }
  }

  method CheckCriterion9(t: Tree, env: Env, checkEnabled: bool) returns (r: Criterion9Result)
    ensures r == Criterion9(t, env, checkEnabled)
  {
    if !checkEnabled {
      return Criterion9Result(true, []);
    }
    var sft: seq<FileMismatch> := [];
    if DirectoryExists(t, SftTrajectoryDir) {
      sft := CheckFolderCounts(t, "SFT", SftTrajectoryDir);
    }
    var root := ResolveAnnotatorRoot(t);
    var annotators := ScanAnnotatorCounts(t, root, AnnotatorIndices);
    var runs: seq<FileMismatch> := [];
    var modelName := TaskModelName(t, env);
    if modelName.Some? && modelName.value != "" && DirectoryExists(t, modelName.value) {
      runs := ScanRunCounts(t, modelName.value, LastRun);
    }
    var mismatches := sft + annotators + runs;
    r := Criterion9Result(|mismatches| == 0, mismatches);
  }

  // ---------------------------------------------------------------------------------------------
  // criterion 10: screenshots against steps

  datatype StepMismatch = StepMismatch(path: string, trajectorySteps: nat, pngFiles: nat)

  /** A screenshot count is acceptable when it equals the step count or exceeds it by one. */
  predicate ScreenshotsMatch(steps: nat, pngs: nat) {
    pngs == steps + 1 || pngs == steps
  }

  /** The mismatch of the trajectory folder `dir`, when it holds a trajectory file whose steps do not fit the screenshots. */
  function StepCountMismatch(t: Tree, env: Env, path: string, dir: string): (r: seq<StepMismatch>)
    ensures r == [] <==> (FindTrajectoryFile(t, dir).None? ||
                          ScreenshotsMatch(|StepsOf(env, FindTrajectoryFile(t, dir))|, CountPNGXMLFiles(t, dir).png))
  {
    var f := FindTrajectoryFile(t, dir);
    if f.None? then []
    else
      var stepCount := |StepsOf(env, f)|;
      var pngCount := CountPNGXMLFiles(t, dir).png;
      if pngCount != stepCount + 1 && pngCount != stepCount then [StepMismatch(path, stepCount, pngCount)] else []
  }

  function AnnotatorStepMismatch(t: Tree, env: Env, root: string, idx: nat): seq<StepMismatch> {
    match AnnotatorTrajectoryDir(t, root, idx)
    case None => []
    case Some(dir) => StepCountMismatch(t, env, AnnotatorKey(idx), dir)
  }

  function AnnotatorStepMismatches(t: Tree, env: Env, root: string): nat -> seq<StepMismatch> {
    (idx: nat) => AnnotatorStepMismatch(t, env, root, idx)
  }

  datatype Criterion10Result = Criterion10Result(passed: bool, mismatches: seq<StepMismatch>)

  /** `checkCriterion10StepCountMatch()`: SFT, then annotators 1 to 3. */
  function Criterion10(t: Tree, env: Env): Criterion10Result {
    var mismatches := StepCountMismatch(t, env, "SFT", SftTrajectoryDir)
      + Collect(AnnotatorIndices, AnnotatorStepMismatches(t, env, AnnotatorRootOf(t)));
    Criterion10Result(mismatches == [], mismatches)
  }

  /** A trajectory folder whose screenshots fit its steps, or that has no trajectory file. */
  predicate StepsFit(t: Tree, env: Env, dir: string) {
    var f := FindTrajectoryFile(t, dir);
    f.Some? ==> ScreenshotsMatch(|StepsOf(env, f)|, CountPNGXMLFiles(t, dir).png)
  }

  /**
   * Criterion 10 passes exactly when SFT's trajectory folder and every annotator trajectory folder
   * found hold as many screenshots as steps, or one more.
   */
  lemma Criterion10Pass(t: Tree, env: Env)
    ensures Criterion10(t, env).passed <==>
      StepsFit(t, env, SftTrajectoryDir) && AnnotatorStepsFit(t, env, AnnotatorRootOf(t), AnnotatorIndices)
  {
    AnnotatorStepsEmpty(t, env, AnnotatorRootOf(t), AnnotatorIndices);
  }

  /** The trajectory folder found for each of the annotators `idxs` fits its steps. */
  predicate AnnotatorStepsFit(t: Tree, env: Env, root: string, idxs: seq<nat>) {
    forall k :: 0 <= k < |idxs| && AnnotatorTrajectoryDir(t, root, idxs[k]).Some? ==> StepsFit(t, env, AnnotatorTrajectoryDir(t, root, idxs[k]).value)
  }

  lemma AnnotatorStepsEmpty(t: Tree, env: Env, root: string, idxs: seq<nat>)
    ensures Collect(idxs, AnnotatorStepMismatches(t, env, root)) == [] <==> AnnotatorStepsFit(t, env, root, idxs)
  {
    CollectEmpty(idxs, AnnotatorStepMismatches(t, env, root));
  }

  method CheckStepCount(t: Tree, env: Env, path: string, dir: string) returns (e: seq<StepMismatch>)
    ensures e == StepCountMismatch(t, env, path, dir)
  {
    e := [];
    var trajFile := FindTrajectoryFile(t, dir);
    if trajFile.Some? {
      var stepCount := |StepsOf(env, trajFile)|;
      var pngCount := CountPNGXMLFiles(t, dir).png;
      if pngCount != stepCount + 1 && pngCount != stepCount {
        e := [StepMismatch(path, stepCount, pngCount)];
      }
    }
  }

  /** The annotator loop of criterion 10. */
  method ScanAnnotatorSteps(t: Tree, env: Env, root: string, idxs: seq<nat>) returns (ms: seq<StepMismatch>)
    ensures ms == Collect(idxs, AnnotatorStepMismatches(t, env, root))
  {
    ms := [];
    for k := 0 to |idxs|
      invariant ms == Collect(idxs[..k], AnnotatorStepMismatches(t, env, root))
    {
      CollectSnoc(idxs, k, AnnotatorStepMismatches(t, env, root));
      var folder := FindAnnotatorFolder(root, idxs[k], HasTrajectoryDir(t));
      var e: seq<StepMismatch> := [];
      if folder.Some? {
        e := CheckStepCount(t, env, AnnotatorKey(idxs[k]), ChildDir(folder.value, TrajectoryFolder));
      }
      ms := ms + e;
    }
    assert idxs[..|idxs|] == idxs;
  }

  method CheckCriterion10(t: Tree, env: Env) returns (r: Criterion10Result)
    ensures r == Criterion10(t, env)
  {
    var sft := CheckStepCount(t, env, "SFT", SftTrajectoryDir);
    var root := ResolveAnnotatorRoot(t);
    var annotators := ScanAnnotatorSteps(t, env, root, AnnotatorIndices);
    var mismatches := sft + annotators;
    r := Criterion10Result(|mismatches| == 0, mismatches);
  }
}
