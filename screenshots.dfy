/**
 * The screenshot viewer's data for one step of one entity (js/analyzer.js, `getScreenshotPath`):
 * the trajectory folder of the entity, the parsed action of the step, the end point of a drag that
 * starts at the step, and the screenshot file of the step, looked for in three stages.
 */
module Screenshots {
  import opened Wrappers
  import opened Text
  import opened FileTree
  import opened FileManager
  import opened Inputs
  import opened Locators
  import opened Folders
  import opened Trajectories
  import opened Actions
  import opened ActionFacts

  const AnnotatorPrefix := "annotator_"
  const StepPrefix := "step_"
  const PngPattern := "*.png"
  const PaddedWidth: nat := 4

  /** `drag_end`: the point the pointer moves to after a `mouseDown`. */
  datatype DragEnd = DragEnd(x: Option<int>, y: Option<int>)

  /**
   * `result`: the screenshot file whose data URL is shown (none for the empty string), the parsed
   * action of the step, and the drag end.
   */
  datatype ScreenshotResult = ScreenshotResult(screenshot: Option<FileRef>, action: Option<ParsedAction>, dragEnd: Option<DragEnd>)

  const EmptyResult := ScreenshotResult(None, None, None)

  // ---------------------------------------------------------------------------------------------
  // the trajectory folder

  /** `parseInt` of a text that starts with a decimal digit; any other text gives NaN (none). */
  function ParseLeadingInt(s: string): (r: Option<nat>)
    ensures r.None? <==> s == [] || !IsDigit(s[0])
    ensures AllDigits(s) && s != [] ==> r == Some(DigitsValue(s))
  {
    var d := DigitRunEnd(s, 0);
    assert AllDigits(s[..d]);
    if d == 0 then None
    else
      assert AllDigits(s) ==> d == |s| && s[..d] == s;
      Some(DigitsValue(s[..d]))
  }

  /** The folder spellings tried for an annotator number written `num`; the padded one only when `num` reads as a number. */
  function ViewerVariants(num: string): seq<string> {
    ["annotator" + num, "annotator_" + num, "annotaor_" + num, "annotaor" + num]
    + match ParseLeadingInt(num)
      case None => []
      case Some(n) => ["annotator" + PadZero(NatToString(n), 2)]
  }

  /** The first spelling in `vs` whose folder under `root` passes `ok`. */
  function FirstVariant(root: string, vs: seq<string>, ok: string -> bool): (r: Option<string>)
    ensures r.Some? ==> exists i :: (0 <= i < |vs| && r.value == ChildDir(root, vs[i]) && ok(r.value)
                                     && forall j :: 0 <= j < i ==> !ok(ChildDir(root, vs[j])))
    ensures r.None? ==> forall i :: 0 <= i < |vs| ==> !ok(ChildDir(root, vs[i]))
  {
    match FirstWhere(vs, v => ok(ChildDir(root, v)))
    case None => None
    case Some(i) => Some(ChildDir(root, vs[i]))
  }

  /**
   * The trajectory folder shown for an entity: SFT's fixed one, or the `Trajectory and Screenshot`
   * folder of the first annotator spelling that has one; none when no spelling has one.
   */
  function TrajectoryDirOf(t: Tree, trajectoryType: string): Option<string> {
    if trajectoryType == SftKey then Some(SftTrajectoryDir)
    else
      match FirstVariant(AnnotatorRootOf(t), ViewerVariants(RemoveFirst(trajectoryType, AnnotatorPrefix)), HasTrajectoryDir(t))
      case None => None
      case Some(d) => Some(ChildDir(d, TrajectoryFolder))
  }

  lemma RemoveAnnotatorPrefix(idx: nat)
    ensures RemoveFirst(AnnotatorKey(idx), AnnotatorPrefix) == NatToString(idx)
  {
    var s := AnnotatorKey(idx);
    assert s[0..|AnnotatorPrefix|] == AnnotatorPrefix;
    assert IndexOfFrom(s, AnnotatorPrefix, 0) == 0;
    assert s[|AnnotatorPrefix|..] == NatToString(idx);
  }

  /** For `annotator_<idx>` the viewer tries the five spellings the criteria try. */
  lemma ViewerVariantsOfKey(idx: nat)
    ensures ViewerVariants(RemoveFirst(AnnotatorKey(idx), AnnotatorPrefix)) == Variants(idx)
  {
    RemoveAnnotatorPrefix(idx);
    assert ParseLeadingInt(NatToString(idx)) == Some(idx);
  }

  /** Over the five spellings of annotator `idx`, the first-variant search is the criteria's. */
  lemma FirstVariantOfVariants(root: string, idx: nat, ok: string -> bool)
    ensures FirstVariant(root, Variants(idx), ok) == AnnotatorFolder(root, idx, ok)
  {
  }

  /**
   * The viewer shows an annotator the trajectory the criteria that test for a `Trajectory and
   * Screenshot` folder read: the folder of the first spelling that has one.
   */
  lemma ViewerFolderAgreesWithCriteria(t: Tree, idx: nat)
    ensures TrajectoryDirOf(t, AnnotatorKey(idx)) ==
      match AnnotatorFolder(AnnotatorRootOf(t), idx, HasTrajectoryDir(t))
      case None => None
      case Some(d) => Some(ChildDir(d, TrajectoryFolder))
  {
    SftKeyNotAnnotatorKey(idx);
    ViewerVariantsOfKey(idx);
    FirstVariantOfVariants(AnnotatorRootOf(t), idx, HasTrajectoryDir(t));
  }

  // ---------------------------------------------------------------------------------------------
  // the action and the drag end

  /** The parsed action of step `i`, when the trajectory has that step. */
  function ActionAt(steps: seq<Step>, i: nat): (r: Option<ParsedAction>)
    ensures r.Some? <==> i < |steps|
  {
    if i < |steps| then Some(ParsePyautoguiAction(steps[i].action)) else None
  }

  /** A `mouseDown` followed by a `moveTo` is a drag; it ends where the `moveTo` goes. */
  function DragEndAt(steps: seq<Step>, i: nat): (r: Option<DragEnd>)
    ensures r.Some? ==> ActionAt(steps, i).Some? && ActionAt(steps, i).value.actionType == MouseDown
    ensures r.Some? ==> ActionAt(steps, i + 1).Some? && ActionAt(steps, i + 1).value.actionType == MoveTo
  {
    if i < |steps| && ParsePyautoguiAction(steps[i].action).actionType == MouseDown && i + 1 < |steps| then
      var next := ParsePyautoguiAction(steps[i + 1].action);
      if next.actionType == MoveTo then Some(DragEnd(next.x, next.y)) else None
    else None
  }

  /**
   * A step `pyautogui.mouseDown(X0, Y0)` followed by `pyautogui.moveTo(X, Y)` is shown as a drag from
   * (X0, Y0) to (X, Y).
   */
  lemma DragFromMouseDownToMoveTo(steps: seq<Step>, i: nat, x0: nat, y0: nat, x: nat, y: nat)
    requires i + 1 < |steps|
    requires steps[i].action == PointCall(MouseDownName, x0, y0)
    requires steps[i + 1].action == PointCall(MoveToName, x, y)
    ensures ActionAt(steps, i).Some? && ActionAt(steps, i).value.actionType == MouseDown
    ensures ActionAt(steps, i).value.x == Some(x0) && ActionAt(steps, i).value.y == Some(y0)
    ensures DragEndAt(steps, i) == Some(DragEnd(Some(x), Some(y)))
  {
    MouseDownRoundTrip(x0, y0);
    MoveToRoundTrip(x, y);
  }

  /** A `mouseDown` followed by another `mouseDown` is no drag. */
  lemma NoDragWithoutMoveTo(steps: seq<Step>, i: nat, x0: nat, y0: nat, x: nat, y: nat)
    requires i + 1 < |steps|
    requires steps[i].action == PointCall(MouseDownName, x0, y0)
    requires steps[i + 1].action == PointCall(MouseDownName, x, y)
    ensures DragEndAt(steps, i).None?
  {
    MouseDownRoundTrip(x0, y0);
    MouseDownRoundTrip(x, y);
  }

  // ---------------------------------------------------------------------------------------------
  // the screenshot

  /** Stage 1: the step's `observation.screenshot`, as a path of its own or under the trajectory folder. */
  function ObservationShot(t: Tree, trajDir: string, steps: seq<Step>, i: nat): Option<FileRef> {
    if i < |steps| && steps[i].screenshot != "" then
      var shot := steps[i].screenshot;
      if GetFileFromTree(t, shot).Some? then GetFileFromTree(t, shot) else GetFileFromTree(t, ChildDir(trajDir, shot))
    else None
  }

  /** The six file names tried in stage 2, the step number plain and padded to four digits. */
  function StepNames(i: nat): (names: seq<string>)
    ensures |names| == 6
  {
    var n, p := NatToString(i), PadZero(NatToString(i), PaddedWidth);
    [StepPrefix + n + "_before.png", StepPrefix + p + "_before.png",
     StepPrefix + n + "_after.png", StepPrefix + p + "_after.png",
     StepPrefix + n + PngExtension, StepPrefix + p + PngExtension]
  }

  function ShotPaths(trajDir: string, i: nat): (paths: seq<string>)
    ensures |paths| == 6
  {
    var names := StepNames(i);
    seq(|names|, k requires 0 <= k < |names| => ChildDir(trajDir, names[k]))
  }

  /** Stage 2: the first of the six names that is a file in the trajectory folder. */
  function PatternShot(t: Tree, trajDir: string, i: nat): Option<FileRef> {
    FirstFileAt(t, ShotPaths(trajDir, i))
  }

  /** A lower-cased file name names step `n` when it holds `step_<n>_` or is `step_<n>.png`. */
  predicate NamesStep(filename: string, n: string) {
    Contains(filename, StepPrefix + n + "_") || filename == StepPrefix + n + PngExtension
  }

  predicate ShotOfStep(f: FileRef, i: nat) {
    var filename := Lower(f.name);
    NamesStep(filename, NatToString(i)) || NamesStep(filename, PadZero(NatToString(i), PaddedWidth))
  }

  /** The test stage 3 applies to each PNG file. */
  function StepShot(i: nat): FileRef -> bool {
    f => ShotOfStep(f, i)
  }

  /** The first file, in listing order, that passes `ok`. */
  function FirstFile(fs: seq<FileRef>, ok: FileRef -> bool): (r: Option<FileRef>)
    ensures r.Some? ==> exists k :: 0 <= k < |fs| && fs[k] == r.value && ok(fs[k])
                                    && forall j :: 0 <= j < k ==> !ok(fs[j])
    ensures r.None? ==> forall k :: 0 <= k < |fs| ==> !ok(fs[k])
  {
    if fs == [] then None
    else if ok(fs[0]) then Some(fs[0])
    else
      var r := FirstFile(fs[1..], ok);
      assert forall k :: 1 <= k < |fs| ==> fs[1..][k - 1] == fs[k];
      r
  }

  /** A file that passes `ok`, with none before it passing, is the first file. */
  lemma FirstFileIs(fs: seq<FileRef>, ok: FileRef -> bool, k: nat)
    requires k < |fs| && ok(fs[k]) && forall j :: 0 <= j < k ==> !ok(fs[j])
    ensures FirstFile(fs, ok) == Some(fs[k])
  {
    var r := FirstFile(fs, ok);
    assert r.Some?;
    var k' :| 0 <= k' < |fs| && fs[k'] == r.value && ok(fs[k']) && forall j :: 0 <= j < k' ==> !ok(fs[j]);
    assert k' == k;
  }

  /** Stage 3: the first PNG file of the trajectory folder whose name names the step. */
  function PngShot(t: Tree, trajDir: string, i: nat): Option<FileRef> {
    FirstFile(FindFilesInTree(t, trajDir, PngPattern), StepShot(i))
  }

  /**
   * The screenshot of step `i`: the observation's file, else the first of the six names, else the
   * first PNG that names the step; none only when all three stages find nothing.
   */
  function ScreenshotOf(t: Tree, trajDir: string, steps: seq<Step>, i: nat): (r: Option<FileRef>)
    ensures r.None? <==>
      ObservationShot(t, trajDir, steps, i).None?
      && (forall k :: 0 <= k < 6 ==> GetFileFromTree(t, ShotPaths(trajDir, i)[k]).None?)
      && (forall k :: 0 <= k < |FindFilesInTree(t, trajDir, PngPattern)| ==> !StepShot(i)(FindFilesInTree(t, trajDir, PngPattern)[k]))
  {
    var o := ObservationShot(t, trajDir, steps, i);
    if o.Some? then o
    else
      var p := PatternShot(t, trajDir, i);
      if p.Some? then p else PngShot(t, trajDir, i)
  }

  /** `getScreenshotPath(trajectoryType, stepIndex)`. */
  function GetScreenshot(t: Tree, env: Env, trajectoryType: string, i: nat): (r: ScreenshotResult)
    ensures TrajectoryDirOf(t, trajectoryType).None? ==> r == EmptyResult
  {
    match TrajectoryDirOf(t, trajectoryType)
    case None => EmptyResult
    case Some(dir) =>
      var steps := StepsOf(env, FindTrajectoryFile(t, dir));
      ScreenshotResult(ScreenshotOf(t, dir, steps, i), ActionAt(steps, i), DragEndAt(steps, i))
  }

  // ---------------------------------------------------------------------------------------------
  // the procedure

  method FindFirstVariant(root: string, vs: seq<string>, ok: string -> bool) returns (r: Option<string>)
    ensures r == FirstVariant(root, vs, ok)
  {
    var i := FindFirst(vs, v => ok(ChildDir(root, v)));
    r := if i.Some? then Some(ChildDir(root, vs[i.value])) else None;
  }

  /** The folder half of `getScreenshotPath`. */
  method FindTrajectoryDir(t: Tree, trajectoryType: string) returns (r: Option<string>)
    ensures r == TrajectoryDirOf(t, trajectoryType)
  {
    if trajectoryType == SftKey {
      return Some(SftTrajectoryDir);
    }
    var root := ResolveAnnotatorRoot(t);
    var d := FindFirstVariant(root, ViewerVariants(RemoveFirst(trajectoryType, AnnotatorPrefix)), HasTrajectoryDir(t));
    r := if d.Some? then Some(ChildDir(d.value, TrajectoryFolder)) else None;
  }

  /** The stage 2 loop: the first candidate path that names a file. */
  method FindPatternShot(t: Tree, trajDir: string, i: nat) returns (r: Option<FileRef>)
    ensures r == PatternShot(t, trajDir, i)
  {
    var paths := ShotPaths(trajDir, i);
    for k := 0 to |paths|
      invariant forall j :: 0 <= j < k ==> GetFileFromTree(t, paths[j]).None?
    {
      var f := GetFileFromTree(t, paths[k]);
      if f.Some? {
        return f;
      }
    }
    return None;
  }

  /** The stage 3 loop over the PNG files of the trajectory folder. */
  method FindStepPng(fs: seq<FileRef>, i: nat) returns (r: Option<FileRef>)
    ensures r == FirstFile(fs, StepShot(i))
  {
    for k := 0 to |fs|
      invariant forall j :: 0 <= j < k ==> !StepShot(i)(fs[j])
    {
      var filename := Lower(fs[k].name);
      var n := NatToString(i);
      if Contains(filename, StepPrefix + n + "_") || filename == StepPrefix + n + PngExtension {
        assert StepShot(i)(fs[k]);
        FirstFileIs(fs, StepShot(i), k);
        return Some(fs[k]);
      }
      var padded := PadZero(n, PaddedWidth);
      if Contains(filename, StepPrefix + padded + "_") || filename == StepPrefix + padded + PngExtension {
        assert StepShot(i)(fs[k]);
        FirstFileIs(fs, StepShot(i), k);
        return Some(fs[k]);
      }
      assert !StepShot(i)(fs[k]);
    }
    return None;
  }

  method GetScreenshotPath(t: Tree, env: Env, trajectoryType: string, stepIndex: nat) returns (r: ScreenshotResult)
    ensures r == GetScreenshot(t, env, trajectoryType, stepIndex)
  {
    var dir := FindTrajectoryDir(t, trajectoryType);
    if dir.None? {
      return EmptyResult;
    }
    var trajDir := dir.value;
    var steps := StepsOf(env, FindTrajectoryFile(t, trajDir));
    var action: Option<ParsedAction> := None;
    var dragEnd: Option<DragEnd> := None;
    if stepIndex < |steps| {
      var a := ParsePyautoguiAction(steps[stepIndex].action);
      action := Some(a);
      if a.actionType == MouseDown && stepIndex + 1 < |steps| {
        var next := ParsePyautoguiAction(steps[stepIndex + 1].action);
        if next.actionType == MoveTo {
          dragEnd := Some(DragEnd(next.x, next.y));
        }
      }
    }
    var shot := ObservationShot(t, trajDir, steps, stepIndex);
    if shot.None? {
      shot := FindPatternShot(t, trajDir, stepIndex);
    }
    if shot.None? {
      shot := FindStepPng(FindFilesInTree(t, trajDir, PngPattern), stepIndex);
    }
    r := ScreenshotResult(shot, action, dragEnd);
  }
}
