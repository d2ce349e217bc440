/**
 * The navigation state of the screenshot viewer (js/main.js, `currentScreenshotData` with
 * `showScreenshot`, `loadScreenshot`, `navigateScreenshot` and the before/after toggle): which
 * entity and step are open, how many steps there are, which screenshot and which action a step
 * shows, and which buttons are disabled.
 */
module ScreenshotView {
  import opened Wrappers
  import opened FileTree
  import opened Inputs
  import opened Actions
  import opened Comparison
  import opened Screenshots

  /** `beforeAfter`: whether a step shows the screen before or after its action. */
  datatype Mode = Before | After

  function Flip(m: Mode): (r: Mode)
    ensures r != m
  {
    if m == Before then After else Before
  }

  /** The step whose screenshot is fetched for step `s`: one earlier in `before` mode, except at the start. */
  function ScreenshotStep(mode: Mode, s: nat): nat {
    if mode == Before && s > 0 then s - 1 else s
  }

  /** The step whose action is shown for step `s`: always the previous one, none at the start. */
  function ActionStep(s: nat): Option<nat> {
    if s > 0 then Some(s - 1) else None
  }

  /**
   * Step 0 is the initial screen with no action; at a later step the action shown is the one that
   * leads from the `before` screenshot to the `after` screenshot.
   */
  lemma StepMapping(mode: Mode, s: nat)
    ensures s == 0 ==> ScreenshotStep(mode, s) == 0 && ActionStep(s).None?
    ensures s > 0 ==> ActionStep(s).Some? && ScreenshotStep(Before, s) == ActionStep(s).value
    ensures s > 0 ==> ScreenshotStep(After, s) == ActionStep(s).value + 1
    ensures s > 0 ==> ScreenshotStep(Before, s) == ScreenshotStep(After, s - 1)
  {
  }

  /** Whether moving by `direction` from step `s` stays inside `[0, maxSteps)`. */
  predicate Moves(s: nat, maxSteps: nat, direction: int) {
    0 <= s + direction < maxSteps
  }

  /** Whether the previous and next buttons are disabled at step `s`. */
  function Buttons(s: nat, maxSteps: nat): (bool, bool) {
    (s <= 0, s >= maxSteps - 1)
  }

  /**
   * For any step up to `maxSteps`, the previous button is disabled exactly when going back does
   * nothing, and the next button is disabled exactly when going forward does nothing.
   */
  lemma ButtonsMatchNavigation(s: nat, maxSteps: nat)
    requires s <= maxSteps
    ensures Buttons(s, maxSteps).0 <==> !Moves(s, maxSteps, -1)
    ensures Buttons(s, maxSteps).1 <==> !Moves(s, maxSteps, 1)
  {
  }

  /** Opened past the end (a step beyond `maxSteps`), the previous button is enabled and yet does nothing. */
  lemma PrevEnabledPastTheEnd(s: nat, maxSteps: nat)
    requires s > maxSteps
    ensures !Buttons(s, maxSteps).0 && !Moves(s, maxSteps, -1)
  {
  }

  /** From a step inside the range, every move that happens lands inside the range. */
  lemma MovesStayInRange(s: nat, maxSteps: nat, direction: int)
    requires s < maxSteps && Moves(s, maxSteps, direction)
    ensures var n := s + direction; 0 <= n < maxSteps && (direction == -1 ==> s > 0) && (direction == 1 ==> s + 1 < maxSteps)
  {
  }

  /**
   * What the viewer draws for a step: the screenshot file, the action and drag end drawn over it,
   * and whether the before/after toggle is shown.
   */
  datatype Display = Display(screenshot: Option<FileRef>, action: Option<ParsedAction>, dragEnd: Option<DragEnd>, toggleShown: bool)

  const Blank := Display(None, None, None, false)

  /** `analyzer.getScreenshotPath`, which the viewer calls with an entity and a step. */
  type Fetch = (string, nat) -> ScreenshotResult

  /** The fetch over a loaded folder: `Screenshots.GetScreenshot`, which `GetScreenshotPath` computes. */
  function Analyzer(t: Tree, env: Env): Fetch {
    (kind: string, i: nat) => GetScreenshot(t, env, kind, i)
  }

  /**
   * The display of step `s` of `kind` in `mode`: the screenshot of `ScreenshotStep`, and, only when
   * that screenshot exists, the action of `ActionStep` drawn over it, its drag end and the toggle.
   * Without a screenshot the viewer shows "Screenshot not found" and draws nothing.
   */
  function DisplayOf(fetch: Fetch, kind: string, mode: Mode, s: nat): Display {
    var shot := fetch(kind, ScreenshotStep(mode, s)).screenshot;
    match ActionStep(s)
    case None => Display(shot, None, None, false)
    case Some(k) =>
      var r := fetch(kind, k);
      if shot.Some? && r.action.Some? then Display(shot, r.action, r.dragEnd, true)
      else Display(shot, None, None, false)
  }

  /**
   * At step 0 nothing is drawn over the screenshot and the toggle is hidden. At a later step the
   * `before` screenshot is the `after` screenshot of the previous step; when the step's screenshot
   * exists, the action drawn is the previous step's, with its drag end, and when it does not,
   * nothing is drawn. The toggle is shown exactly when an action is drawn.
   */
  lemma DisplayFacts(fetch: Fetch, kind: string, mode: Mode, s: nat)
    ensures DisplayOf(fetch, kind, mode, 0).action.None? && !DisplayOf(fetch, kind, mode, 0).toggleShown
    ensures DisplayOf(fetch, kind, Before, 0) == DisplayOf(fetch, kind, After, 0)
    ensures s > 0 ==> DisplayOf(fetch, kind, Before, s).screenshot == DisplayOf(fetch, kind, After, s - 1).screenshot
    ensures var d := DisplayOf(fetch, kind, mode, s);
      s > 0 && d.screenshot.Some? ==>
        d.action == fetch(kind, s - 1).action && (d.action.Some? ==> d.dragEnd == fetch(kind, s - 1).dragEnd)
    ensures var d := DisplayOf(fetch, kind, mode, s); d.screenshot.None? ==> d.action.None? && d.dragEnd.None?
    ensures var d := DisplayOf(fetch, kind, mode, s); d.action.None? ==> d.dragEnd.None?
    ensures var d := DisplayOf(fetch, kind, mode, s); d.toggleShown <==> d.action.Some?
    ensures DisplayOf(fetch, kind, mode, s).toggleShown ==> s > 0 && DisplayOf(fetch, kind, mode, s).screenshot.Some?
    ensures DisplayOf(fetch, kind, mode, s).screenshot == fetch(kind, ScreenshotStep(mode, s)).screenshot
  {
  }

  /**
   * Over a loaded folder, step `s` draws the screenshot of step `ScreenshotStep`; when that
   * screenshot exists and `s > 0`, it draws the parsed action of step `s - 1`, and otherwise no action.
   */
  lemma AnalyzerDisplay(t: Tree, env: Env, kind: string, mode: Mode, s: nat)
    ensures DisplayOf(Analyzer(t, env), kind, mode, s).screenshot == GetScreenshot(t, env, kind, ScreenshotStep(mode, s)).screenshot
    ensures s > 0 && GetScreenshot(t, env, kind, ScreenshotStep(mode, s)).screenshot.Some? ==>
      DisplayOf(Analyzer(t, env), kind, mode, s).action == GetScreenshot(t, env, kind, s - 1).action
    ensures s == 0 || GetScreenshot(t, env, kind, ScreenshotStep(mode, s)).screenshot.None? ==>
      DisplayOf(Analyzer(t, env), kind, mode, s).action.None?
  {
    DisplayFacts(Analyzer(t, env), kind, mode, s);
  }

  /** The two `getScreenshotPath` calls of `loadScreenshot` and what it then draws. */
  method FetchDisplay(fetch: Fetch, kind: string, mode: Mode, s: nat) returns (d: Display)
    ensures d == DisplayOf(fetch, kind, mode, s)
  {
    var data := fetch(kind, ScreenshotStep(mode, s));
    var actionStepIndex := ActionStep(s);
    var actionData: Option<ParsedAction> := None;
    var dragEndData: Option<DragEnd> := None;
    if actionStepIndex.Some? {
      var actionResult := fetch(kind, actionStepIndex.value);
      actionData := actionResult.action;
      dragEndData := actionResult.dragEnd;
    }
    if data.screenshot.Some? {
      if s == 0 || actionData.None? {
        d := Display(data.screenshot, None, None, false);
      } else {
        d := Display(data.screenshot, actionData, dragEndData, true);
      }
    } else {
      d := Display(data.screenshot, None, None, false);
    }
  }

  class ScreenshotViewer {
    var trajectoryType: Option<string>
    var stepIndex: Option<nat>
    var maxSteps: Option<nat>
    var beforeAfter: Mode
    var prevDisabled: bool
    var nextDisabled: bool
    var shown: Display

    /** The three navigation fields are set together by `showScreenshot`. */
    predicate Valid()
      reads this
    {
      (trajectoryType.Some? <==> stepIndex.Some?) && (trajectoryType.Some? <==> maxSteps.Some?)
      && (maxSteps.Some? ==> maxSteps.value >= 1)
    }

    /** `currentScreenshotData.trajectoryType && currentScreenshotData.stepIndex !== null`. */
    predicate Opened()
      reads this
    {
      trajectoryType.Some? && trajectoryType.value != "" && stepIndex.Some?
    }

    /** What `loadScreenshot(trajectoryType, s)` leaves on screen. */
    predicate Shows(fetch: Fetch, s: nat)
      reads this
    {
      trajectoryType.Some? && maxSteps.Some?
      && stepIndex == Some(s)
      && (prevDisabled, nextDisabled) == Buttons(s, maxSteps.value)
      && shown == DisplayOf(fetch, trajectoryType.value, beforeAfter, s)
    }

    constructor ()
      ensures Valid() && !Opened()
      ensures trajectoryType == None && stepIndex == None && maxSteps == None && beforeAfter == After
    {
      trajectoryType := None;
      stepIndex := None;
      maxSteps := None;
      beforeAfter := After;
      prevDisabled := false;
      nextDisabled := false;
      shown := Blank;
    }

    /** `loadScreenshot(trajectoryType, s)` for the open entity. */
    method Load(fetch: Fetch, s: nat)
      requires Valid() && trajectoryType.Some?
      modifies this
      ensures Valid() && Shows(fetch, s)
      ensures trajectoryType == old(trajectoryType) && maxSteps == old(maxSteps) && beforeAfter == old(beforeAfter)
    {
      shown := FetchDisplay(fetch, trajectoryType.value, beforeAfter, s);
      stepIndex := Some(s);
      prevDisabled := s <= 0;
      nextDisabled := s >= maxSteps.value - 1;
    }

    /** `showScreenshot(trajectoryType, s)`: one more step than the entity's trajectory has actions. */
    method Show(fetch: Fetch, data: Option<ComparisonData>, trajectoryType': string, s: nat)
      requires Valid()
      modifies this
      ensures Valid() && Shows(fetch, s)
      ensures trajectoryType == Some(trajectoryType') && beforeAfter == old(beforeAfter)
      ensures maxSteps == Some((if data.Some? then |Column(data.value, trajectoryType')| else 0) + 1)
    {
      trajectoryType := Some(trajectoryType');
      stepIndex := Some(s);
      maxSteps := Some((if data.Some? then |Column(data.value, trajectoryType')| else 0) + 1);
      Load(fetch, s);
    }

    /** `navigateScreenshot(direction)`: nothing happens when no entity is open or the step would leave the range. */
    method Navigate(fetch: Fetch, direction: int)
      requires Valid()
      modifies this
      ensures Valid()
      ensures if old(Opened()) && Moves(old(stepIndex).value, old(maxSteps).value, direction)
        then Shows(fetch, old(stepIndex).value + direction)
             && trajectoryType == old(trajectoryType) && maxSteps == old(maxSteps) && beforeAfter == old(beforeAfter)
        else unchanged(this)
    {
      if !Opened() {
        return;
      }
      var newIndex := stepIndex.value + direction;
      if newIndex < 0 || newIndex >= maxSteps.value {
        return;
      }
      Load(fetch, newIndex);
    }

    /** The before/after toggle: ignored at step 0; otherwise it flips the mode and reloads the open step. */
    method Toggle(fetch: Fetch)
      requires Valid()
      modifies this
      ensures Valid()
      ensures old(stepIndex) == Some(0) ==> unchanged(this)
      ensures old(stepIndex) != Some(0) ==>
        beforeAfter == Flip(old(beforeAfter)) && trajectoryType == old(trajectoryType)
        && maxSteps == old(maxSteps) && stepIndex == old(stepIndex)
      ensures old(stepIndex) != Some(0) && old(Opened()) ==> Shows(fetch, old(stepIndex).value)
      ensures old(stepIndex) != Some(0) && !old(Opened()) ==>
        prevDisabled == old(prevDisabled) && nextDisabled == old(nextDisabled) && shown == old(shown)
    {
      if stepIndex == Some(0) {
        return;
      }
      beforeAfter := Flip(beforeAfter);
      if Opened() {
        Load(fetch, stepIndex.value);
      }
    }
  }
}
