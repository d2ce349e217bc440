/**
 * Criteria 1 to 3: the step count of SFT against the positive annotators, the evaluation scores of
 * SFT and the annotators, and the zero score of annotator 2 or 3.
 */
module ScoreCriteria {
  import opened Wrappers
  import opened Text
  import opened FileTree
  import opened FileManager
  import opened Inputs
  import opened Locators
  import opened Folders

  /** The key SFT is listed under among the positive results. */
  const SftPositiveKey := "SFT"

  // ---------------------------------------------------------------------------------------------
  // what is read for one annotator

  /** The task id of the task JSON, or null when there is none. */
  function TaskIdOrNull(t: Tree): Option<string> {
    match FindTaskJSON(t, "")
    case None => None
    case Some(task) => Some(task.taskId)
  }

  /** Criterion 1's step count of annotator `idx`: recorded when its folder has a trajectory file. */
  function StepsEntry(t: Tree, env: Env, root: string, idx: nat): seq<Keyed<nat>> {
    match AnnotatorFolder(root, idx, IsDir(t))
    case None => []
    case Some(d) =>
      var trajDir := ChildDir(d, TrajectoryFolder);
      var f := FindTrajectoryFile(t, trajDir);
      if DirectoryExists(t, trajDir) && f.Some? then [Keyed(AnnotatorKey(idx), |StepsOf(env, f)|)] else []
  }

  function StepsEntries(t: Tree, env: Env, root: string): nat -> seq<Keyed<nat>> {
    (idx: nat) => StepsEntry(t, env, root, idx)
  }

  /** The score of annotator `idx`, recorded when the folder chosen by `test` holds a score file. */
  function ScoreEntry(t: Tree, env: Env, root: string, idx: nat, test: string -> bool): (e: seq<Keyed<Option<Num>>>)
    ensures |e| <= 1 && forall x :: x in e ==> x.key == AnnotatorKey(idx)
  {
    match AnnotatorFolder(root, idx, test)
    case None => []
    case Some(d) =>
      var f := GetFileFromTree(t, ChildDir(d, ScoreFileName));
      if f.Some? then [Keyed(AnnotatorKey(idx), ScoreOf(env, f))] else []
  }

  function ScoreEntries(t: Tree, env: Env, root: string, test: string -> bool): nat -> seq<Keyed<Option<Num>>> {
    (idx: nat) => ScoreEntry(t, env, root, idx, test)
  }

  /** The score read for annotator `idx`: null when no folder passes `test`, it has no score file or the file is empty. */
  function ScoreAt(t: Tree, env: Env, root: string, idx: nat, test: string -> bool): Option<Num> {
    var e := ScoreEntry(t, env, root, idx, test);
    if e == [] then None else e[0].value
  }

  /** The body of the annotator loop of criterion 1, for the step count. */
  method ReadAnnotatorSteps(t: Tree, env: Env, root: string, idx: nat) returns (e: seq<Keyed<nat>>)
    ensures e == StepsEntry(t, env, root, idx)
  {
    e := [];
    var folder := FindAnnotatorFolder(root, idx, IsDir(t));
    if folder.Some? {
      var trajDir := ChildDir(folder.value, TrajectoryFolder);
      if DirectoryExists(t, trajDir) {
        var trajFile := FindTrajectoryFile(t, trajDir);
        if trajFile.Some? {
          e := [Keyed(AnnotatorKey(idx), |StepsOf(env, trajFile)|)];
        }
      }
    }
  }

  /** The body of the annotator loop of criteria 1 to 3, for the score. */
  method ReadAnnotatorScore(t: Tree, env: Env, root: string, idx: nat, test: string -> bool) returns (e: seq<Keyed<Option<Num>>>)
    ensures e == ScoreEntry(t, env, root, idx, test)
  {
    e := [];
    var folder := FindAnnotatorFolder(root, idx, test);
    if folder.Some? {
      var scoreFile := GetFileFromTree(t, ChildDir(folder.value, ScoreFileName));
      if scoreFile.Some? {
        e := [Keyed(AnnotatorKey(idx), ScoreOf(env, scoreFile))];
      }
    }
  }

  /** The annotator loop of criterion 1 for the step counts: `for (const idx of idxs) { for (const variant of ...) ... }`. */
  method ScanSteps(t: Tree, env: Env, root: string, idxs: seq<nat>) returns (steps: seq<Keyed<nat>>)
    ensures steps == Collect(idxs, StepsEntries(t, env, root))
  {
    steps := [];
    for k := 0 to |idxs|
      invariant steps == Collect(idxs[..k], StepsEntries(t, env, root))
    {
      CollectSnoc(idxs, k, StepsEntries(t, env, root));
      var e := ReadAnnotatorSteps(t, env, root, idxs[k]);
      steps := steps + e;
    }
    assert idxs[..|idxs|] == idxs;
  }

  /** The annotator loop of criteria 1 to 3 for the scores. */
  method ScanScores(t: Tree, env: Env, root: string, idxs: seq<nat>, test: string -> bool) returns (scores: seq<Keyed<Option<Num>>>)
    ensures scores == Collect(idxs, ScoreEntries(t, env, root, test))
  {
    scores := [];
    for k := 0 to |idxs|
      invariant scores == Collect(idxs[..k], ScoreEntries(t, env, root, test))
    {
      CollectSnoc(idxs, k, ScoreEntries(t, env, root, test));
      var e := ReadAnnotatorScore(t, env, root, idxs[k], test);
      scores := scores + e;
    }
    assert idxs[..|idxs|] == idxs;
  }

  /** Every recorded score belongs to one of the indices scanned, under that annotator's key. */
  lemma AnnotatorScoresKeys(t: Tree, env: Env, root: string, idxs: seq<nat>, test: string -> bool, x: Keyed<Option<Num>>)
    requires x in Collect(idxs, ScoreEntries(t, env, root, test))
    ensures exists k :: 0 <= k < |idxs| && x == Keyed(AnnotatorKey(idxs[k]), ScoreAt(t, env, root, idxs[k], test))
  {
    CollectMember(idxs, ScoreEntries(t, env, root, test), x);
  }

  /** Some recorded score is ≈1 exactly when the score read for one of the indices is. */
  lemma AnnotatorScoresNearOne(t: Tree, env: Env, root: string, idxs: seq<nat>, test: string -> bool)
    ensures (exists x :: x in Collect(idxs, ScoreEntries(t, env, root, test)) && NearOne(x.value))
      <==> exists k :: 0 <= k < |idxs| && NearOne(ScoreAt(t, env, root, idxs[k], test))
  {
    var entries := ScoreEntries(t, env, root, test);
    if exists x: Keyed<Option<Num>> :: x in Collect(idxs, entries) && NearOne(x.value) {
      var x: Keyed<Option<Num>> :| x in Collect(idxs, entries) && NearOne(x.value);
      AnnotatorScoresKeys(t, env, root, idxs, test, x);
    }
    if exists k :: 0 <= k < |idxs| && NearOne(ScoreAt(t, env, root, idxs[k], test)) {
      var k :| 0 <= k < |idxs| && NearOne(ScoreAt(t, env, root, idxs[k], test));
      var e := entries(idxs[k]);
      CollectMember(idxs, entries, e[0]);
    }
  }

  // ---------------------------------------------------------------------------------------------
  // criterion 1: SFT has the fewest steps among the positive results

  datatype Criterion1Result = Criterion1Result(
    passed: bool, sftSteps: nat, sftScore: Option<Num>,
    annotatorSteps: seq<Keyed<nat>>, annotatorScores: seq<Keyed<Option<Num>>>, positiveSteps: seq<Keyed<nat>>)

  /** The annotators with a ≈1 score and a known step count, in score order. */
  function Positives(scores: seq<Keyed<Option<Num>>>, steps: seq<Keyed<nat>>): seq<Keyed<nat>>
    decreases |scores|
  {
    if scores == [] then []
    else
      var n := |scores| - 1;
      var s := ValueOf(steps, scores[n].key);
      Positives(scores[..n], steps) + if NearOne(scores[n].value) && s.Some? then [Keyed(scores[n].key, s.value)] else []
  }

  /** `Math.min(...Object.values(xs))`. */
  function MinValue(xs: seq<Keyed<nat>>): (m: nat)
    requires xs != []
    ensures forall i :: 0 <= i < |xs| ==> m <= xs[i].value
    ensures exists i :: 0 <= i < |xs| && m == xs[i].value
  {
    if |xs| == 1 then xs[0].value
    else
      var m := MinValue(xs[1..]);
      assert forall i :: 1 <= i < |xs| ==> xs[1..][i - 1] == xs[i];
      if xs[0].value <= m then xs[0].value else m
  }

  /** SFT's entry among the positive results, when its score is ≈1. */
  function SftPositive(sftScore: Option<Num>, sftSteps: nat): seq<Keyed<nat>> {
    if NearOne(sftScore) then [Keyed(SftPositiveKey, sftSteps)] else []
  }

  /** The decision of criterion 1 once SFT's trajectory and the annotators have been read. */
  function Criterion1Decision(sftSteps: nat, sftScore: Option<Num>, steps: seq<Keyed<nat>>, scores: seq<Keyed<Option<Num>>>): Criterion1Result {
    var positive := SftPositive(sftScore, sftSteps) + Positives(scores, steps);
    var passed := positive != [] && SftPositiveKey in KeysOf(positive) && sftSteps <= MinValue(positive);
    Criterion1Result(passed, sftSteps, sftScore, steps, scores, positive)
  }

  /** `checkCriterion1SFTStepCount()` without its message. */
  function Criterion1(t: Tree, env: Env): Criterion1Result {
    var sftFile := FindTrajectoryFile(t, SftTrajectoryDir);
    if sftFile.None? then Criterion1Result(false, 0, None, [], [], [])
    else
      var root := AnnotatorRootOf(t);
      Criterion1Decision(
        |StepsOf(env, sftFile)|,
        ScoreOf(env, FindEvaluationScore(t, SftFolder, TaskIdOrNull(t))),
        Collect(AnnotatorIndices, StepsEntries(t, env, root)),
        Collect(AnnotatorIndices, ScoreEntries(t, env, root, IsDir(t))))
  }

  /** An annotator is positive exactly when its score is ≈1 and its step count is known. */
  lemma {:induction false} PositivesMember(scores: seq<Keyed<Option<Num>>>, steps: seq<Keyed<nat>>, e: Keyed<nat>)
    ensures e in Positives(scores, steps) <==>
      exists i :: 0 <= i < |scores| && scores[i].key == e.key && NearOne(scores[i].value) && ValueOf(steps, e.key) == Some(e.value)
    decreases |scores|
  {
    if scores != [] {
      var n := |scores| - 1;
      PositivesMember(scores[..n], steps, e);
      assert forall i :: 0 <= i < n ==> scores[..n][i] == scores[i];
    }
  }

  /**
   * Once SFT and the annotators are read, and no annotator is keyed like SFT, criterion 1 passes
   * exactly when SFT's score is ≈1 and no annotator with a ≈1 score and a known step count has
   * fewer steps than SFT.
   */
  lemma Criterion1DecisionPass(sftSteps: nat, sftScore: Option<Num>, steps: seq<Keyed<nat>>, scores: seq<Keyed<Option<Num>>>)
    requires forall x :: x in scores ==> x.key != SftPositiveKey
    ensures Criterion1Decision(sftSteps, sftScore, steps, scores).passed <==>
      NearOne(sftScore)
      && forall i, n :: (0 <= i < |scores| && NearOne(scores[i].value) && ValueOf(steps, scores[i].key) == Some(n)) ==> sftSteps <= n
  {
    var sp := SftPositive(sftScore, sftSteps);
    var ps := Positives(scores, steps);
    var all := sp + ps;
    forall j | 0 <= j < |ps|
      ensures ps[j].key != SftPositiveKey
    {
      PositivesMember(scores, steps, ps[j]);
    }
    assert SftPositiveKey in KeysOf(all) <==> NearOne(sftScore) by {
      if NearOne(sftScore) {
        assert KeysOf(all)[0] == SftPositiveKey;
      } else {
        assert all == ps;
      }
    }
    if NearOne(sftScore) {
      forall i, n | 0 <= i < |scores| && NearOne(scores[i].value) && ValueOf(steps, scores[i].key) == Some(n)
        ensures n >= MinValue(all)
      {
        PositivesMember(scores, steps, Keyed(scores[i].key, n));
        var j :| 0 <= j < |ps| && ps[j] == Keyed(scores[i].key, n);
        assert all[|sp| + j] == ps[j];
      }
      var j :| 0 <= j < |all| && MinValue(all) == all[j].value;
      if j >= |sp| {
        PositivesMember(scores, steps, all[j]);
      }
    }
  }

  /** The annotator keys never clash with SFT's key. */
  lemma AnnotatorScoresNotSft(t: Tree, env: Env, root: string, test: string -> bool)
    ensures forall x :: x in Collect(AnnotatorIndices, ScoreEntries(t, env, root, test)) ==> x.key != SftPositiveKey
  {
    forall x | x in Collect(AnnotatorIndices, ScoreEntries(t, env, root, test))
      ensures x.key != SftPositiveKey
    {
      AnnotatorScoresKeys(t, env, root, AnnotatorIndices, test, x);
      var k :| 0 <= k < |AnnotatorIndices| && x == Keyed(AnnotatorKey(AnnotatorIndices[k]), ScoreAt(t, env, root, AnnotatorIndices[k], test));
      assert x.key[0] == 'a';
    }
  }

  /**
   * Criterion 1 passes exactly when SFT has a trajectory and a ≈1 score, and no annotator with a
   * ≈1 score and a known step count has fewer steps than SFT.
   */
  lemma Criterion1Pass(t: Tree, env: Env)
    ensures var r := Criterion1(t, env);
      r.passed <==>
        FindTrajectoryFile(t, SftTrajectoryDir).Some? && NearOne(r.sftScore)
        && forall i, n :: (0 <= i < |r.annotatorScores| && NearOne(r.annotatorScores[i].value)
                           && ValueOf(r.annotatorSteps, r.annotatorScores[i].key) == Some(n)) ==> r.sftSteps <= n
  {
    if FindTrajectoryFile(t, SftTrajectoryDir).Some? {
      var root := AnnotatorRootOf(t);
      AnnotatorScoresNotSft(t, env, root, IsDir(t));
      var r := Criterion1(t, env);
      Criterion1DecisionPass(r.sftSteps, r.sftScore, r.annotatorSteps, r.annotatorScores);
    }
  }

  /** The collection of positive results: SFT first, then each annotator in the order its score was recorded. */
  method CollectPositives(sftScore: Option<Num>, sftSteps: nat, steps: seq<Keyed<nat>>, scores: seq<Keyed<Option<Num>>>)
    returns (positive: seq<Keyed<nat>>)
    ensures positive == SftPositive(sftScore, sftSteps) + Positives(scores, steps)
  {
    positive := SftPositive(sftScore, sftSteps);
    for k := 0 to |scores|
      invariant positive == SftPositive(sftScore, sftSteps) + Positives(scores[..k], steps)
    {
      assert scores[..k + 1][..k] == scores[..k];
      var s := ValueOf(steps, scores[k].key);
      if NearOne(scores[k].value) && s.Some? {
        positive := positive + [Keyed(scores[k].key, s.value)];
      }
    }
    assert scores[..|scores|] == scores;
  }

  /** `checkCriterion1SFTStepCount()`: the annotator scan, then the collection of positive results. */
  method CheckCriterion1(t: Tree, env: Env) returns (r: Criterion1Result)
    ensures r == Criterion1(t, env)
  {
    var taskId := TaskIdOrNull(t);
    var sftFile := FindTrajectoryFile(t, SftTrajectoryDir);
    if sftFile.None? {
      return Criterion1Result(false, 0, None, [], [], []);
    }
    var sftSteps := |StepsOf(env, sftFile)|;
    var sftScore := ScoreOf(env, FindEvaluationScore(t, SftFolder, taskId));
    var root := ResolveAnnotatorRoot(t);
    var steps := ScanSteps(t, env, root, AnnotatorIndices);
    var scores := ScanScores(t, env, root, AnnotatorIndices, IsDir(t));
    r := DecideCriterion1(sftSteps, sftScore, steps, scores);
  }

  /** The end of `checkCriterion1SFTStepCount()`: SFT must have no more steps than the smallest positive result. */
  method DecideCriterion1(sftSteps: nat, sftScore: Option<Num>, steps: seq<Keyed<nat>>, scores: seq<Keyed<Option<Num>>>)
    returns (r: Criterion1Result)
    ensures r == Criterion1Decision(sftSteps, sftScore, steps, scores)
  {
    var positive := CollectPositives(sftScore, sftSteps, steps, scores);
    var passed := false;
    if positive != [] && SftPositiveKey in KeysOf(positive) {
      passed := sftSteps <= MinValue(positive);
    }
    r := Criterion1Result(passed, sftSteps, sftScore, steps, scores, positive);
  }

  // ---------------------------------------------------------------------------------------------
  // criterion 2: SFT and at least one annotator score ≈1

  datatype Criterion2Result = Criterion2Result(passed: bool, sftScore: Option<Num>, annotatorScores: seq<Keyed<Option<Num>>>)

  /** `checkCriterion2EvaluationScores(taskId)`: a variant ends the search only once it holds a score file. */
  function Criterion2(t: Tree, env: Env, taskId: string): Criterion2Result {
    var sftScore := ScoreOf(env, FindEvaluationScore(t, SftFolder, Some(taskId)));
    var scores := Collect(AnnotatorIndices, ScoreEntries(t, env, AnnotatorRootOf(t), HasScoreFile(t)));
    Criterion2Decision(sftScore, scores)
  }

  /** The verdict of criterion 2 on the scores it read. */
  function Criterion2Decision(sftScore: Option<Num>, scores: seq<Keyed<Option<Num>>>): (r: Criterion2Result)
    ensures r.sftScore == sftScore && r.annotatorScores == scores
    ensures r.passed <==> NearOne(sftScore) && exists x :: x in scores && NearOne(x.value)
  {
    Criterion2Result(NearOne(sftScore) && (exists x :: x in scores && NearOne(x.value)), sftScore, scores)
  }

  /** Criterion 2 passes exactly when SFT scores ≈1 and, for some annotator, its first folder holding a score file scores ≈1. */
  lemma Criterion2Pass(t: Tree, env: Env, taskId: string)
    ensures Criterion2(t, env, taskId).passed <==>
      NearOne(Criterion2(t, env, taskId).sftScore)
      && exists k :: 0 <= k < |AnnotatorIndices| && NearOne(ScoreAt(t, env, AnnotatorRootOf(t), AnnotatorIndices[k], HasScoreFile(t)))
  {
    AnnotatorScoresNearOne(t, env, AnnotatorRootOf(t), AnnotatorIndices, HasScoreFile(t));
  }

  method CheckCriterion2(t: Tree, env: Env, taskId: string) returns (r: Criterion2Result)
    ensures r == Criterion2(t, env, taskId)
  {
    var sftScore := ScoreOf(env, FindEvaluationScore(t, SftFolder, Some(taskId)));
    var root := ResolveAnnotatorRoot(t);
    var scores := ScanScores(t, env, root, AnnotatorIndices, HasScoreFile(t));
    r := Criterion2Decision(sftScore, scores);
  }

  // ---------------------------------------------------------------------------------------------
  // criterion 3: annotator 2 or 3 scores ≈0

  datatype Criterion3Result = Criterion3Result(passed: bool, annotator2Score: Option<Num>, annotator3Score: Option<Num>)

  const ZeroScoreIndices: seq<nat> := [2, 3]

  /** `checkCriterion3AnnotatorZeroScore()`. */
  function Criterion3(t: Tree, env: Env): Criterion3Result {
    var root := AnnotatorRootOf(t);
    var s2 := ScoreAt(t, env, root, 2, HasScoreFile(t));
    var s3 := ScoreAt(t, env, root, 3, HasScoreFile(t));
    Criterion3Result(NearZero(s2) || NearZero(s3), s2, s3)
  }

  method CheckCriterion3(t: Tree, env: Env) returns (r: Criterion3Result)
    ensures r == Criterion3(t, env)
  {
    var root := ResolveAnnotatorRoot(t);
    var s2, s3 := None, None;
    var idxs := ZeroScoreIndices;
    for k := 0 to |idxs|
      invariant s2 == if k >= 1 then ScoreAt(t, env, root, 2, HasScoreFile(t)) else None
      invariant s3 == if k >= 2 then ScoreAt(t, env, root, 3, HasScoreFile(t)) else None
    {
      var idx := idxs[k];
      var scoreEntry := ReadAnnotatorScore(t, env, root, idx, HasScoreFile(t));
      if scoreEntry != [] {
        if idx == 2 {
          s2 := scoreEntry[0].value;
        } else {
          s3 := scoreEntry[0].value;
        }
      }
    }
    r := Criterion3Result(NearZero(s2) || NearZero(s3), s2, s3);
  }

  /** The value an annotator's score has in a score list: null when it is missing. */
  function RecordedScore(scores: seq<Keyed<Option<Num>>>, idx: nat): Option<Num> {
    match ValueOf(scores, AnnotatorKey(idx))
    case None => None
    case Some(s) => s
  }

  lemma AnnotatorKeyInjective(i: nat, j: nat)
    ensures AnnotatorKey(i) == AnnotatorKey(j) ==> i == j
  {
    if AnnotatorKey(i) == AnnotatorKey(j) {
      assert AnnotatorKey(i)[10..] == NatToString(i) && AnnotatorKey(j)[10..] == NatToString(j);
      assert DigitsValue(NatToString(i)) == i && DigitsValue(NatToString(j)) == j;
    }
  }

  /** An annotator's score is listed, after the scan over `idxs`, exactly when it was scanned and its folder and file were found. */
  lemma {:induction false} ScannedScore(t: Tree, env: Env, root: string, idxs: seq<nat>, test: string -> bool, idx: nat)
    ensures ValueOf(Collect(idxs, ScoreEntries(t, env, root, test)), AnnotatorKey(idx)) ==
      if idx in idxs && ScoreEntry(t, env, root, idx, test) != [] then Some(ScoreAt(t, env, root, idx, test)) else None
    decreases |idxs|
  {
    if idxs != [] {
      var n := |idxs| - 1;
      var entries := ScoreEntries(t, env, root, test);
      ScannedScore(t, env, root, idxs[..n], test, idx);
      ValueOfConcat(Collect(idxs[..n], entries), entries(idxs[n]), AnnotatorKey(idx));
      AnnotatorKeyInjective(idxs[n], idx);
      assert idxs == idxs[..n] + [idxs[n]];
      assert idx in idxs <==> idx in idxs[..n] || idx == idxs[n];
    }
  }

  /** The scores criterion 3 reads for annotators 2 and 3 are the ones criterion 2 records for them. */
  lemma Criterion3AgreesWithCriterion2(t: Tree, env: Env, taskId: string)
    ensures Criterion3(t, env).annotator2Score == RecordedScore(Criterion2(t, env, taskId).annotatorScores, 2)
    ensures Criterion3(t, env).annotator3Score == RecordedScore(Criterion2(t, env, taskId).annotatorScores, 3)
  {
    var root := AnnotatorRootOf(t);
    ScannedScore(t, env, root, AnnotatorIndices, HasScoreFile(t), 2);
    ScannedScore(t, env, root, AnnotatorIndices, HasScoreFile(t), 3);
  }
}
