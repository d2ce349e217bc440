/**
 * The rules of the comparison view (js/main.js): the quality label of a notebook cell, the key a
 * cell of the similarity matrix reads, and the identical/different marks of the trajectory columns.
 */
module ComparisonView {
  import opened Wrappers
  import opened Text
  import opened FileTree
  import opened Inputs
  import opened Trajectories
  import opened Folders
  import opened Comparison
  import ContentCriteria

  // ---------------------------------------------------------------------------------------------
  // cell quality

  datatype Quality = Bad | Generic | Good

  /** `getCellQuality(cell)`. */
  function CellQuality(c: AssistantCell): Quality {
    var content := Lower(c.content);
    if Contains(content, ContentCriteria.ExecutingStep) && c.wordCount < 20 then Bad
    else if Contains(content, ContentCriteria.ExecutingStep) && c.wordCount >= 20 then Generic
    else Good
  }

  /**
   * A cell is labelled bad exactly when criterion 4 counts it as underwritten, generic when it
   * mentions "executing step" with enough words, and good when it does not mention the phrase.
   */
  lemma QualityMatchesCriterion4(c: AssistantCell)
    ensures CellQuality(c) == Bad <==> ContentCriteria.CellUnderwritten(c)
    ensures CellQuality(c) == Generic <==>
      Contains(Lower(c.content), ContentCriteria.ExecutingStep) && !ContentCriteria.CellUnderwritten(c)
    ensures CellQuality(c) == Good <==> !Contains(Lower(c.content), ContentCriteria.ExecutingStep)
  {
  }

  /** When criterion 4 passes, no cell of the notebooks it read is labelled bad. */
  lemma PassingNotebooksHaveNoBadCell(t: Tree, env: Env, i: nat, j: nat)
    requires ContentCriteria.Criterion4(t, env).passed
    requires i < |ContentCriteria.Notebooks(t, env)| && j < |ContentCriteria.Notebooks(t, env)[i].cells|
    ensures CellQuality(ContentCriteria.Notebooks(t, env)[i].cells[j]) != Bad
  {
    QualityMatchesCriterion4(ContentCriteria.Notebooks(t, env)[i].cells[j]);
  }

  // ---------------------------------------------------------------------------------------------
  // the similarity matrix

  /** What a matrix cell shows: the diagonal mark, a similarity, or `N/A`. */
  datatype MatrixCell = Diagonal | Value(similarity: real) | NotAvailable

  /** The key the cell at `row`, `col` reads: none on the diagonal, else `<earlier>_vs_<later>`. */
  function MatrixKey(row: nat, col: nat): (k: Option<string>)
    requires row < 4 && col < 4
    ensures k.None? <==> row == col
  {
    if row == col then None
    else if row < col then Some(PairKey(EntityKeys[row], EntityKeys[col]))
    else Some(PairKey(EntityKeys[col], EntityKeys[row]))
  }

  function MatrixCellOf(similarities: seq<Keyed<real>>, row: nat, col: nat): MatrixCell
    requires row < 4 && col < 4
  {
    match MatrixKey(row, col)
    case None => Diagonal
    case Some(key) =>
      match ValueOf(similarities, key)
      case None => NotAvailable
      case Some(v) => Value(v)
  }

  /** The matrix is symmetric: both cells of a pair read the same key. */
  lemma MatrixKeySymmetric(row: nat, col: nat)
    requires row < 4 && col < 4
    ensures MatrixKey(row, col) == MatrixKey(col, row)
  {
  }

  /** Whether `key`'s trajectory was found (its column is present, even if it has no steps). */
  predicate Found(d: ComparisonData, key: string) {
    ValueOf(d.trajectories, key).Some?
  }

  /**
   * Every off-diagonal cell of the matrix finds the similarity the comparison recorded for its two
   * trajectories when both were found, and shows `N/A` otherwise.
   */
  lemma MatrixShowsSimilarity(t: Tree, env: Env, taskId: Option<string>, row: nat, col: nat)
    requires row < 4 && col < 4 && row != col
    ensures var d := ComparisonDataOf(t, env, taskId);
      MatrixCellOf(d.similarities, row, col) ==
        if Found(d, EntityKeys[row]) && Found(d, EntityKeys[col])
        then Value(ComparisonSimilarity(Column(d, EntityKeys[row]), Column(d, EntityKeys[col])))
        else NotAvailable
  {
    var d := ComparisonDataOf(t, env, taskId);
    var ts := TrajectoriesOf(t, env);
    TrajectoriesInEntityOrder(t, env);
    var a, b := Min(row, col), Max(row, col);
    PairLookup(ts, a, b);
    ComparisonSimilarityFacts(Column(d, EntityKeys[row]), Column(d, EntityKeys[col]));
  }

  /** The key with the later entity first is never written, so a lookup in that order would always miss. */
  lemma LaterFirstKeyNeverWritten(t: Tree, env: Env, taskId: Option<string>, row: nat, col: nat)
    requires row < col < 4
    ensures ValueOf(ComparisonDataOf(t, env, taskId).similarities, PairKey(EntityKeys[col], EntityKeys[row])).None?
  {
    TrajectoriesInEntityOrder(t, env);
    ReversedPairAbsent(TrajectoriesOf(t, env), row, col);
  }

  // ---------------------------------------------------------------------------------------------
  // identical and different steps

  /** How a step of a column is marked: `identical`, `different`, or not at all. */
  datatype Mark = Identical | Different | Unmarked

  /** The four columns, `data[t] || []` in entity order. */
  function Columns(d: ComparisonData): (cols: seq<seq<string>>)
    ensures |cols| == 4
  {
    seq(4, c requires 0 <= c < 4 => Column(d, EntityKeys[c]))
  }

  /** `(data[t] || [])[i]`: the action of step `i`, none past the end. */
  function StepAction(col: seq<string>, i: nat): Option<string> {
    if i < |col| then Some(col[i]) else None
  }

  /** A value JavaScript treats as true: a defined, non-empty string. */
  predicate Truthy(a: Option<string>) {
    a.Some? && a.value != ""
  }

  /** `actions.every(a => a === actions[0] && actions[0])`. */
  predicate AllSame(cols: seq<seq<string>>, i: nat)
    requires |cols| > 0
  {
    forall c :: 0 <= c < |cols| ==> StepAction(cols[c], i) == StepAction(cols[0], i) && Truthy(StepAction(cols[0], i))
  }

  /** The mark of step `i` in column `c`, which has that step. */
  function StepMark(cols: seq<seq<string>>, i: nat, c: nat): Mark
    requires 0 <= c < |cols| && i < |cols[c]|
  {
    if AllSame(cols, i) && Truthy(StepAction(cols[0], i)) then Identical
    else if Truthy(StepAction(cols[c], i)) then Different
    else Unmarked
  }

  /** A step is identical exactly when every column has it, it is non-empty, and all are equal. */
  lemma IdenticalIff(cols: seq<seq<string>>, i: nat, c: nat)
    requires 0 <= c < |cols| && i < |cols[c]|
    ensures StepMark(cols, i, c) == Identical <==>
      (forall e :: 0 <= e < |cols| ==> i < |cols[e]| && cols[e][i] != "" && cols[e][i] == cols[c][i])
  {
    if forall e :: 0 <= e < |cols| ==> i < |cols[e]| && cols[e][i] != "" && cols[e][i] == cols[c][i] {
      forall e | 0 <= e < |cols|
        ensures StepAction(cols[e], i) == StepAction(cols[0], i) && Truthy(StepAction(cols[0], i))
      {
        assert i < |cols[0]| && cols[0][i] == cols[c][i];
      }
    }
    if StepMark(cols, i, c) == Identical {
      forall e | 0 <= e < |cols|
        ensures i < |cols[e]| && cols[e][i] != "" && cols[e][i] == cols[c][i]
      {
        assert StepAction(cols[e], i) == StepAction(cols[0], i);
        assert StepAction(cols[c], i) == StepAction(cols[0], i);
      }
    }
  }

  /** A step marked identical in one column is marked identical in every column. */
  lemma IdenticalAcrossColumns(cols: seq<seq<string>>, i: nat, c: nat, e: nat)
    requires 0 <= c < |cols| && 0 <= e < |cols| && i < |cols[c]|
    requires StepMark(cols, i, c) == Identical
    ensures i < |cols[e]| && StepMark(cols, i, e) == Identical
  {
    assert StepAction(cols[e], i) == StepAction(cols[0], i);
  }

  /** A step is left unmarked exactly when its action is the empty string. */
  lemma UnmarkedIffEmpty(cols: seq<seq<string>>, i: nat, c: nat)
    requires 0 <= c < |cols| && i < |cols[c]|
    ensures StepMark(cols, i, c) == Unmarked <==> cols[c][i] == ""
  {
    if cols[c][i] == "" {
      assert StepAction(cols[c], i) != StepAction(cols[0], i) || !Truthy(StepAction(cols[0], i));
    }
  }

  /** A step marked different has a column that lacks it or holds another action. */
  lemma DifferentHasWitness(cols: seq<seq<string>>, i: nat, c: nat)
    requires 0 <= c < |cols| && i < |cols[c]|
    requires StepMark(cols, i, c) == Different
    ensures exists e :: 0 <= e < |cols| && (i >= |cols[e]| || cols[e][i] != cols[c][i])
  {
    IdenticalIff(cols, i, c);
    var e :| 0 <= e < |cols| && !(i < |cols[e]| && cols[e][i] != "" && cols[e][i] == cols[c][i]);
    assert i >= |cols[e]| || cols[e][i] != cols[c][i];
  }

  /** The `every` test, stopping at the first column that fails it. */
  method EveryStepSame(cols: seq<seq<string>>, i: nat) returns (same: bool)
    requires |cols| > 0
    ensures same == AllSame(cols, i)
  {
    var first := StepAction(cols[0], i);
    for c := 0 to |cols|
      invariant forall e :: 0 <= e < c ==> StepAction(cols[e], i) == first && Truthy(first)
    {
      var a := StepAction(cols[c], i);
      if !(a == first && Truthy(first)) {
        return false;
      }
    }
    return true;
  }

  /** The mark loop of one step over the four columns. */
  method MarkStep(cols: seq<seq<string>>, marks: seq<seq<Mark>>, i: nat) returns (marks': seq<seq<Mark>>)
    requires |cols| == 4 && |marks| == 4
    requires forall c :: 0 <= c < 4 ==> |marks[c]| == |cols[c]|
    ensures |marks'| == 4 && forall c :: 0 <= c < 4 ==> |marks'[c]| == |cols[c]|
    ensures forall c, k :: 0 <= c < 4 && 0 <= k < |marks'[c]| ==>
      marks'[c][k] == if k == i then StepMark(cols, i, c) else marks[c][k]
  {
    var same := EveryStepSame(cols, i);
    var identical := same && Truthy(StepAction(cols[0], i));
    marks' := marks;
    for c := 0 to 4
      invariant |marks'| == 4 && forall e :: 0 <= e < 4 ==> |marks'[e]| == |cols[e]|
      invariant forall e, k :: 0 <= e < 4 && 0 <= k < |marks'[e]| ==>
        marks'[e][k] == if k == i && e < c then StepMark(cols, i, e) else marks[e][k]
    {
      if i < |cols[c]| {
        var m := if identical then Identical else if Truthy(StepAction(cols[c], i)) then Different else Unmarked;
        marks' := marks'[c := marks'[c][i := m]];
      }
    }
  }

  /** `Math.max` of the column lengths. */
  function Longest(cols: seq<seq<string>>): (n: nat)
    requires |cols| == 4
    ensures forall c :: 0 <= c < 4 ==> |cols[c]| <= n
    ensures exists c :: 0 <= c < 4 && |cols[c]| == n
  {
    Max(Max(|cols[0]|, |cols[1]|), Max(|cols[2]|, |cols[3]|))
  }

  /** `markTrajectorySimilarities(data)`: every shown step of every column gets its mark. */
  method MarkTrajectorySimilarities(d: ComparisonData) returns (marks: seq<seq<Mark>>)
    ensures |marks| == 4 && forall c :: 0 <= c < 4 ==> |marks[c]| == |Columns(d)[c]|
    ensures forall c, k :: 0 <= c < 4 && 0 <= k < |marks[c]| ==> marks[c][k] == StepMark(Columns(d), k, c)
  {
    var cols := Columns(d);
    marks := seq(4, c requires 0 <= c < 4 => seq(|cols[c]|, _ => Unmarked));
    var maxLength := Longest(cols);
    for i := 0 to maxLength
      invariant |marks| == 4 && forall c :: 0 <= c < 4 ==> |marks[c]| == |cols[c]|
      invariant forall c, k :: 0 <= c < 4 && 0 <= k < |marks[c]| ==>
        marks[c][k] == if k < i then StepMark(cols, k, c) else Unmarked
    {
      marks := MarkStep(cols, marks, i);
    }
  }
}
