/**
 * What the analyzer computes from a trajectory and a notebook: the input of the trajectory
 * fingerprint, the two positional similarities (the duplicate check's and the comparison view's),
 * and the numbered assistant cells of a notebook.
 */
module Trajectories {
  import opened Wrappers
  import opened Text
  import opened FileManager
  import opened FileTree
  import opened Inputs

  const HashLength: nat := 32
  const AssistantOpen := "**[assistant]"
  const AssistantMarker := "**[assistant]**"

  // ---------------------------------------------------------------------------------------------
  // fingerprint

  /** `steps.map(step => String(step.action || ''))`. */
  function Actions(steps: seq<Step>): (r: seq<string>)
    ensures |r| == |steps| && forall i :: 0 <= i < |steps| ==> r[i] == steps[i].action
  {
    seq(|steps|, i requires 0 <= i < |steps| => steps[i].action)
  }

  /** The trimmed action of every step, in order. */
  function TrimmedActions(steps: seq<Step>): (r: seq<string>)
    ensures |r| == |steps| && forall i :: 0 <= i < |steps| ==> r[i] == Trim(steps[i].action)
  {
    seq(|steps|, i requires 0 <= i < |steps| => Trim(steps[i].action))
  }

  /** What is hashed: the trimmed non-empty actions joined by newlines. */
  function ActionString(steps: seq<Step>): string {
    Join(NonEmptyParts(TrimmedActions(steps)), "\n")
  }

  /** `s.substring(0, n)`. */
  function Prefix(s: string, n: nat): (r: string)
    ensures |r| <= n && StartsWith(s, r)
    ensures |s| >= n ==> |r| == n
  {
    if |s| <= n then s else s[..n]
  }

  /** `hashTrajectoryActions(steps)`: null for no steps, else the first 32 digest characters of the action string. */
  function Hash(digest: string -> string, steps: seq<Step>): (r: Option<string>)
    ensures r.None? <==> steps == []
    ensures r.Some? ==> |r.value| <= HashLength && StartsWith(digest(ActionString(steps)), r.value)
  {
    if steps == [] then None else Some(Prefix(digest(ActionString(steps)), HashLength))
  }

  lemma TrimmedActionsConcat(a: seq<Step>, b: seq<Step>)
    ensures TrimmedActions(a + b) == TrimmedActions(a) + TrimmedActions(b)
  {
  }

  /**
   * A step whose action is blank never changes the fingerprint of a non-empty trajectory: removing it
   * leaves the action string, and so the hash, as it was.
   */
  lemma TrimmedActionsOfBlank(a: seq<Step>, s: Step, b: seq<Step>)
    requires IsBlank(s.action)
    ensures TrimmedActions(a + [s] + b) == TrimmedActions(a) + [""] + TrimmedActions(b)
  {
    TrimEmptyIffBlank(s.action);
    assert TrimmedActions([s]) == [""];
    TrimmedActionsConcat(a + [s], b);
    TrimmedActionsConcat(a, [s]);
  }

  lemma NonEmptyPartsDropEmpty(p: seq<string>, q: seq<string>)
    ensures NonEmptyParts(p + [""] + q) == NonEmptyParts(p + q)
  {
    var x := NonEmptyParts(p);
    NonEmptyPartsConcat(p + [""], q);
    NonEmptyPartsConcat(p, [""]);
    NonEmptyPartsOfBlank();
    assert NonEmptyParts(p + [""]) == x;
    NonEmptyPartsConcat(p, q);
  }

  lemma NonEmptyPartsOfBlank()
    ensures NonEmptyParts([""]) == []
  {
    assert [""][0] == "" && [""][1..] == [];
  }

  lemma BlankStepIgnored(digest: string -> string, a: seq<Step>, s: Step, b: seq<Step>)
    requires IsBlank(s.action) && a + b != []
    ensures ActionString(a + [s] + b) == ActionString(a + b)
    ensures Hash(digest, a + [s] + b) == Hash(digest, a + b)
  {
    TrimmedActionsOfBlank(a, s, b);
    TrimmedActionsConcat(a, b);
    NonEmptyPartsDropEmpty(TrimmedActions(a), TrimmedActions(b));
  }

  /** Trajectories whose actions trim to the same non-empty list have the same fingerprint. */
  lemma HashOfSameActions(digest: string -> string, s1: seq<Step>, s2: seq<Step>)
    requires s1 != [] && s2 != []
    requires NonEmptyParts(TrimmedActions(s1)) == NonEmptyParts(TrimmedActions(s2))
    ensures Hash(digest, s1) == Hash(digest, s2)
  {
  }

  // ---------------------------------------------------------------------------------------------
  // positional similarity

  /** The number of positions `i < n` where both lists hold the same action (and, if `nonEmpty`, a non-empty one). */
  function AlignedMatches(a: seq<string>, b: seq<string>, n: nat, nonEmpty: bool): (r: nat)
    requires n <= |a| && n <= |b|
    ensures r <= n
  {
    if n == 0 then 0
    else AlignedMatches(a, b, n - 1, nonEmpty) + (if a[n - 1] == b[n - 1] && (!nonEmpty || a[n - 1] != "") then 1 else 0)
  }

  function Min(x: nat, y: nat): nat { if x <= y then x else y }
  function Max(x: nat, y: nat): nat { if x >= y then x else y }

  /** The index-aligned matches of the two lists: `a.filter((x, i) => i < b.length && x === b[i] [&& x]).length`. */
  function Common(a: seq<string>, b: seq<string>, nonEmpty: bool): nat {
    AlignedMatches(a, b, Min(|a|, |b|), nonEmpty)
  }

  /** `maxLen > 0 ? common / maxLen : 0.0`. */
  function Ratio(common: nat, maxLen: nat): real {
    if maxLen > 0 then common as real / maxLen as real else 0.0
  }

  /** The duplicate check's similarity: aligned equal actions over the longer length. */
  function Similarity(a: seq<string>, b: seq<string>): real {
    Ratio(Common(a, b, false), Max(|a|, |b|))
  }

  /** The comparison view's similarity: as above, but an empty action never counts as a match. */
  function ComparisonSimilarity(a: seq<string>, b: seq<string>): real {
    Ratio(Common(a, b, true), Max(|a|, |b|))
  }

  lemma {:induction false} AlignedMatchesSymmetric(a: seq<string>, b: seq<string>, n: nat, nonEmpty: bool)
    requires n <= |a| && n <= |b|
    ensures AlignedMatches(a, b, n, nonEmpty) == AlignedMatches(b, a, n, nonEmpty)
  {
    if n > 0 {
      AlignedMatchesSymmetric(a, b, n - 1, nonEmpty);
    }
  }

  /** All `n` positions match exactly when the lists agree (on non-empty actions, if `nonEmpty`) below `n`. */
  lemma {:induction false} AlignedMatchesAll(a: seq<string>, b: seq<string>, n: nat, nonEmpty: bool)
    requires n <= |a| && n <= |b|
    ensures AlignedMatches(a, b, n, nonEmpty) == n <==>
      forall i :: 0 <= i < n ==> a[i] == b[i] && (!nonEmpty || a[i] != "")
  {
    if n > 0 {
      AlignedMatchesAll(a, b, n - 1, nonEmpty);
    }
  }

  /** Ignoring empty actions can only lower the count; it changes nothing when no action is empty. */
  lemma {:induction false} AlignedMatchesNonEmpty(a: seq<string>, b: seq<string>, n: nat)
    requires n <= |a| && n <= |b|
    ensures AlignedMatches(a, b, n, true) <= AlignedMatches(a, b, n, false)
    ensures (forall i :: 0 <= i < n ==> a[i] != "") ==> AlignedMatches(a, b, n, true) == AlignedMatches(a, b, n, false)
  {
    if n > 0 {
      AlignedMatchesNonEmpty(a, b, n - 1);
    }
  }

  /** `c / m` for a positive `m` is the number that, multiplied by `m`, gives `c`. */
  lemma RatioTimes(common: nat, maxLen: nat)
    requires maxLen > 0
    ensures Ratio(common, maxLen) * maxLen as real == common as real
  {
  }

  lemma RatioMonotone(c: nat, d: nat, maxLen: nat)
    requires c <= d
    ensures Ratio(c, maxLen) <= Ratio(d, maxLen)
    ensures c < d && maxLen > 0 ==> Ratio(c, maxLen) < Ratio(d, maxLen)
  {
    if maxLen > 0 {
      var x, y, m := Ratio(c, maxLen), Ratio(d, maxLen), maxLen as real;
      RatioTimes(c, maxLen);
      RatioTimes(d, maxLen);
      assert (y - x) * m == d as real - c as real;
      if c < d {
        assert (y - x) * m > 0.0;
      }
    }
  }

  lemma RatioBounds(common: nat, maxLen: nat)
    requires common <= maxLen
    ensures 0.0 <= Ratio(common, maxLen) <= 1.0
    ensures Ratio(common, maxLen) == 1.0 <==> maxLen > 0 && common == maxLen
  {
    RatioMonotone(0, common, maxLen);
    RatioMonotone(common, maxLen, maxLen);
  }

  /**
   * The duplicate check's similarity is symmetric, lies in [0, 1], is 0 for two empty lists, and is
   * 1 exactly when the two lists are equal and non-empty.
   */
  lemma SimilarityFacts(a: seq<string>, b: seq<string>)
    ensures Similarity(a, b) == Similarity(b, a)
    ensures 0.0 <= Similarity(a, b) <= 1.0
    ensures a == [] && b == [] ==> Similarity(a, b) == 0.0
    ensures Similarity(a, b) == 1.0 <==> a == b && a != []
  {
    var m := Min(|a|, |b|);
    AlignedMatchesSymmetric(a, b, m, false);
    assert Common(a, b, false) <= Max(|a|, |b|);
    RatioBounds(Common(a, b, false), Max(|a|, |b|));
    AlignedMatchesAll(a, b, m, false);
    if a == b && a != [] {
      assert forall i :: 0 <= i < m ==> a[i] == b[i];
    }
    if Similarity(a, b) == 1.0 {
      assert |a| == |b|;
      assert forall i :: 0 <= i < |a| ==> a[i] == b[i];
    }
  }

  /**
   * The comparison view's similarity is symmetric, lies in [0, 1], never exceeds the duplicate check's,
   * and equals it when the first list has no empty action.
   */
  lemma ComparisonSimilarityFacts(a: seq<string>, b: seq<string>)
    ensures ComparisonSimilarity(a, b) == ComparisonSimilarity(b, a)
    ensures 0.0 <= ComparisonSimilarity(a, b) <= Similarity(a, b) <= 1.0
    ensures (forall i :: 0 <= i < |a| ==> a[i] != "") ==> ComparisonSimilarity(a, b) == Similarity(a, b)
  {
    var m := Min(|a|, |b|);
    var mx := Max(|a|, |b|);
    AlignedMatchesSymmetric(a, b, m, true);
    AlignedMatchesNonEmpty(a, b, m);
    RatioBounds(Common(a, b, false), mx);
    RatioBounds(Common(a, b, true), mx);
    RatioMonotone(Common(a, b, true), Common(a, b, false), mx);
  }

  // ---------------------------------------------------------------------------------------------
  // notebook assistant cells

  /** One assistant cell: `step`, `cell_index`, `content`, `full_text`, `word_count` and `char_count`. */
  datatype AssistantCell = AssistantCell(step: nat, cellIndex: nat, content: string, fullText: string, wordCount: nat, charCount: nat)

  /** A cell's text: its source lines joined with nothing between them, its source string, or "". */
  function SourceText(s: Source): string {
    match s
    case SourceLines(lines) => Join(lines, "")
    case SourceText(text) => text
    case SourceOther => ""
  }

  /** `s.replace(sub, '')` for a string pattern: only the first occurrence goes. */
  function RemoveFirst(s: string, sub: string): (r: string)
    ensures IndexOfFrom(s, sub, 0) < 0 ==> r == s
    ensures IndexOfFrom(s, sub, 0) >= 0 ==> |r| + |sub| == |s|
  {
    var i := IndexOfFrom(s, sub, 0);
    if i < 0 then s else s[..i] + s[i + |sub|..]
  }

  /** A cell is an assistant cell when its text, once left-trimmed, starts with `**[assistant]`. */
  predicate IsAssistantText(text: string) {
    StartsWith(TrimStart(text), AssistantOpen)
  }

  /** The content of an assistant cell: the marker removed (first `**[assistant]**`, then `**[assistant]`), trimmed. */
  function CellContent(text: string): string {
    Trim(RemoveFirst(RemoveFirst(text, AssistantMarker), AssistantOpen))
  }

  function MakeCell(step: nat, cellIndex: nat, text: string): AssistantCell {
    CellOf(step, cellIndex, text, CellContent)
  }

  /** The record of cell `cellIndex`, numbered `step`, whose content `content` makes from its text. */
  function CellOf(step: nat, cellIndex: nat, text: string, content: string -> string): AssistantCell {
    var c := content(text);
    AssistantCell(step, cellIndex, c, text, WordCount(c), |c|)
  }

  /** A record describes the assistant cell at its index: its number aside, it is made from that cell's text. */
  predicate Describes(texts: seq<string>, c: AssistantCell) {
    DescribesBy(texts, IsAssistantText, CellContent, c)
  }

  predicate DescribesBy(texts: seq<string>, keep: string -> bool, content: string -> string, c: AssistantCell) {
    c.cellIndex < |texts| && keep(texts[c.cellIndex]) && c == CellOf(c.step, c.cellIndex, texts[c.cellIndex], content)
  }

  /** The assistant cells among the cell texts, in cell order, numbered as they are found. */
  function AssistantCells(texts: seq<string>): (r: seq<AssistantCell>)
    ensures |r| <= |texts|
  {
    CellsWhere(texts, IsAssistantText, CellContent)
  }

  /** The cells whose text `keep` accepts, in cell order, numbered as they are found. */
  function CellsWhere(texts: seq<string>, keep: string -> bool, content: string -> string): (r: seq<AssistantCell>)
    ensures |r| <= |texts|
  {
    if texts == [] then []
    else
      var n := |texts| - 1;
      var prev := CellsWhere(texts[..n], keep, content);
      if keep(texts[n]) then prev + [CellOf(|prev|, n, texts[n], content)] else prev
  }

  /** One more cell: a record is added exactly when it is an assistant cell. */
  lemma AssistantCellsStep(texts: seq<string>, i: nat)
    requires i < |texts|
    ensures var prev := AssistantCells(texts[..i]);
      AssistantCells(texts[..i + 1]) == if IsAssistantText(texts[i]) then prev + [MakeCell(|prev|, i, texts[i])] else prev
  {
    assert texts[..i + 1][..i] == texts[..i];
    assert texts[..i + 1][i] == texts[i];
  }

  /** A record that describes a cell of the first `n` cells describes the same cell of the whole notebook. */
  lemma DescribesPrefix(texts: seq<string>, keep: string -> bool, content: string -> string, n: nat, c: AssistantCell)
    requires n <= |texts| && DescribesBy(texts[..n], keep, content, c)
    ensures DescribesBy(texts, keep, content, c) && c.cellIndex < n
  {
    assert texts[..n][c.cellIndex] == texts[c.cellIndex];
  }

  lemma {:induction false} CellsWhereNumbered(texts: seq<string>, keep: string -> bool, content: string -> string)
    ensures forall k :: 0 <= k < |CellsWhere(texts, keep, content)| ==>
      CellsWhere(texts, keep, content)[k].step == k && DescribesBy(texts, keep, content, CellsWhere(texts, keep, content)[k])
    decreases |texts|
  {
    if texts != [] {
      var n := |texts| - 1;
      CellsWhereNumbered(texts[..n], keep, content);
      var prev := CellsWhere(texts[..n], keep, content);
      forall k | 0 <= k < |prev|
        ensures DescribesBy(texts, keep, content, prev[k])
      {
        DescribesPrefix(texts, keep, content, n, prev[k]);
      }
      if keep(texts[n]) {
        var x := CellOf(|prev|, n, texts[n], content);
        assert CellsWhere(texts, keep, content) == prev + [x];
        assert (prev + [x])[|prev|] == x;
      } else {
        assert CellsWhere(texts, keep, content) == prev;
      }
    }
  }

  lemma {:induction false} CellsWhereOrdered(texts: seq<string>, keep: string -> bool, content: string -> string)
    ensures forall k, m :: 0 <= k < m < |CellsWhere(texts, keep, content)| ==>
      CellsWhere(texts, keep, content)[k].cellIndex < CellsWhere(texts, keep, content)[m].cellIndex
    decreases |texts|
  {
    if texts != [] {
      var n := |texts| - 1;
      CellsWhereOrdered(texts[..n], keep, content);
      CellsWhereNumbered(texts[..n], keep, content);
      var prev := CellsWhere(texts[..n], keep, content);
      if keep(texts[n]) {
        var x := CellOf(|prev|, n, texts[n], content);
        assert CellsWhere(texts, keep, content) == prev + [x];
        assert forall k :: 0 <= k < |prev| ==> prev[k].cellIndex < n;
      } else {
        assert CellsWhere(texts, keep, content) == prev;
      }
    }
  }

  lemma {:induction false} CellsWhereComplete(texts: seq<string>, keep: string -> bool, content: string -> string, i: nat)
    requires i < |texts| && keep(texts[i])
    ensures exists k :: 0 <= k < |CellsWhere(texts, keep, content)| && CellsWhere(texts, keep, content)[k].cellIndex == i
    decreases |texts|
  {
    var n := |texts| - 1;
    var prev := CellsWhere(texts[..n], keep, content);
    if i < n {
      assert texts[..n][i] == texts[i];
      CellsWhereComplete(texts[..n], keep, content, i);
      var k :| 0 <= k < |prev| && prev[k].cellIndex == i;
      if keep(texts[n]) {
        var x := CellOf(|prev|, n, texts[n], content);
        assert CellsWhere(texts, keep, content) == prev + [x];
        assert (prev + [x])[k] == prev[k];
      } else {
        assert CellsWhere(texts, keep, content) == prev;
      }
    } else {
      var x := CellOf(|prev|, n, texts[n], content);
      assert CellsWhere(texts, keep, content) == prev + [x];
      assert (prev + [x])[|prev|] == x;
    }
  }

  /** Each record describes an assistant cell of the notebook, and the records are numbered 0, 1, 2, ... in order. */
  lemma AssistantCellsNumbered(texts: seq<string>)
    ensures forall k :: 0 <= k < |AssistantCells(texts)| ==>
      AssistantCells(texts)[k].step == k && Describes(texts, AssistantCells(texts)[k])
  {
    CellsWhereNumbered(texts, IsAssistantText, CellContent);
  }

  /** The records keep the cell order: their cell indices strictly increase. */
  lemma AssistantCellsOrdered(texts: seq<string>)
    ensures forall k, m :: 0 <= k < m < |AssistantCells(texts)| ==>
      AssistantCells(texts)[k].cellIndex < AssistantCells(texts)[m].cellIndex
  {
    CellsWhereOrdered(texts, IsAssistantText, CellContent);
  }

  /** No assistant cell is missed: every cell whose text starts with the marker has a record. */
  lemma AssistantCellsComplete(texts: seq<string>, i: nat)
    requires i < |texts| && IsAssistantText(texts[i])
    ensures exists k :: 0 <= k < |AssistantCells(texts)| && AssistantCells(texts)[k].cellIndex == i
  {
    CellsWhereComplete(texts, IsAssistantText, CellContent, i);
    var r := CellsWhere(texts, IsAssistantText, CellContent);
    assert AssistantCells(texts) == r;
    var k :| 0 <= k < |r| && r[k].cellIndex == i;
    assert AssistantCells(texts)[k].cellIndex == i;
  }

  /** A record that describes a cell has that cell's marker-free content and its word count. */
  lemma DescribedCell(texts: seq<string>, c: AssistantCell)
    requires Describes(texts, c)
    ensures IsAssistantText(texts[c.cellIndex])
    ensures c.content == CellContent(texts[c.cellIndex]) && c.wordCount == WordCount(c.content)
  {
  }

  /** The text of every cell of a notebook, in order. */
  function CellTexts(cells: seq<Cell>): (texts: seq<string>)
    ensures |texts| == |cells| && forall i :: 0 <= i < |cells| ==> texts[i] == SourceText(cells[i].source)
  {
    seq(|cells|, i requires 0 <= i < |cells| => SourceText(cells[i].source))
  }

  /** Notebook cells parsed from a file's text: `data.cells || []`, none when the text does not parse. */
  function NotebookCells(env: Env, f: FileRef): seq<Cell> {
    match ReadJSON(env.text(f), env.parseNotebook)
    case None => []
    case Some(cs) => cs
  }

  /** The loop of `extractNotebookAssistantCells` over the parsed cells, counting `stepNum` as it pushes. */
  method ExtractAssistantCells(cells: seq<Cell>) returns (out: seq<AssistantCell>)
    ensures out == AssistantCells(CellTexts(cells))
  {
    out := [];
    var stepNum: nat := 0;
    ghost var texts := CellTexts(cells);
    for idx := 0 to |cells|
      invariant stepNum == |out|
      invariant out == AssistantCells(texts[..idx])
    {
      AssistantCellsStep(texts, idx);
      var text := SourceText(cells[idx].source);
      if IsAssistantText(text) {
        out := out + [MakeCell(stepNum, idx, text)];
        stepNum := stepNum + 1;
      }
    }
    assert texts[..|cells|] == texts;
  }

  /** `extractNotebookAssistantCells(notebookFile)`. */
  method ExtractNotebookAssistantCells(env: Env, f: FileRef) returns (out: seq<AssistantCell>)
    ensures out == AssistantCells(CellTexts(NotebookCells(env, f)))
  {
    out := ExtractAssistantCells(NotebookCells(env, f));
  }
}
