/**
 * Criteria 4 and 5: the assistant step descriptions in the notebooks, and the detection of SFT and
 * annotator trajectories that copy each other.
 */
module ContentCriteria {
  import opened Wrappers
  import opened Text
  import opened FileTree
  import opened Inputs
  import opened Locators
  import opened Folders
  import opened Trajectories

  // ---------------------------------------------------------------------------------------------
  // criterion 4: assistant cells properly written

  const NotebookPattern := "*.ipynb"
  const ExecutingStep := "executing step"
  const MinDescriptionWords: nat := 20

  /** A notebook found for one participant: its key, the file and the assistant cells read from it. */
  datatype Notebook = Notebook(key: string, file: FileRef, cells: seq<AssistantCell>)

  /** The assistant cells of a notebook file. */
  function CellsOf(env: Env, f: FileRef): seq<AssistantCell> {
    AssistantCells(CellTexts(NotebookCells(env, f)))
  }

  /** The notebook kept for a `Colab` folder: the first `*.ipynb` found below it, when the folder exists. */
  function NotebookEntry(t: Tree, env: Env, key: string, colab: string): (r: seq<Notebook>)
    ensures |r| <= 1
    ensures r != [] <==> DirectoryExists(t, colab) && FindFilesInTree(t, colab, NotebookPattern) != []
    ensures r != [] ==> r[0].key == key && r[0].file == FindFilesInTree(t, colab, NotebookPattern)[0]
    ensures forall n :: n in r ==> n.cells == CellsOf(env, n.file)
  {
    if DirectoryExists(t, colab) then
      var notebooks := FindFilesInTree(t, colab, NotebookPattern);
      if notebooks != [] then [Notebook(key, notebooks[0], CellsOf(env, notebooks[0]))] else []
    else []
  }

  /** Annotator `idx`'s notebook: the first existing spelling of its folder decides, whatever its `Colab` holds. */
  function AnnotatorNotebook(t: Tree, env: Env, root: string, idx: nat): (r: seq<Notebook>)
    ensures forall n :: n in r ==> n.key == AnnotatorKey(idx) && n.cells == CellsOf(env, n.file)
  {
    match AnnotatorFolder(root, idx, IsDir(t))
    case None => []
    case Some(d) => NotebookEntry(t, env, AnnotatorKey(idx), ChildDir(d, ColabFolder))
  }

  function AnnotatorNotebooks(t: Tree, env: Env, root: string): nat -> seq<Notebook> {
    (idx: nat) => AnnotatorNotebook(t, env, root, idx)
  }

  /** The notebooks in the order their keys enter `result.cells`: SFT, then annotators 1 to 3. */
  function Notebooks(t: Tree, env: Env): seq<Notebook> {
    NotebookEntry(t, env, SftKey, SftColabDir) + Collect(AnnotatorIndices, AnnotatorNotebooks(t, env, AnnotatorRootOf(t)))
  }

  /** A description that only announces the step: it mentions "executing step" (in any case) and has under 20 words. */
  predicate Underwritten(content: string, wordCount: nat) {
    Contains(Lower(content), ExecutingStep) && wordCount < MinDescriptionWords
  }

  predicate CellUnderwritten(c: AssistantCell) {
    Underwritten(c.content, c.wordCount)
  }

  /** No cell of any notebook found is underwritten. */
  predicate AllWellWritten(nbs: seq<Notebook>) {
    forall i, j :: 0 <= i < |nbs| && 0 <= j < |nbs[i].cells| ==> !CellUnderwritten(nbs[i].cells[j])
  }

  datatype Criterion4Result = Criterion4Result(passed: bool, notebooks: seq<Notebook>)

  /** `checkCriterion4NotebookAssistantCells()`. */
  function Criterion4(t: Tree, env: Env): Criterion4Result {
    var nbs := Notebooks(t, env);
    Criterion4Result(AllWellWritten(nbs) && |nbs| > 0, nbs)
  }

  /** The assistant-text test on a notebook's cell texts, stated on the texts themselves. */
  predicate TextUnderwritten(text: string) {
    Underwritten(CellContent(text), WordCount(CellContent(text)))
  }

  /**
   * The records of a notebook hold no underwritten cell exactly when no cell of the notebook whose
   * text starts with the assistant marker has an underwritten description.
   */
  lemma AssistantCellsWellWritten(texts: seq<string>)
    ensures (forall k :: 0 <= k < |AssistantCells(texts)| ==> !CellUnderwritten(AssistantCells(texts)[k]))
      <==> forall i :: 0 <= i < |texts| && IsAssistantText(texts[i]) ==> !TextUnderwritten(texts[i])
  {
    var cells := AssistantCells(texts);
    AssistantCellsNumbered(texts);
    forall i | 0 <= i < |texts| && IsAssistantText(texts[i])
      ensures exists k :: 0 <= k < |cells| && cells[k].cellIndex == i
    {
      AssistantCellsComplete(texts, i);
    }
    RecordsWellWritten(texts, cells);
  }

  /** The same for any records that describe the cells and miss none. */
  lemma RecordsWellWritten(texts: seq<string>, cells: seq<AssistantCell>)
    requires forall k :: 0 <= k < |cells| ==> Describes(texts, cells[k])
    requires forall i :: 0 <= i < |texts| && IsAssistantText(texts[i]) ==> exists k :: 0 <= k < |cells| && cells[k].cellIndex == i
    ensures (forall k :: 0 <= k < |cells| ==> !CellUnderwritten(cells[k]))
      <==> forall i :: 0 <= i < |texts| && IsAssistantText(texts[i]) ==> !TextUnderwritten(texts[i])
  {
    if forall k :: 0 <= k < |cells| ==> !CellUnderwritten(cells[k]) {
      forall i | 0 <= i < |texts| && IsAssistantText(texts[i])
        ensures !TextUnderwritten(texts[i])
      {
        var k :| 0 <= k < |cells| && cells[k].cellIndex == i;
        DescribedCell(texts, cells[k]);
      }
    }
    if forall i :: 0 <= i < |texts| && IsAssistantText(texts[i]) ==> !TextUnderwritten(texts[i]) {
      forall k | 0 <= k < |cells|
        ensures !CellUnderwritten(cells[k])
      {
        DescribedCell(texts, cells[k]);
      }
    }
  }

  /**
   * Criterion 4 passes exactly when some notebook was found and, in every notebook found, each
   * assistant cell that mentions "executing step" has at least 20 words.
   */
  lemma Criterion4Pass(t: Tree, env: Env)
    ensures Criterion4(t, env).passed <==>
      Notebooks(t, env) != [] && NotebooksWellWritten(env, Notebooks(t, env))
  {
    var nbs := Notebooks(t, env);
    forall n | n in nbs
      ensures n.cells == CellsOf(env, n.file)
    {
      NotebookCellsOf(t, env, n);
    }
    WellWrittenFromTexts(env, nbs);
  }

  /** In each notebook file, every assistant cell whose text mentions "executing step" has at least 20 words. */
  predicate NotebooksWellWritten(env: Env, nbs: seq<Notebook>) {
    forall n, i :: n in nbs && 0 <= i < |CellTexts(NotebookCells(env, n.file))|
      && IsAssistantText(CellTexts(NotebookCells(env, n.file))[i])
      ==> !TextUnderwritten(CellTexts(NotebookCells(env, n.file))[i])
  }

  lemma WellWrittenFromTexts(env: Env, nbs: seq<Notebook>)
    requires forall n :: n in nbs ==> n.cells == CellsOf(env, n.file)
    ensures AllWellWritten(nbs) <==> NotebooksWellWritten(env, nbs)
  {
    forall n | n in nbs {
      AssistantCellsWellWritten(CellTexts(NotebookCells(env, n.file)));
    }
    if AllWellWritten(nbs) {
      forall n | n in nbs
        ensures forall k :: 0 <= k < |n.cells| ==> !CellUnderwritten(n.cells[k])
      {
        var i :| 0 <= i < |nbs| && nbs[i] == n;
      }
    }
  }

  /** Every notebook of an annotator scan is stored under an annotator's key and holds the cells of its own file. */
  lemma ScannedNotebook(t: Tree, env: Env, root: string, idxs: seq<nat>, n: Notebook)
    requires n in Collect(idxs, AnnotatorNotebooks(t, env, root))
    ensures n.key != SftKey && n.cells == CellsOf(env, n.file)
  {
    CollectMember(idxs, AnnotatorNotebooks(t, env, root), n);
    var k :| 0 <= k < |idxs| && n in AnnotatorNotebooks(t, env, root)(idxs[k]);
    assert n.key[0] == 'a';
  }

  /** Every notebook found holds the assistant cells of its own file. */
  lemma NotebookCellsOf(t: Tree, env: Env, n: Notebook)
    requires n in Notebooks(t, env)
    ensures n.cells == CellsOf(env, n.file)
  {
    if n !in NotebookEntry(t, env, SftKey, SftColabDir) {
      ScannedNotebook(t, env, AnnotatorRootOf(t), AnnotatorIndices, n);
    }
  }

  /** The SFT notebook is found exactly when `SFT/Colab` exists and holds an `*.ipynb`, and it comes first. */
  lemma Criterion4SftNotebook(t: Tree, env: Env)
    ensures (exists n :: n in Notebooks(t, env) && n.key == SftKey)
      <==> DirectoryExists(t, SftColabDir) && FindFilesInTree(t, SftColabDir, NotebookPattern) != []
    ensures DirectoryExists(t, SftColabDir) && FindFilesInTree(t, SftColabDir, NotebookPattern) != [] ==>
      Notebooks(t, env)[0] == Notebook(SftKey, FindFilesInTree(t, SftColabDir, NotebookPattern)[0],
                                       CellsOf(env, FindFilesInTree(t, SftColabDir, NotebookPattern)[0]))
  {
    var sft := NotebookEntry(t, env, SftKey, SftColabDir);
    var annotators := Collect(AnnotatorIndices, AnnotatorNotebooks(t, env, AnnotatorRootOf(t)));
    forall n | n in annotators
      ensures n.key != SftKey
    {
      ScannedNotebook(t, env, AnnotatorRootOf(t), AnnotatorIndices, n);
    }
    assert Notebooks(t, env) == sft + annotators;
    if sft != [] {
      assert Notebooks(t, env)[0] == sft[0];
    }
  }

  /** `for (const cell of cellsList) { ... break }` over one notebook. */
  method CheckCells(cells: seq<AssistantCell>) returns (good: bool)
    ensures good <==> forall j :: 0 <= j < |cells| ==> !CellUnderwritten(cells[j])
  {
    for j := 0 to |cells|
      invariant forall j' :: 0 <= j' < j ==> !CellUnderwritten(cells[j'])
    {
      if Contains(Lower(cells[j].content), ExecutingStep) && cells[j].wordCount < MinDescriptionWords {
        return false;
      }
    }
    return true;
  }

  /** The `allGood` loop over `Object.entries(result.cells)`, leaving at the first underwritten cell. */
  method CheckNotebooks(nbs: seq<Notebook>) returns (allGood: bool)
    ensures allGood <==> AllWellWritten(nbs)
  {
    for i := 0 to |nbs|
      invariant forall i', j :: 0 <= i' < i && 0 <= j < |nbs[i'].cells| ==> !CellUnderwritten(nbs[i'].cells[j])
    {
      var good := CheckCells(nbs[i].cells);
      if !good {
        return false;
      }
    }
    return true;
  }

  /** The notebook search in one `Colab` folder. */
  method ReadNotebook(t: Tree, env: Env, key: string, colab: string) returns (e: seq<Notebook>)
    ensures e == NotebookEntry(t, env, key, colab)
  {
    e := [];
    if DirectoryExists(t, colab) {
      var notebooks := FindFilesInTree(t, colab, NotebookPattern);
      if |notebooks| > 0 {
        var cells := ExtractNotebookAssistantCells(env, notebooks[0]);
        e := [Notebook(key, notebooks[0], cells)];
      }
    }
  }

  /** The annotator loop of criterion 4. */
  method ScanNotebooks(t: Tree, env: Env, root: string, idxs: seq<nat>) returns (nbs: seq<Notebook>)
    ensures nbs == Collect(idxs, AnnotatorNotebooks(t, env, root))
  {
    nbs := [];
    for k := 0 to |idxs|
      invariant nbs == Collect(idxs[..k], AnnotatorNotebooks(t, env, root))
    {
      CollectSnoc(idxs, k, AnnotatorNotebooks(t, env, root));
      var e: seq<Notebook> := [];
      var folder := FindAnnotatorFolder(root, idxs[k], IsDir(t));
      if folder.Some? {
        e := ReadNotebook(t, env, AnnotatorKey(idxs[k]), ChildDir(folder.value, ColabFolder));
      }
      nbs := nbs + e;
    }
    assert idxs[..|idxs|] == idxs;
  }

  method CheckCriterion4(t: Tree, env: Env) returns (r: Criterion4Result)
    ensures r == Criterion4(t, env)
  {
    var sft := ReadNotebook(t, env, SftKey, SftColabDir);
    var root := ResolveAnnotatorRoot(t);
    var annotators := ScanNotebooks(t, env, root, AnnotatorIndices);
    var nbs := sft + annotators;
    var allGood := CheckNotebooks(nbs);
    r := Criterion4Result(allGood && |nbs| > 0, nbs);
  }

  // ---------------------------------------------------------------------------------------------
  // criterion 5: duplicate detection

  const PairSeparator := "_vs_"
  const DuplicateThreshold: real := 0.95

  /** A trajectory kept for comparison: its key, fingerprint, file and steps. */
  datatype Trajectory = Trajectory(key: string, hash: string, file: FileRef, steps: seq<Step>)

  /** A hash value JavaScript treats as true: present and non-empty. */
  predicate Truthy(h: Option<string>) {
    h.Some? && h.value != ""
  }

  /** A trajectory kept carries the fingerprint of its own steps, which are not empty. */
  predicate Fingerprinted(env: Env, x: Trajectory) {
    x.steps != [] && Some(x.hash) == Hash(env.digest, x.steps) && x.hash != ""
  }

  /** The trajectory kept for a folder: its trajectory file, when its fingerprint is non-null and non-empty. */
  function TrajectoryEntry(t: Tree, env: Env, key: string, dir: string): (r: seq<Trajectory>)
    ensures |r| <= 1
    ensures r != [] ==> (r[0].key == key && Some(r[0].file) == FindTrajectoryFile(t, dir)
                         && r[0].steps == StepsOf(env, Some(r[0].file)))
    ensures r == [] <==> FindTrajectoryFile(t, dir).None? || !Truthy(Hash(env.digest, StepsOf(env, FindTrajectoryFile(t, dir))))
    ensures forall x :: x in r ==> Fingerprinted(env, x)
  {
    var f := FindTrajectoryFile(t, dir);
    if f.None? then []
    else
      var steps := StepsOf(env, f);
      var h := Hash(env.digest, steps);
      if Truthy(h) then [Trajectory(key, h.value, f.value, steps)] else []
  }

  /** Annotator `idx`'s trajectory: the first spelling whose `Trajectory and Screenshot` folder exists decides. */
  function AnnotatorTrajectory(t: Tree, env: Env, root: string, idx: nat): (r: seq<Trajectory>)
    ensures forall x :: x in r ==> x.key == AnnotatorKey(idx) && Fingerprinted(env, x)
  {
    var folder := AnnotatorFolder(root, idx, HasTrajectoryDir(t));
    if folder.None? then [] else TrajectoryEntry(t, env, AnnotatorKey(idx), ChildDir(folder.value, TrajectoryFolder))
  }

  function AnnotatorTrajectories(t: Tree, env: Env, root: string): nat -> seq<Trajectory> {
    (idx: nat) => AnnotatorTrajectory(t, env, root, idx)
  }

  /** The trajectories in the order they enter `trajectories`: SFT, then annotators 1 to 3. */
  function TrajectoriesFound(t: Tree, env: Env): seq<Trajectory> {
    TrajectoryEntry(t, env, SftKey, SftTrajectoryDir) + Collect(AnnotatorIndices, AnnotatorTrajectories(t, env, AnnotatorRootOf(t)))
  }

  /** The similarity recorded for a pair: 1.0 for the same fingerprint, else the aligned-action ratio. */
  function PairSimilarity(a: Trajectory, b: Trajectory): (s: real)
    ensures 0.0 <= s <= 1.0
    ensures a.hash == b.hash ==> s == 1.0
    ensures a.hash != b.hash ==> s == Similarity(Actions(a.steps), Actions(b.steps))
  {
    SimilarityFacts(Actions(a.steps), Actions(b.steps));
    if a.hash == b.hash then 1.0 else Similarity(Actions(a.steps), Actions(b.steps))
  }

  /** A pair is a duplicate when the fingerprints agree or more than 95% of the aligned actions do. */
  predicate Duplicate(a: Trajectory, b: Trajectory) {
    a.hash == b.hash || Similarity(Actions(a.steps), Actions(b.steps)) > DuplicateThreshold
  }

  /** No two trajectories, taken in list order, are duplicates of each other. */
  predicate NoDuplicates(ts: seq<Trajectory>) {
    forall i, j :: 0 <= i < j < |ts| ==> !Duplicate(ts[i], ts[j])
  }

  /** No trajectory before position `m` duplicates a later one. */
  predicate NoDuplicatesBefore(ts: seq<Trajectory>, m: nat) {
    forall i, j :: 0 <= i < m && i < j < |ts| ==> !Duplicate(ts[i], ts[j])
  }

  /** Trajectory `i` duplicates none of those after it. */
  predicate RowDistinct(ts: seq<Trajectory>, i: nat)
    requires i < |ts|
  {
    forall j :: i < j < |ts| ==> !Duplicate(ts[i], ts[j])
  }

  lemma NoDuplicatesBeforeNext(ts: seq<Trajectory>, m: nat)
    requires m < |ts|
    ensures NoDuplicatesBefore(ts, m + 1) <==> NoDuplicatesBefore(ts, m) && RowDistinct(ts, m)
  {
  }

  function PairEntry(ts: seq<Trajectory>, i: nat, j: nat): Keyed<real>
    requires i < |ts| && j < |ts|
  {
    Keyed(ts[i].key + PairSeparator + ts[j].key, PairSimilarity(ts[i], ts[j]))
  }

  /** The pairs `(i, j)` for `i < j < n`, in loop order. */
  function RowPairs(ts: seq<Trajectory>, i: nat, n: nat): seq<Keyed<real>>
    requires i < |ts| && n <= |ts|
  {
    if n <= i + 1 then [] else RowPairs(ts, i, n - 1) + [PairEntry(ts, i, n - 1)]
  }

  /** The rows `i < m` of the pair loop, in loop order. */
  function AllPairs(ts: seq<Trajectory>, m: nat): seq<Keyed<real>>
    requires m <= |ts|
  {
    if m == 0 then [] else AllPairs(ts, m - 1) + RowPairs(ts, m - 1, |ts|)
  }

  datatype Criterion5Result = Criterion5Result(passed: bool, trajectories: seq<Trajectory>, similarities: seq<Keyed<real>>)

  /** `checkCriterion5DuplicateDetection()`. */
  function Criterion5(t: Tree, env: Env): Criterion5Result {
    var ts := TrajectoriesFound(t, env);
    Criterion5Result(NoDuplicates(ts), ts, AllPairs(ts, |ts|))
  }

  lemma {:induction false} RowPairsMember(ts: seq<Trajectory>, i: nat, n: nat, x: Keyed<real>)
    requires i < |ts| && n <= |ts|
    ensures x in RowPairs(ts, i, n) <==> exists j :: i < j < n && x == PairEntry(ts, i, j)
    decreases n
  {
    if n > i + 1 {
      RowPairsMember(ts, i, n - 1, x);
    }
  }

  lemma InConcat<T>(x: T, a: seq<T>, b: seq<T>)
    ensures x in a + b <==> x in a || x in b
  {
  }

  lemma {:induction false} AllPairsHas(ts: seq<Trajectory>, m: nat, i: nat, j: nat)
    requires m <= |ts| && i < m && i < j < |ts|
    ensures PairEntry(ts, i, j) in AllPairs(ts, m)
    decreases m
  {
    var prev, row := AllPairs(ts, m - 1), RowPairs(ts, m - 1, |ts|);
    var x := PairEntry(ts, i, j);
    assert AllPairs(ts, m) == prev + row;
    if i < m - 1 {
      AllPairsHas(ts, m - 1, i, j);
      InConcat(x, prev, row);
    } else {
      RowPairsMember(ts, m - 1, |ts|, x);
      InConcat(x, prev, row);
    }
  }

  lemma {:induction false} AllPairsFrom(ts: seq<Trajectory>, m: nat, x: Keyed<real>)
    requires m <= |ts| && x in AllPairs(ts, m)
    ensures exists i, j :: 0 <= i < m && i < j < |ts| && x == PairEntry(ts, i, j)
    decreases m
  {
    if x in RowPairs(ts, m - 1, |ts|) {
      RowPairsMember(ts, m - 1, |ts|, x);
      var j :| m - 1 < j < |ts| && x == PairEntry(ts, m - 1, j);
      assert 0 <= m - 1 < m && m - 1 < j < |ts| && x == PairEntry(ts, m - 1, j);
    } else {
      AllPairsFrom(ts, m - 1, x);
    }
  }

  lemma AllPairsMember(ts: seq<Trajectory>, m: nat, x: Keyed<real>)
    requires m <= |ts|
    ensures x in AllPairs(ts, m) <==> exists i, j :: 0 <= i < m && i < j < |ts| && x == PairEntry(ts, i, j)
  {
    if x in AllPairs(ts, m) {
      AllPairsFrom(ts, m, x);
    }
    if exists i, j :: 0 <= i < m && i < j < |ts| && x == PairEntry(ts, i, j) {
      var i, j :| 0 <= i < m && i < j < |ts| && x == PairEntry(ts, i, j);
      AllPairsHas(ts, m, i, j);
    }
  }

  /** Every pair `i < j` of the trajectories is recorded once the loop is done, and nothing else is. */
  lemma PairsRecorded(ts: seq<Trajectory>, x: Keyed<real>)
    ensures x in AllPairs(ts, |ts|) <==> exists i, j :: 0 <= i < j < |ts| && x == PairEntry(ts, i, j)
  {
    AllPairsMember(ts, |ts|, x);
  }

  /** A pair is a duplicate exactly when its recorded similarity exceeds 0.95. */
  lemma DuplicateIffHighSimilarity(a: Trajectory, b: Trajectory)
    ensures Duplicate(a, b) <==> PairSimilarity(a, b) > DuplicateThreshold
  {
  }

  /**
   * Criterion 5 passes exactly when no recorded similarity exceeds 0.95, and then every pair of
   * trajectories found has distinct fingerprints.
   */
  lemma Criterion5Pass(t: Tree, env: Env)
    ensures Criterion5(t, env).passed <==> forall x :: x in Criterion5(t, env).similarities ==> x.value <= DuplicateThreshold
    ensures Criterion5(t, env).passed ==> forall i, j :: 0 <= i < j < |TrajectoriesFound(t, env)| ==>
      TrajectoriesFound(t, env)[i].hash != TrajectoriesFound(t, env)[j].hash
  {
    var ts := TrajectoriesFound(t, env);
    var sims := AllPairs(ts, |ts|);
    if NoDuplicates(ts) {
      forall x | x in sims
        ensures x.value <= DuplicateThreshold
      {
        PairsRecorded(ts, x);
        var i, j :| 0 <= i < j < |ts| && x == PairEntry(ts, i, j);
        DuplicateIffHighSimilarity(ts[i], ts[j]);
      }
    } else {
      var i, j :| 0 <= i < j < |ts| && Duplicate(ts[i], ts[j]);
      PairsRecorded(ts, PairEntry(ts, i, j));
      DuplicateIffHighSimilarity(ts[i], ts[j]);
    }
  }

  /** Two trajectories found whose actions trim to the same list make criterion 5 fail. */
  lemma SameActionsFail(t: Tree, env: Env, i: nat, j: nat)
    requires 0 <= i < j < |TrajectoriesFound(t, env)|
    requires NonEmptyParts(TrimmedActions(TrajectoriesFound(t, env)[i].steps)) == NonEmptyParts(TrimmedActions(TrajectoriesFound(t, env)[j].steps))
    ensures !Criterion5(t, env).passed
  {
    var ts := TrajectoriesFound(t, env);
    TrajectoryFacts(t, env, ts[i]);
    TrajectoryFacts(t, env, ts[j]);
    HashOfSameActions(env.digest, ts[i].steps, ts[j].steps);
  }

  /** Every trajectory of an annotator scan carries the fingerprint of its own steps. */
  lemma ScannedTrajectory(t: Tree, env: Env, root: string, idxs: seq<nat>, x: Trajectory)
    requires x in Collect(idxs, AnnotatorTrajectories(t, env, root))
    ensures Fingerprinted(env, x)
  {
    CollectMember(idxs, AnnotatorTrajectories(t, env, root), x);
    var k :| 0 <= k < |idxs| && x in AnnotatorTrajectories(t, env, root)(idxs[k]);
  }

  /** Every trajectory found carries the fingerprint of its own non-empty steps. */
  lemma TrajectoryFacts(t: Tree, env: Env, x: Trajectory)
    requires x in TrajectoriesFound(t, env)
    ensures Fingerprinted(env, x)
  {
    if x !in TrajectoryEntry(t, env, SftKey, SftTrajectoryDir) {
      ScannedTrajectory(t, env, AnnotatorRootOf(t), AnnotatorIndices, x);
    }
  }

  /** The trajectory search in one folder. */
  method ReadTrajectory(t: Tree, env: Env, key: string, dir: string) returns (e: seq<Trajectory>)
    ensures e == TrajectoryEntry(t, env, key, dir)
  {
    e := [];
    var trajFile := FindTrajectoryFile(t, dir);
    if trajFile.Some? {
      var steps := StepsOf(env, trajFile);
      var hashVal := Hash(env.digest, steps);
      if hashVal.Some? && hashVal.value != "" {
        e := [Trajectory(key, hashVal.value, trajFile.value, steps)];
      }
    }
  }

  /** The annotator loop of criterion 5. */
  method ScanTrajectories(t: Tree, env: Env, root: string, idxs: seq<nat>) returns (ts: seq<Trajectory>)
    ensures ts == Collect(idxs, AnnotatorTrajectories(t, env, root))
  {
    ts := [];
    for k := 0 to |idxs|
      invariant ts == Collect(idxs[..k], AnnotatorTrajectories(t, env, root))
    {
      CollectSnoc(idxs, k, AnnotatorTrajectories(t, env, root));
      var e: seq<Trajectory> := [];
      var folder := FindAnnotatorFolder(root, idxs[k], HasTrajectoryDir(t));
      if folder.Some? {
        e := ReadTrajectory(t, env, AnnotatorKey(idxs[k]), ChildDir(folder.value, TrajectoryFolder));
      }
      ts := ts + e;
    }
    assert idxs[..|idxs|] == idxs;
  }

  /** One row of the comparison loop: trajectory `i` against every later one. */
  method CompareRow(ts: seq<Trajectory>, i: nat) returns (passed: bool, row: seq<Keyed<real>>)
    requires i < |ts|
    ensures passed <==> RowDistinct(ts, i)
    ensures row == RowPairs(ts, i, |ts|)
  {
    passed := true;
    row := [];
    for j := i + 1 to |ts|
      invariant row == RowPairs(ts, i, j)
      invariant passed <==> forall j' :: i < j' < j ==> !Duplicate(ts[i], ts[j'])
    {
      var similarity: real;
      if ts[i].hash == ts[j].hash {
        passed := false;
        similarity := 1.0;
      } else {
        similarity := Similarity(Actions(ts[i].steps), Actions(ts[j].steps));
        if similarity > DuplicateThreshold {
          passed := false;
        }
      }
      row := row + [Keyed(ts[i].key + PairSeparator + ts[j].key, similarity)];
    }
  }

  /** The hash comparison loop over all pairs `i < j`. */
  method ComparePairs(ts: seq<Trajectory>) returns (passed: bool, sims: seq<Keyed<real>>)
    ensures passed <==> NoDuplicates(ts)
    ensures sims == AllPairs(ts, |ts|)
  {
    passed := true;
    sims := [];
    for i := 0 to |ts|
      invariant sims == AllPairs(ts, i)
      invariant passed <==> NoDuplicatesBefore(ts, i)
    {
      var rowPassed, row := CompareRow(ts, i);
      NoDuplicatesBeforeNext(ts, i);
      passed := passed && rowPassed;
      sims := sims + row;
    }
  }

  method CheckCriterion5(t: Tree, env: Env) returns (r: Criterion5Result)
    ensures r == Criterion5(t, env)
  {
    var sft := ReadTrajectory(t, env, SftKey, SftTrajectoryDir);
    var root := ResolveAnnotatorRoot(t);
    var annotators := ScanTrajectories(t, env, root, AnnotatorIndices);
    var ts := sft + annotators;
    var passed, sims := ComparePairs(ts);
    r := Criterion5Result(passed, ts, sims);
  }
}
