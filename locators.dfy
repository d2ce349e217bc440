/**
 * The locators of the utilities module: the task JSON, the model name it names, the trajectory
 * file and the evaluation-score file of a folder, the PNG/XML counts of a folder, and the score
 * a score file holds. Each is a first-hit lookup over the tree queries, with a fixed preference order.
 */
module Locators {
  import opened Wrappers
  import opened Text
  import opened FileTree
  import opened FileTreeQueries
  import opened FileManager
  import opened Inputs

  const JsonPattern := "*.json"
  const JsonSuffix := ".json"
  const SchemaWord := "schema"
  const TrajectoryName := "trajectory.jsonl"
  const ShortTrajectoryName := "traj.jsonl"
  const PngExtension := ".png"
  const XmlExtension := ".xml"

  // ---------------------------------------------------------------------------------------------
  // the task JSON

  datatype TaskRef = TaskRef(file: FileRef, taskId: string)

  predicate IsSchemaFile(f: FileRef) {
    Contains(Lower(f.name), SchemaWord)
  }

  /** `jsonFiles.filter(f => !f.name.toLowerCase().includes('schema'))`. */
  function WithoutSchema(fs: seq<FileRef>): (r: seq<FileRef>)
    ensures forall f :: f in r <==> f in fs && !IsSchemaFile(f)
    ensures r != [] ==> exists i :: 0 <= i < |fs| && fs[i] == r[0] && forall j :: 0 <= j < i ==> IsSchemaFile(fs[j])
  {
    if fs == [] then []
    else
      var rest := WithoutSchema(fs[1..]);
      assert forall i :: 1 <= i < |fs| ==> fs[1..][i - 1] == fs[i];
      (if IsSchemaFile(fs[0]) then [] else [fs[0]]) + rest
  }

  /** Lower-casing leaves a `.json` suffix as it is. */
  lemma LowerKeepsJsonSuffix(name: string)
    requires EndsWith(name, JsonSuffix)
    ensures EndsWith(Lower(name), JsonSuffix)
  {
    var n := |name|;
    var tail := name[n - 5..];
    assert tail == JsonSuffix;
    assert JsonSuffix == ['.', 'j', 's', 'o', 'n'];
    assert name[n - 5] == tail[0] && name[n - 4] == tail[1] && name[n - 3] == tail[2]
      && name[n - 2] == tail[3] && name[n - 1] == tail[4];
    var low := Lower(name);
    assert low[n - 5..] == [low[n - 5], low[n - 4], low[n - 3], low[n - 2], low[n - 1]];
  }

  /** `name.replace(/\.json$/i, '')`. */
  function TaskIdOf(name: string): (id: string)
    ensures EndsWith(name, JsonSuffix) ==> id + JsonSuffix == name
    ensures !EndsWith(Lower(name), JsonSuffix) ==> id == name
  {
    if EndsWith(Lower(name), JsonSuffix) then
      var id := name[..|name| - 5];
      assert id + name[|name| - 5..] == name;
      id
    else
      assert !EndsWith(name, JsonSuffix) by {
        if EndsWith(name, JsonSuffix) {
          LowerKeepsJsonSuffix(name);
        }
      }
      name
  }

  /** `findTaskJSON(rootPath)`: the first `.json` file below the path whose name does not mention a schema. */
  function FindTaskJSON(t: Tree, rootPath: string): (r: Option<TaskRef>)
    ensures var found := FindFilesInTree(t, rootPath, JsonPattern);
      r.None? <==> forall f :: f in found ==> IsSchemaFile(f)
    ensures var found := FindFilesInTree(t, rootPath, JsonPattern);
      r.Some? ==> exists i :: (0 <= i < |found| && found[i] == r.value.file && !IsSchemaFile(found[i])
        && (forall j :: 0 <= j < i ==> IsSchemaFile(found[j])))
    ensures r.Some? ==> r.value.taskId == TaskIdOf(r.value.file.name)
  {
    var filtered := WithoutSchema(FindFilesInTree(t, rootPath, JsonPattern));
    if filtered == [] then None
    else
      assert filtered[0] in filtered;
      Some(TaskRef(filtered[0], TaskIdOf(filtered[0].name)))
  }

  /** `getModelNameFromJSON`'s decision on what `readFileAsJSON` gave: the first key of `model_pass_rate`. */
  function ModelName(data: Option<TaskData>): (r: Option<string>)
    ensures r.Some? <==> data.Some? && data.value.modelPassRateKeys.Some? && data.value.modelPassRateKeys.value != []
    ensures r.Some? ==> r.value == data.value.modelPassRateKeys.value[0]
  {
    match data
    case None => None
    case Some(d) =>
      match d.modelPassRateKeys
      case None => None
      case Some(keys) => if keys == [] then None else Some(keys[0])
  }

  /** `getModelNameFromJSON(jsonFile)`. */
  function ModelNameFromJSON(env: Env, f: FileRef): Option<string> {
    ModelName(ReadJSON(env.text(f), env.parseTask))
  }

  // ---------------------------------------------------------------------------------------------
  // the trajectory and score files of an entity folder

  /** `findTrajectoryFile(dirPath)`: a `trajectory.jsonl` anywhere below, else a `traj.jsonl`. */
  function FindTrajectoryFile(t: Tree, dirPath: string): (r: Option<FileRef>)
    ensures var long, short := FindFilesInTree(t, dirPath, TrajectoryName), FindFilesInTree(t, dirPath, ShortTrajectoryName);
      (r.Some? <==> long != [] || short != [])
      && (long != [] ==> r == Some(long[0]))
      && (long == [] && short != [] ==> r == Some(short[0]))
  {
    var long := FindFilesInTree(t, dirPath, TrajectoryName);
    if long != [] then Some(long[0])
    else
      var short := FindFilesInTree(t, dirPath, ShortTrajectoryName);
      if short != [] then Some(short[0]) else None
  }

  /** `f` is listed below `dirPath` under the entry name `key`. */
  predicate ListedUnder(t: Tree, dirPath: string, f: FileRef, key: string) {
    match DirAt(t, Segments(dirPath))
    case None => false
    case Some(d) =>
      var ls := Listing(d, dirPath);
      exists i :: 0 <= i < |ls| && ls[i].file == f && ls[i].key == key
  }

  /** A search for a literal name finds exactly the files listed under that name. */
  lemma FoundIffListed(t: Tree, dirPath: string, name: string)
    requires '*' !in name
    ensures forall f :: f in FindFilesInTree(t, dirPath, name) <==> ListedUnder(t, dirPath, f, name)
  {
  }

  /**
   * A trajectory file found below a folder is listed there as `trajectory.jsonl` or `traj.jsonl`, and
   * it is a `trajectory.jsonl` whenever there is one.
   */
  lemma TrajectoryFilePreference(t: Tree, dirPath: string)
    ensures var r := FindTrajectoryFile(t, dirPath);
      r.Some? ==> ListedUnder(t, dirPath, r.value, TrajectoryName) || ListedUnder(t, dirPath, r.value, ShortTrajectoryName)
    ensures (exists f :: ListedUnder(t, dirPath, f, TrajectoryName)) ==>
      var r := FindTrajectoryFile(t, dirPath); r.Some? && ListedUnder(t, dirPath, r.value, TrajectoryName)
    ensures (forall f :: !ListedUnder(t, dirPath, f, TrajectoryName) && !ListedUnder(t, dirPath, f, ShortTrajectoryName)) ==>
      FindTrajectoryFile(t, dirPath).None?
  {
    FoundIffListed(t, dirPath, TrajectoryName);
    FoundIffListed(t, dirPath, ShortTrajectoryName);
    var long := FindFilesInTree(t, dirPath, TrajectoryName);
    var short := FindFilesInTree(t, dirPath, ShortTrajectoryName);
    if long != [] {
      assert long[0] in long;
    } else if short != [] {
      assert short[0] in short;
    }
  }

  /** The candidate paths of `findEvaluationScore`, with runs of slashes collapsed. */
  function ScoreCandidates(dirPath: string, taskId: Option<string>): seq<string> {
    [CollapseSlashes(dirPath + "/" + ScoreFileName)]
    + if taskId.Some? && taskId.value != "" then [CollapseSlashes(dirPath + "/" + taskId.value + "/" + ScoreFileName)] else []
  }

  /** The first candidate path that names a file. */
  function FirstFileAt(t: Tree, paths: seq<string>): (r: Option<FileRef>)
    ensures r.Some? ==> exists i :: (0 <= i < |paths| && GetFileFromTree(t, paths[i]) == r
      && forall j :: 0 <= j < i ==> GetFileFromTree(t, paths[j]).None?)
    ensures r.None? ==> forall i :: 0 <= i < |paths| ==> GetFileFromTree(t, paths[i]).None?
  {
    if paths == [] then None
    else if GetFileFromTree(t, paths[0]).Some? then GetFileFromTree(t, paths[0])
    else
      var r := FirstFileAt(t, paths[1..]);
      assert forall i :: 1 <= i < |paths| ==> paths[1..][i - 1] == paths[i];
      r
  }

  /** `findEvaluationScore(dirPath, taskId)`. */
  function FindEvaluationScore(t: Tree, dirPath: string, taskId: Option<string>): Option<FileRef> {
    var direct := FirstFileAt(t, ScoreCandidates(dirPath, taskId));
    if direct.Some? then direct
    else
      var found := FindFilesInTree(t, dirPath, ScoreFileName);
      if found != [] then Some(found[0]) else None
  }

  /** Collapsing slashes in a path does not change what the tree holds there. */
  lemma CollapsedLookup(t: Tree, path: string)
    ensures GetFileFromTree(t, CollapseSlashes(path)) == GetFileFromTree(t, path)
  {
    SegmentsOfCollapsed(path);
  }

  /** The direct candidates are tried in their order: `dirPath/`, then `dirPath/taskId/`. */
  lemma DirectScoreCandidates(t: Tree, dirPath: string, taskId: Option<string>)
    ensures var g1 := GetFileFromTree(t, dirPath + "/" + ScoreFileName);
      FirstFileAt(t, ScoreCandidates(dirPath, taskId)) ==
        if g1.Some? then g1
        else if taskId.Some? && taskId.value != "" then GetFileFromTree(t, dirPath + "/" + taskId.value + "/" + ScoreFileName)
        else None
  {
    var c1 := CollapseSlashes(dirPath + "/" + ScoreFileName);
    CollapsedLookup(t, dirPath + "/" + ScoreFileName);
    if taskId.Some? && taskId.value != "" {
      var c2 := CollapseSlashes(dirPath + "/" + taskId.value + "/" + ScoreFileName);
      CollapsedLookup(t, dirPath + "/" + taskId.value + "/" + ScoreFileName);
      assert ScoreCandidates(dirPath, taskId) == [c1, c2];
      assert [c1, c2][1..] == [c2];
      assert [c2][1..] == [];
    } else {
      assert ScoreCandidates(dirPath, taskId) == [c1];
      assert [c1][1..] == [];
    }
  }

  /**
   * The score file is `dirPath/evaluation_score.txt` if that is a file, else `dirPath/taskId/evaluation_score.txt`
   * for a non-empty task id, else the first `evaluation_score.txt` anywhere below; the slash collapsing
   * changes none of these paths.
   */
  lemma EvaluationScoreOrder(t: Tree, dirPath: string, taskId: Option<string>)
    ensures var g1 := GetFileFromTree(t, dirPath + "/" + ScoreFileName);
      var g2 := if taskId.Some? && taskId.value != "" then GetFileFromTree(t, dirPath + "/" + taskId.value + "/" + ScoreFileName) else None;
      var found := FindFilesInTree(t, dirPath, ScoreFileName);
      FindEvaluationScore(t, dirPath, taskId) ==
        if g1.Some? then g1 else if g2.Some? then g2 else if found != [] then Some(found[0]) else None
  {
    DirectScoreCandidates(t, dirPath, taskId);
  }

  // ---------------------------------------------------------------------------------------------
  // counts and scores

  datatype Counts = Counts(png: nat, xml: nat)

  /** `countPNGXMLFiles(dirPath)`: no file is counted as both, so the two counts never exceed the files below. */
  function CountPNGXMLFiles(t: Tree, dirPath: string): (r: Counts)
    ensures r.png == CountFilesByExtension(t, dirPath, PngExtension)
    ensures r.xml == CountFilesByExtension(t, dirPath, XmlExtension)
    ensures r.png + r.xml <= |AllFilesInDir(t, dirPath)|
  {
    assert Lower(PngExtension) == PngExtension && Lower(XmlExtension) == XmlExtension;
    assert PngExtension[3] != XmlExtension[3];
    ExtensionCountsDisjoint(t, dirPath, PngExtension, XmlExtension);
    Counts(CountFilesByExtension(t, dirPath, PngExtension), CountFilesByExtension(t, dirPath, XmlExtension))
  }

  /** `parseEvaluationScore(scoreText)`: null for an empty text, otherwise `parseFloat` of the trimmed text. */
  function ParseEvaluationScore(env: Env, scoreText: string): (r: Option<Num>)
    ensures r.None? <==> scoreText == ""
    ensures r.Some? ==> r.value == env.parseFloat(Trim(scoreText))
  {
    if scoreText == "" then None else Some(env.parseFloat(Trim(scoreText)))
  }

  /** The score read from a score file, when there is one. */
  function ScoreOf(env: Env, f: Option<FileRef>): (r: Option<Num>)
    ensures f.None? ==> r.None?
  {
    match f
    case None => None
    case Some(g) => ParseEvaluationScore(env, env.text(g))
  }

  /** `score !== null && Math.abs(score - 1.0) < 0.01`; NaN is never close to anything. */
  predicate NearOne(score: Option<Num>) {
    score.Some? && score.value.Real? && -0.01 < score.value.value - 1.0 < 0.01
  }

  /** `score !== null && Math.abs(score) < 0.01`. */
  predicate NearZero(score: Option<Num>) {
    score.Some? && score.value.Real? && -0.01 < score.value.value < 0.01
  }
}
