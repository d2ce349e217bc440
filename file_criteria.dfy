/**
 * Criterion 11 of the analyzer: every file of the task folder is either expected where it lies or
 * reported as unrequired, and an unrequired file is classified, in this order, as a system file,
 * a video or any other file.
 */
module UnrequiredFiles {
  import opened Wrappers
  import opened Text
  import opened FileTree
  import opened FileTreeQueries
  import opened FileManager
  import opened Locators
  import opened Folders
  import opened RunCriteria

  const SystemFilePatterns := ["desktop.ini", "Thumbs.db", ".DS_Store", "._*", "~$*", ".git*", ".vscode*", ".idea*"]
  const VideoExtensions := [".mp4", ".avi", ".mov", ".mkv", ".webm", ".flv", ".wmv", ".m4v"]
  const RecordingName := "recording.mp4"
  const NotebookExtension := ".ipynb"
  const RunIdName := "run_id.txt"
  const RuntimeLogName := "runtime.log"
  const ClaudeWord := "claude"
  const RunPrefix := "run_"

  // ---------------------------------------------------------------------------------------------
  // system files

  /**
   * How a system-file pattern containing `*` is read: as the analyzer compiles it into a regular
   * expression without escaping (so `.` is any character and `$` the end of the name), or as a
   * literal name in which only `*` is a wildcard.
   */
  datatype Reading = AsRegex | AsGlob

  /** A name against a pattern whose only wildcard is `*`, any run of characters. */
  function GlobMatch(s: string, p: string): bool
    decreases |s| + |p|
  {
    if p == [] then s == []
    else if p[0] == '*' then GlobMatch(s, p[1..]) || (s != [] && GlobMatch(s[1..], p))
    else s != [] && s[0] == p[0] && GlobMatch(s[1..], p[1..])
  }

  /** The analyzer's `matchesPattern(filename, pattern)`: a pattern without `*` is compared as it is. */
  function PatternMatches(name: string, pattern: string, reading: Reading): bool {
    if '*' in pattern then
      match reading
      case AsRegex => UnescapedGlob(name, pattern)
      case AsGlob => GlobMatch(name, pattern)
    else name == pattern
  }

  /** `isSystemFile(filename)`: some pattern, tried in order, matches. */
  function MatchesAny(name: string, patterns: seq<string>, reading: Reading): (b: bool)
    ensures b <==> exists i :: 0 <= i < |patterns| && PatternMatches(name, patterns[i], reading)
  {
    if patterns == [] then false
    else if PatternMatches(name, patterns[0], reading) then true
    else
      var b := MatchesAny(name, patterns[1..], reading);
      assert forall i :: 1 <= i < |patterns| ==> patterns[1..][i - 1] == patterns[i];
      b
  }

  /** The system-file test as written, with the patterns compiled unescaped. */
  predicate IsSystemFileAsWritten(name: string) {
    MatchesAny(name, SystemFilePatterns, AsRegex)
  }

  /** The system-file test with the patterns read as globs, which the rest of the model uses. */
  predicate IsSystemFile(name: string) {
    MatchesAny(name, SystemFilePatterns, AsGlob)
  }

  /** `*` alone matches every name. */
  lemma {:induction false} GlobStar(s: string)
    ensures GlobMatch(s, "*")
    decreases |s|
  {
    if s != [] {
      GlobStar(s[1..]);
    }
  }

  /** A literal followed by `*` matches exactly the names that start with the literal. */
  lemma {:induction false} GlobPrefix(s: string, lit: string)
    requires '*' !in lit
    ensures GlobMatch(s, lit + "*") <==> StartsWith(s, lit)
    decreases |lit|
  {
    if lit == [] {
      GlobStar(s);
      assert lit + "*" == "*";
    } else {
      assert (lit + "*")[0] == lit[0];
      assert (lit + "*")[1..] == lit[1..] + "*";
      if s != [] {
        GlobPrefix(s[1..], lit[1..]);
        assert StartsWith(s, lit) <==> s[0] == lit[0] && StartsWith(s[1..], lit[1..]) by {
          if |lit| <= |s| {
            assert s[..|lit|] == [s[0]] + s[1..][..|lit| - 1];
            assert lit == [lit[0]] + lit[1..];
          }
        }
      }
    }
  }

  /**
   * Read as globs, the patterns name three files outright and flag every name starting with
   * `._` (resource forks), `~$` (office lock files), `.git`, `.vscode` or `.idea`.
   */
  lemma SystemFileNames(name: string)
    ensures IsSystemFile(name) <==>
      name == "desktop.ini" || name == "Thumbs.db" || name == ".DS_Store"
      || StartsWith(name, "._") || StartsWith(name, "~$") || StartsWith(name, ".git")
      || StartsWith(name, ".vscode") || StartsWith(name, ".idea")
  {
    var P := SystemFilePatterns;
    assert PatternMatches(name, P[0], AsGlob) <==> name == "desktop.ini" by { assert '*' !in P[0]; }
    assert PatternMatches(name, P[1], AsGlob) <==> name == "Thumbs.db" by { assert '*' !in P[1]; }
    assert PatternMatches(name, P[2], AsGlob) <==> name == ".DS_Store" by { assert '*' !in P[2]; }
    assert PatternMatches(name, P[3], AsGlob) <==> StartsWith(name, "._") by {
      assert P[3] == "._" + "*";
      GlobPrefix(name, "._");
    }
    assert PatternMatches(name, P[4], AsGlob) <==> StartsWith(name, "~$") by {
      assert P[4] == "~$" + "*";
      GlobPrefix(name, "~$");
    }
    assert PatternMatches(name, P[5], AsGlob) <==> StartsWith(name, ".git") by {
      assert P[5] == ".git" + "*";
      GlobPrefix(name, ".git");
    }
    assert PatternMatches(name, P[6], AsGlob) <==> StartsWith(name, ".vscode") by {
      assert P[6] == ".vscode" + "*";
      GlobPrefix(name, ".vscode");
    }
    assert PatternMatches(name, P[7], AsGlob) <==> StartsWith(name, ".idea") by {
      assert P[7] == ".idea" + "*";
      GlobPrefix(name, ".idea");
    }
  }

  /** As written, `~$*` matches the single name `~`: `$` ends the name before the wildcard. */
  lemma TildePatternAsWritten(name: string)
    ensures UnescapedGlob(name, "~$*") <==> name == "~"
  {
    assert "~$*"[1..] == "$*";
    assert "$*"[1..] == "*";
    assert "*"[1..] == [];
    if name != [] && name[0] == '~' {
      assert UnescapedGlob(name, "~$*") == UnescapedGlob(name[1..], "$*");
      if name[1..] == [] {
        assert UnescapedGlob([], "*");
        assert name == "~";
      }
    }
  }

  lemma ResourceForkPattern()
    ensures UnescapedGlob("a_b.txt", "._*")
  {
    var s := "a_b.txt";
    assert UnescapedGlob(s[3..], "*") by {
      assert UnescapedGlob([], "*");
      assert UnescapedGlob(s[6..], "*");
      assert UnescapedGlob(s[5..], "*");
      assert UnescapedGlob(s[4..], "*");
    }
    assert UnescapedGlob(s[2..], "*");
    assert UnescapedGlob(s[1..], "_*");
  }

  /** As written, a name whose first character is not a dot can pass for a resource fork. */
  lemma ResourceForkAsWritten()
    ensures IsSystemFileAsWritten("a_b.txt")
    ensures !IsSystemFile("a_b.txt")
  {
    var s := "a_b.txt";
    ResourceForkPattern();
    assert PatternMatches(s, SystemFilePatterns[3], AsRegex);
    SystemFileNames(s);
    assert !StartsWith(s, "._") && !StartsWith(s, "~$") && !StartsWith(s, ".git");
  }

  /** As written, an office lock file is not a system file. */
  lemma LockFileAsWritten()
    ensures !IsSystemFileAsWritten("~$report.docx")
    ensures IsSystemFile("~$report.docx")
  {
    var s := "~$report.docx";
    TildePatternAsWritten(s);
    assert s[0] != '.' && s[0] != 'd' && s[0] != 'T';
    forall i | 0 <= i < |SystemFilePatterns|
      ensures !PatternMatches(s, SystemFilePatterns[i], AsRegex)
    {
      if i == 4 {
      } else {
        assert SystemFilePatterns[i][0] != '~';
      }
    }
    SystemFileNames(s);
    assert s[..2] == "~$";
  }

  // ---------------------------------------------------------------------------------------------
  // video files

  /** `path.split('/').pop()`. */
  function LastSegment(path: string): (r: string)
    ensures '/' !in r
  {
    var parts := Split(path, '/');
    parts[|parts| - 1]
  }

  /** `isVideoFile(path)`: a video extension on the text after the path's last dot, except `recording.mp4`. */
  predicate IsVideoFile(path: string) {
    LastSegment(path) != RecordingName && Lower(FromLastDot(path)) in VideoExtensions
  }

  lemma LastIndexOfConcat(a: string, b: string, c: char)
    requires c in b
    ensures LastIndexOf(a + b, c) == |a| + LastIndexOf(b, c)
  {
    var i := LastIndexOf(b, c);
    assert (a + b)[|a| + i] == c;
    assert forall k :: |a| + i < k < |a + b| ==> (a + b)[k] == b[k - |a|];
  }

  /**
   * For a file placed in a directory, a `recording.mp4` is never a video, and any other name is
   * one exactly when the text from its own last dot, lower-cased, is a listed video extension.
   */
  lemma VideoFileIn(dir: string, name: string)
    requires '/' !in name && '.' in name
    ensures IsVideoFile(dir + "/" + name) <==> name != RecordingName && Lower(FromLastDot(name)) in VideoExtensions
  {
    LastSegmentIn(dir, name);
    FromLastDotConcat(dir + "/", name);
  }

  /** A name ending in `.mkv` written with the Kelvin sign for its `k` is a video: `toLowerCase` maps that sign to `k`. */
  lemma KelvinMkvIsVideo(dir: string, stem: string)
    requires '/' !in stem
    ensures IsVideoFile(dir + "/" + (stem + ".m\U{212A}v"))
  {
    var ext := ".m\U{212A}v";
    var name := stem + ext;
    assert '/' !in name && '.' in name by {
      assert ext == ['.', 'm', '\U{212A}', 'v'];
      assert name[|stem|] == '.';
    }
    assert FromLastDot(name) == ext by {
      assert ext == ['.', 'm', '\U{212A}', 'v'];
      assert LastIndexOf(ext, '.') == 0;
      FromLastDotConcat(stem, ext);
    }
    assert Lower(ext) in VideoExtensions by {
      assert Lower(ext) == ".mkv" == VideoExtensions[3];
    }
    assert name != RecordingName by {
      assert name[|name| - 1] == 'v' != RecordingName[|RecordingName| - 1];
    }
    VideoFileIn(dir, name);
  }

  lemma LastSegmentIn(dir: string, name: string)
    requires '/' !in name
    ensures LastSegment(dir + "/" + name) == name
  {
    assert dir + "/" + name == dir + ['/'] + name;
    SplitConcat(dir, '/', name);
    SplitNoSeparator(name, '/');
  }

  lemma FromLastDotConcat(a: string, b: string)
    requires '.' in b
    ensures FromLastDot(a + b) == FromLastDot(b)
  {
    LastIndexOfConcat(a, b, '.');
    var i := LastIndexOf(b, '.');
    assert (a + b)[|a| + i..] == b[i..];
  }

  // ---------------------------------------------------------------------------------------------
  // expected files

  /** Which of `isExpectedFile`'s location rules applies to a file; the first that applies decides. */
  datatype Location =
    | AtTaskRoot
    | InSftColab | InSftTrajectory | InSftFolder
    | InAnnotatorColab | InAnnotatorTrajectory | InAnnotatorFolder
    | InModelTrajectory | InClaudeTrajectory
    | InModelFolder | InModelRun | InClaudeFolder | InClaudeRun
    | Elsewhere

  /** `/^run_\d+$/i`. */
  predicate IsRunFolderName(name: string) {
    |name| > |RunPrefix| && Lower(name[..|RunPrefix|]) == RunPrefix && AllDigits(name[|RunPrefix|..])
  }

  /** A first segment that names a Claude folder: its lower-cased form contains `claude`. */
  predicate IsClaudeFolder(name: string) {
    Contains(Lower(name), ClaudeWord)
  }

  /** The location rule, in source order, that covers a file with these path segments. */
  function LocationOf(parts: seq<string>, modelName: Option<string>): Location
    requires parts != []
  {
    var n := |parts|;
    if n == 1 then AtTaskRoot
    else if n == 3 && parts[0] == SftFolder && parts[1] == ColabFolder then InSftColab
    else if n == 3 && parts[0] == SftFolder && parts[1] == TrajectoryFolder then InSftTrajectory
    else if n == 2 && parts[0] == SftFolder then InSftFolder
    else if n == 4 && parts[0] in AnnotatorRoots && parts[2] == ColabFolder then InAnnotatorColab
    else if n == 4 && parts[0] in AnnotatorRoots && parts[2] == TrajectoryFolder then InAnnotatorTrajectory
    else if n == 3 && parts[0] in AnnotatorRoots then InAnnotatorFolder
    else if ModelGiven(modelName) && n >= 3 && parts[0] == modelName.value && parts[n - 2] == TrajectoryFolder then
      InModelTrajectory
    else if n >= 3 && IsClaudeFolder(parts[0]) && parts[n - 2] == TrajectoryFolder then InClaudeTrajectory
    else if ModelGiven(modelName) && n == 2 && parts[0] == modelName.value then InModelFolder
    else if ModelGiven(modelName) && n == 3 && parts[0] == modelName.value && IsRunFolderName(parts[1]) then InModelRun
    else if n == 2 && IsClaudeFolder(parts[0]) then InClaudeFolder
    else if n == 3 && IsClaudeFolder(parts[0]) && IsRunFolderName(parts[1]) then InClaudeRun
    else Elsewhere
  }

  /** The lower-cased text from the last dot of a file name, as `isExpectedFile` compares it. */
  function ExtensionOf(filename: string): string {
    Lower(FromLastDot(filename))
  }

  /** What an annotator's `Trajectory and Screenshot` folder may hold. */
  predicate TrajectoryFile(filename: string) {
    filename == TrajectoryName || filename == ShortTrajectoryName || ExtensionOf(filename) == PngExtension
    || ExtensionOf(filename) == XmlExtension || filename == RecordingName
  }

  /** What a run may leave beside its trajectory. */
  predicate RunOutput(filename: string) {
    filename == ResultFileName || filename == RunIdName || filename == RuntimeLogName
  }

  /** The files a location rule accepts. */
  predicate Allowed(loc: Location, filename: string) {
    match loc
    case AtTaskRoot => EndsWith(filename, JsonSuffix)
    case InSftColab => ExtensionOf(filename) == NotebookExtension
    case InSftTrajectory => TrajectoryFile(filename) || filename == ScoreFileName
    case InSftFolder => filename == ScoreFileName
    case InAnnotatorColab => ExtensionOf(filename) == NotebookExtension
    case InAnnotatorTrajectory => TrajectoryFile(filename)
    case InAnnotatorFolder => filename == ScoreFileName
    case InModelTrajectory => TrajectoryFile(filename) || RunOutput(filename)
    case InClaudeTrajectory => TrajectoryFile(filename) || RunOutput(filename)
    case InModelFolder => RunOutput(filename)
    case InModelRun => RunOutput(filename)
    case InClaudeFolder => RunOutput(filename)
    case InClaudeRun => RunOutput(filename)
    case Elsewhere => false
  }

  /** `isExpectedFile` on the non-empty segments of a path; the last segment is the file name. */
  predicate ExpectedAt(parts: seq<string>, modelName: Option<string>) {
    parts != [] && Allowed(LocationOf(parts, modelName), parts[|parts| - 1])
  }

  /** `isExpectedFile(filePath, modelName)`. */
  predicate IsExpectedFile(path: string, modelName: Option<string>) {
    ExpectedAt(Segments(path), modelName)
  }

  /** Every path the tree lists has at least one segment, so `isExpectedFile` always finds a file name. */
  lemma ListedPathsHaveSegments(t: Tree, i: nat)
    requires WellFormed(t) && i < |AllFilesWithPaths(t)|
    ensures Segments(AllFilesWithPaths(t)[i].path) != []
  {
    ListingLeadsToFile(t, "");
    assert ListedBelow(t, "", AllFilesWithPaths(t)[i]);
  }

  /** The folder names the rules compare against are distinct, and none is a `run_<digits>` name. */
  lemma FolderNamesDistinct()
    ensures SftFolder !in AnnotatorRoots
    ensures ColabFolder != TrajectoryFolder
    ensures !IsRunFolderName(ColabFolder) && !IsRunFolderName(TrajectoryFolder)
  {
    assert Lower(ColabFolder[..4])[0] == 'c';
    assert Lower(TrajectoryFolder[..4])[0] == 't';
  }

  /** `claude` holds a `u`, so a Claude folder's name holds one in one case or the other. */
  lemma ClaudeFolderHasU(s: string)
    requires IsClaudeFolder(s)
    ensures 'u' in s || 'U' in s
  {
    var ls := Lower(s);
    var i := IndexOfFrom(ls, ClaudeWord, 0);
    assert ls[i..i + 6][3] == ls[i + 3];
    assert LowerChar(s[i + 3]) == 'u';
    assert s[i + 3] in s;
  }

  /** Neither SFT nor any spelling of the annotator root is taken for a Claude folder. */
  lemma ClaudeFolderNotKnown(folder: string)
    requires IsClaudeFolder(folder)
    ensures folder != SftFolder && folder !in AnnotatorRoots
  {
    ClaudeFolderHasU(folder);
    assert 'u' !in SftFolder && 'U' !in SftFolder;
    assert forall r :: r in AnnotatorRoots ==> 'u' !in r && 'U' !in r;
  }

  /** SFT's files fall under the SFT rules whatever the model name. */
  lemma SftLocations(name: string, modelName: Option<string>)
    ensures LocationOf([SftFolder, ColabFolder, name], modelName) == InSftColab
    ensures LocationOf([SftFolder, TrajectoryFolder, name], modelName) == InSftTrajectory
    ensures LocationOf([SftFolder, name], modelName) == InSftFolder
  {
  }

  /** An annotator's files fall under the annotator rules, under every root spelling. */
  lemma AnnotatorLocations(root: string, annotator: string, name: string, modelName: Option<string>)
    requires root in AnnotatorRoots
    ensures LocationOf([root, annotator, ColabFolder, name], modelName) == InAnnotatorColab
    ensures LocationOf([root, annotator, TrajectoryFolder, name], modelName) == InAnnotatorTrajectory
    ensures LocationOf([root, annotator, name], modelName) == InAnnotatorFolder
  {
    FolderNamesDistinct();
  }

  /** A model folder not named like an annotator root has its runs' files under the model rules. */
  lemma ModelLocations(model: string, run: string, name: string)
    requires model != "" && model !in AnnotatorRoots
    ensures LocationOf([model, run, TrajectoryFolder, name], Some(model)) == InModelTrajectory
    ensures IsRunFolderName(run) ==> LocationOf([model, run, name], Some(model)) == InModelRun
    ensures model != SftFolder ==> LocationOf([model, name], Some(model)) == InModelFolder
  {
    FolderNamesDistinct();
  }

  /** With no model name, a folder whose name contains `claude` falls under the Claude rules. */
  lemma ClaudeLocations(folder: string, run: string, name: string)
    requires IsClaudeFolder(folder)
    ensures LocationOf([folder, run, TrajectoryFolder, name], None) == InClaudeTrajectory
    ensures LocationOf([folder, name], None) == InClaudeFolder
    ensures IsRunFolderName(run) ==> LocationOf([folder, run, name], None) == InClaudeRun
  {
    ClaudeFolderNotKnown(folder);
    FolderNamesDistinct();
  }

  /** Directly in the task folder only JSON files are expected. */
  lemma TaskRootFiles(name: string, modelName: Option<string>)
    ensures ExpectedAt([name], modelName) <==> EndsWith(name, JsonSuffix)
  {
  }

  /** Each Colab folder, SFT's or an annotator's under any root spelling, expects notebooks only. */
  lemma ColabFolders(root: string, annotator: string, name: string, modelName: Option<string>)
    requires root in AnnotatorRoots
    ensures ExpectedAt([SftFolder, ColabFolder, name], modelName) <==> ExtensionOf(name) == NotebookExtension
    ensures ExpectedAt([root, annotator, ColabFolder, name], modelName) <==> ExtensionOf(name) == NotebookExtension
  {
    SftLocations(name, modelName);
    AnnotatorLocations(root, annotator, name, modelName);
  }

  /**
   * The trajectory, its screenshots and the recording are expected in the SFT and annotator
   * trajectory folders and in a run's, provided the model folder is not named like an annotator root;
   * the score file is expected beside SFT's trajectory but not beside an annotator's.
   */
  lemma TrajectoryFilesExpected(root: string, annotator: string, model: string, run: string, name: string)
    requires root in AnnotatorRoots && model !in AnnotatorRoots && model != ""
    ensures ExpectedAt([SftFolder, TrajectoryFolder, name], None) <==> TrajectoryFile(name) || name == ScoreFileName
    ensures ExpectedAt([root, annotator, TrajectoryFolder, name], None) <==> TrajectoryFile(name)
    ensures ExpectedAt([model, run, TrajectoryFolder, name], Some(model)) <==> TrajectoryFile(name) || RunOutput(name)
  {
    SftLocations(name, None);
    AnnotatorLocations(root, annotator, name, None);
    ModelLocations(model, run, name);
  }

  /** Beside a `run_<digits>` folder's trajectory folder, only the run's outputs are expected in it. */
  lemma RunFolderFiles(model: string, run: string, name: string)
    requires model !in AnnotatorRoots && model != "" && IsRunFolderName(run)
    ensures ExpectedAt([model, run, name], Some(model)) <==> RunOutput(name)
  {
    ModelLocations(model, run, name);
  }

  /** With no model name, a Claude folder's run outputs are still expected. */
  lemma ClaudeFallback(folder: string, run: string, name: string)
    requires IsClaudeFolder(folder)
    ensures ExpectedAt([folder, run, TrajectoryFolder, name], None) <==> TrajectoryFile(name) || RunOutput(name)
    ensures ExpectedAt([folder, name], None) <==> RunOutput(name)
    ensures IsRunFolderName(run) ==> (ExpectedAt([folder, run, name], None) <==> RunOutput(name))
  {
    ClaudeLocations(folder, run, name);
  }

  /** Annotator and SFT score files are expected only in the entity's own folder. */
  lemma ScoreFilesExpected(root: string, annotator: string, name: string, modelName: Option<string>)
    requires root in AnnotatorRoots
    ensures ExpectedAt([SftFolder, name], modelName) <==> name == ScoreFileName
    ensures ExpectedAt([root, annotator, name], modelName) <==> name == ScoreFileName
  {
    SftLocations(name, modelName);
    AnnotatorLocations(root, annotator, name, modelName);
  }

  /**
   * The first rule that applies decides even when it rejects the file: with a model folder named
   * `SFT`, a `result.txt` beside it is not expected, although the model-folder rule would accept it.
   */
  lemma FirstRuleDecides()
    ensures !ExpectedAt([SftFolder, ResultFileName], Some(SftFolder))
    ensures Allowed(InModelFolder, ResultFileName)
  {
    SftLocations(ResultFileName, Some(SftFolder));
  }

  // ---------------------------------------------------------------------------------------------
  // the criterion

  datatype FileKind = SystemFile | VideoFile | OtherFile

  /** One entry of `unrequired_files`. */
  datatype Unrequired = Unrequired(path: string, kind: FileKind, reason: string)

  function ReasonOf(kind: FileKind): string {
    match kind
    case SystemFile => "System file"
    case VideoFile => "Video file"
    case OtherFile => "Unexpected file"
  }

  /** The kind of an unexpected file: the system test runs on the file's own name, the video test on its path. */
  function KindOf(l: Listed, reading: Reading): FileKind {
    if MatchesAny(l.file.name, SystemFilePatterns, reading) then SystemFile
    else if IsVideoFile(l.path) then VideoFile
    else OtherFile
  }

  /** The entry a listed file adds to `unrequired_files`: none when it is expected. */
  function UnrequiredEntry(l: Listed, modelName: Option<string>, reading: Reading): seq<Unrequired> {
    if IsExpectedFile(l.path, modelName) then []
    else
      var kind := KindOf(l, reading);
      [Unrequired(l.path, kind, ReasonOf(kind))]
  }

  /** What a loop over `xs` collects when it adds `entry(x)` for each `x` in turn. */
  function Scan<A, T>(xs: seq<A>, entry: A -> seq<T>): seq<T>
    decreases |xs|
  {
    if xs == [] then [] else Scan(xs[..|xs| - 1], entry) + entry(xs[|xs| - 1])
  }

  lemma ScanNext<A, T>(xs: seq<A>, i: nat, entry: A -> seq<T>)
    requires i < |xs|
    ensures Scan(xs[..i + 1], entry) == Scan(xs[..i], entry) + entry(xs[i])
  {
    assert xs[..i + 1][..i] == xs[..i];
  }

  lemma {:induction false} ScanMember<A, T>(xs: seq<A>, entry: A -> seq<T>, y: T)
    ensures y in Scan(xs, entry) <==> exists i :: 0 <= i < |xs| && y in entry(xs[i])
    decreases |xs|
  {
    if xs != [] {
      var init := xs[..|xs| - 1];
      ScanMember(init, entry, y);
      assert forall i :: 0 <= i < |init| ==> init[i] == xs[i];
      if y in entry(xs[|xs| - 1]) {
        assert 0 <= |xs| - 1 < |xs|;
      }
    }
  }

  lemma {:induction false} ScanEmpty<A, T>(xs: seq<A>, entry: A -> seq<T>)
    ensures Scan(xs, entry) == [] <==> forall i :: 0 <= i < |xs| ==> entry(xs[i]) == []
    decreases |xs|
  {
    if xs != [] {
      var init := xs[..|xs| - 1];
      ScanEmpty(init, entry);
      assert forall i :: 0 <= i < |init| ==> init[i] == xs[i];
    }
  }

  function UnrequiredEntries(modelName: Option<string>, reading: Reading): Listed -> seq<Unrequired> {
    (l: Listed) => UnrequiredEntry(l, modelName, reading)
  }

  datatype Criterion11Result = Criterion11Result(passed: bool, unrequiredFiles: seq<Unrequired>)

  function Criterion11With(t: Tree, modelName: Option<string>, reading: Reading): Criterion11Result {
    var us := Scan(AllFilesWithPaths(t), UnrequiredEntries(modelName, reading));
    Criterion11Result(us == [], us)
  }

  /** `checkCriterion11UnrequiredFiles(modelName)` as written. */
  function Criterion11AsWritten(t: Tree, modelName: Option<string>): Criterion11Result {
    Criterion11With(t, modelName, AsRegex)
  }

  /** `checkCriterion11UnrequiredFiles(modelName)` with the system patterns read as globs. */
  function Criterion11(t: Tree, modelName: Option<string>): Criterion11Result {
    Criterion11With(t, modelName, AsGlob)
  }

  /** A file reported with entry `u`: it is not expected, and `u` carries its path and kind. */
  predicate ReportedAs(l: Listed, modelName: Option<string>, reading: Reading, u: Unrequired) {
    !IsExpectedFile(l.path, modelName) && u == Unrequired(l.path, KindOf(l, reading), ReasonOf(KindOf(l, reading)))
  }

  /** A file contributes the entry `u` exactly when it is not expected and `u` carries its path and kind. */
  lemma EntryReported(l: Listed, modelName: Option<string>, reading: Reading, u: Unrequired)
    ensures u in UnrequiredEntry(l, modelName, reading) <==> ReportedAs(l, modelName, reading, u)
  {
  }

  /**
   * The list holds exactly the entries of the files that are not expected, each with the kind the
   * classification gives it, the first test that holds winning.
   */
  lemma UnrequiredListed(ls: seq<Listed>, modelName: Option<string>, reading: Reading, u: Unrequired)
    ensures u in Scan(ls, UnrequiredEntries(modelName, reading)) <==>
      exists i :: 0 <= i < |ls| && ReportedAs(ls[i], modelName, reading, u)
  {
    var entries := UnrequiredEntries(modelName, reading);
    ScanMember(ls, entries, u);
    forall i | 0 <= i < |ls|
      ensures u in entries(ls[i]) <==> ReportedAs(ls[i], modelName, reading, u)
    {
      EntryReported(ls[i], modelName, reading, u);
    }
  }

  /** The criterion passes exactly when every listed file is expected where it lies. */
  lemma Criterion11Pass(t: Tree, modelName: Option<string>)
    ensures Criterion11(t, modelName).passed <==>
      forall i :: 0 <= i < |AllFilesWithPaths(t)| ==> IsExpectedFile(AllFilesWithPaths(t)[i].path, modelName)
  {
    ScanEmpty(AllFilesWithPaths(t), UnrequiredEntries(modelName, AsGlob));
  }

  function PathsOf(us: seq<Unrequired>): (ps: seq<string>)
    ensures |ps| == |us| && forall i :: 0 <= i < |us| ==> ps[i] == us[i].path
  {
    seq(|us|, i requires 0 <= i < |us| => us[i].path)
  }

  lemma {:induction false} ScanSamePaths<A>(xs: seq<A>, e1: A -> seq<Unrequired>, e2: A -> seq<Unrequired>)
    requires forall i :: 0 <= i < |xs| ==> PathsOf(e1(xs[i])) == PathsOf(e2(xs[i]))
    ensures PathsOf(Scan(xs, e1)) == PathsOf(Scan(xs, e2))
    decreases |xs|
  {
    if xs != [] {
      var init := xs[..|xs| - 1];
      assert forall i :: 0 <= i < |init| ==> init[i] == xs[i];
      ScanSamePaths(init, e1, e2);
      var a := Scan(init, e1);
      var b := Scan(init, e2);
      assert PathsOf(a + e1(xs[|xs| - 1])) == PathsOf(a) + PathsOf(e1(xs[|xs| - 1]));
      assert PathsOf(b + e2(xs[|xs| - 1])) == PathsOf(b) + PathsOf(e2(xs[|xs| - 1]));
    }
  }

  /** The verdict and the reported paths do not depend on how the system patterns are read. */
  lemma VerdictIndependentOfReading(t: Tree, modelName: Option<string>)
    ensures Criterion11AsWritten(t, modelName).passed == Criterion11(t, modelName).passed
    ensures PathsOf(Criterion11AsWritten(t, modelName).unrequiredFiles) == PathsOf(Criterion11(t, modelName).unrequiredFiles)
  {
    var ls := AllFilesWithPaths(t);
    var e1 := UnrequiredEntries(modelName, AsRegex);
    var e2 := UnrequiredEntries(modelName, AsGlob);
    forall i | 0 <= i < |ls|
      ensures PathsOf(e1(ls[i])) == PathsOf(e2(ls[i]))
    {
      assert e1(ls[i]) == UnrequiredEntry(ls[i], modelName, AsRegex);
      assert e2(ls[i]) == UnrequiredEntry(ls[i], modelName, AsGlob);
    }
    ScanSamePaths(ls, e1, e2);
    assert |PathsOf(Scan(ls, e1))| == |Scan(ls, e1)|;
    assert |PathsOf(Scan(ls, e2))| == |Scan(ls, e2)|;
  }

  /** One turn of the loop: nothing for an expected file, else the first kind whose test holds. */
  method ClassifyFile(l: Listed, modelName: Option<string>) returns (e: seq<Unrequired>)
    ensures e == UnrequiredEntry(l, modelName, AsGlob)
  {
    if IsExpectedFile(l.path, modelName) {
      return [];
    }
    if IsSystemFile(l.file.name) {
      return [Unrequired(l.path, SystemFile, ReasonOf(SystemFile))];
    }
    if IsVideoFile(l.path) {
      return [Unrequired(l.path, VideoFile, ReasonOf(VideoFile))];
    }
    return [Unrequired(l.path, OtherFile, ReasonOf(OtherFile))];
  }

  /** `checkCriterion11UnrequiredFiles(modelName)`: one pass over all files with their paths. */
  method CheckCriterion11(t: Tree, modelName: Option<string>) returns (r: Criterion11Result)
    ensures r == Criterion11(t, modelName)
  {
    var files := AllFilesWithPaths(t);
    var entries := UnrequiredEntries(modelName, AsGlob);
    var unrequired: seq<Unrequired> := [];
    for i := 0 to |files|
      invariant unrequired == Scan(files[..i], entries)
    {
      var e := ClassifyFile(files[i], modelName);
      ScanNext(files, i, entries);
      unrequired := unrequired + e;
    }
    assert files[..|files|] == files;
    r := Criterion11Result(unrequired == [], unrequired);
  }
}
