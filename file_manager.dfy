/**
 * The file manager: the module-level state `fileTree`, `fileCache` and `rootFolderName`, the
 * operations that rebuild and query the tree, and the cached file readers.
 *
 * Reading a file is asynchronous in the browser (a `FileReader`); here the text or data URL the
 * reader would deliver is passed in as `content`, and the resulting value is returned directly.
 */
module FileManager {
  import opened Wrappers
  import opened Text
  import opened FileTree
  import opened FileTreeQueries

  datatype ReadKind = AsText | AsDataUrl

  /** `${kind}:${file.name}:${file.size}:${file.lastModified}`: the cache key of a read. */
  datatype CacheKey = CacheKey(kind: ReadKind, name: string, size: nat, lastModified: int)

  function KeyOf(kind: ReadKind, f: FileRef): CacheKey {
    CacheKey(kind, f.name, f.size, f.lastModified)
  }

  /**
   * One cached read: a non-empty cached value is returned as it is; otherwise the content the
   * reader delivers is stored and returned. Yields the value and the new cache.
   */
  function CachedRead(cache: map<CacheKey, string>, key: CacheKey, content: string): (r: (string, map<CacheKey, string>))
    ensures key in r.1
    ensures r.0 == r.1[key]
    ensures key in cache && cache[key] != "" ==> r == (cache[key], cache)
    ensures !(key in cache && cache[key] != "") ==> r == (content, cache[key := content])
    ensures forall k :: k != key ==> (k in r.1 <==> k in cache) && (k in cache ==> r.1[k] == cache[k])
  {
    if key in cache && cache[key] != "" then (cache[key], cache) else (content, cache[key := content])
  }

  /** The records of a JSON-lines text: each line is trimmed, blank lines are skipped, lines that do not parse are dropped. */
  function Records<J>(lines: seq<string>, parse: string -> Option<J>): (r: seq<J>)
    ensures |r| <= |lines|
  {
    GatherBound(lines, LineParser(parse));
    Gather(lines, LineParser(parse))
  }

  /** What each line contributes, in line order. */
  function Gather<J>(lines: seq<string>, f: string -> seq<J>): seq<J> {
    if lines == [] then [] else f(lines[0]) + Gather(lines[1..], f)
  }

  function LineParser<J>(parse: string -> Option<J>): string -> seq<J> {
    line => LineRecord(line, parse)
  }

  /** The record of one line: the parse of the trimmed line, none for a blank or unparsable line. */
  function LineRecord<J>(line: string, parse: string -> Option<J>): (r: seq<J>)
    ensures |r| <= 1
  {
    var t := Trim(line);
    if t != "" && parse(t).Some? then [parse(t).value] else []
  }

  /** What `readFileAsJSONL` yields for the text of a file: [] for a missing or empty text. */
  function JsonLines<J>(text: Option<string>, parse: string -> Option<J>): seq<J> {
    match text
    case None => []
    case Some(s) => if s == "" then [] else Records(Split(s, '\n'), parse)
  }

  // ---------------------------------------------------------------------------------------------
  // how the traversal functions grow when the loop over a directory's entries takes one more step

  lemma {:induction false} ListingSnoc(es: seq<Entry>, e: Entry, prefix: string)
    ensures Listing(es + [e], prefix) == Listing(es, prefix) + Listing([e], prefix)
    decreases |es|
  {
    if es == [] {
      assert es + [e] == [e];
    } else {
      assert (es + [e])[1..] == es[1..] + [e];
      ListingSnoc(es[1..], e, prefix);
    }
  }

  /** One step of `Lookup`: the first key, then the rest below it. */
  lemma LookupFirst(es: seq<Entry>, keys: seq<string>)
    requires keys != []
    ensures Get(es, keys[0]).None? ==> Lookup(es, keys).None?
    ensures Get(es, keys[0]).Some? && |keys| == 1 ==> Lookup(es, keys) == Get(es, keys[0])
    ensures Get(es, keys[0]).Some? && |keys| > 1 ==> Lookup(es, keys) == Lookup(Children(Get(es, keys[0]).value), keys[1..])
  {
  }

  /** The listing of one entry: the file itself, or everything below the directory. */
  lemma ListingOfEntry(e: Entry, prefix: string)
    ensures e.node.File? ==> Listing([e], prefix) == [Listed(e.node.file, e.name, ChildPath(prefix, e.name))]
    ensures e.node.Dir? ==> Listing([e], prefix) == Listing(e.node.entries, ChildPath(prefix, e.name))
  {
    assert [e][0] == e && [e][1..] == [];
  }

  lemma FilesMatchingOne(l: Listed, pattern: string)
    ensures FilesMatching([l], pattern) == if MatchesPattern(l.key, pattern) then [l.file] else []
  {
    assert [l][0] == l && [l][1..] == [];
  }

  lemma CountOne(l: Listed, extension: string)
    ensures CountWithExtension([l], extension) == if HasExtension(l.key, extension) then 1 else 0
  {
    assert [l][0] == l && [l][1..] == [];
  }

  lemma {:induction false} FilesMatchingConcat(a: seq<Listed>, b: seq<Listed>, pattern: string)
    ensures FilesMatching(a + b, pattern) == FilesMatching(a, pattern) + FilesMatching(b, pattern)
    decreases |a|
  {
    if a == [] {
      assert a + b == b;
    } else {
      assert (a + b)[1..] == a[1..] + b;
      FilesMatchingConcat(a[1..], b, pattern);
    }
  }

  lemma {:induction false} CountConcat(a: seq<Listed>, b: seq<Listed>, extension: string)
    ensures CountWithExtension(a + b, extension) == CountWithExtension(a, extension) + CountWithExtension(b, extension)
    decreases |a|
  {
    if a == [] {
      assert a + b == b;
    } else {
      assert (a + b)[1..] == a[1..] + b;
      CountConcat(a[1..], b, extension);
    }
  }

  lemma {:induction false} DirNamesSnoc(es: seq<Entry>, e: Entry)
    ensures DirNames(es + [e]) == DirNames(es) + DirNames([e])
    decreases |es|
  {
    if es == [] {
      assert es + [e] == [e];
    } else {
      assert (es + [e])[1..] == es[1..] + [e];
      DirNamesSnoc(es[1..], e);
    }
  }

  lemma BuildStep(files: seq<FileRef>, i: nat, root: string)
    requires i < |files|
    ensures Build(files[..i + 1], root) == Insert(Build(files[..i], root), KeyPath(root, files[i]), files[i])
  {
    assert files[..i + 1][..i] == files[..i];
  }

  lemma {:induction false} GatherBound<J>(lines: seq<string>, f: string -> seq<J>)
    requires forall k :: 0 <= k < |lines| ==> |f(lines[k])| <= 1
    ensures |Gather(lines, f)| <= |lines|
    decreases |lines|
  {
    if lines != [] {
      assert forall k :: 0 <= k < |lines[1..]| ==> lines[1..][k] == lines[k + 1];
      GatherBound(lines[1..], f);
    }
  }

  lemma {:induction false} GatherConcat<J>(a: seq<string>, b: seq<string>, f: string -> seq<J>)
    ensures Gather(a + b, f) == Gather(a, f) + Gather(b, f)
    decreases |a|
  {
    if a == [] {
      assert a + b == b;
    } else {
      assert (a + b)[0] == a[0] && (a + b)[1..] == a[1..] + b;
      GatherConcat(a[1..], b, f);
    }
  }

  /** Every gathered item comes from one line. */
  lemma {:induction false} GatherFrom<J>(lines: seq<string>, f: string -> seq<J>, k: nat)
    requires k < |Gather(lines, f)|
    ensures exists i, j :: 0 <= i < |lines| && 0 <= j < |f(lines[i])| && f(lines[i])[j] == Gather(lines, f)[k]
    decreases |lines|
  {
    var head := f(lines[0]);
    if k < |head| {
      assert 0 <= k < |f(lines[0])| && f(lines[0])[k] == Gather(lines, f)[k];
    } else {
      GatherFrom(lines[1..], f, k - |head|);
      var i, j :| 0 <= i < |lines[1..]| && 0 <= j < |f(lines[1..][i])| && f(lines[1..][i])[j] == Gather(lines[1..], f)[k - |head|];
      assert lines[i + 1] == lines[1..][i];
    }
  }

  lemma RecordsConcat<J>(a: seq<string>, b: seq<string>, parse: string -> Option<J>)
    ensures Records(a + b, parse) == Records(a, parse) + Records(b, parse)
  {
    GatherConcat(a, b, LineParser(parse));
  }

  lemma RecordsOfLine<J>(line: string, parse: string -> Option<J>)
    ensures Records([line], parse) == LineRecord(line, parse)
  {
    var f := LineParser(parse);
    assert [line][0] == line && [line][1..] == [];
    assert Gather([line], f) == f(line) + Gather([], f);
    assert f(line) == LineRecord(line, parse);
  }

  lemma LineRecordKept<J>(line: string, parse: string -> Option<J>, r: seq<J>)
    requires r == LineRecord(line, parse) && r != []
    ensures Trim(line) != "" && parse(Trim(line)) == Some(r[0])
  {
  }

  /** A blank line or a line that does not parse costs only itself: the records around it are all kept. */
  lemma LineWithoutRecordSkipped<J>(a: seq<string>, line: string, b: seq<string>, parse: string -> Option<J>)
    requires Trim(line) == "" || parse(Trim(line)).None?
    ensures Records(a + [line] + b, parse) == Records(a, parse) + Records(b, parse)
  {
    RecordsConcat(a + [line], b, parse);
    RecordsConcat(a, [line], parse);
    RecordsOfLine(line, parse);
  }

  /** Every record is what the parser made of one trimmed line. */
  lemma RecordsFromLines<J>(lines: seq<string>, parse: string -> Option<J>, k: nat)
    requires k < |Records(lines, parse)|
    ensures exists i :: 0 <= i < |lines| && Trim(lines[i]) != "" && parse(Trim(lines[i])) == Some(Records(lines, parse)[k])
  {
    var f := LineParser(parse);
    assert Records(lines, parse) == Gather(lines, f);
    GatherFrom(lines, f, k);
    var i, j :| 0 <= i < |lines| && 0 <= j < |f(lines[i])| && f(lines[i])[j] == Gather(lines, f)[k];
    var r := f(lines[i]);
    assert r == LineRecord(lines[i], parse);
    assert j == 0;
    LineRecordKept(lines[i], parse, r);
  }

  // ---------------------------------------------------------------------------------------------
  // the cache key

  const ScoreFileName := "evaluation_score.txt"
  const SftScorePath := "task/SFT/evaluation_score.txt"
  const AnnotatorScorePath := "task/annotator1/evaluation_score.txt"

  /**
   * Two different files whose name, size and time stamp agree share one text-cache entry, so the
   * second read returns the first file's text: here an SFT score "1" and an annotator score "0"
   * written within the same time-stamp tick.
   */
  lemma CollidingReadsAsWritten()
    ensures
      var sft := FileRef(ScoreFileName, SftScorePath, 1, 1700000000000, 1);
      var annotator := FileRef(ScoreFileName, AnnotatorScorePath, 1, 1700000000000, 2);
      var first := CachedRead(map[], KeyOf(AsText, sft), "1");
      var second := CachedRead(first.1, KeyOf(AsText, annotator), "0");
      sft != annotator && first.0 == "1" && second.0 == "1"
  {
  }

  /** A read through a cache keyed by the File object itself. */
  function IdentityRead(cache: map<FileRef, string>, f: FileRef, content: string): (r: (string, map<FileRef, string>))
    ensures f in r.1 && r.0 == r.1[f]
    ensures forall g :: g != f ==> (g in r.1 <==> g in cache) && (g in cache ==> r.1[g] == cache[g])
  {
    if f in cache && cache[f] != "" then (cache[f], cache) else (content, cache[f := content])
  }

  /** The texts returned by reading `fs` in order through the identity cache, each file's reader delivering `text(f)`. */
  function IdentityReads(cache: map<FileRef, string>, fs: seq<FileRef>, text: FileRef -> string): seq<string>
    decreases |fs|
  {
    if fs == [] then []
    else
      var r := IdentityRead(cache, fs[0], text(fs[0]));
      [r.0] + IdentityReads(r.1, fs[1..], text)
  }

  /** Keyed by identity, a cache that starts consistent with the files returns every file's own text, however reads interleave. */
  lemma {:induction false} IdentityReadsFaithful(cache: map<FileRef, string>, fs: seq<FileRef>, text: FileRef -> string)
    requires forall g :: g in cache ==> cache[g] == text(g)
    ensures |IdentityReads(cache, fs, text)| == |fs|
    ensures forall i :: 0 <= i < |fs| ==> IdentityReads(cache, fs, text)[i] == text(fs[i])
    decreases |fs|
  {
    if fs != [] {
      var r := IdentityRead(cache, fs[0], text(fs[0]));
      IdentityReadsFaithful(r.1, fs[1..], text);
    }
  }

  // ---------------------------------------------------------------------------------------------

  class FileManager {
    var fileTree: Tree
    var fileCache: map<CacheKey, string>
    var rootFolderName: string

    constructor ()
      ensures fileTree == [] && fileCache == map[] && rootFolderName == ""
    {
      fileTree := [];
      fileCache := map[];
      rootFolderName := "";
    }

    /** `buildFileTree(files)`: forgets the previous folder and its cache, detects the root and stores every file. */
    method BuildFileTree(files: seq<FileRef>) returns (tree: Tree)
      modifies this
      ensures fileTree == BuildTree(files) && tree == fileTree
      ensures fileCache == map[]
      ensures rootFolderName == DetectRoot(files)
    {
      fileTree := [];
      fileCache := map[];
      rootFolderName := "";
      if |files| == 0 {
        return fileTree;
      }
      var firstFile := files[0];
      var firstParts := Segments(PathOf(firstFile));
      if firstFile.relativePath != "" && |firstParts| > 1 {
        rootFolderName := firstParts[0];
      }
      for i := 0 to |files|
        invariant rootFolderName == DetectRoot(files) && fileCache == map[]
        invariant fileTree == Build(files[..i], rootFolderName)
      {
        var file := files[i];
        var parts := Segments(PathOf(file));
        if rootFolderName != "" && parts != [] && parts[0] == rootFolderName {
          parts := parts[1..];
        }
        if parts == [] {
          parts := [UndefinedKey];
        }
        assert parts == KeyPath(rootFolderName, file);
        BuildStep(files, i, rootFolderName);
        fileTree := Insert(fileTree, parts, file);
      }
      assert files[..|files|] == files;
      return fileTree;
    }

    /** `getFileFromTree(path)`. */
    method GetFileFromTree(path: string) returns (r: Option<FileRef>)
      ensures r == FileTree.GetFileFromTree(fileTree, path)
    {
      var parts := Segments(path);
      var current := Dir(fileTree);
      var i := 0;
      while i < |parts|
        invariant 0 <= i <= |parts|
        invariant i == 0 ==> current == Dir(fileTree)
        invariant 0 < i < |parts| ==> Lookup(fileTree, parts) == Lookup(Children(current), parts[i..])
        invariant 0 < i == |parts| ==> Lookup(fileTree, parts) == Some(current)
      {
        LookupFirst(Children(current), parts[i..]);
        assert parts[i..][0] == parts[i];
        match Get(Children(current), parts[i])
        case None =>
          return None;
        case Some(c) =>
          if i + 1 < |parts| {
            assert parts[i..][1..] == parts[i + 1..];
          }
          current := c;
          i := i + 1;
      }
      r := if current.File? then Some(current.file) else None;
    }

    /** The navigation loop shared by the directory queries: every segment must name a directory. */
    method NavigateToDir(dirPath: string) returns (r: Option<seq<Entry>>)
      ensures r == DirAt(fileTree, Segments(dirPath))
    {
      var parts := Segments(dirPath);
      var current := fileTree;
      for i := 0 to |parts|
        invariant DirAt(fileTree, parts) == DirAt(current, parts[i..])
      {
        assert parts[i..][1..] == parts[i + 1..];
        match Get(current, parts[i])
        case Some(Dir(sub)) =>
          current := sub;
        case _ =>
          return None;
      }
      return Some(current);
    }

    /** `directoryExists(dirPath)`. */
    method DirectoryExists(dirPath: string) returns (b: bool)
      ensures b == FileTree.DirectoryExists(fileTree, dirPath)
    {
      var d := NavigateToDir(dirPath);
      b := d.Some?;
    }

    /** `findFilesInTree(dirPath, pattern)`. */
    method FindFilesInTree(dirPath: string, pattern: string) returns (r: seq<FileRef>)
      ensures r == FileTree.FindFilesInTree(fileTree, dirPath, pattern)
    {
      var d := NavigateToDir(dirPath);
      match d
      case None =>
        r := [];
      case Some(dir) =>
        r := SearchDir(dir, dirPath, pattern);
    }

    /** `countFilesByExtension(dirPath, extension)`. */
    method CountFilesByExtension(dirPath: string, extension: string) returns (count: nat)
      ensures count == FileTree.CountFilesByExtension(fileTree, dirPath, extension)
    {
      var d := NavigateToDir(dirPath);
      match d
      case None =>
        count := 0;
      case Some(dir) =>
        count := CountInDir(dir, extension);
    }

    /** `getAllFilesInDir(dirPath)`. */
    method GetAllFilesInDir(dirPath: string) returns (r: seq<FileRef>)
      ensures r == AllFilesInDir(fileTree, dirPath)
    {
      var d := NavigateToDir(dirPath);
      match d
      case None =>
        r := [];
      case Some(dir) =>
        var listed := TraverseTree(dir, "");
        r := ListedFiles(listed);
    }

    /** `getSubdirectories(dirPath)`. */
    method GetSubdirectories(dirPath: string) returns (dirs: seq<string>)
      ensures dirs == Subdirectories(fileTree, dirPath)
    {
      var d := NavigateToDir(dirPath);
      dirs := [];
      if d.Some? {
        var current := d.value;
        for k := 0 to |current|
          invariant dirs == DirNames(current[..k])
        {
          DirNamesSnoc(current[..k], current[k]);
          assert current[..k + 1] == current[..k] + [current[k]];
          if current[k].node.Dir? {
            dirs := dirs + [current[k].name];
          }
        }
        assert current[..|current|] == current;
      }
    }

    /** `getAllFilesWithPaths()`. */
    method GetAllFilesWithPaths() returns (r: seq<Listed>)
      ensures r == AllFilesWithPaths(fileTree)
    {
      r := TraverseTree(fileTree, "");
    }

    /** `readFileAsText(file)`, given the text the reader delivers for it. */
    method ReadFileAsText(file: Option<FileRef>, content: string) returns (r: Option<string>)
      modifies this
      ensures file.None? ==> r.None? && fileCache == old(fileCache)
      ensures file.Some? ==>
        r.Some? && (r.value, fileCache) == CachedRead(old(fileCache), KeyOf(AsText, file.value), content)
      ensures fileTree == old(fileTree) && rootFolderName == old(rootFolderName)
    {
      if file.None? {
        return None;
      }
      var cacheKey := KeyOf(AsText, file.value);
      if cacheKey in fileCache && fileCache[cacheKey] != "" {
        return Some(fileCache[cacheKey]);
      }
      fileCache := fileCache[cacheKey := content];
      return Some(content);
    }

    /** `readFileAsDataURL(file)`, given the data URL the reader delivers for it. */
    method ReadFileAsDataURL(file: Option<FileRef>, dataUrl: string) returns (r: Option<string>)
      modifies this
      ensures file.None? ==> r.None? && fileCache == old(fileCache)
      ensures file.Some? ==>
        r.Some? && (r.value, fileCache) == CachedRead(old(fileCache), KeyOf(AsDataUrl, file.value), dataUrl)
      ensures fileTree == old(fileTree) && rootFolderName == old(rootFolderName)
    {
      if file.None? {
        return None;
      }
      var cacheKey := KeyOf(AsDataUrl, file.value);
      if cacheKey in fileCache && fileCache[cacheKey] != "" {
        return Some(fileCache[cacheKey]);
      }
      fileCache := fileCache[cacheKey := dataUrl];
      return Some(dataUrl);
    }

    /** `readFileAsJSON(file)`: null for a missing or empty text and for text that does not parse. */
    method ReadFileAsJSON<J>(file: Option<FileRef>, content: string, parse: string -> Option<J>) returns (r: Option<J>)
      modifies this
      ensures file.None? ==> r.None?
      ensures file.Some? ==>
        var text := CachedRead(old(fileCache), KeyOf(AsText, file.value), content).0;
        r == if text == "" then None else parse(text)
      ensures fileTree == old(fileTree) && rootFolderName == old(rootFolderName)
    {
      var text := ReadFileAsText(file, content);
      if text.None? || text.value == "" {
        return None;
      }
      r := parse(text.value);
    }

    /** `readFileAsJSONL(file)`. */
    method ReadFileAsJSONL<J>(file: Option<FileRef>, content: string, parse: string -> Option<J>) returns (results: seq<J>)
      modifies this
      ensures file.None? ==> results == []
      ensures file.Some? ==>
        results == JsonLines(Some(CachedRead(old(fileCache), KeyOf(AsText, file.value), content).0), parse)
      ensures fileTree == old(fileTree) && rootFolderName == old(rootFolderName)
    {
      var text := ReadFileAsText(file, content);
      if text.None? || text.value == "" {
        return [];
      }
      results := ParseLines(Split(text.value, '\n'), parse);
    }

    /** `clearCache()`. */
    method ClearCache()
      modifies this
      ensures fileCache == map[]
      ensures fileTree == old(fileTree) && rootFolderName == old(rootFolderName)
    {
      fileCache := map[];
    }
  }

  // ---------------------------------------------------------------------------------------------
  // the recursive traversals, each a loop over `Object.entries(dir)`

  /** The loop of `readFileAsJSONL` over the lines of the text. */
  method ParseLines<J>(lines: seq<string>, parse: string -> Option<J>) returns (results: seq<J>)
    ensures results == Records(lines, parse)
  {
    results := [];
    for k := 0 to |lines|
      invariant results == Records(lines[..k], parse)
    {
      RecordsConcat(lines[..k], [lines[k]], parse);
      RecordsOfLine(lines[k], parse);
      assert lines[..k + 1] == lines[..k] + [lines[k]];
      var trimmed := Trim(lines[k]);
      if trimmed != "" {
        var parsed := parse(trimmed);
        if parsed.Some? {
          results := results + [parsed.value];
        }
      }
    }
    assert lines[..|lines|] == lines;
  }

  /** `searchDir(dir, prefix)` inside `findFilesInTree`. */
  method SearchDir(dir: seq<Entry>, prefix: string, pattern: string) returns (results: seq<FileRef>)
    ensures results == FilesMatching(Listing(dir, prefix), pattern)
    decreases dir
  {
    results := [];
    for k := 0 to |dir|
      invariant results == FilesMatching(Listing(dir[..k], prefix), pattern)
    {
      var name := dir[k].name;
      ListingSnoc(dir[..k], dir[k], prefix);
      assert dir[..k + 1] == dir[..k] + [dir[k]];
      FilesMatchingConcat(Listing(dir[..k], prefix), Listing([dir[k]], prefix), pattern);
      ListingOfEntry(dir[k], prefix);
      match dir[k].node
      case File(f, _) =>
        FilesMatchingOne(Listed(f, name, ChildPath(prefix, name)), pattern);
        if MatchesPattern(name, pattern) {
          results := results + [f];
        }
      case Dir(sub) =>
        var found := SearchDir(sub, ChildPath(prefix, name), pattern);
        results := results + found;
    }
    assert dir[..|dir|] == dir;
  }

  /** `countInDir(dir)` inside `countFilesByExtension`. */
  method CountInDir(dir: seq<Entry>, extension: string) returns (count: nat)
    ensures count == CountWithExtension(Listing(dir, ""), extension)
    decreases dir
  {
    count := 0;
    for k := 0 to |dir|
      invariant count == CountWithExtension(Listing(dir[..k], ""), extension)
    {
      var name := dir[k].name;
      ListingSnoc(dir[..k], dir[k], "");
      assert dir[..k + 1] == dir[..k] + [dir[k]];
      CountConcat(Listing(dir[..k], ""), Listing([dir[k]], ""), extension);
      ListingOfEntry(dir[k], "");
      match dir[k].node
      case File(f, _) =>
        CountOne(Listed(f, name, ChildPath("", name)), extension);
        if EndsWith(Lower(name), Lower(extension)) {
          count := count + 1;
        }
      case Dir(sub) =>
        var more := CountInDir(sub, extension);
        ListingCountIgnoresPrefix(sub, name, "", extension);
        count := count + more;
    }
    assert dir[..|dir|] == dir;
  }

  lemma ListingCountIgnoresPrefix(es: seq<Entry>, p: string, q: string, extension: string)
    ensures CountWithExtension(Listing(es, p), extension) == CountWithExtension(Listing(es, q), extension)
  {
    ListingIgnoresPrefix(es, p, q);
    CountSameKeys(Listing(es, p), Listing(es, q), extension);
  }

  lemma {:induction false} CountSameKeys(a: seq<Listed>, b: seq<Listed>, extension: string)
    requires |a| == |b| && forall i :: 0 <= i < |a| ==> a[i].key == b[i].key
    ensures CountWithExtension(a, extension) == CountWithExtension(b, extension)
    decreases |a|
  {
    if a != [] {
      CountSameKeys(a[1..], b[1..], extension);
    }
  }

  /** `collectFiles` / `traverseTree`: every file below `dir`, with the path built from `prefix`. */
  method TraverseTree(dir: seq<Entry>, prefix: string) returns (files: seq<Listed>)
    ensures files == Listing(dir, prefix)
    decreases dir
  {
    files := [];
    for k := 0 to |dir|
      invariant files == Listing(dir[..k], prefix)
    {
      var name := dir[k].name;
      var itemPath := ChildPath(prefix, name);
      ListingSnoc(dir[..k], dir[k], prefix);
      assert dir[..k + 1] == dir[..k] + [dir[k]];
      match dir[k].node
      case File(f, _) =>
        files := files + [Listed(f, name, itemPath)];
      case Dir(sub) =>
        var more := TraverseTree(sub, itemPath);
        assert Listing([dir[k]], prefix) == Listing(sub, itemPath) + Listing([], prefix);
        files := files + more;
    }
    assert dir[..|dir|] == dir;
  }
}
