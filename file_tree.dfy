/**
 * The in-memory virtual file tree of the file manager, as values.
 *
 * The browser's tree is a nested JavaScript object: a directory is a plain object whose keys are
 * names, in insertion order, and whose values are either `File` objects or further directories.
 * The model keeps that shape as an ordered list of `(name, node)` entries per directory. Assigning
 * an existing key replaces its value in place, a new key is appended. A `File` object is itself a
 * JavaScript object, so when a later path runs *through* a file, `buildFileTree` hangs the rest of
 * that path on the file as extra properties; `props` holds those. Lookups by path (`current =
 * current[part]`) walk through both kinds of node; the directory queries stop at files.
 */
module FileTree {
  import opened Wrappers
  import opened Text

  /** A browser `File`: its name, its `webkitRelativePath` ("" when absent), size, time stamp and identity. */
  datatype FileRef = FileRef(name: string, relativePath: string, size: nat, lastModified: int, id: nat)

  datatype Node = File(file: FileRef, props: seq<Entry>) | Dir(entries: seq<Entry>)

  datatype Entry = Entry(name: string, node: Node)

  /** The root object `fileTree`. */
  type Tree = seq<Entry>

  /** One file found by a recursive traversal: the File, its key in the tree and the path built for it. */
  datatype Listed = Listed(file: FileRef, key: string, path: string)

  /** The key JavaScript uses for `parts[parts.length - 1]` when `parts` is empty. */
  const UndefinedKey := "undefined"

  function Children(n: Node): seq<Entry> {
    match n
    case File(_, props) => props
    case Dir(entries) => entries
  }

  // ---------------------------------------------------------------------------------------------
  // one directory object: lookup and assignment of a key

  function IndexOfName(es: seq<Entry>, name: string): (r: int)
    ensures -1 <= r < |es|
    ensures r >= 0 ==> es[r].name == name
    ensures forall i :: 0 <= i < |es| && (r == -1 || i < r) ==> es[i].name != name
  {
    if es == [] then -1
    else if es[0].name == name then 0
    else
      var r := IndexOfName(es[1..], name);
      if r == -1 then -1 else r + 1
  }

  /** `current[name]`, or None when the key is absent. */
  function Get(es: seq<Entry>, name: string): Option<Node> {
    var i := IndexOfName(es, name);
    if i < 0 then None else Some(es[i].node)
  }

  /** `current[name] = n`: an existing key keeps its position, a new key goes last. */
  function Put(es: seq<Entry>, name: string, n: Node): (r: seq<Entry>)
    ensures Get(r, name) == Some(n)
    ensures forall m :: m != name ==> Get(r, m) == Get(es, m)
    ensures |r| == if Get(es, name).Some? then |es| else |es| + 1
    ensures forall i :: 0 <= i < |es| ==> r[i].name == es[i].name
  {
    var i := IndexOfName(es, name);
    if i < 0 then
      var r := es + [Entry(name, n)];
      assert forall m :: m != name ==> IndexOfName(r, m) == IndexOfName(es, m) by {
        forall m | m != name ensures IndexOfName(r, m) == IndexOfName(es, m) {
          IndexOfNameAppend(es, Entry(name, n), m);
        }
      }
      IndexOfNameAppendHit(es, name, n);
      r
    else
      var r := es[i := Entry(name, n)];
      assert IndexOfName(r, name) == i by { IndexOfNameUpdate(es, i, n, name); }
      assert forall m :: m != name ==> IndexOfName(r, m) == IndexOfName(es, m) by {
        forall m | m != name ensures IndexOfName(r, m) == IndexOfName(es, m) {
          IndexOfNameUpdate(es, i, n, m);
        }
      }
      r
  }

  lemma {:induction false} IndexOfNameAppend(es: seq<Entry>, e: Entry, m: string)
    requires e.name != m
    ensures IndexOfName(es + [e], m) == IndexOfName(es, m)
    decreases |es|
  {
    if es == [] {
      assert [e][1..] == [];
    } else {
      assert (es + [e])[1..] == es[1..] + [e];
      IndexOfNameAppend(es[1..], e, m);
    }
  }

  lemma {:induction false} IndexOfNameAppendHit(es: seq<Entry>, name: string, n: Node)
    requires IndexOfName(es, name) == -1
    ensures IndexOfName(es + [Entry(name, n)], name) == |es|
    decreases |es|
  {
    if es == [] {
    } else {
      assert (es + [Entry(name, n)])[1..] == es[1..] + [Entry(name, n)];
      IndexOfNameAppendHit(es[1..], name, n);
    }
  }

  lemma {:induction false} IndexOfNameUpdate(es: seq<Entry>, i: nat, n: Node, m: string)
    requires i < |es| && IndexOfName(es, es[i].name) == i
    ensures IndexOfName(es[i := Entry(es[i].name, n)], m) == IndexOfName(es, m)
    decreases |es|
  {
    if i > 0 {
      assert es[i := Entry(es[i].name, n)][1..] == es[1..][i - 1 := Entry(es[i].name, n)];
      IndexOfNameUpdate(es[1..], i - 1, n, m);
    }
  }

  // ---------------------------------------------------------------------------------------------
  // building: root detection, root stripping, insertion

  /** `file.webkitRelativePath || file.name`. */
  function PathOf(f: FileRef): string {
    if f.relativePath != "" then f.relativePath else f.name
  }

  /**
   * `rootFolderName`: the first segment of the first file's relative path, when that file has a
   * relative path of more than one segment; "" otherwise (and for an empty file list).
   */
  function DetectRoot(files: seq<FileRef>): (root: string)
    ensures root != "" <==>
      files != [] && files[0].relativePath != "" && |Segments(PathOf(files[0]))| > 1
    ensures root != "" ==> root == Segments(files[0].relativePath)[0]
  {
    if files == [] then ""
    else
      var parts := Segments(PathOf(files[0]));
      if files[0].relativePath != "" && |parts| > 1 then parts[0] else ""
  }

  /** The root folder name is removed from the front of a path whose first segment equals it. */
  function StripRoot(parts: seq<string>, root: string): (r: seq<string>)
    ensures r == parts || (root != "" && parts != [] && parts[0] == root && r == parts[1..])
    ensures root != "" && parts != [] && parts[0] == root ==> r == parts[1..]
  {
    if root != "" && parts != [] && parts[0] == root then parts[1..] else parts
  }

  /** The keys a file is stored under; a path that strips to nothing is stored under "undefined". */
  function KeyPath(root: string, f: FileRef): (keys: seq<string>)
    ensures keys != []
    ensures forall k :: 0 <= k < |keys| ==> keys[k] != "" && '/' !in keys[k]
  {
    var parts := StripRoot(Segments(PathOf(f)), root);
    if parts == [] then [UndefinedKey] else parts
  }

  /** Storing one file: intermediate directories are created, a path through a file extends that file's properties. */
  function Insert(es: seq<Entry>, keys: seq<string>, f: FileRef): seq<Entry>
    requires keys != []
    decreases |keys|
  {
    if |keys| == 1 then Put(es, keys[0], File(f, []))
    else
      var child :=
        match Get(es, keys[0])
        case None => Dir(Insert([], keys[1..], f))
        case Some(File(g, props)) => File(g, Insert(props, keys[1..], f))
        case Some(Dir(sub)) => Dir(Insert(sub, keys[1..], f));
      Put(es, keys[0], child)
  }

  /** The tree after inserting `files` in order into an empty root, stripping `root`. */
  function Build(files: seq<FileRef>, root: string): Tree {
    BuildBy(files, StoredKeys(root))
  }

  function StoredKeys(root: string): FileRef -> seq<string> {
    f => KeyPath(root, f)
  }

  /** Inserting `files` in order into an empty root, each under the keys `key` gives it. */
  function BuildBy(files: seq<FileRef>, key: FileRef -> seq<string>): Tree
    requires forall f :: key(f) != []
    decreases |files|
  {
    if files == [] then []
    else
      var last := files[|files| - 1];
      Insert(BuildBy(files[..|files| - 1], key), key(last), last)
  }

  /** What `buildFileTree(files)` leaves in `fileTree`. */
  function BuildTree(files: seq<FileRef>): Tree {
    Build(files, DetectRoot(files))
  }

  // ---------------------------------------------------------------------------------------------
  // lookups

  /** Following `current = current[part]` along non-empty `keys`, through files and directories alike. */
  function Lookup(es: seq<Entry>, keys: seq<string>): Option<Node>
    requires keys != []
    decreases |keys|
  {
    match Get(es, keys[0])
    case None => None
    case Some(c) => if |keys| == 1 then Some(c) else Lookup(Children(c), keys[1..])
  }

  function FileOf(n: Option<Node>): Option<FileRef> {
    match n
    case Some(File(f, _)) => Some(f)
    case _ => None
  }

  predicate IsFileAt(es: seq<Entry>, keys: seq<string>)
    requires keys != []
  {
    FileOf(Lookup(es, keys)).Some?
  }

  /** The file named by a sequence of keys; the root itself is not a file. */
  function FileAtKeys(t: Tree, keys: seq<string>): Option<FileRef> {
    if keys == [] then None else FileOf(Lookup(t, keys))
  }

  /** `getFileFromTree(path)`: the File at the path, or None for a missing path or a directory. */
  function GetFileFromTree(t: Tree, path: string): Option<FileRef> {
    FileAtKeys(t, Segments(path))
  }

  /** The navigation loop of the directory queries: every key must name a directory. */
  function DirAt(es: seq<Entry>, keys: seq<string>): Option<seq<Entry>>
    decreases |keys|
  {
    if keys == [] then Some(es)
    else
      match Get(es, keys[0])
      case Some(Dir(sub)) => DirAt(sub, keys[1..])
      case _ => None
  }

  /** `directoryExists(path)`. */
  predicate DirectoryExists(t: Tree, path: string) {
    DirAt(t, Segments(path)).Some?
  }

  // ---------------------------------------------------------------------------------------------
  // recursive traversals

  /** The join used by the traversals: `prefix ? `${prefix}/${name}` : name`. */
  function ChildPath(prefix: string, name: string): string {
    if prefix == "" then name else prefix + "/" + name
  }

  /** Every file below a directory object in `Object.entries` order, depth first; files' properties are not entered. */
  function Listing(es: seq<Entry>, prefix: string): seq<Listed>
  {
    if es == [] then []
    else
      var e := es[0];
      var path := ChildPath(prefix, e.name);
      (match e.node
       case File(f, _) => [Listed(f, e.name, path)]
       case Dir(sub) => Listing(sub, path))
      + Listing(es[1..], prefix)
  }

  function ListedFiles(ls: seq<Listed>): (r: seq<FileRef>)
    ensures |r| == |ls|
    ensures forall i :: 0 <= i < |ls| ==> r[i] == ls[i].file
  {
    if ls == [] then [] else [ls[0].file] + ListedFiles(ls[1..])
  }

  /**
   * A pattern as `new RegExp('^' + pattern.replace(/\*\/g, '.*') + '$')` reads it, for patterns made
   * of literal characters, `.`, `$` and `*`: `.` is any character but a line terminator, `$` is the end
   * of the name, `*` any run of such characters.
   */
  function UnescapedGlob(s: string, p: string): bool
    decreases |s| + |p|
  {
    if p == [] then s == []
    else if p[0] == '*' then
      UnescapedGlob(s, p[1..]) || (s != [] && !IsLineTerminator(s[0]) && UnescapedGlob(s[1..], p))
    else if p[0] == '$' then s == [] && UnescapedGlob(s, p[1..])
    else if p[0] == '.' then s != [] && !IsLineTerminator(s[0]) && UnescapedGlob(s[1..], p[1..])
    else s != [] && s[0] == p[0] && UnescapedGlob(s[1..], p[1..])
  }

  /** The file manager's `matchesPattern(filename, pattern)`. */
  function MatchesPattern(filename: string, pattern: string): (b: bool)
    ensures pattern == filename ==> b
    ensures StartsWith(pattern, "*.") ==> (b <==> filename == pattern || EndsWith(filename, pattern[1..]))
    ensures '*' !in pattern ==> (b <==> filename == pattern)
  {
    if pattern == filename then true
    else if StartsWith(pattern, "*.") then
      assert pattern[0] == "*."[0];
      EndsWith(filename, pattern[1..])
    else if '*' in pattern then UnescapedGlob(filename, pattern)
    else false
  }

  function FilesMatching(ls: seq<Listed>, pattern: string): (r: seq<FileRef>)
    ensures forall f :: f in r <==> exists i :: 0 <= i < |ls| && ls[i].file == f && MatchesPattern(ls[i].key, pattern)
  {
    if ls == [] then []
    else
      var rest := FilesMatching(ls[1..], pattern);
      assert forall i :: 1 <= i < |ls| ==> ls[1..][i - 1] == ls[i];
      (if MatchesPattern(ls[0].key, pattern) then [ls[0].file] else []) + rest
  }

  /** `findFilesInTree(dirPath, pattern)`. */
  function FindFilesInTree(t: Tree, dirPath: string, pattern: string): seq<FileRef> {
    match DirAt(t, Segments(dirPath))
    case None => []
    case Some(d) => FilesMatching(Listing(d, dirPath), pattern)
  }

  predicate HasExtension(key: string, extension: string) {
    EndsWith(Lower(key), Lower(extension))
  }

  function CountWithExtension(ls: seq<Listed>, extension: string): (n: nat)
    ensures n <= |ls|
  {
    if ls == [] then 0
    else (if HasExtension(ls[0].key, extension) then 1 else 0) + CountWithExtension(ls[1..], extension)
  }

  /** `countFilesByExtension(dirPath, extension)`, case-insensitive on both sides. */
  function CountFilesByExtension(t: Tree, dirPath: string, extension: string): nat {
    match DirAt(t, Segments(dirPath))
    case None => 0
    case Some(d) => CountWithExtension(Listing(d, ""), extension)
  }

  /** `getAllFilesInDir(dirPath)`. */
  function AllFilesInDir(t: Tree, dirPath: string): seq<FileRef> {
    match DirAt(t, Segments(dirPath))
    case None => []
    case Some(d) => ListedFiles(Listing(d, ""))
  }

  function DirNames(es: seq<Entry>): seq<string> {
    if es == [] then []
    else (if es[0].node.Dir? then [es[0].name] else []) + DirNames(es[1..])
  }

  /** `getSubdirectories(dirPath)`. */
  function Subdirectories(t: Tree, dirPath: string): seq<string> {
    match DirAt(t, Segments(dirPath))
    case None => []
    case Some(d) => DirNames(d)
  }

  /** `getAllFilesWithPaths()`. */
  function AllFilesWithPaths(t: Tree): seq<Listed> {
    Listing(t, "")
  }
}
