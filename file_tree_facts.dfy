/**
 * What building the file tree guarantees: a file can be found again at its path, the directories
 * on the way to it exist, and nothing except the inserted files appears as a file.
 */
module FileTreeFacts {
  import opened Wrappers
  import opened Text
  import opened FileTree

  // ---------------------------------------------------------------------------------------------
  // one insertion

  lemma PrefixTail(a: seq<string>, b: seq<string>)
    requires a != [] && b != [] && a[0] == b[0]
    ensures a[1..] <= b[1..] ==> a <= b
  {
    if a[1..] <= b[1..] {
      assert a == [a[0]] + a[1..];
      assert b[..|a|] == [b[0]] + b[1..][..|a| - 1];
    }
  }

  /** A file stored at `keys` is found again at `keys`. */
  lemma {:induction false} LookupInsertSame(es: seq<Entry>, keys: seq<string>, f: FileRef)
    requires keys != []
    ensures Lookup(Insert(es, keys, f), keys) == Some(File(f, []))
    decreases |keys|
  {
    if |keys| > 1 {
      var child := match Get(es, keys[0])
        case None => Dir(Insert([], keys[1..], f))
        case Some(File(g, props)) => File(g, Insert(props, keys[1..], f))
        case Some(Dir(sub)) => Dir(Insert(sub, keys[1..], f));
      var rest := match Get(es, keys[0])
        case None => []
        case Some(n) => Children(n);
      assert Children(child) == Insert(rest, keys[1..], f);
      LookupInsertSame(rest, keys[1..], f);
    }
  }

  /** Storing a file at `b` leaves every path `a` that neither contains nor extends `b` as it was. */
  lemma {:induction false} LookupInsertDiverge(es: seq<Entry>, a: seq<string>, b: seq<string>, f: FileRef)
    requires a != [] && b != []
    requires !(a <= b) && !(b <= a)
    ensures Lookup(Insert(es, b, f), a) == Lookup(es, a)
    decreases |b|
  {
    if a[0] != b[0] {
    } else {
      assert |a| > 1 && |b| > 1;
      var rest := match Get(es, b[0])
        case None => []
        case Some(n) => Children(n);
      PrefixTail(a, b);
      PrefixTail(b, a);
      LookupInsertDiverge(rest, a[1..], b[1..], f);
    }
  }

  /** A file at `a` survives a later file stored below it, at an extension `b` of `a`. */
  lemma {:induction false} FileKeptBelow(es: seq<Entry>, a: seq<string>, b: seq<string>, f: FileRef)
    requires a != [] && a < b
    ensures FileOf(Lookup(Insert(es, b, f), a)) == FileOf(Lookup(es, a))
    decreases |a|
  {
    var rest := match Get(es, b[0])
      case None => []
      case Some(n) => Children(n);
    if |a| > 1 {
      assert a[1..] < b[1..];
      FileKeptBelow(rest, a[1..], b[1..], f);
    }
  }

  /** A file stored at a proper prefix `b` of `a` hides whatever was at `a`. */
  lemma {:induction false} AncestorFileHides(es: seq<Entry>, a: seq<string>, b: seq<string>, f: FileRef)
    requires b != [] && b < a
    ensures Lookup(Insert(es, b, f), a) == None
    decreases |b|
  {
    if |b| == 1 {
      assert Get(Insert(es, b, f), a[0]) == Some(File(f, []));
    } else {
      var rest := match Get(es, b[0])
        case None => []
        case Some(n) => Children(n);
      assert b[1..] < a[1..];
      AncestorFileHides(rest, a[1..], b[1..], f);
    }
  }

  /** Storing a file at `b` creates no file anywhere else. */
  lemma NoNewFileElsewhere(es: seq<Entry>, a: seq<string>, b: seq<string>, f: FileRef)
    requires a != [] && b != [] && a != b
    ensures IsFileAt(Insert(es, b, f), a) ==> IsFileAt(es, a)
  {
    if a < b {
      FileKeptBelow(es, a, b, f);
    } else if b < a {
      AncestorFileHides(es, a, b, f);
    } else {
      LookupInsertDiverge(es, a, b, f);
    }
  }

  /** Below a first key that is absent nothing is found; below a directory, the lookup continues inside it. */
  lemma LookupBelowHead(es: seq<Entry>, keys: seq<string>)
    requires |keys| > 1
    ensures Get(es, keys[0]).None? ==> Lookup(es, keys).None?
    ensures Get(es, keys[0]).Some? ==> Lookup(es, keys) == Lookup(Children(Get(es, keys[0]).value), keys[1..])
  {
  }

  /** Storing below a first key that holds no file leaves a directory there holding the rest of the path. */
  lemma InsertBelowHead(es: seq<Entry>, keys: seq<string>, f: FileRef)
    requires |keys| > 1 && (Get(es, keys[0]).None? || Get(es, keys[0]).value.Dir?)
    ensures Get(Insert(es, keys, f), keys[0]) ==
      Some(Dir(Insert(if Get(es, keys[0]).None? then [] else Get(es, keys[0]).value.entries, keys[1..], f)))
  {
  }

  /** Storing a file at `b` makes the first `n` keys of `b` a chain of directories, unless one of them held a file. */
  lemma {:induction false} InsertMakesDirs(es: seq<Entry>, b: seq<string>, f: FileRef, n: nat)
    requires n < |b|
    requires forall m :: 1 <= m <= n ==> !IsFileAt(es, b[..m])
    ensures DirAt(Insert(es, b, f), b[..n]).Some?
    decreases |b|
  {
    if n > 0 {
      assert Lookup(es, b[..1]) == Get(es, b[0]);
      var rest := match Get(es, b[0])
        case None => []
        case Some(c) => Children(c);
      forall m | 1 <= m <= n - 1
        ensures !IsFileAt(rest, b[1..][..m])
      {
        LookupBelowHead(es, b[..m + 1]);
        assert b[..m + 1][1..] == b[1..][..m];
      }
      InsertMakesDirs(rest, b[1..], f, n - 1);
      InsertBelowHead(es, b, f);
      assert b[..n][1..] == b[1..][..n - 1];
    }
  }

  /** A directory at `p` stays a directory when a file is stored at a path `b` that is not a prefix of `p`. */
  lemma {:induction false} DirKept(es: seq<Entry>, p: seq<string>, b: seq<string>, f: FileRef)
    requires b != [] && !(b <= p)
    requires DirAt(es, p).Some?
    ensures DirAt(Insert(es, b, f), p).Some?
    decreases |p|
  {
    if p != [] && b[0] == p[0] {
      assert |b| > 1;
      var sub := Get(es, p[0]).value.entries;
      PrefixTail(b, p);
      DirKept(sub, p[1..], b[1..], f);
    }
  }

  // ---------------------------------------------------------------------------------------------
  // whole builds

  /** After a build, a file appears only at a path some input file was stored under. */
  lemma {:induction false} BuildNoStrayFiles(files: seq<FileRef>, key: FileRef -> seq<string>, q: seq<string>)
    requires forall f :: key(f) != []
    requires q != []
    requires forall j :: 0 <= j < |files| ==> key(files[j]) != q
    ensures !IsFileAt(BuildBy(files, key), q)
    decreases |files|
  {
    if files != [] {
      var init := files[..|files| - 1];
      assert forall j :: 0 <= j < |init| ==> init[j] == files[j];
      BuildNoStrayFiles(init, key, q);
      NoNewFileElsewhere(BuildBy(init, key), q, key(files[|files| - 1]), files[|files| - 1]);
    }
  }

  lemma ShorterPrefix(s: seq<string>, m: nat, n: nat)
    requires m <= n <= |s|
    ensures s[..m] <= s[..n]
  {
    assert s[..n][..m] == s[..m];
  }

  /**
   * The file found at a key path after a build is the last input stored under it, provided no later
   * input was stored at that path or above it.
   */
  lemma {:induction false} BuildLastFileWins(files: seq<FileRef>, key: FileRef -> seq<string>, j: nat)
    requires forall f :: key(f) != []
    requires j < |files|
    requires forall k :: j < k < |files| ==> !(key(files[k]) <= key(files[j]))
    ensures FileOf(Lookup(BuildBy(files, key), key(files[j]))) == Some(files[j])
    decreases |files|
  {
    var n := |files| - 1;
    var init := files[..n];
    var before := BuildBy(init, key);
    if j == n {
      LookupInsertSame(before, key(files[j]), files[j]);
    } else {
      assert init[j] == files[j];
      assert forall k :: j < k < |init| ==> init[k] == files[k];
      BuildLastFileWins(init, key, j);
      if key(files[j]) < key(files[n]) {
        FileKeptBelow(before, key(files[j]), key(files[n]), files[n]);
      } else {
        LookupInsertDiverge(before, key(files[j]), key(files[n]), files[n]);
      }
    }
  }

  /**
   * After a build, the first `n` keys of an input's key path name a directory, provided no input was
   * stored at that directory's path or above it.
   */
  lemma {:induction false} BuildMakesDirs(files: seq<FileRef>, key: FileRef -> seq<string>, i: nat, n: nat)
    requires forall f :: key(f) != []
    requires i < |files| && n < |key(files[i])|
    requires forall j :: 0 <= j < |files| ==> !(key(files[j]) <= key(files[i])[..n])
    ensures DirAt(BuildBy(files, key), key(files[i])[..n]).Some?
    decreases |files|
  {
    var last := |files| - 1;
    var init := files[..last];
    var path := key(files[i]);
    var before := BuildBy(init, key);
    assert forall k :: 0 <= k < |init| ==> init[k] == files[k];
    if i == last {
      forall m | 1 <= m <= n
        ensures !IsFileAt(before, path[..m])
      {
        forall j | 0 <= j < |init|
          ensures key(init[j]) != path[..m]
        {
          ShorterPrefix(path, m, n);
          assert init[j] == files[j];
        }
        BuildNoStrayFiles(init, key, path[..m]);
      }
      InsertMakesDirs(before, path, files[i], n);
    } else {
      BuildMakesDirs(init, key, i, n);
      DirKept(before, path[..n], key(files[last]), files[last]);
    }
  }

  // ---------------------------------------------------------------------------------------------
  // the same facts through the path-string API

  /** The empty path is the root, which always exists as a directory. */
  lemma RootExists(t: Tree)
    ensures DirectoryExists(t, "")
  {
    SegmentsOfEmpty();
  }

  /** `getFileFromTree` returns the last file loaded at a path when no later file sits at or above it. */
  lemma BuildThenGetFile(files: seq<FileRef>, j: nat, path: string)
    requires j < |files|
    requires Segments(path) == KeyPath(DetectRoot(files), files[j])
    requires forall k :: j < k < |files| ==>
      !(KeyPath(DetectRoot(files), files[k]) <= KeyPath(DetectRoot(files), files[j]))
    ensures GetFileFromTree(BuildTree(files), path) == Some(files[j])
  {
    BuildLastFileWins(files, StoredKeys(DetectRoot(files)), j);
  }

  /** `directoryExists` holds for every folder on a loaded file's path when no file was loaded at or above that folder. */
  lemma BuildThenDirectoryExists(files: seq<FileRef>, i: nat, n: nat, path: string)
    requires i < |files| && n < |KeyPath(DetectRoot(files), files[i])|
    requires Segments(path) == KeyPath(DetectRoot(files), files[i])[..n]
    requires forall j :: 0 <= j < |files| ==>
      !(KeyPath(DetectRoot(files), files[j]) <= KeyPath(DetectRoot(files), files[i])[..n])
    ensures DirectoryExists(BuildTree(files), path)
  {
    BuildMakesDirs(files, StoredKeys(DetectRoot(files)), i, n);
  }

  /** `getFileFromTree` is null on a path for which no file was loaded. */
  lemma BuildGetFileMissing(files: seq<FileRef>, path: string)
    requires forall j :: 0 <= j < |files| ==> KeyPath(DetectRoot(files), files[j]) != Segments(path)
    ensures GetFileFromTree(BuildTree(files), path) == None
  {
    if Segments(path) != [] {
      BuildNoStrayFiles(files, StoredKeys(DetectRoot(files)), Segments(path));
    }
  }

  /** Directories are prefix-closed: every folder above an existing folder exists. */
  lemma {:induction false} DirAtPrefix(es: seq<Entry>, p: seq<string>, n: nat)
    requires n <= |p| && DirAt(es, p).Some?
    ensures DirAt(es, p[..n]).Some?
    decreases |p|
  {
    if n > 0 {
      DirAtPrefix(Get(es, p[0]).value.entries, p[1..], n - 1);
      assert p[..n][1..] == p[1..][..n - 1];
    }
  }
}
